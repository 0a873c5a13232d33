/**
 * What the handlers get from Python, botocore and crhelper: exceptions, dictionary
 * lookups, `int()`, the remote clients (reduced to a log of the calls made on them) and
 * the custom-resource helper's `Data` attribute bag.
 */
module Runtime {

  datatype Option<+T> = None | Some(value: T)

  /** botocore's ClientError: `e.response['Error']['Code']` and `['Message']`. */
  datatype ClientError = ClientError(code: string, message: string)

  /** What one remote call gave back: its response, or the ClientError it raised. */
  datatype Reply<+T> = Returned(value: T) | Raised(error: ClientError)

  /** The exceptions a handler can end with. */
  datatype Failure =
    | RemoteError(error: ClientError)    // a ClientError that is re-raised or not caught
    | UnexpectedStatus(message: string)  // `raise Exception('... has unexpected status: ...')`
    | KeyError(key: string)              // `d[key]` on a missing key
    | ValueError(text: string)           // `int(text)` on a string that is not an integer
    | TypeError(message: string)         // a handler called with the wrong number of arguments

  /** A handler's outcome: a value, or the exception it raised. */
  datatype Result<+T> = Ok(value: T) | Err(failure: Failure) {
    predicate IsFailure() { Err? }
    function PropagateFailure<U>(): Result<U> requires Err? { Err(failure) }
    function Extract(): T requires Ok? { value }
  }

  /** A custom resource's `ResourceProperties`, or an environment, as a string dictionary. */
  type Props = map<string, string>

  /** `props[key]`. */
  function Require(props: Props, key: string): (r: Result<string>)
    ensures r.Ok? <==> key in props
    ensures r.Ok? ==> r.value == props[key]
    ensures r.Err? ==> r.failure == KeyError(key)
  {
    if key in props then Ok(props[key]) else Err(KeyError(key))
  }

  /** `props.get(key, default)`: a supplied value wins over the default, even an empty one. */
  function GetOr(props: Props, key: string, default: string): (r: string)
    ensures key in props ==> r == props[key]
    ensures key !in props ==> r == default
  {
    if key in props then props[key] else default
  }

  /**
   * Python truthiness of `props.get(key)`: `None` and the empty string are false, so it is
   * the same as reading the key with an empty default and finding something there.
   */
  predicate Truthy(props: Props, key: string): (b: bool)
    ensures b <==> GetOr(props, key, "") != ""
  {
    key in props && props[key] != ""
  }

  /** The first of `keys` that `env` lacks: the KeyError a run of `env[k]` lookups raises. */
  function FirstMissing(env: Props, keys: seq<string>): (r: Option<string>)
    ensures r.None? <==> forall i | 0 <= i < |keys| :: keys[i] in env
    ensures r.Some? ==> r.value !in env && exists i | 0 <= i < |keys| :: keys[i] == r.value
    ensures forall i | 0 <= i < |keys| && keys[i] !in env && (forall j | 0 <= j < i :: keys[j] in env) ::
              r == Some(keys[i])
  {
    if keys == [] then None
    else if keys[0] !in env then Some(keys[0])
    else
      var rest := FirstMissing(env, keys[1..]);
      if rest.Some? then
        assert forall j | 1 <= j < |keys| :: keys[j] == keys[1..][j - 1];
        rest
      else rest
  }

  // ---------------------------------------------------------------------------------------
  // int()

  predicate IsDigit(c: char) { '0' <= c <= '9' }

  predicate AllDigits(s: string) { forall i | 0 <= i < |s| :: IsDigit(s[i]) }

  /** The strings `int()` accepts here: an optional `+` or `-`, then at least one digit. */
  predicate IntLiteral(s: string) {
    && |s| > 0
    && (IsDigit(s[0]) || ((s[0] == '-' || s[0] == '+') && |s| > 1))
    && forall i | 0 < i < |s| :: IsDigit(s[i])
  }

  /** The value of a string of decimal digits, most significant first. */
  function DigitsValue(s: string): nat
    requires AllDigits(s)
  {
    if s == [] then 0 else DigitsValue(s[..|s| - 1]) * 10 + (s[|s| - 1] - '0') as int
  }

  /**
   * Python's `int(s)` on a string: an optional sign followed by one or more decimal
   * digits, anything else raises ValueError.
   */
  function ParseInt(s: string): (r: Result<int>)
    ensures r.Ok? <==> IntLiteral(s)
    ensures r.Err? ==> r.failure == ValueError(s)
    ensures r.Ok? && s[0] == '-' ==> r.value <= 0
    ensures r.Ok? && s[0] != '-' ==> r.value >= 0
  {
    var signed := |s| > 0 && (s[0] == '-' || s[0] == '+');
    var digits := if signed then s[1..] else s;
    if |digits| > 0 && AllDigits(digits) then
      assert forall i | 0 < i < |s| :: s[i] == (if signed then digits[i - 1] else digits[i]);
      var magnitude: int := DigitsValue(digits);
      Ok(if signed && s[0] == '-' then -magnitude else magnitude)
    else
      Err(ValueError(s))
  }

  /** `int(props.get(key, default))` where the default is already an int. */
  function IntOr(props: Props, key: string, default: int): (r: Result<int>)
    ensures key !in props ==> r == Ok(default)
    ensures key in props ==> r == ParseInt(props[key])
  {
    if key in props then ParseInt(props[key]) else Ok(default)
  }

  /** The decimal spelling `str(n)` of an integer: the reference the parser is checked against. */
  function DecimalString(n: int): string {
    if n < 0 then "-" + Digits(-n) else Digits(n)
  }

  function Digits(n: nat): string {
    if n < 10 then [('0' as int + n) as char] else Digits(n / 10) + [('0' as int + n % 10) as char]
  }

  lemma {:induction false} DigitsValueOfDigits(n: nat)
    ensures |Digits(n)| > 0 && AllDigits(Digits(n)) && DigitsValue(Digits(n)) == n
  {
    var d := Digits(n);
    if n >= 10 {
      DigitsValueOfDigits(n / 10);
      assert d[..|d| - 1] == Digits(n / 10);
    }
  }

  /** `int(str(n)) == n`: every integer written in decimal is read back as itself. */
  lemma {:induction false} ParseDecimalString(n: int)
    ensures ParseInt(DecimalString(n)) == Ok(n)
  {
    if n < 0 {
      DigitsValueOfDigits(-n);
      ParseSigned('-', Digits(-n));
    } else {
      DigitsValueOfDigits(n);
      ParseDigits(Digits(n));
    }
  }

  /** A leading zero adds nothing to the value of a digit string. */
  lemma {:induction false} LeadingZeroDigitsValue(d: string)
    requires AllDigits(d)
    ensures AllDigits("0" + d) && DigitsValue("0" + d) == DigitsValue(d)
  {
    var z := "0" + d;
    assert forall i | 0 <= i < |z| :: IsDigit(z[i]);
    if d != [] {
      assert z[..|z| - 1] == "0" + d[..|d| - 1];
      LeadingZeroDigitsValue(d[..|d| - 1]);
    }
  }

  /**
   * `int()` reads the same number through the spellings `str()` does not produce: a leading
   * `+`, and leading zeros.
   */
  lemma NonCanonicalSpellings(d: string)
    requires |d| > 0 && AllDigits(d)
    ensures ParseInt("+" + d) == ParseInt(d) == Ok(DigitsValue(d))
    ensures ParseInt("0" + d) == ParseInt(d)
  {
    ParseDigits(d);
    ParseSigned('+', d);
    LeadingZeroDigitsValue(d);
    ParseSameValue("0" + d, d);
  }

  /** A `-` negates the value of the digits after it, leading zeros included. */
  lemma NegativeSpellings(d: string)
    requires |d| > 0 && AllDigits(d)
    ensures ParseInt("-" + d) == Ok(-(DigitsValue(d) as int))
    ensures ParseInt("-" + ("0" + d)) == ParseInt("-" + d)
  {
    ParseSigned('-', d);
    LeadingZeroDigitsValue(d);
    ParseSameValue("0" + d, d);
  }

  /** What `int()` makes of a digit string. */
  lemma ParseDigits(d: string)
    requires |d| > 0 && AllDigits(d)
    ensures ParseInt(d) == Ok(DigitsValue(d))
  {
  }

  /** What `int()` makes of a digit string with a sign in front. */
  lemma ParseSigned(sign: char, d: string)
    requires sign == '+' || sign == '-'
    requires |d| > 0 && AllDigits(d)
    ensures ParseInt([sign] + d) == Ok(if sign == '-' then -(DigitsValue(d) as int) else DigitsValue(d))
  {
    var s := [sign] + d;
    assert s[0] == sign && s[1..] == d;
    ParseSignedString(s);
  }

  lemma ParseSignedString(s: string)
    requires |s| > 1 && (s[0] == '+' || s[0] == '-') && AllDigits(s[1..])
    ensures ParseInt(s) == Ok(if s[0] == '-' then -(DigitsValue(s[1..]) as int) else DigitsValue(s[1..]))
  {
  }

  /** Digit strings of equal value parse alike, with or without a `-` in front. */
  lemma ParseSameValue(d: string, e: string)
    requires |d| > 0 && AllDigits(d) && |e| > 0 && AllDigits(e)
    requires DigitsValue(d) == DigitsValue(e)
    ensures ParseInt(d) == ParseInt(e)
    ensures ParseInt("-" + d) == ParseInt("-" + e)
  {
    ParseDigits(d);
    ParseDigits(e);
    ParseSigned('-', d);
    ParseSigned('-', e);
  }

  // ---------------------------------------------------------------------------------------
  // Delete that tolerates an absent resource

  /**
   * The except clause of every delete in the custom resources: a ClientError whose code is
   * `ResourceNotFound` means there is nothing to delete; any other ClientError is re-raised.
   */
  function SwallowNotFound(deleted: Reply<()>): (r: Result<()>)
    ensures r.Ok? <==> deleted.Returned? || deleted.error.code == "ResourceNotFound"
    ensures r.Err? ==> r.failure == RemoteError(deleted.error)
  {
    match deleted
    case Returned(_) => Ok(())
    case Raised(e) => if e.code == "ResourceNotFound" then Ok(()) else Err(RemoteError(e))
  }

  // ---------------------------------------------------------------------------------------
  // Poll-until-terminal

  /**
   * The three-way decision of every `is_*_ready` function: the `ready` status answers true,
   * the `pending` status answers false (poll again), every other status raises an exception
   * naming the resource and the status.
   */
  function Readiness(kind: string, name: string, status: string, ready: string, pending: string)
    : (r: Result<bool>)
    requires ready != pending
    ensures r == Ok(true) <==> status == ready
    ensures r == Ok(false) <==> status == pending
    ensures r.Err? <==> status != ready && status != pending
    ensures r.Err? ==> r.failure == UnexpectedStatus(UnexpectedStatusMessage(kind, name, status))
  {
    if status == ready then Ok(true)
    else if status == pending then Ok(false)
    else Err(UnexpectedStatus(UnexpectedStatusMessage(kind, name, status)))
  }

  /** `'{kind} ({name}) has unexpected status: {status}'`. */
  function UnexpectedStatusMessage(kind: string, name: string, status: string): string {
    kind + " (" + name + ") has unexpected status: " + status
  }

  // ---------------------------------------------------------------------------------------
  // Remote clients and crhelper

  /**
   * A boto3 client. The service's answers are not simulated: each operation takes the reply
   * the service gives (a scripted response) and records the call in a ghost log.
   */
  class Client<C> {
    ghost var log: seq<C>

    constructor ()
      ensures log == []
    {
      log := [];
    }

    /** Makes `call`, whose reply from the service is `scripted`. */
    method Send<A>(call: C, scripted: Reply<A>) returns (r: Reply<A>)
      modifies this
      ensures log == old(log) + [call]
      ensures r == scripted
    {
      log := log + [call];
      r := scripted;
    }
  }

  /** crhelper's `CfnResource`: the region it runs in and the `Data` attributes it reports. */
  class CfnHelper {
    const region: string
    var data: map<string, string>

    constructor (region: string)
      ensures this.region == region && data == map[]
    {
      this.region := region;
      data := map[];
    }
  }
}
