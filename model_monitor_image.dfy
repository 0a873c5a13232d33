/**
 * `get_model_monitor_container_uri`: the default image of the model-monitor analyzer in
 * each region. The monitoring-schedule and suggest-baseline custom resources carry
 * identical copies of it.
 */
module ModelMonitorImage {
  import opened Runtime

  /**
   * The region-to-account dictionary literal. It lists `us-east-2` twice; as in a Python
   * dictionary literal, the later entry is the one that stays.
   */
  const RegionAccounts: map<string, string> := map[
    "eu-north-1" := "895015795356",
    "me-south-1" := "607024016150",
    "ap-south-1" := "126357580389",
    "us-east-2" := "680080141114",
    "us-east-2" := "777275614652",
    "eu-west-1" := "468650794304",
    "eu-central-1" := "048819808253",
    "sa-east-1" := "539772159869",
    "ap-east-1" := "001633400207",
    "us-east-1" := "156813124566",
    "ap-northeast-2" := "709848358524",
    "eu-west-2" := "749857270468",
    "ap-northeast-1" := "574779866223",
    "us-west-2" := "159807026194",
    "us-west-1" := "890145073186",
    "ap-southeast-1" := "245545462676",
    "ap-southeast-2" := "563025443158",
    "ca-central-1" := "536280801234"
  ]

  /** The seventeen regions the table knows. */
  const KnownRegions: set<string> := {
    "eu-north-1", "me-south-1", "ap-south-1", "us-east-2", "eu-west-1", "eu-central-1",
    "sa-east-1", "ap-east-1", "us-east-1", "ap-northeast-2", "eu-west-2", "ap-northeast-1",
    "us-west-2", "us-west-1", "ap-southeast-1", "ap-southeast-2", "ca-central-1"
  }

  /** The host suffix and repository of the analyzer image, after the region. */
  const AnalyzerRepository := ".amazonaws.com/sagemaker-model-monitor-analyzer"

  /** `'{0}.dkr.ecr.{1}.amazonaws.com/sagemaker-model-monitor-analyzer'.format(account, region)`. */
  function ImageUri(account: string, region: string): (r: string)
    ensures |r| == |account| + 9 + |region| + |AnalyzerRepository| && account <= r
    ensures r[|account|..|account| + 9] == ".dkr.ecr."
    ensures r[|account| + 9..|account| + 9 + |region|] == region
    ensures r[|account| + 9 + |region|..] == AnalyzerRepository
  {
    account + ".dkr.ecr." + region + AnalyzerRepository
  }

  /**
   * The analyzer image for `region`; a region outside the table raises KeyError. The
   * duplicated `us-east-2` entry resolves to its later account.
   */
  function ContainerUri(region: string): (r: Result<string>)
    ensures r.Ok? <==> region in KnownRegions
    ensures r.Err? ==> r.failure == KeyError(region)
    ensures r.Ok? ==> region in RegionAccounts && r.value == ImageUri(RegionAccounts[region], region)
    ensures region == "us-east-2" ==> r == Ok(ImageUri("777275614652", "us-east-2"))
    ensures region == "eu-west-1" ==> r == Ok(ImageUri("468650794304", "eu-west-1"))
  {
    var account :- Require(RegionAccounts, region);
    Ok(ImageUri(account, region))
  }
}
