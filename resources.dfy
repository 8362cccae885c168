/** The resource kinds, the report row shared by all detectors, and the descriptors
    that the cloud inventory calls return (only the fields the detectors read). */
module Resources {
  import opened Wrappers

  /** One tag per detector, in no particular order (the scan order is `Handler.Registry`). */
  datatype ResourceKind =
    | Ec2Instance | EbsVolume | ElasticIp | LoadBalancer | RdsInstance
    | S3Bucket | DynamoDbTable | CloudFrontDistribution | LambdaFunction

  /** The first column of a report row. */
  function TypeLabel(k: ResourceKind): string
  {
    match k
    case Ec2Instance => "EC2 Instance"
    case EbsVolume => "EBS Volume"
    case ElasticIp => "Elastic IP"
    case LoadBalancer => "Load Balancer"
    case RdsInstance => "RDS Instance"
    case S3Bucket => "S3 Bucket"
    case DynamoDbTable => "DynamoDB Table"
    case CloudFrontDistribution => "CloudFront Distribution"
    case LambdaFunction => "Lambda Function"
  }

  /** The fourth column: a whole-day count (an int in the source) or the string "-". */
  datatype Metric = Days(days: int) | NoMetric

  /** A report row `[type, id, location, metric]`. The location is None where the
      source puts Python's None there (an S3 bucket whose LocationConstraint is null). */
  datatype Row = Row(kind: ResourceKind, id: string, location: Option<string>, metric: Metric)

  const SecondsPerDay: int := 86400

  /** `(now - since).days` for two instants in whole seconds: the floor of the elapsed
      time in days, so it is negative when `since` lies in the future. */
  function WholeDays(since: int, now: int): (d: int)
    ensures d * SecondsPerDay <= now - since < (d + 1) * SecondsPerDay
  {
    (now - since) / SecondsPerDay
  }

  // ---------------------------------------------------------------------------
  // Descriptors (the parts of each inventory response that the detectors read)
  // ---------------------------------------------------------------------------

  /** An element of `Reservations[].Instances[]` (already filtered to stopped instances). */
  datatype Instance = Instance(instanceId: string, availabilityZone: string, launchTime: int)

  datatype Reservation = Reservation(instances: seq<Instance>)

  /** An element of `Volumes[]` (already filtered to status "available"). */
  datatype Volume = Volume(volumeId: string, availabilityZone: string, createTime: int)

  /** An element of `Addresses[]`; `instanceId` is None when the key is absent. */
  datatype Address = Address(publicIp: string, networkBorderGroup: string, instanceId: Option<string>)

  /** An element of `LoadBalancers[]`: its name, the `ZoneName`s of its
      `AvailabilityZones` in order, and `State.Code`. */
  datatype LoadBalancerDescription =
    LoadBalancerDescription(loadBalancerName: string, zoneNames: seq<string>, stateCode: string)

  /** An element of `DBInstances[]`. */
  datatype DbInstance = DbInstance(dbInstanceIdentifier: string, availabilityZone: string, dbInstanceStatus: string)

  /** The outcome of `get_bucket_location`: its `LocationConstraint` (null for the
      default region), or the call raised. */
  datatype LocationLookup = Located(constraint: Option<string>) | LookupRaised

  /** The outcome of the single-object `list_objects_v2` probe. */
  datatype ObjectProbe = Probed(hasContents: bool) | ProbeRaised

  /** An element of `Buckets[]` together with the outcomes of the two per-bucket calls. */
  datatype Bucket = Bucket(name: string, location: LocationLookup, firstObject: ObjectProbe)

  /** An element of `DistributionList.Items[]`. */
  datatype Distribution = Distribution(id: string, enabled: bool)

  /** `DistributionList`, whose `Items` key may be absent. */
  datatype DistributionList = DistributionList(items: Option<seq<Distribution>>)

  /** The `list_distributions` response, whose `DistributionList` key may be absent. */
  datatype DistributionsResponse = DistributionsResponse(distributionList: Option<DistributionList>)

  /** An element of `Functions[]`. */
  datatype FunctionConfiguration = FunctionConfiguration(functionName: string)
}
