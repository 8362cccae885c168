/** `lambda_handler`: run the nine detectors in a fixed order, merge their rows,
    upload the CSV report and publish the alert. Inventory calls, the upload and the
    publish are values here: the handler receives each call's outcome and returns the
    requests it would send. */
module Handler {
  import opened Wrappers
  import opened Lists
  import opened Resources
  import opened Detectors
  import opened Report
  import opened Decimal

  /** The outcome of one inventory call: its response, or the exception it raised. */
  datatype Listing<+T> = Responded(response: T) | CallRaised

  /** The outcome of every inventory call the detectors make (boto3's `describe_*` and
      `list_*`); the per-bucket calls are inside each `Bucket`. */
  datatype Inventory = Inventory(
    reservations: Listing<seq<Reservation>>,
    volumes: Listing<seq<Volume>>,
    addresses: Listing<seq<Address>>,
    loadBalancers: Listing<seq<LoadBalancerDescription>>,
    dbInstances: Listing<seq<DbInstance>>,
    buckets: Listing<seq<Bucket>>,
    tableNames: Listing<seq<string>>,
    distributions: Listing<DistributionsResponse>,
    functions: Listing<seq<FunctionConfiguration>>)

  /** The settings read from the environment at start-up. */
  datatype Config = Config(ec2UnusedDays: int, ebsUnusedDays: int, s3BucketName: Option<string>, snsTopicArn: Option<string>)

  /** An exception that escapes `lambda_handler`, tagged with the detector it came from. */
  datatype HandlerError = Raised(kind: ResourceKind)

  /** A completed invocation: the merged findings, the upload and the publish it issued,
      and the returned status. */
  datatype Invocation =
    Invocation(findings: seq<Row>, put: Option<PutObject>, publication: Option<Publication>, statusCode: int, body: string)

  /** `json.dumps("Execution Completed")`. */
  const StatusBody: string := "\"Execution Completed\""

  /** The order in which `lambda_handler` calls the detectors and extends the report. */
  const Registry: seq<ResourceKind> :=
    [Ec2Instance, EbsVolume, ElasticIp, LoadBalancer, RdsInstance, S3Bucket, DynamoDbTable, CloudFrontDistribution, LambdaFunction]

  /** What one detector returns on `inv`, or None when its call raises. */
  function Detect(k: ResourceKind, inv: Inventory, now: int, cfg: Config): Option<seq<Row>>
  {
    match k
    case Ec2Instance =>
      if inv.reservations.CallRaised? then None
      else Some(Ec2Findings(Flatten(inv.reservations.response), now, cfg.ec2UnusedDays))
    case EbsVolume =>
      if inv.volumes.CallRaised? then None else Some(EbsFindings(inv.volumes.response, now, cfg.ebsUnusedDays))
    case ElasticIp =>
      if inv.addresses.CallRaised? then None else Some(GetUnusedElasticIps(inv.addresses.response))
    case LoadBalancer =>
      if inv.loadBalancers.CallRaised? then None else LoadBalancerFindings(inv.loadBalancers.response)
    case RdsInstance =>
      if inv.dbInstances.CallRaised? then None else Some(GetUnusedRdsInstances(inv.dbInstances.response))
    case S3Bucket =>
      if inv.buckets.CallRaised? then None else S3Findings(inv.buckets.response)
    case DynamoDbTable =>
      if inv.tableNames.CallRaised? then None else Some(GetUnusedDynamoDbTables(inv.tableNames.response))
    case CloudFrontDistribution =>
      if inv.distributions.CallRaised? then None
      else Some(GetUnusedCloudFrontDistributions(inv.distributions.response))
    case LambdaFunction =>
      if inv.functions.CallRaised? then None else Some(GetUnusedLambdaFunctions(inv.functions.response))
  }

  /** The detectors as one function from kind to output, for `ScanWith`. */
  function Detector(inv: Inventory, now: int, cfg: Config): ResourceKind -> Option<seq<Row>>
  {
    k => Detect(k, inv, now, cfg)
  }

  /** Run the detectors `kinds` in order, extending the report with each one's rows;
      the first detector that raises ends the run. */
  function ScanWith(kinds: seq<ResourceKind>, detect: ResourceKind -> Option<seq<Row>>): (r: Result<seq<Row>, HandlerError>)
    ensures r.Failure? ==> r.error.kind in kinds && detect(r.error.kind).None?
  {
    if kinds == [] then Success([])
    else
      match detect(kinds[0])
      case None => Failure(Raised(kinds[0]))
      case Some(rows) => Prepend(rows, ScanWith(kinds[1..], detect))
  }

  /** `rows` followed by the rows of a scan that succeeded; a failure stays a failure. */
  function Prepend(rows: seq<Row>, r: Result<seq<Row>, HandlerError>): Result<seq<Row>, HandlerError>
  {
    match r
    case Failure(e) => Failure(e)
    case Success(rest) => Success(rows + rest)
  }

  /** `report_data` after the nine `extend` calls, or the exception that escaped. */
  function Scan(inv: Inventory, now: int, cfg: Config): (r: Result<seq<Row>, HandlerError>)
    ensures r.Failure? ==> Detect(r.error.kind, inv, now, cfg).None?
  {
    ScanWith(Registry, Detector(inv, now, cfg))
  }

  /** The rest of the handler once `report_data` is complete. */
  function Deliver(findings: seq<Row>, cfg: Config, today: string): (v: Invocation)
    ensures v.findings == findings && v.statusCode == 200 && v.body == StatusBody
    ensures v.put.Some? <==> Truthy(cfg.s3BucketName) && findings != []
    ensures v.put.Some? ==> v.put.value.key == ReportKey(today) && v.put.value.body == ReportTable(findings)
    ensures v.publication.Some? <==> Truthy(cfg.snsTopicArn)
    ensures v.publication.Some? ==> (v.publication.value.subject == AlertSubject
      && v.publication.value.message.total == |findings|
      && (v.publication.value.message.summary == NoUnusedSentinel <==> findings == [])
      && (v.publication.value.message.storageLine == NoReportLine <==> v.put.None?))
  {
    var put := SaveReportToS3(findings, cfg.s3BucketName, today);
    var alert := ComposeAlert(findings, ReportPath(put));
    Invocation(findings, put, SendAlert(cfg.snsTopicArn, AlertSubject, alert), 200, StatusBody)
  }

  /** The whole invocation: the scan, then the upload and the alert. */
  function Handle(inv: Inventory, now: int, cfg: Config, today: string): (r: Result<Invocation, HandlerError>)
    ensures r.Failure? ==> Detect(r.error.kind, inv, now, cfg).None?
    ensures r.Success? ==> (r.value.statusCode == 200
      && (r.value.put.Some? <==> Truthy(cfg.s3BucketName) && r.value.findings != [])
      && (r.value.publication.Some? <==> Truthy(cfg.snsTopicArn)))
  {
    match Scan(inv, now, cfg)
    case Failure(e) => Failure(e)
    case Success(findings) => Success(Deliver(findings, cfg, today))
  }

  /** Call the detector for `k`: `get_unused_*`, or the exception its inventory call raises. */
  method RunDetector(k: ResourceKind, inv: Inventory, now: int, cfg: Config) returns (rows: Option<seq<Row>>)
    ensures rows == Detect(k, inv, now, cfg)
  {
    match k
    case Ec2Instance =>
      if inv.reservations.CallRaised? { return None; }
      var found := GetUnusedEc2Instances(inv.reservations.response, now, cfg.ec2UnusedDays);
      rows := Some(found);
    case EbsVolume =>
      if inv.volumes.CallRaised? { return None; }
      var found := GetUnusedEbsVolumes(inv.volumes.response, now, cfg.ebsUnusedDays);
      rows := Some(found);
    case ElasticIp =>
      if inv.addresses.CallRaised? { return None; }
      rows := Some(GetUnusedElasticIps(inv.addresses.response));
    case LoadBalancer =>
      if inv.loadBalancers.CallRaised? { return None; }
      rows := GetUnusedLoadBalancers(inv.loadBalancers.response);
    case RdsInstance =>
      if inv.dbInstances.CallRaised? { return None; }
      rows := Some(GetUnusedRdsInstances(inv.dbInstances.response));
    case S3Bucket =>
      if inv.buckets.CallRaised? { return None; }
      rows := GetUnusedS3Buckets(inv.buckets.response);
    case DynamoDbTable =>
      if inv.tableNames.CallRaised? { return None; }
      rows := Some(GetUnusedDynamoDbTables(inv.tableNames.response));
    case CloudFrontDistribution =>
      if inv.distributions.CallRaised? { return None; }
      rows := Some(GetUnusedCloudFrontDistributions(inv.distributions.response));
    case LambdaFunction =>
      if inv.functions.CallRaised? { return None; }
      rows := Some(GetUnusedLambdaFunctions(inv.functions.response));
  }

  /** The nine `extend` calls of `lambda_handler`, in order; an exception ends the run. */
  method CollectFindings(inv: Inventory, now: int, cfg: Config) returns (result: Result<seq<Row>, HandlerError>)
    ensures result == Scan(inv, now, cfg)
  {
    var reportData: seq<Row> := [];
    ghost var answered: nat := 0;
    assert Collected(inv, now, cfg, answered) == Some(reportData);
    var r0 := RunDetector(Ec2Instance, inv, now, cfg);
    if r0.None? {
      ScanStopsAt(inv, now, cfg, answered);
      return Failure(Raised(Ec2Instance));
    }
    CollectedNext(inv, now, cfg, answered, reportData);
    reportData := reportData + r0.value;
    answered := answered + 1;
    var r1 := RunDetector(EbsVolume, inv, now, cfg);
    if r1.None? {
      ScanStopsAt(inv, now, cfg, answered);
      return Failure(Raised(EbsVolume));
    }
    CollectedNext(inv, now, cfg, answered, reportData);
    reportData := reportData + r1.value;
    answered := answered + 1;
    var r2 := RunDetector(ElasticIp, inv, now, cfg);
    if r2.None? {
      ScanStopsAt(inv, now, cfg, answered);
      return Failure(Raised(ElasticIp));
    }
    CollectedNext(inv, now, cfg, answered, reportData);
    reportData := reportData + r2.value;
    answered := answered + 1;
    var r3 := RunDetector(LoadBalancer, inv, now, cfg);
    if r3.None? {
      ScanStopsAt(inv, now, cfg, answered);
      return Failure(Raised(LoadBalancer));
    }
    CollectedNext(inv, now, cfg, answered, reportData);
    reportData := reportData + r3.value;
    answered := answered + 1;
    var r4 := RunDetector(RdsInstance, inv, now, cfg);
    if r4.None? {
      ScanStopsAt(inv, now, cfg, answered);
      return Failure(Raised(RdsInstance));
    }
    CollectedNext(inv, now, cfg, answered, reportData);
    reportData := reportData + r4.value;
    answered := answered + 1;
    var r5 := RunDetector(S3Bucket, inv, now, cfg);
    if r5.None? {
      ScanStopsAt(inv, now, cfg, answered);
      return Failure(Raised(S3Bucket));
    }
    CollectedNext(inv, now, cfg, answered, reportData);
    reportData := reportData + r5.value;
    answered := answered + 1;
    var r6 := RunDetector(DynamoDbTable, inv, now, cfg);
    if r6.None? {
      ScanStopsAt(inv, now, cfg, answered);
      return Failure(Raised(DynamoDbTable));
    }
    CollectedNext(inv, now, cfg, answered, reportData);
    reportData := reportData + r6.value;
    answered := answered + 1;
    var r7 := RunDetector(CloudFrontDistribution, inv, now, cfg);
    if r7.None? {
      ScanStopsAt(inv, now, cfg, answered);
      return Failure(Raised(CloudFrontDistribution));
    }
    CollectedNext(inv, now, cfg, answered, reportData);
    reportData := reportData + r7.value;
    answered := answered + 1;
    var r8 := RunDetector(LambdaFunction, inv, now, cfg);
    if r8.None? {
      ScanStopsAt(inv, now, cfg, answered);
      return Failure(Raised(LambdaFunction));
    }
    CollectedNext(inv, now, cfg, answered, reportData);
    reportData := reportData + r8.value;
    answered := answered + 1;
    ScanCompletes(inv, now, cfg, answered);
    result := Success(reportData);
  }

  /** What `lambda_handler` does once `report_data` is complete: upload, alert, return. */
  method DeliverFindings(reportData: seq<Row>, cfg: Config, today: string) returns (invocation: Invocation)
    ensures invocation == Deliver(reportData, cfg, today)
  {
    var put := SaveReportToS3(reportData, cfg.s3BucketName, today);
    var reportPath := ReportPath(put);
    var s3Message := StorageLine(reportPath);
    var summaryMessage := SummaryMessage(reportData);
    var alertMessage := AlertMessage(s3Message, if summaryMessage != "" then summaryMessage else NoUnusedSentinel, |reportData|);
    var publication := SendAlert(cfg.snsTopicArn, AlertSubject, alertMessage);
    invocation := Invocation(reportData, put, publication, 200, StatusBody);
  }

  method LambdaHandler(inv: Inventory, now: int, cfg: Config, today: string) returns (result: Result<Invocation, HandlerError>)
    ensures result == Handle(inv, now, cfg, today)
  {
    var reportData := CollectFindings(inv, now, cfg);
    if reportData.Failure? {
      return Failure(reportData.error);
    }
    var invocation := DeliverFindings(reportData.value, cfg, today);
    result := Success(invocation);
  }

  // ---------------------------------------------------------------------------
  // Stepping through the scan, one detector at a time (used by LambdaHandler)
  // ---------------------------------------------------------------------------

  /** `report_data` after the first `n` detectors of the registry, or None when one of
      them raised. This is `ScanWith` read from the front rather than from the back,
      so that `CollectFindings` can be checked one `extend` at a time; `CollectedScan`
      ties the two together. */
  function Collected(inv: Inventory, now: int, cfg: Config, n: nat): Option<seq<Row>>
    requires n <= |Registry|
  {
    if n == 0 then Some([])
    else
      match Collected(inv, now, cfg, n - 1)
      case None => None
      case Some(done) =>
        match Detect(Registry[n - 1], inv, now, cfg)
        case None => None
        case Some(rows) => Some(done + rows)
  }

  lemma CollectedNext(inv: Inventory, now: int, cfg: Config, n: nat, done: seq<Row>)
    requires n < |Registry| && Collected(inv, now, cfg, n) == Some(done) && Detect(Registry[n], inv, now, cfg).Some?
    ensures Collected(inv, now, cfg, n + 1) == Some(done + Detect(Registry[n], inv, now, cfg).value)
  {
  }

  lemma PrependTwice(a: seq<Row>, b: seq<Row>, r: Result<seq<Row>, HandlerError>)
    ensures Prepend(a, Prepend(b, r)) == Prepend(a + b, r)
  {
    match r
    case Success(rest) => assert a + (b + rest) == (a + b) + rest;
    case Failure(_) =>
  }

  /** Once the first `n` detectors have answered, the scan is their rows followed by
      whatever the remaining detectors produce. */
  lemma {:induction false} CollectedScan(inv: Inventory, now: int, cfg: Config, n: nat)
    requires n <= |Registry| && Collected(inv, now, cfg, n).Some?
    ensures Scan(inv, now, cfg) == Prepend(Collected(inv, now, cfg, n).value, ScanWith(Registry[n..], Detector(inv, now, cfg)))
  {
    var detect := Detector(inv, now, cfg);
    if n == 0 {
      assert Registry[0..] == Registry;
      match ScanWith(Registry, detect)
      case Success(rest) => assert [] + rest == rest;
      case Failure(_) =>
    } else {
      CollectedScan(inv, now, cfg, n - 1);
      var rows := Detect(Registry[n - 1], inv, now, cfg).value;
      assert Registry[n - 1..][1..] == Registry[n..];
      assert ScanWith(Registry[n - 1..], detect) == Prepend(rows, ScanWith(Registry[n..], detect));
      PrependTwice(Collected(inv, now, cfg, n - 1).value, rows, ScanWith(Registry[n..], detect));
    }
  }

  /** The scan fails with the exception of the first detector that raised. */
  lemma ScanStopsAt(inv: Inventory, now: int, cfg: Config, n: nat)
    requires n < |Registry| && Collected(inv, now, cfg, n).Some? && Detect(Registry[n], inv, now, cfg).None?
    ensures Scan(inv, now, cfg) == Failure(Raised(Registry[n]))
  {
    CollectedScan(inv, now, cfg, n);
  }

  /** When every detector has answered, the scan succeeds with the collected rows. */
  lemma ScanCompletes(inv: Inventory, now: int, cfg: Config, n: nat)
    requires n == |Registry| && Collected(inv, now, cfg, n).Some?
    ensures Scan(inv, now, cfg) == Success(Collected(inv, now, cfg, n).value)
  {
    CollectedScan(inv, now, cfg, n);
    assert Registry[n..] == [];
    assert Collected(inv, now, cfg, n).value + [] == Collected(inv, now, cfg, n).value;
  }

  // ---------------------------------------------------------------------------
  // The scan: order, failure and concatenation
  // ---------------------------------------------------------------------------

  /** The scan ends with the first detector (in order) whose call raises. */
  lemma {:induction false} ScanWithFirstRaise(kinds: seq<ResourceKind>, detect: ResourceKind -> Option<seq<Row>>, n: nat)
    requires n < |kinds| && detect(kinds[n]).None?
    requires forall j :: 0 <= j < n ==> detect(kinds[j]).Some?
    ensures ScanWith(kinds, detect) == Failure(Raised(kinds[n]))
  {
    if n > 0 {
      ScanWithFirstRaise(kinds[1..], detect, n - 1);
      assert detect(kinds[0]).Some?;
    }
  }

  /** A scan that fails names a detector that raised, after all earlier ones succeeded. */
  lemma {:induction false} ScanWithFailureWitness(kinds: seq<ResourceKind>, detect: ResourceKind -> Option<seq<Row>>)
    requires ScanWith(kinds, detect).Failure?
    ensures exists n :: (0 <= n < |kinds| && kinds[n] == ScanWith(kinds, detect).error.kind
      && detect(kinds[n]).None? && forall j :: 0 <= j < n ==> detect(kinds[j]).Some?)
  {
    if detect(kinds[0]).Some? {
      ScanWithFailureWitness(kinds[1..], detect);
      var n :| 0 <= n < |kinds[1..]| && kinds[1..][n] == ScanWith(kinds[1..], detect).error.kind
        && detect(kinds[1..][n]).None? && forall j :: 0 <= j < n ==> detect(kinds[1..][j]).Some?;
      forall j | 0 <= j < n + 1 ensures detect(kinds[j]).Some? {
        if j > 0 {
          assert kinds[j] == kinds[1..][j - 1];
        }
      }
      assert kinds[n + 1] == kinds[1..][n];
    }
  }

  /** The rows of all detectors in `kinds`, concatenated in order. */
  function Concatenated(kinds: seq<ResourceKind>, detect: ResourceKind -> Option<seq<Row>>): seq<Row>
    requires forall j :: 0 <= j < |kinds| ==> detect(kinds[j]).Some?
  {
    if kinds == [] then [] else detect(kinds[0]).value + Concatenated(kinds[1..], detect)
  }

  /** A scan succeeds exactly when no detector raises, and then yields the concatenation. */
  lemma {:induction false} ScanWithSuccess(kinds: seq<ResourceKind>, detect: ResourceKind -> Option<seq<Row>>)
    ensures ScanWith(kinds, detect).Success? <==> forall j :: 0 <= j < |kinds| ==> detect(kinds[j]).Some?
    ensures ScanWith(kinds, detect).Success? ==> ScanWith(kinds, detect).value == Concatenated(kinds, detect)
  {
    if kinds != [] {
      ScanWithSuccess(kinds[1..], detect);
      if forall j :: 0 <= j < |kinds| ==> detect(kinds[j]).Some? {
        assert forall j :: 0 <= j < |kinds[1..]| ==> detect(kinds[1..][j]).Some? by {
          forall j | 0 <= j < |kinds[1..]| ensures detect(kinds[1..][j]).Some? {
            assert kinds[1..][j] == kinds[j + 1];
          }
        }
      } else if detect(kinds[0]).Some? {
        var j :| 0 <= j < |kinds| && detect(kinds[j]).None?;
        assert kinds[1..][j - 1] == kinds[j];
      }
    }
  }

  /** The concatenation over the registry, written out. */
  lemma RegistryConcatenated(detect: ResourceKind -> Option<seq<Row>>)
    requires forall k :: detect(k).Some?
    ensures Concatenated(Registry, detect) ==
      detect(Ec2Instance).value + detect(EbsVolume).value + detect(ElasticIp).value
      + detect(LoadBalancer).value + detect(RdsInstance).value + detect(S3Bucket).value
      + detect(DynamoDbTable).value + detect(CloudFrontDistribution).value + detect(LambdaFunction).value
  {
  }

  /** When the detector at position `n` of the registry raises and all before it
      succeed, the invocation fails with that detector's exception. */
  lemma ScanFailsAt(inv: Inventory, now: int, cfg: Config, n: nat)
    requires n < |Registry| && Detect(Registry[n], inv, now, cfg).None?
    requires forall j :: 0 <= j < n ==> Detect(Registry[j], inv, now, cfg).Some?
    ensures Scan(inv, now, cfg) == Failure(Raised(Registry[n]))
  {
    ScanWithFirstRaise(Registry, Detector(inv, now, cfg), n);
  }

  /** A failed scan was stopped by the first detector, in registry order, whose call raised. */
  lemma ScanFailureIsFirstRaise(inv: Inventory, now: int, cfg: Config)
    requires Scan(inv, now, cfg).Failure?
    ensures exists n :: (0 <= n < |Registry| && Registry[n] == Scan(inv, now, cfg).error.kind
      && Detect(Registry[n], inv, now, cfg).None?
      && forall j :: 0 <= j < n ==> Detect(Registry[j], inv, now, cfg).Some?)
  {
    ScanWithFailureWitness(Registry, Detector(inv, now, cfg));
  }

  /** Every kind is registered. */
  lemma RegistryHasEveryKind(k: ResourceKind)
    ensures k in Registry
  {
  }

  /** The scan over the registry, for any detector outputs. */
  lemma RegistryScan(detect: ResourceKind -> Option<seq<Row>>)
    ensures ScanWith(Registry, detect).Success? <==> forall k :: detect(k).Some?
    ensures ScanWith(Registry, detect).Success? ==> (ScanWith(Registry, detect).value ==
      detect(Ec2Instance).value + detect(EbsVolume).value + detect(ElasticIp).value
      + detect(LoadBalancer).value + detect(RdsInstance).value + detect(S3Bucket).value
      + detect(DynamoDbTable).value + detect(CloudFrontDistribution).value + detect(LambdaFunction).value)
  {
    ScanWithSuccess(Registry, detect);
    if forall j :: 0 <= j < |Registry| ==> detect(Registry[j]).Some? {
      forall k ensures detect(k).Some? {
        RegistryHasEveryKind(k);
        var j :| 0 <= j < |Registry| && Registry[j] == k;
      }
    }
    if forall k :: detect(k).Some? {
      RegistryConcatenated(detect);
    }
  }

  /** The nine detectors answered, one fact per kind. */
  lemma EveryDetectorAnswered(inv: Inventory, now: int, cfg: Config)
    requires Detect(Ec2Instance, inv, now, cfg).Some? && Detect(EbsVolume, inv, now, cfg).Some?
    requires Detect(ElasticIp, inv, now, cfg).Some? && Detect(LoadBalancer, inv, now, cfg).Some?
    requires Detect(RdsInstance, inv, now, cfg).Some? && Detect(S3Bucket, inv, now, cfg).Some?
    requires Detect(DynamoDbTable, inv, now, cfg).Some? && Detect(CloudFrontDistribution, inv, now, cfg).Some?
    requires Detect(LambdaFunction, inv, now, cfg).Some?
    ensures forall k :: Detect(k, inv, now, cfg).Some?
  {
  }

  /** The report is exactly the concatenation of the nine detectors' rows in the order
      EC2, EBS, Elastic IP, load balancer, RDS, S3, DynamoDB, CloudFront, Lambda; it
      exists exactly when no detector raises. */
  lemma ScanIsConcatenation(inv: Inventory, now: int, cfg: Config)
    ensures Scan(inv, now, cfg).Success? <==> forall k :: Detect(k, inv, now, cfg).Some?
    ensures Scan(inv, now, cfg).Success? ==> (Scan(inv, now, cfg).value ==
      Detect(Ec2Instance, inv, now, cfg).value
      + Detect(EbsVolume, inv, now, cfg).value
      + Detect(ElasticIp, inv, now, cfg).value
      + Detect(LoadBalancer, inv, now, cfg).value
      + Detect(RdsInstance, inv, now, cfg).value
      + Detect(S3Bucket, inv, now, cfg).value
      + Detect(DynamoDbTable, inv, now, cfg).value
      + Detect(CloudFrontDistribution, inv, now, cfg).value
      + Detect(LambdaFunction, inv, now, cfg).value)
  {
    var detect := Detector(inv, now, cfg);
    RegistryScan(detect);
    assert forall k :: detect(k) == Detect(k, inv, now, cfg);
  }

  // ---------------------------------------------------------------------------
  // Properties of the whole invocation
  // ---------------------------------------------------------------------------

  /** An invocation completes exactly when no detector raises. A detector raises when
      its top-level inventory call fails, when a bucket's `get_bucket_location` fails,
      or when a load balancer has no zones; a failed per-bucket object probe only skips
      that bucket. A raise ends the invocation with nothing uploaded or published. */
  lemma HandleSucceedsIff(inv: Inventory, now: int, cfg: Config, today: string)
    ensures Handle(inv, now, cfg, today).Success? <==> forall k :: Detect(k, inv, now, cfg).Some?
    ensures Handle(inv, now, cfg, today).Success? ==>
      Handle(inv, now, cfg, today).value.findings == Scan(inv, now, cfg).value
  {
    ScanIsConcatenation(inv, now, cfg);
  }

  /** Every row a detector reports is tagged with that detector's resource type. */
  lemma DetectRowsHaveKind(k: ResourceKind, inv: Inventory, now: int, cfg: Config, r: Row)
    requires Detect(k, inv, now, cfg).Some? && r in Detect(k, inv, now, cfg).value
    ensures r.kind == k
  {
    match k
    case Ec2Instance =>
      Ec2RowsReportAge(Flatten(inv.reservations.response), now, cfg.ec2UnusedDays, r);
    case EbsVolume =>
      EbsMetricIsDash(inv.volumes.response, now, cfg.ebsUnusedDays, r);
    case ElasticIp =>
      FilterMapMember(inv.addresses.response, IsUnassociated, ElasticIpRow, r);
    case LoadBalancer =>
      CollectMember(inv.loadBalancers.response, LoadBalancerStep, r);
    case RdsInstance =>
      FilterMapMember(inv.dbInstances.response, IsStopped, RdsRow, r);
    case S3Bucket =>
      CollectMember(inv.buckets.response, S3Step, r);
    case DynamoDbTable =>
    case CloudFrontDistribution =>
      FilterMapMember(DistributionItems(inv.distributions.response), IsDisabled, CloudFrontRow, r);
    case LambdaFunction =>
  }

  /** Selecting the rows of one resource type. */
  function OfKind(k: ResourceKind): Row -> bool
  {
    (r: Row) => r.kind == k
  }

  function Unchanged(): Row -> Row
  {
    (r: Row) => r
  }

  /** No kind occurs twice in `kinds`. */
  predicate Distinct(kinds: seq<ResourceKind>)
  {
    forall i, j :: 0 <= i < j < |kinds| ==> kinds[i] != kinds[j]
  }

  /** Every row `detect` returns for a kind in `kinds` carries that kind. */
  predicate Tagged(kinds: seq<ResourceKind>, detect: ResourceKind -> Option<seq<Row>>)
  {
    forall i, r :: (0 <= i < |kinds| && detect(kinds[i]).Some? && r in detect(kinds[i]).value ==>
      r.kind == kinds[i])
  }

  lemma DistinctTaggedTail(kinds: seq<ResourceKind>, detect: ResourceKind -> Option<seq<Row>>)
    requires kinds != [] && Distinct(kinds) && Tagged(kinds, detect)
    ensures Distinct(kinds[1..]) && Tagged(kinds[1..], detect) && kinds[0] !in kinds[1..]
    ensures detect(kinds[0]).Some? ==> forall r :: r in detect(kinds[0]).value ==> r.kind == kinds[0]
  {
  }

  /** A scan over distinct kinds whose detectors tag their rows keeps each detector's
      rows apart: selecting one kind gives back exactly that detector's output. */
  lemma {:induction false} ScanWithGroups(kinds: seq<ResourceKind>, detect: ResourceKind -> Option<seq<Row>>, k: ResourceKind)
    requires ScanWith(kinds, detect).Success? && Distinct(kinds) && Tagged(kinds, detect)
    ensures k in kinds ==> detect(k).Some?
    ensures FilterMap(ScanWith(kinds, detect).value, OfKind(k), Unchanged()) ==
      if k in kinds then detect(k).value else []
  {
    if kinds != [] {
      var rows := detect(kinds[0]).value;
      var tail := kinds[1..];
      DistinctTaggedTail(kinds, detect);
      ScanWithGroups(tail, detect, k);
      var rest := ScanWith(tail, detect).value;
      var picked := FilterMap(rest, OfKind(k), Unchanged());
      FilterMapAppend(rows, rest, OfKind(k), Unchanged());
      assert k in kinds <==> k == kinds[0] || k in tail;
      assert forall i :: 0 <= i < |rows| ==> rows[i] in detect(kinds[0]).value;
      if kinds[0] == k {
        FilterMapKeepsAll(rows, OfKind(k), Unchanged());
        assert rows + [] == rows;
      } else {
        FilterMapKeepsNone(rows, OfKind(k), Unchanged());
        assert [] + picked == picked;
      }
    }
  }

  /** The merged report loses nothing: its rows of any one resource type are exactly
      what that type's detector returned, in the detector's order. */
  lemma FindingsOfKind(inv: Inventory, now: int, cfg: Config, k: ResourceKind)
    requires Scan(inv, now, cfg).Success?
    ensures Detect(k, inv, now, cfg).Some?
    ensures FilterMap(Scan(inv, now, cfg).value, OfKind(k), Unchanged()) == Detect(k, inv, now, cfg).value
  {
    RegistryDistinct();
    DetectorTagged(inv, now, cfg);
    RegistryHasEveryKind(k);
    ScanWithGroups(Registry, Detector(inv, now, cfg), k);
  }

  lemma RegistryDistinct()
    ensures Distinct(Registry)
  {
  }

  lemma DetectorTagged(inv: Inventory, now: int, cfg: Config)
    ensures Tagged(Registry, Detector(inv, now, cfg))
  {
    var detect := Detector(inv, now, cfg);
    forall i, r | 0 <= i < |Registry| && detect(Registry[i]).Some? && r in detect(Registry[i]).value
      ensures r.kind == Registry[i]
    {
      DetectRowsHaveKind(Registry[i], inv, now, cfg, r);
    }
  }

  /** The inventory of an account with nothing in it. */
  function EmptyAccountInventory(): Inventory
  {
    Inventory(Responded([]), Responded([]), Responded([]), Responded([]), Responded([]),
      Responded([]), Responded([]), Responded(DistributionsResponse(None)), Responded([]))
  }

  /** An account with nothing in it: no findings, no upload, and an alert that says so. */
  lemma EmptyAccount(now: int, cfg: Config, today: string)
    ensures Handle(EmptyAccountInventory(), now, cfg, today).Success?
    ensures Handle(EmptyAccountInventory(), now, cfg, today).value.findings == []
    ensures Handle(EmptyAccountInventory(), now, cfg, today).value.put.None?
    ensures Truthy(cfg.snsTopicArn) ==>
      Handle(EmptyAccountInventory(), now, cfg, today).value.publication ==
      Some(Publication(cfg.snsTopicArn.value, AlertSubject, AlertMessage(NoReportLine, NoUnusedSentinel, 0)))
  {
    EmptyAccountScan(now, cfg);
  }

  lemma EmptyAccountScan(now: int, cfg: Config)
    ensures Scan(EmptyAccountInventory(), now, cfg) == Success([])
  {
    var inv := EmptyAccountInventory();
    assert Flatten([]) == [];
    assert Detect(Ec2Instance, inv, now, cfg) == Some([]);
    assert Detect(EbsVolume, inv, now, cfg) == Some([]);
    assert Detect(ElasticIp, inv, now, cfg) == Some([]);
    assert Detect(LoadBalancer, inv, now, cfg) == Some([]);
    assert Detect(RdsInstance, inv, now, cfg) == Some([]);
    assert Detect(S3Bucket, inv, now, cfg) == Some([]);
    assert Detect(DynamoDbTable, inv, now, cfg) == Some([]);
    assert Detect(CloudFrontDistribution, inv, now, cfg) == Some([]);
    assert Detect(LambdaFunction, inv, now, cfg) == Some([]);
    EveryDetectorAnswered(inv, now, cfg);
    ScanIsConcatenation(inv, now, cfg);
  }

  /** The inventory of an account whose only resource is one EC2 instance launched
      ten days before `now`. */
  function OneOldInstance(now: int): Inventory
  {
    Inventory(
      Responded([Reservation([Instance("i-0abc", "us-east-1a", now - 10 * SecondsPerDay)])]),
      Responded([]), Responded([]), Responded([]), Responded([]),
      Responded([]), Responded([]), Responded(DistributionsResponse(None)), Responded([]))
  }

  lemma OneOldInstanceScan(now: int, cfg: Config)
    requires cfg.ec2UnusedDays == 7
    ensures Scan(OneOldInstance(now), now, cfg) == Success([Row(Ec2Instance, "i-0abc", Some("us-east-1a"), Days(10))])
  {
    var inv := OneOldInstance(now);
    var i := Instance("i-0abc", "us-east-1a", now - 10 * SecondsPerDay);
    assert Flatten([Reservation([i])]) == [i] by {
      assert [Reservation([i])][1..] == [];
    }
    assert WholeDays(i.launchTime, now) == 10;
    FilterMapSingle(i, Ec2IsUnused(now, 7), Ec2Row(now));
    assert Detect(Ec2Instance, inv, now, cfg) == Some([Row(Ec2Instance, "i-0abc", Some("us-east-1a"), Days(10))]);
    assert Detect(EbsVolume, inv, now, cfg) == Some([]);
    assert Detect(ElasticIp, inv, now, cfg) == Some([]);
    assert Detect(LoadBalancer, inv, now, cfg) == Some([]);
    assert Detect(RdsInstance, inv, now, cfg) == Some([]);
    assert Detect(S3Bucket, inv, now, cfg) == Some([]);
    assert Detect(DynamoDbTable, inv, now, cfg) == Some([]);
    assert Detect(CloudFrontDistribution, inv, now, cfg) == Some([]);
    assert Detect(LambdaFunction, inv, now, cfg) == Some([]);
    EveryDetectorAnswered(inv, now, cfg);
    ScanIsConcatenation(inv, now, cfg);
  }

  /** One EC2 instance stopped ten days ago, a seven-day threshold and an otherwise empty
      account: the report is that one instance, with its age in days. */
  lemma StoppedInstanceScenario(now: int, cfg: Config, today: string)
    requires cfg.ec2UnusedDays == 7 && Truthy(cfg.s3BucketName)
    ensures Handle(OneOldInstance(now), now, cfg, today).Success?
    ensures Handle(OneOldInstance(now), now, cfg, today).value.findings ==
      [Row(Ec2Instance, "i-0abc", Some("us-east-1a"), Days(10))]
    ensures Handle(OneOldInstance(now), now, cfg, today).value.put.Some?
    ensures Handle(OneOldInstance(now), now, cfg, today).value.put.value.body ==
      [CsvHeader, ["EC2 Instance", "i-0abc", "us-east-1a", "10"]]
  {
    var row := Row(Ec2Instance, "i-0abc", Some("us-east-1a"), Days(10));
    OneOldInstanceScan(now, cfg);
    assert IntToString(10) == "10";
    assert CsvCells(row) == ["EC2 Instance", "i-0abc", "us-east-1a", "10"];
    assert ReportTable([row]) == [CsvHeader, CsvCells(row)];
  }
}
