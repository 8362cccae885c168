/** The nine detectors (`get_unused_*`), each over the response its inventory call
    returned. EC2, EBS, load balancers and S3 are loops in the source and are methods
    here, each proved equal to a specification function; the other five are list
    comprehensions in the source and are functions here. */
module Detectors {
  import opened Wrappers
  import opened Lists
  import opened Resources

  // ---------------------------------------------------------------------------
  // EC2 instances: stopped for at least `ec2UnusedDays` whole days since LaunchTime
  // ---------------------------------------------------------------------------

  function Ec2IsUnused(now: int, ec2UnusedDays: int): Instance -> bool
  {
    (i: Instance) => WholeDays(i.launchTime, now) >= ec2UnusedDays
  }

  /** The reported metric is the day count itself. */
  function Ec2Row(now: int): Instance -> Row
  {
    (i: Instance) => Row(Ec2Instance, i.instanceId, Some(i.availabilityZone), Days(WholeDays(i.launchTime, now)))
  }

  /** The rows the EC2 detector reports for a list of stopped instances. */
  function Ec2Findings(instances: seq<Instance>, now: int, ec2UnusedDays: int): (rows: seq<Row>)
    ensures |rows| <= |instances|
  {
    FilterMap(instances, Ec2IsUnused(now, ec2UnusedDays), Ec2Row(now))
  }

  /** The instances of all reservations, reservation by reservation. */
  function Flatten(reservations: seq<Reservation>): (instances: seq<Instance>)
  {
    if reservations == [] then [] else reservations[0].instances + Flatten(reservations[1..])
  }

  lemma {:induction false} FlattenAppend(rs: seq<Reservation>, qs: seq<Reservation>)
    ensures Flatten(rs + qs) == Flatten(rs) + Flatten(qs)
  {
    if rs == [] {
      assert rs + qs == qs;
    } else {
      assert (rs + qs)[1..] == rs[1..] + qs;
      FlattenAppend(rs[1..], qs);
    }
  }

  method GetUnusedEc2Instances(reservations: seq<Reservation>, now: int, ec2UnusedDays: int)
    returns (unusedInstances: seq<Row>)
    ensures unusedInstances == Ec2Findings(Flatten(reservations), now, ec2UnusedDays)
  {
    unusedInstances := [];
    for i := 0 to |reservations|
      invariant unusedInstances == Ec2Findings(Flatten(reservations[..i]), now, ec2UnusedDays)
    {
      ghost var done := Flatten(reservations[..i]);
      var instances := reservations[i].instances;
      assert done + instances[..0] == done;
      for j := 0 to |instances|
        invariant unusedInstances == Ec2Findings(done + instances[..j], now, ec2UnusedDays)
      {
        var instance := instances[j];
        var stoppedDays := WholeDays(instance.launchTime, now);
        if stoppedDays >= ec2UnusedDays {
          unusedInstances := unusedInstances
            + [Row(Ec2Instance, instance.instanceId, Some(instance.availabilityZone), Days(stoppedDays))];
        }
        assert done + instances[..j + 1] == (done + instances[..j]) + [instance];
        FilterMapAppend(done + instances[..j], [instance], Ec2IsUnused(now, ec2UnusedDays), Ec2Row(now));
        FilterMapSingle(instance, Ec2IsUnused(now, ec2UnusedDays), Ec2Row(now));
      }
      assert instances[..|instances|] == instances;
      assert reservations[..i + 1] == reservations[..i] + [reservations[i]];
      FlattenAppend(reservations[..i], [reservations[i]]);
      assert Flatten([reservations[i]]) == instances by {
        assert [reservations[i]][1..] == [];
        assert instances + [] == instances;
      }
      assert Flatten(reservations[..i + 1]) == done + instances;
    }
    assert reservations[..|reservations|] == reservations;
  }

  /** An instance yields a row exactly when its whole elapsed days reach the threshold
      (boundary included), the row's metric is that day count, and the detector handles
      a list instance by instance, in order. */
  lemma Ec2FindingsExact(now: int, ec2UnusedDays: int)
    ensures forall i: Instance :: (Ec2Findings([i], now, ec2UnusedDays) ==
      if WholeDays(i.launchTime, now) >= ec2UnusedDays
      then [Row(Ec2Instance, i.instanceId, Some(i.availabilityZone), Days(WholeDays(i.launchTime, now)))]
      else [])
    ensures forall xs, ys :: (Ec2Findings(xs + ys, now, ec2UnusedDays) ==
      Ec2Findings(xs, now, ec2UnusedDays) + Ec2Findings(ys, now, ec2UnusedDays))
  {
    forall xs, ys ensures Ec2Findings(xs + ys, now, ec2UnusedDays) ==
      Ec2Findings(xs, now, ec2UnusedDays) + Ec2Findings(ys, now, ec2UnusedDays)
    {
      FilterMapAppend(xs, ys, Ec2IsUnused(now, ec2UnusedDays), Ec2Row(now));
    }
  }

  /** Every EC2 row names an input instance and reports its age in whole days, which is
      at least the threshold. */
  lemma Ec2RowsReportAge(instances: seq<Instance>, now: int, ec2UnusedDays: int, r: Row)
    requires r in Ec2Findings(instances, now, ec2UnusedDays)
    ensures r.kind == Ec2Instance && r.metric.Days? && r.metric.days >= ec2UnusedDays
    ensures exists k :: (0 <= k < |instances| && r.id == instances[k].instanceId
      && r.location == Some(instances[k].availabilityZone)
      && r.metric.days == WholeDays(instances[k].launchTime, now))
  {
    FilterMapMember(instances, Ec2IsUnused(now, ec2UnusedDays), Ec2Row(now), r);
  }

  /** An instance launched exactly `ec2UnusedDays` days ago is reported with that count;
      one second short of that, it is not. */
  lemma Ec2ThresholdBoundary(i: Instance, now: int, ec2UnusedDays: int)
    ensures now - i.launchTime == ec2UnusedDays * SecondsPerDay ==>
      Ec2Findings([i], now, ec2UnusedDays)
        == [Row(Ec2Instance, i.instanceId, Some(i.availabilityZone), Days(ec2UnusedDays))]
    ensures now - i.launchTime == ec2UnusedDays * SecondsPerDay - 1 ==>
      Ec2Findings([i], now, ec2UnusedDays) == []
  {
  }

  // ---------------------------------------------------------------------------
  // EBS volumes: available for at least `ebsUnusedDays` whole days since CreateTime
  // ---------------------------------------------------------------------------

  function EbsIsUnused(now: int, ebsUnusedDays: int): Volume -> bool
  {
    (v: Volume) => WholeDays(v.createTime, now) >= ebsUnusedDays
  }

  /** The day count decides, but the row reports "-" in its place. */
  function EbsRow(v: Volume): Row
  {
    Row(EbsVolume, v.volumeId, Some(v.availabilityZone), NoMetric)
  }

  /** The rows the EBS detector reports for a list of available volumes. */
  function EbsFindings(volumes: seq<Volume>, now: int, ebsUnusedDays: int): (rows: seq<Row>)
    ensures |rows| <= |volumes|
  {
    FilterMap(volumes, EbsIsUnused(now, ebsUnusedDays), EbsRow)
  }

  method GetUnusedEbsVolumes(volumes: seq<Volume>, now: int, ebsUnusedDays: int)
    returns (unusedVolumes: seq<Row>)
    ensures unusedVolumes == EbsFindings(volumes, now, ebsUnusedDays)
  {
    unusedVolumes := [];
    for i := 0 to |volumes|
      invariant unusedVolumes == EbsFindings(volumes[..i], now, ebsUnusedDays)
    {
      var volume := volumes[i];
      if WholeDays(volume.createTime, now) >= ebsUnusedDays {
        unusedVolumes := unusedVolumes + [Row(EbsVolume, volume.volumeId, Some(volume.availabilityZone), NoMetric)];
      }
      assert volumes[..i + 1] == volumes[..i] + [volume];
      FilterMapAppend(volumes[..i], [volume], EbsIsUnused(now, ebsUnusedDays), EbsRow);
      FilterMapSingle(volume, EbsIsUnused(now, ebsUnusedDays), EbsRow);
    }
    assert volumes[..|volumes|] == volumes;
  }

  /** A volume yields a row exactly when its whole elapsed days reach the threshold
      (boundary included), and the detector handles a list volume by volume, in order. */
  lemma EbsFindingsExact(now: int, ebsUnusedDays: int)
    ensures forall v: Volume :: (EbsFindings([v], now, ebsUnusedDays) ==
      if WholeDays(v.createTime, now) >= ebsUnusedDays
      then [Row(EbsVolume, v.volumeId, Some(v.availabilityZone), NoMetric)]
      else [])
    ensures forall xs, ys :: (EbsFindings(xs + ys, now, ebsUnusedDays) ==
      EbsFindings(xs, now, ebsUnusedDays) + EbsFindings(ys, now, ebsUnusedDays))
  {
    forall xs, ys ensures EbsFindings(xs + ys, now, ebsUnusedDays) ==
      EbsFindings(xs, now, ebsUnusedDays) + EbsFindings(ys, now, ebsUnusedDays)
    {
      FilterMapAppend(xs, ys, EbsIsUnused(now, ebsUnusedDays), EbsRow);
    }
  }

  /** EBS rows never carry the day count: their metric is always "-". */
  lemma EbsMetricIsDash(volumes: seq<Volume>, now: int, ebsUnusedDays: int, r: Row)
    requires r in EbsFindings(volumes, now, ebsUnusedDays)
    ensures r.kind == EbsVolume && r.metric == NoMetric
    ensures exists k :: (0 <= k < |volumes| && r.id == volumes[k].volumeId
      && WholeDays(volumes[k].createTime, now) >= ebsUnusedDays)
  {
    FilterMapMember(volumes, EbsIsUnused(now, ebsUnusedDays), EbsRow, r);
  }

  /** A volume created exactly `ebsUnusedDays` days ago is reported; one second
      short of that, it is not. */
  lemma EbsThresholdBoundary(v: Volume, now: int, ebsUnusedDays: int)
    ensures now - v.createTime == ebsUnusedDays * SecondsPerDay ==>
      EbsFindings([v], now, ebsUnusedDays) == [EbsRow(v)]
    ensures now - v.createTime == ebsUnusedDays * SecondsPerDay - 1 ==>
      EbsFindings([v], now, ebsUnusedDays) == []
  {
  }

  // ---------------------------------------------------------------------------
  // Elastic IPs: no InstanceId key
  // ---------------------------------------------------------------------------

  predicate IsUnassociated(a: Address)
  {
    a.instanceId.None?
  }

  function ElasticIpRow(a: Address): Row
  {
    Row(ElasticIp, a.publicIp, Some(a.networkBorderGroup), NoMetric)
  }

  /** The reported addresses are exactly those without an InstanceId, each reported
      with its public IP and network border group. */
  function GetUnusedElasticIps(addresses: seq<Address>): (rows: seq<Row>)
    ensures |rows| <= |addresses|
    ensures forall r :: r in rows <==>
      exists i :: 0 <= i < |addresses| && addresses[i].instanceId.None?
        && r == Row(ElasticIp, addresses[i].publicIp, Some(addresses[i].networkBorderGroup), NoMetric)
  {
    FilterMapMembers(addresses, IsUnassociated, ElasticIpRow);
    FilterMap(addresses, IsUnassociated, ElasticIpRow)
  }

  /** An address yields a row exactly when it has no InstanceId, and addresses are
      handled one by one, in order. */
  lemma ElasticIpsExact()
    ensures forall a: Address :: (GetUnusedElasticIps([a]) ==
      if a.instanceId.None? then [Row(ElasticIp, a.publicIp, Some(a.networkBorderGroup), NoMetric)] else [])
    ensures forall xs, ys :: GetUnusedElasticIps(xs + ys) == GetUnusedElasticIps(xs) + GetUnusedElasticIps(ys)
  {
    forall xs, ys ensures GetUnusedElasticIps(xs + ys) == GetUnusedElasticIps(xs) + GetUnusedElasticIps(ys) {
      FilterMapAppend(xs, ys, IsUnassociated, ElasticIpRow);
    }
  }

  // ---------------------------------------------------------------------------
  // Load balancers: State.Code == "active"; the first zone is read before the check
  // ---------------------------------------------------------------------------

  /** One iteration of the load-balancer loop: `AvailabilityZones[0]` raises an
      IndexError when the list is empty, whatever the state. */
  function LoadBalancerStep(lb: LoadBalancerDescription): Step<Row>
  {
    if |lb.zoneNames| == 0 then Raise
    else if lb.stateCode == "active" then Keep(Row(LoadBalancer, lb.loadBalancerName, Some(lb.zoneNames[0]), NoMetric))
    else Skip
  }

  /** The rows the load-balancer detector reports, or None when it raises. */
  function LoadBalancerFindings(lbs: seq<LoadBalancerDescription>): (r: Option<seq<Row>>)
    ensures r.Some? ==> |r.value| <= |lbs|
  {
    Collect(lbs, LoadBalancerStep)
  }

  method GetUnusedLoadBalancers(lbs: seq<LoadBalancerDescription>) returns (unusedLbs: Option<seq<Row>>)
    ensures unusedLbs == LoadBalancerFindings(lbs)
  {
    var rows := [];
    for i := 0 to |lbs|
      invariant Collect(lbs[..i], LoadBalancerStep) == Some(rows)
    {
      var lb := lbs[i];
      assert lbs[..i + 1] == lbs[..i] + [lb];
      CollectAppend(lbs[..i], [lb], LoadBalancerStep);
      CollectSingle(lb, LoadBalancerStep);
      assert rows + [] == rows;
      var lbName := lb.loadBalancerName;
      if |lb.zoneNames| == 0 {
        CollectRaisesIff(lbs, LoadBalancerStep);
        assert LoadBalancerStep(lbs[i]).Raise?;
        return None;
      }
      var region := lb.zoneNames[0];
      var lbState := lb.stateCode;
      if lbState == "active" {
        rows := rows + [Row(LoadBalancer, lbName, Some(region), NoMetric)];
      }
    }
    assert lbs[..|lbs|] == lbs;
    unusedLbs := Some(rows);
  }

  /** A balancer is reported exactly when it is active, at its first zone; one with no
      zones makes the detector raise; balancers are handled one by one, in order. */
  lemma LoadBalancerFindingsExact()
    ensures forall lb: LoadBalancerDescription :: (LoadBalancerFindings([lb]) ==
      if |lb.zoneNames| == 0 then None
      else if lb.stateCode == "active"
      then Some([Row(LoadBalancer, lb.loadBalancerName, Some(lb.zoneNames[0]), NoMetric)])
      else Some([]))
    ensures forall xs, ys :: (LoadBalancerFindings(xs + ys) ==
      Both(LoadBalancerFindings(xs), LoadBalancerFindings(ys)))
  {
    forall xs, ys ensures LoadBalancerFindings(xs + ys) == Both(LoadBalancerFindings(xs), LoadBalancerFindings(ys)) {
      CollectAppend(xs, ys, LoadBalancerStep);
    }
    forall lb: LoadBalancerDescription {
      CollectSingle(lb, LoadBalancerStep);
    }
  }

  /** The detector raises exactly when some balancer has no availability zone. */
  lemma LoadBalancerRaisesIff(lbs: seq<LoadBalancerDescription>)
    ensures LoadBalancerFindings(lbs).None? <==> exists k :: 0 <= k < |lbs| && lbs[k].zoneNames == []
  {
    CollectRaisesIff(lbs, LoadBalancerStep);
    if exists k :: 0 <= k < |lbs| && LoadBalancerStep(lbs[k]).Raise? {
      var k :| 0 <= k < |lbs| && LoadBalancerStep(lbs[k]).Raise?;
      assert lbs[k].zoneNames == [];
    }
  }

  // ---------------------------------------------------------------------------
  // RDS instances: DBInstanceStatus == "stopped"
  // ---------------------------------------------------------------------------

  predicate IsStopped(db: DbInstance)
  {
    db.dbInstanceStatus == "stopped"
  }

  function RdsRow(db: DbInstance): Row
  {
    Row(RdsInstance, db.dbInstanceIdentifier, Some(db.availabilityZone), NoMetric)
  }

  /** The reported database instances are exactly the stopped ones, each reported
      with its identifier and availability zone. */
  function GetUnusedRdsInstances(instances: seq<DbInstance>): (rows: seq<Row>)
    ensures |rows| <= |instances|
    ensures forall r :: r in rows <==>
      exists i :: 0 <= i < |instances| && instances[i].dbInstanceStatus == "stopped"
        && r == Row(RdsInstance, instances[i].dbInstanceIdentifier, Some(instances[i].availabilityZone), NoMetric)
  {
    FilterMapMembers(instances, IsStopped, RdsRow);
    FilterMap(instances, IsStopped, RdsRow)
  }

  /** A database instance yields a row exactly when its status is "stopped", and
      instances are handled one by one, in order. */
  lemma RdsInstancesExact()
    ensures forall db: DbInstance :: (GetUnusedRdsInstances([db]) ==
      if db.dbInstanceStatus == "stopped"
      then [Row(RdsInstance, db.dbInstanceIdentifier, Some(db.availabilityZone), NoMetric)] else [])
    ensures forall xs, ys :: GetUnusedRdsInstances(xs + ys) == GetUnusedRdsInstances(xs) + GetUnusedRdsInstances(ys)
  {
    forall xs, ys ensures GetUnusedRdsInstances(xs + ys) == GetUnusedRdsInstances(xs) + GetUnusedRdsInstances(ys) {
      FilterMapAppend(xs, ys, IsStopped, RdsRow);
    }
  }

  // ---------------------------------------------------------------------------
  // S3 buckets: the single-object probe found no Contents
  // ---------------------------------------------------------------------------

  /** One iteration of the bucket loop. `get_bucket_location` runs outside the `try`,
      so its failure raises out of the detector; a failing `list_objects_v2` only
      skips the bucket (`continue`). */
  function S3Step(b: Bucket): Step<Row>
  {
    match b.location
    case LookupRaised => Raise
    case Located(region) =>
      match b.firstObject
      case ProbeRaised => Skip
      case Probed(hasContents) => if hasContents then Skip else Keep(Row(S3Bucket, b.name, region, NoMetric))
  }

  /** The rows the S3 detector reports, or None when it raises. */
  function S3Findings(buckets: seq<Bucket>): (r: Option<seq<Row>>)
    ensures r.Some? ==> |r.value| <= |buckets|
  {
    Collect(buckets, S3Step)
  }

  method GetUnusedS3Buckets(buckets: seq<Bucket>) returns (unusedBuckets: Option<seq<Row>>)
    ensures unusedBuckets == S3Findings(buckets)
  {
    var rows := [];
    for i := 0 to |buckets|
      invariant Collect(buckets[..i], S3Step) == Some(rows)
    {
      var bucket := buckets[i];
      assert buckets[..i + 1] == buckets[..i] + [bucket];
      CollectAppend(buckets[..i], [bucket], S3Step);
      CollectSingle(bucket, S3Step);
      assert rows + [] == rows;
      var bucketName := bucket.name;
      if bucket.location.LookupRaised? {
        CollectRaisesIff(buckets, S3Step);
        assert S3Step(buckets[i]).Raise?;
        return None;
      }
      var region := bucket.location.constraint;
      if bucket.firstObject.ProbeRaised? {
        continue;
      }
      if !bucket.firstObject.hasContents {
        rows := rows + [Row(S3Bucket, bucketName, region, NoMetric)];
      }
    }
    assert buckets[..|buckets|] == buckets;
    unusedBuckets := Some(rows);
  }

  /** A bucket is reported exactly when its object probe succeeded without Contents; a
      failed location lookup makes the detector raise; buckets are handled one by one,
      in order. */
  lemma S3FindingsExact()
    ensures forall b: Bucket :: (S3Findings([b]) ==
      match b.location
      case LookupRaised => None
      case Located(region) =>
        if b.firstObject == Probed(false) then Some([Row(S3Bucket, b.name, region, NoMetric)]) else Some([]))
    ensures forall xs, ys :: S3Findings(xs + ys) == Both(S3Findings(xs), S3Findings(ys))
  {
    forall xs, ys ensures S3Findings(xs + ys) == Both(S3Findings(xs), S3Findings(ys)) {
      CollectAppend(xs, ys, S3Step);
    }
    forall b: Bucket {
      CollectSingle(b, S3Step);
    }
  }

  /** A bucket whose object probe raised is skipped, and the buckets after it are
      still processed in order: the result is that of the list without it. */
  lemma S3ProbeFailureSkipsBucket(before: seq<Bucket>, b: Bucket, after: seq<Bucket>)
    requires b.location.Located? && b.firstObject.ProbeRaised?
    ensures S3Findings(before + [b] + after) == S3Findings(before + after)
  {
    CollectAppend(before + [b], after, S3Step);
    CollectAppend(before, [b], S3Step);
    CollectAppend(before, after, S3Step);
    var p := Collect(before, S3Step);
    if p.Some? {
      assert p.value + [] == p.value;
    }
  }

  /** The detector raises exactly when some bucket's location lookup raised. */
  lemma S3RaisesIff(buckets: seq<Bucket>)
    ensures S3Findings(buckets).None? <==> exists k :: 0 <= k < |buckets| && buckets[k].location.LookupRaised?
  {
    CollectRaisesIff(buckets, S3Step);
    if exists k :: 0 <= k < |buckets| && S3Step(buckets[k]).Raise? {
      var k :| 0 <= k < |buckets| && S3Step(buckets[k]).Raise?;
      assert buckets[k].location.LookupRaised?;
    }
  }

  // ---------------------------------------------------------------------------
  // DynamoDB tables and Lambda functions: every item is reported
  // ---------------------------------------------------------------------------

  function GetUnusedDynamoDbTables(tableNames: seq<string>): (rows: seq<Row>)
    ensures |rows| == |tableNames|
    ensures forall k :: 0 <= k < |rows| ==> rows[k].id == tableNames[k]
    ensures forall r :: r in rows ==> r.kind == DynamoDbTable && r.location == Some("-") && r.metric == NoMetric
  {
    seq(|tableNames|, k requires 0 <= k < |tableNames| => Row(DynamoDbTable, tableNames[k], Some("-"), NoMetric))
  }

  function GetUnusedLambdaFunctions(functions: seq<FunctionConfiguration>): (rows: seq<Row>)
    ensures |rows| == |functions|
    ensures forall k :: 0 <= k < |rows| ==> rows[k].id == functions[k].functionName
    ensures forall r :: r in rows ==> r.kind == LambdaFunction && r.location == Some("-") && r.metric == NoMetric
  {
    seq(|functions|, k requires 0 <= k < |functions| =>
      Row(LambdaFunction, functions[k].functionName, Some("-"), NoMetric))
  }

  // ---------------------------------------------------------------------------
  // CloudFront distributions: Enabled is false
  // ---------------------------------------------------------------------------

  predicate IsDisabled(d: Distribution)
  {
    !d.enabled
  }

  function CloudFrontRow(d: Distribution): Row
  {
    Row(CloudFrontDistribution, d.id, Some("-"), NoMetric)
  }

  /** The items of the response, or [] when `DistributionList` or its `Items` is absent. */
  function DistributionItems(response: DistributionsResponse): seq<Distribution>
  {
    match response.distributionList
    case Some(DistributionList(Some(items))) => items
    case _ => []
  }

  function GetUnusedCloudFrontDistributions(response: DistributionsResponse): (rows: seq<Row>)
    ensures response.distributionList.None? || response.distributionList.value.items.None? ==> rows == []
    ensures |rows| <= |DistributionItems(response)|
  {
    if response.distributionList.Some? && response.distributionList.value.items.Some? then
      FilterMap(response.distributionList.value.items.value, IsDisabled, CloudFrontRow)
    else
      []
  }

  /** A distribution yields a row exactly when it is disabled, and the items are handled
      one by one, in order. */
  lemma CloudFrontDistributionsExact()
    ensures forall d: Distribution ::
      GetUnusedCloudFrontDistributions(DistributionsResponse(Some(DistributionList(Some([d]))))) ==
      if !d.enabled then [Row(CloudFrontDistribution, d.id, Some("-"), NoMetric)] else []
    ensures forall xs, ys ::
      GetUnusedCloudFrontDistributions(DistributionsResponse(Some(DistributionList(Some(xs + ys))))) ==
      GetUnusedCloudFrontDistributions(DistributionsResponse(Some(DistributionList(Some(xs)))))
      + GetUnusedCloudFrontDistributions(DistributionsResponse(Some(DistributionList(Some(ys)))))
  {
    forall xs, ys ensures
      GetUnusedCloudFrontDistributions(DistributionsResponse(Some(DistributionList(Some(xs + ys))))) ==
      GetUnusedCloudFrontDistributions(DistributionsResponse(Some(DistributionList(Some(xs)))))
      + GetUnusedCloudFrontDistributions(DistributionsResponse(Some(DistributionList(Some(ys)))))
    {
      FilterMapAppend(xs, ys, IsDisabled, CloudFrontRow);
    }
  }
}
