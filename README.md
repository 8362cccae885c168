# Unused AWS resource detector, modelled in Dafny

The system is an AWS Lambda function. It lists nine kinds of resources in an account:
- EC2 instances and EBS volumes;
- Elastic IPs and load balancers;
- RDS instances and S3 buckets;
- DynamoDB tables, CloudFront distributions and Lambda functions.

It classifies some of them as "unused" and collects one report row `[type, id, location, metric]` per finding. It uploads the rows as a CSV report to S3, then publishes an SNS alert that holds a summary line per finding and the total count.

This project models the logic between those calls:
- the nine `get_unused_*` detectors, as filters over plain descriptors of what each `describe_*`/`list_*` call returned;
- the merge in `lambda_handler`;
- the report shaping in `save_report_to_s3`;
- the alert pieces.

Every boto3 call is an input value, and every upload or publish is an output value. Each inventory call is either a response or the exception it raised. An invocation either completes (`Invocation`: the merged findings, the `put_object` request if any, the `publish` request if any, and the 200 status) or fails with the exception that escaped.

Modules:
- `Wrappers` holds `Option`, `Result` and Python truthiness of an optional string.
- `Lists`:
  - `FilterMap` models a filtering list comprehension, together with its ordered-selection characterisation;
  - `Collect` models a loop whose step may keep, skip or raise;
  - `Join` and `Occurrences` cover joined lines.
- `Decimal` is `str(int)` and a parser that inverts it.
- `Resources` holds the resource kinds, their labels, report rows, `timedelta.days` and the boto3 response descriptors.
- `Detectors` holds the nine detectors. The loops of the source (EC2, EBS, load balancers, S3) are methods with loops, each proved equal to a specification function. The comprehensions (Elastic IP, RDS, DynamoDB, CloudFront, Lambda) are functions.
- `Report` holds the CSV table and a reader that recovers the findings from it, the upload decision, the storage line, the summary and the alert.
- `Handler` holds:
  - `lambda_handler` as the method `LambdaHandler`, proved equal to the function `Handle`;
  - the fixed detector order (`Registry`);
  - the properties of whole invocations.

Where the code and its description differ, the model follows the code:
- **Exceptions propagate.** An exception from any top-level inventory call makes the whole invocation fail, with nothing uploaded or published. The one exception is the per-bucket `list_objects_v2` probe, which sits inside a `try` and only skips that bucket. `get_bucket_location` runs outside the `try`, so its failure ends the S3 detector and the invocation.
- **Empty zone list.** A load balancer with an empty `AvailabilityZones` list raises `IndexError`, because `[0]` is read before the state check, whatever the state.
- **No upload without findings.** Nothing is uploaded when there are no findings, or when the bucket name is unset or empty. The alert then carries the "No S3 report generated" line.
- **Launch time, not stop time.** The EC2 age is measured from `LaunchTime`, not from when the instance stopped.
- **Active load balancers.** The load balancers reported are the ones whose state is `"active"`.
- **Null locations.** An S3 bucket whose `LocationConstraint` is null has location `None`. The CSV writes that as an empty cell; the summary line writes it as `None`.

## Model

| member | source | states |
|---|---|---|
| Detectors.GetUnusedEc2Instances | automated-cloud-resource-detector-lambda.py:28-44 | the nested loop over reservations and their instances returns exactly `Ec2Findings` of all instances, in reservation order |
| Detectors.Ec2FindingsExact | automated-cloud-resource-detector-lambda.py:39-42 | an instance gives a row exactly when its whole days since launch are at least the threshold, and that row's metric is the day count; lists are handled item by item in order |
| Detectors.Ec2ThresholdBoundary | automated-cloud-resource-detector-lambda.py:40-41 | exactly `d` days after launch the instance is reported with `d` days; one second earlier it is not (the comparison is inclusive and the days are floored) |
| Detectors.Ec2RowsReportAge | automated-cloud-resource-detector-lambda.py:35-42 | every EC2 row is type EC2, carries a day count at least the threshold, and names an input instance by id and zone |
| Detectors.FlattenAppend | automated-cloud-resource-detector-lambda.py:33-34 | walking reservations then instances distributes over concatenation of the reservation list |
| Detectors.GetUnusedEbsVolumes | automated-cloud-resource-detector-lambda.py:46-59 | the volume loop returns exactly `EbsFindings` of the volumes, in order |
| Detectors.EbsFindingsExact | automated-cloud-resource-detector-lambda.py:56-57 | a volume gives a row exactly when its whole days since creation are at least the threshold; the row's metric is "-" |
| Detectors.EbsMetricIsDash | automated-cloud-resource-detector-lambda.py:57 | every EBS row has metric "-" (never the day count) and names an input volume |
| Detectors.EbsThresholdBoundary | automated-cloud-resource-detector-lambda.py:56 | exactly `d` days after creation the volume is reported; one second earlier it is not |
| Detectors.GetUnusedElasticIps | automated-cloud-resource-detector-lambda.py:61-64 | a row is reported exactly for each address without an `InstanceId`, carrying its public IP and network border group, and there are no more rows than addresses |
| Detectors.ElasticIpsExact | automated-cloud-resource-detector-lambda.py:61-64 | an address gives a row exactly when it has no `InstanceId`, and addresses are handled one by one, in order |
| Detectors.GetUnusedLoadBalancers | automated-cloud-resource-detector-lambda.py:66-79 | the load-balancer loop returns exactly `LoadBalancerFindings`, including stopping with an exception at the first load balancer without zones |
| Detectors.LoadBalancerFindingsExact | automated-cloud-resource-detector-lambda.py:71-77 | one load balancer raises when it has no zones, else gives a row with its first zone exactly when its state is "active"; lists are handled in order and a raise anywhere fails the whole list |
| Detectors.LoadBalancerRaisesIff | automated-cloud-resource-detector-lambda.py:73 | the detector raises exactly when some load balancer has an empty zone list |
| Detectors.GetUnusedRdsInstances | automated-cloud-resource-detector-lambda.py:81-84 | a row is reported exactly for each stopped database instance, carrying its identifier and availability zone, and there are no more rows than instances |
| Detectors.RdsInstancesExact | automated-cloud-resource-detector-lambda.py:81-84 | a database instance gives a row exactly when its status is "stopped", in order |
| Detectors.GetUnusedS3Buckets | automated-cloud-resource-detector-lambda.py:86-102 | the bucket loop, with its `continue` on a failed probe, returns exactly `S3Findings` |
| Detectors.S3FindingsExact | automated-cloud-resource-detector-lambda.py:91-100 | one bucket: a failed location lookup raises; a failed probe or a probe that finds contents skips it; an empty probe reports it with its location; lists are handled in order |
| Detectors.S3ProbeFailureSkipsBucket | automated-cloud-resource-detector-lambda.py:95-100 | a bucket whose probe raises is dropped and the buckets around it are reported as if it were absent |
| Detectors.S3RaisesIff | automated-cloud-resource-detector-lambda.py:93 | the detector raises exactly when some bucket's location lookup raises |
| Detectors.GetUnusedDynamoDbTables | automated-cloud-resource-detector-lambda.py:104-107 | one row per table, in order, with the table's name, location "-" and metric "-" |
| Detectors.GetUnusedCloudFrontDistributions | automated-cloud-resource-detector-lambda.py:109-117 | a missing `DistributionList` or `Items` gives no rows; otherwise at most one row per item |
| Detectors.CloudFrontDistributionsExact | automated-cloud-resource-detector-lambda.py:113-115 | a distribution gives a row exactly when it is disabled, in order |
| Detectors.GetUnusedLambdaFunctions | automated-cloud-resource-detector-lambda.py:119-122 | one row per function, in order, with the function's name, location "-" and metric "-" |
| Lists.FilterMapSelects | automated-cloud-resource-detector-lambda.py:64 | a filtering comprehension keeps exactly the items that pass, in input order: the k-th output comes from the k-th kept position |
| Lists.FilterMapMember | automated-cloud-resource-detector-lambda.py:84 | a value is in a filtering comprehension's output exactly when some kept input maps to it |
| Lists.CollectRaisesIff | automated-cloud-resource-detector-lambda.py:71-78 | a loop whose iterations may raise raises exactly when some item's iteration raises |
| Lists.CollectAppend | automated-cloud-resource-detector-lambda.py:91-100 | such a loop over two lists concatenated keeps the rows of both, and raises if either part raises |
| Resources.WholeDays | automated-cloud-resource-detector-lambda.py:40 | `timedelta.days` of a second difference: the largest `d` with `d * 86400` seconds not exceeding it |
| Decimal.IntToStringRoundTrip | automated-cloud-resource-detector-lambda.py:132 | the decimal text written for an EC2 day count parses back to the same integer |
| Report.ReportTable | automated-cloud-resource-detector-lambda.py:131-132 | the table is the header followed by one row of cells per finding, so it has one more row than there are findings |
| Report.CsvCells | automated-cloud-resource-detector-lambda.py:132 | each finding is written as four cells, one per header column |
| Report.ReportTableRoundTrip | automated-cloud-resource-detector-lambda.py:131-132 | reading the table back gives the findings, in order |
| Report.NoneAndEmptyLocationCollide | automated-cloud-resource-detector-lambda.py:132 | a `None` location and an empty-string location are written as the same cell |
| Report.SaveReportToS3 | automated-cloud-resource-detector-lambda.py:126-143 | an upload happens exactly when the bucket name is set and non-empty and there are findings; it goes to that bucket under the dated key, as text/csv, with the report table as body |
| Report.ReportPath | automated-cloud-resource-detector-lambda.py:141-143 | a path is returned exactly when an upload happened, and it is `s3://<bucket>/<key>` |
| Report.StorageLine | automated-cloud-resource-detector-lambda.py:170 | the "No S3 report generated" line appears exactly when no path was returned; otherwise the line quotes the path |
| Report.SummaryText | automated-cloud-resource-detector-lambda.py:173-182 | the "No unused resources found" sentinel appears exactly when there are no findings; otherwise the summary is the joined lines |
| Report.SummaryHasOneLinePerFinding | automated-cloud-resource-detector-lambda.py:173 | with newline-free ids and locations, the summary has exactly one newline fewer than there are findings |
| Report.SummaryStartsWithBullet | automated-cloud-resource-detector-lambda.py:173 | a non-empty summary starts with the bullet of its first line |
| Report.ComposeAlert | automated-cloud-resource-detector-lambda.py:168-185 | the alert's total is the number of findings, its summary is the sentinel exactly when there are none, and its storage line is the no-report line exactly when there is no path |
| Report.SendAlert | automated-cloud-resource-detector-lambda.py:145-150 | a publish happens exactly when the topic ARN is set and non-empty, with that topic, subject and message |
| Handler.Deliver | automated-cloud-resource-detector-lambda.py:168-189 | after the scan: upload exactly when a bucket is set and findings exist, with the report table; publish exactly when a topic is set, with the total and the two iff-selected lines; status 200 |
| Handler.Scan | automated-cloud-resource-detector-lambda.py:157-166 | `report_data` after the nine `extend` calls, or the exception that escaped; a failure names a detector whose call raised |
| Handler.Handle | automated-cloud-resource-detector-lambda.py:154-189 | the whole invocation: a failure names a detector whose call raised; a completed one returns status 200, uploads exactly when a bucket is set and there are findings, and publishes exactly when a topic is set |
| Handler.RunDetector | automated-cloud-resource-detector-lambda.py:158-166 | calling one detector gives `Detect` for its kind: its rows, or the exception its calls raise |
| Handler.CollectFindings | automated-cloud-resource-detector-lambda.py:157-166 | the nine `extend` calls give exactly `Scan`: the detectors' rows in registry order, or the first exception |
| Handler.DeliverFindings | automated-cloud-resource-detector-lambda.py:168-189 | the rest of the handler computes exactly `Deliver` of the findings |
| Handler.LambdaHandler | automated-cloud-resource-detector-lambda.py:154-189 | the handler method computes exactly `Handle` |
| Handler.ScanIsConcatenation | automated-cloud-resource-detector-lambda.py:157-166 | the scan succeeds exactly when no detector raises, and then the report is EC2 + EBS + Elastic IP + load balancer + RDS + S3 + DynamoDB + CloudFront + Lambda rows, in that order |
| Handler.ScanFailsAt | automated-cloud-resource-detector-lambda.py:157-166 | when the detectors before position n answer and the one at n raises, the invocation fails with that detector's exception |
| Handler.ScanFailureIsFirstRaise | automated-cloud-resource-detector-lambda.py:157-166 | a failed scan names the first detector, in order, whose call raised |
| Handler.HandleSucceedsIff | automated-cloud-resource-detector-lambda.py:154-189 | an invocation completes exactly when no detector raises (a detector raises on a failed top-level inventory call, a failed `get_bucket_location`, or a load balancer without zones), and its findings are then the merged report |
| Handler.DetectRowsHaveKind | automated-cloud-resource-detector-lambda.py:28-122 | every row a detector reports carries that detector's resource type |
| Handler.FindingsOfKind | automated-cloud-resource-detector-lambda.py:157-166 | the merged report's rows of any one type are exactly that type's detector output, in order |
| Handler.ScanWithGroups | automated-cloud-resource-detector-lambda.py:157-166 | a merge over distinct kinds whose rows are tagged keeps each kind's rows recoverable |
| Handler.RegistryHasEveryKind | automated-cloud-resource-detector-lambda.py:158-166 | all nine kinds are scanned |
| Handler.EmptyAccount | automated-cloud-resource-detector-lambda.py:154-189 | an empty account gives no findings and no upload, and the alert holds the no-report line, the sentinel and total 0 |
| Handler.StoppedInstanceScenario | automated-cloud-resource-detector-lambda.py:28-44 | an instance launched ten days ago, with a seven-day threshold, is the only finding, reported with 10 days, and the uploaded table is the header plus its row |

## Left out

- I/O. The boto3 clients and every `describe_*`, `list_*`, `get_bucket_location`, `put_object` and `publish` call are not modelled. Their responses or exceptions are inputs, and the upload and the publish are returned as requests.
- Failing uploads and publishes. An exception from `put_object` or `publish` is not modelled: `SaveReportToS3` and `SendAlert` always succeed.
- Pagination. Every call is taken to return its full result in one response.
- Settings. `os.getenv` and `int(...)` of the settings, and their defaults of 7 days, are not modelled; the thresholds and the optional bucket and topic names are parameters.
- Time. `datetime.now` is one integer number of seconds for the whole invocation, while the source reads the clock once per item. Sub-second precision and time zones are not modelled.
- Report key date. The `strftime('%Y-%m-%d')` date of the key is a `today` string parameter.
- CSV text. The report body is the table of cells that `csv.writer` receives. Its quoting and line endings are library behaviour and left out.
- Report.ReportTableRoundTrip: requires that no location is the empty string, because the CSV writes `None` and `""` the same way (`Report.NoneAndEmptyLocationCollide`).
- Alert layout. The alert's f-string layout (indentation, emoji heading, blank lines) is not modelled. `AlertMessage` keeps its three varying parts: the storage line, the summary (or sentinel) and the total.
- Status body. The JSON status body is the constant `"Execution Completed"` in quotes, not a general `json.dumps`.
- The console message logged when no topic is set is output only and left out.
