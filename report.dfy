/** The report builder: the CSV table `save_report_to_s3` uploads, the S3 path it
    returns, and the pieces of the alert `lambda_handler` hands to `send_alert`. */
module Report {
  import opened Wrappers
  import opened Lists
  import opened Decimal
  import opened Resources

  // ---------------------------------------------------------------------------
  // The CSV table, as the list of rows csv.writer receives
  // ---------------------------------------------------------------------------

  const CsvHeader: seq<string> := ["Resource Type", "ID", "Region/Zone", "Unused Days"]

  /** csv.writer writes Python's None as an empty field. */
  function LocationCell(location: Option<string>): string
  {
    match location
    case None => ""
    case Some(s) => s
  }

  /** An int metric is written as `str(int)`; the placeholder is the string "-". */
  function MetricCell(m: Metric): string
  {
    match m
    case Days(n) => IntToString(n)
    case NoMetric => "-"
  }

  function CsvCells(r: Row): (cells: seq<string>)
    ensures |cells| == |CsvHeader|
  {
    [TypeLabel(r.kind), r.id, LocationCell(r.location), MetricCell(r.metric)]
  }

  /** `writerows(report_data)`: one CSV row per finding, in order. */
  function CsvRows(rows: seq<Row>): (table: seq<seq<string>>)
    ensures |table| == |rows|
    ensures forall k :: 0 <= k < |rows| ==> table[k] == CsvCells(rows[k])
  {
    if rows == [] then [] else [CsvCells(rows[0])] + CsvRows(rows[1..])
  }

  /** The uploaded table: the header row, then the findings in report order. */
  function ReportTable(rows: seq<Row>): (table: seq<seq<string>>)
    ensures |table| == |rows| + 1 && table[0] == CsvHeader
    ensures forall k :: 0 <= k < |rows| ==> table[k + 1] == CsvCells(rows[k])
  {
    [CsvHeader] + CsvRows(rows)
  }

  // ---------------------------------------------------------------------------
  // Reading the table back
  // ---------------------------------------------------------------------------

  function ParseKind(cell: string): Option<ResourceKind>
  {
    if cell == "EC2 Instance" then Some(Ec2Instance)
    else if cell == "EBS Volume" then Some(EbsVolume)
    else if cell == "Elastic IP" then Some(ElasticIp)
    else if cell == "Load Balancer" then Some(LoadBalancer)
    else if cell == "RDS Instance" then Some(RdsInstance)
    else if cell == "S3 Bucket" then Some(S3Bucket)
    else if cell == "DynamoDB Table" then Some(DynamoDbTable)
    else if cell == "CloudFront Distribution" then Some(CloudFrontDistribution)
    else if cell == "Lambda Function" then Some(LambdaFunction)
    else None
  }

  function ParseLocation(cell: string): Option<string>
  {
    if cell == "" then None else Some(cell)
  }

  function ParseMetric(cell: string): Option<Metric>
  {
    if cell == "-" then Some(NoMetric)
    else
      match ParseInt(cell)
      case Some(n) => Some(Days(n))
      case None => None
  }

  function ParseCsvRow(cells: seq<string>): Option<Row>
  {
    if |cells| != 4 then None
    else
      match (ParseKind(cells[0]), ParseMetric(cells[3]))
      case (Some(k), Some(m)) => Some(Row(k, cells[1], ParseLocation(cells[2]), m))
      case _ => None
  }

  function ParseCsvRows(table: seq<seq<string>>): Option<seq<Row>>
  {
    if table == [] then Some([])
    else
      match (ParseCsvRow(table[0]), ParseCsvRows(table[1..]))
      case (Some(r), Some(rest)) => Some([r] + rest)
      case _ => None
  }

  /** The findings written in a table whose first row is the header. */
  function ParseReportTable(table: seq<seq<string>>): Option<seq<Row>>
  {
    if table == [] || table[0] != CsvHeader then None else ParseCsvRows(table[1..])
  }

  lemma ParseKindOfLabel(k: ResourceKind)
    ensures ParseKind(TypeLabel(k)) == Some(k)
  {
  }

  /** Each finding's cells read back as that finding, as long as its location is not
      the empty string (which the CSV cannot tell apart from None). */
  lemma CsvCellsRoundTrip(r: Row)
    requires r.location != Some("")
    ensures ParseCsvRow(CsvCells(r)) == Some(r)
  {
    ParseKindOfLabel(r.kind);
    if r.metric.Days? {
      IntToStringRoundTrip(r.metric.days);
    }
  }

  /** The table is a lossless encoding of the findings (empty-string locations aside):
      parsing it gives back the findings, in order. */
  lemma {:induction false} ReportTableRoundTrip(rows: seq<Row>)
    requires forall k :: 0 <= k < |rows| ==> rows[k].location != Some("")
    ensures ParseReportTable(ReportTable(rows)) == Some(rows)
  {
    CsvRowsRoundTrip(rows);
    assert ReportTable(rows)[1..] == CsvRows(rows);
  }

  lemma {:induction false} CsvRowsRoundTrip(rows: seq<Row>)
    requires forall k :: 0 <= k < |rows| ==> rows[k].location != Some("")
    ensures ParseCsvRows(CsvRows(rows)) == Some(rows)
  {
    if rows != [] {
      CsvCellsRoundTrip(rows[0]);
      CsvRowsRoundTrip(rows[1..]);
      assert CsvRows(rows)[1..] == CsvRows(rows[1..]);
      assert [rows[0]] + rows[1..] == rows;
    }
  }

  /** The one loss: a None location and an empty-string location write the same cell. */
  lemma NoneAndEmptyLocationCollide(k: ResourceKind, id: string, m: Metric)
    ensures CsvCells(Row(k, id, None, m)) == CsvCells(Row(k, id, Some(""), m))
  {
  }

  // ---------------------------------------------------------------------------
  // save_report_to_s3
  // ---------------------------------------------------------------------------

  /** The object key; `today` is the invocation date already written as YYYY-MM-DD. */
  function ReportKey(today: string): string
  {
    "unused-resources-report-" + today + ".csv"
  }

  /** One `put_object` request. */
  datatype PutObject = PutObject(bucket: string, key: string, body: seq<seq<string>>, contentType: string)

  /** The upload `save_report_to_s3` issues, if any: only when a bucket name is set
      (and not empty) and there is at least one finding. */
  function SaveReportToS3(reportData: seq<Row>, bucketName: Option<string>, today: string): (put: Option<PutObject>)
    ensures put.Some? <==> Truthy(bucketName) && reportData != []
    ensures put.Some? ==> (put.value.bucket == bucketName.value && put.value.key == ReportKey(today)
      && put.value.contentType == "text/csv" && put.value.body == ReportTable(reportData))
  {
    if Truthy(bucketName) && reportData != [] then
      Some(PutObject(bucketName.value, ReportKey(today), ReportTable(reportData), "text/csv"))
    else
      None
  }

  /** The value `save_report_to_s3` returns: `s3://<bucket>/<key>` after an upload, else None. */
  function ReportPath(put: Option<PutObject>): (path: Option<string>)
    ensures path.Some? <==> put.Some?
    ensures put.Some? ==> path.value == "s3://" + put.value.bucket + "/" + put.value.key
  {
    match put
    case None => None
    case Some(p) => Some("s3://" + p.bucket + "/" + p.key)
  }

  // ---------------------------------------------------------------------------
  // The alert pieces
  // ---------------------------------------------------------------------------

  const SavedLinePrefix: string := "\U{1F4C2} **Report Saved To S3**: `"
  const NoReportLine: string := "\U{26A0}\U{FE0F} **No S3 report generated.**"
  const NoUnusedSentinel: string := "\U{1F389} No unused resources found!"
  const AlertSubject: string := "AWS Unused Resources Report"

  /** The storage line: the "saved to" variant naming the path exactly when a path was
      returned, the "no report" variant otherwise. */
  function StorageLine(reportPath: Option<string>): (line: string)
    ensures line == NoReportLine <==> !Truthy(reportPath)
    ensures Truthy(reportPath) ==>
      |line| > |SavedLinePrefix| && line[|SavedLinePrefix|..|line| - 1] == reportPath.value
  {
    if Truthy(reportPath) then
      var line := SavedLinePrefix + reportPath.value + "`";
      assert line[0] == SavedLinePrefix[0] != NoReportLine[0];
      line
    else
      NoReportLine
  }

  /** An f-string renders Python's None as "None". */
  function LocationText(location: Option<string>): string
  {
    match location
    case None => "None"
    case Some(s) => s
  }

  function SummaryLine(r: Row): string
  {
    "\U{2022} " + TypeLabel(r.kind) + ": " + r.id + " (Region: " + LocationText(r.location) + ")"
  }

  function SummaryLines(rows: seq<Row>): (lines: seq<string>)
    ensures |lines| == |rows|
  {
    seq(|rows|, k requires 0 <= k < |rows| => SummaryLine(rows[k]))
  }

  /** `summary_message`: the summary lines joined by newlines, in report order. */
  function SummaryMessage(rows: seq<Row>): string
  {
    Join(SummaryLines(rows), "\n")
  }

  /** What the alert shows as its summary: the sentinel exactly when there are no findings. */
  function SummaryText(rows: seq<Row>): (text: string)
    ensures text == NoUnusedSentinel <==> rows == []
    ensures rows != [] ==> text == SummaryMessage(rows)
  {
    var message := SummaryMessage(rows);
    assert rows != [] ==> message != "" && message[0] == '\U{2022}' by {
      if rows != [] {
        SummaryStartsWithBullet(rows);
      }
    }
    if message != "" then message else NoUnusedSentinel
  }

  lemma SummaryStartsWithBullet(rows: seq<Row>)
    requires rows != []
    ensures SummaryMessage(rows) != "" && SummaryMessage(rows)[0] == '\U{2022}'
  {
  }

  lemma LabelHasNoNewline(k: ResourceKind)
    ensures '\n' !in TypeLabel(k)
  {
  }

  /** The summary has one line per finding: when no id or location carries a newline,
      the joined text holds exactly one newline fewer than there are findings. */
  lemma SummaryHasOneLinePerFinding(rows: seq<Row>)
    requires rows != []
    requires forall k :: 0 <= k < |rows| ==> '\n' !in rows[k].id && '\n' !in LocationText(rows[k].location)
    ensures Occurrences(SummaryText(rows), '\n') == |rows| - 1
  {
    var lines := SummaryLines(rows);
    forall k | 0 <= k < |lines| ensures '\n' !in lines[k] {
      SummaryLineHasNoNewline(rows[k]);
    }
    JoinSeparatorCount(lines, '\n');
  }

  lemma SummaryLineHasNoNewline(r: Row)
    requires '\n' !in r.id && '\n' !in LocationText(r.location)
    ensures '\n' !in SummaryLine(r)
  {
    LabelHasNoNewline(r.kind);
    var head := "\U{2022} " + TypeLabel(r.kind) + ": ";
    var tail := " (Region: " + LocationText(r.location) + ")";
    assert '\n' !in head && '\n' !in tail;
    assert SummaryLine(r) == head + r.id + tail;
  }

  /** The alert body, as its three components. */
  datatype AlertMessage = AlertMessage(storageLine: string, summary: string, total: nat)

  function ComposeAlert(reportData: seq<Row>, reportPath: Option<string>): (alert: AlertMessage)
    ensures alert.total == |reportData|
    ensures alert.summary == NoUnusedSentinel <==> reportData == []
    ensures alert.storageLine == NoReportLine <==> !Truthy(reportPath)
  {
    AlertMessage(StorageLine(reportPath), SummaryText(reportData), |reportData|)
  }

  /** One `publish` request. */
  datatype Publication = Publication(topicArn: string, subject: string, message: AlertMessage)

  /** `send_alert`: publishes only when a topic ARN is set (and not empty). */
  function SendAlert(topicArn: Option<string>, subject: string, message: AlertMessage): (p: Option<Publication>)
    ensures p.Some? <==> Truthy(topicArn)
    ensures p.Some? ==> p.value.topicArn == topicArn.value && p.value.subject == subject && p.value.message == message
  {
    if Truthy(topicArn) then Some(Publication(topicArn.value, subject, message)) else None
  }
}
