/** BatchScanner of examples/batch_scanning.py: the target file filter,
    one record per target whatever happens to its scan, and the counts
    and rows of the summary, CSV, HTML and vulnerability reports. The
    scanner and the vulnerability detector are oracles. */
module BatchScanning {
  import opened Wrappers
  import opened Text

  // ---------------------------------------------------------------------
  // records

  /** The batch_scan_metadata dictionary. */
  datatype Metadata = Metadata(target: string, scanTime: string, status: string, error: Option<string>)

  /** One port entry of a host: the fields the reports read, None when
      the key is missing. */
  datatype PortData = PortData(state: Option<string>, name: Option<string>,
                               product: Option<string>, version: Option<string>)

  /** A host entry of the scan map: status.state, the tcp ports in
      dictionary order and the number of udp ports. */
  datatype Host = Host(state: Option<string>, tcp: seq<(nat, PortData)>, udpCount: nat)

  /** The vulnerability_analysis dictionary built from a detector report;
      the risk score is carried as a number the model never computes
      with. */
  datatype VulnAnalysis = VulnAnalysis(total: int, riskScore: real, critical: int, high: int,
                                       medium: int, low: int, recommendations: seq<string>)

  /** A result record: its metadata, the 'scan' map as (host, entry)
      pairs in dictionary order, 'stats' as (uphosts, totalhosts), and the
      vulnerability analysis, each None when the key is absent. 'stats' is
      also None when it is an empty dictionary, which is falsy as well. */
  datatype BatchRecord = BatchRecord(metadata: Option<Metadata>, scan: Option<seq<(string, Host)>>,
                                     stats: Option<(int, int)>, vuln: Option<VulnAnalysis>)

  const Completed := "completed"
  const Failed := "failed"
  const Excepted := "exception"

  function TargetOf(r: BatchRecord): string
  {
    if r.metadata.Some? then r.metadata.value.target else "unknown"
  }

  function StatusOf(r: BatchRecord): string
  {
    if r.metadata.Some? then r.metadata.value.status else "unknown"
  }

  function ScanTimeOf(r: BatchRecord): string
  {
    if r.metadata.Some? then r.metadata.value.scanTime else ""
  }

  // ---------------------------------------------------------------------
  // load_targets_from_file

  /** The kept lines: stripped, non-empty and not starting with '#'. */
  function TargetLines(lines: seq<string>): (targets: seq<string>)
    ensures |targets| <= |lines|
    ensures forall t | t in targets :: IsTargetLine(t)
    decreases |lines|
  {
    if lines == [] then []
    else
      var line := Strip(lines[|lines| - 1]);
      var kept := line != "" && !StartsWith(line, "#");
      assert kept ==> line[0] != '#' && IsTargetLine(line);
      TargetLines(lines[..|lines| - 1]) + (if kept then [line] else [])
  }

  /** load_targets_from_file: the file's lines (None when it does not
      exist) filtered line by line. */
  method LoadTargetsFromFile(path: string, file: Option<seq<string>>) returns (r: Result<seq<string>, string>)
    ensures file.None? ==> r == Failure("Targets file not found: " + path)
    ensures file.Some? ==> r == Success(TargetLines(file.value))
  {
    if file.None? {
      return Failure("Targets file not found: " + path);
    }
    var lines := file.value;
    var targets: seq<string> := [];
    for i := 0 to |lines|
      invariant targets == TargetLines(lines[..i])
    {
      assert lines[..i + 1][..i] == lines[..i];
      var line := Strip(lines[i]);
      if line != "" && !StartsWith(line, "#") {
        targets := targets + [line];
      }
    }
    assert lines[..|lines|] == lines;
    return Success(targets);
  }

  /** A line load_targets_from_file keeps as it is. */
  predicate IsTargetLine(t: string)
  {
    t != "" && t[0] != '#' && NoSpaceAtEnds(t)
  }

  /** The loaded targets are exactly the kept lines: each is a stripped,
      non-empty line not starting with '#', and the lines are kept in
      order with duplicates. */
  lemma TargetLinesFacts(lines: seq<string>)
    ensures |TargetLines(lines)| <= |lines|
    ensures forall t | t in TargetLines(lines) :: t != "" && t[0] != '#' && NoSpaceAtEnds(t)
    ensures TargetLines(lines) == lines <==>
      forall i | 0 <= i < |lines| :: lines[i] != "" && lines[i][0] != '#' && NoSpaceAtEnds(lines[i])
  {
    if forall i | 0 <= i < |lines| :: IsTargetLine(lines[i]) {
      TargetLinesKeepAll(lines);
    }
    if TargetLines(lines) == lines {
      forall i | 0 <= i < |lines| ensures IsTargetLine(lines[i]) {
        assert lines[i] in TargetLines(lines);
      }
    }
  }

  /** Lines that are all kept come back unchanged. */
  lemma {:induction false} TargetLinesKeepAll(lines: seq<string>)
    requires forall i | 0 <= i < |lines| :: IsTargetLine(lines[i])
    ensures TargetLines(lines) == lines
    decreases |lines|
  {
    if lines != [] {
      var init := lines[..|lines| - 1];
      var last := lines[|lines| - 1];
      assert forall i | 0 <= i < |init| :: init[i] == lines[i];
      TargetLinesKeepAll(init);
      StripUnchanged(last);
      assert !StartsWith(last, "#");
      assert lines == init + [last];
    }
  }

  /** Kept lines of two files read one after the other. */
  lemma {:induction false} TargetLinesAppend(a: seq<string>, b: seq<string>)
    ensures TargetLines(a + b) == TargetLines(a) + TargetLines(b)
    decreases |b|
  {
    if b == [] {
      assert a + b == a;
    } else {
      var n := |b| - 1;
      assert (a + b)[..|a + b| - 1] == a + b[..n];
      TargetLinesAppend(a, b[..n]);
    }
  }

  // ---------------------------------------------------------------------
  // scan_single_target

  /** What constructing the scanner and calling its scan returned. */
  datatype ScanOutcome =
    | Returned(scan: Option<seq<(string, Host)>>, stats: Option<(int, int)>)
    | Threw(message: string)

  /** What the vulnerability detector returned. */
  datatype DetectorOutcome = Report(analysis: VulnAnalysis) | DetectorThrew(message: string)

  /** SmartScanner takes no configuration, so SmartScanner(self.config)
      raises this TypeError before any scan. The text is that of Python 3.10
      and later; Python 3.8 and 3.9 leave out the class name and say
      "__init__() takes 1 positional argument but 2 were given". */
  const SmartScannerTypeError := "SmartScanner.__init__() takes 1 positional argument but 2 were given"

  /** scan_single_target for one target: never raises; any exception
      becomes a 'failed' record carrying its text. */
  function ScanSingleTarget(target: string, aiScan: bool, vulnScan: bool,
                            scanner: string -> ScanOutcome, detector: string -> DetectorOutcome,
                            now: string): (r: BatchRecord)
    ensures r.metadata.Some? && r.metadata.value.target == target && r.metadata.value.scanTime == now
    ensures r.metadata.value.status == Completed <==>
      !aiScan && scanner(target).Returned? && (vulnScan ==> detector(target).Report?)
    ensures r.metadata.value.status != Completed ==>
      r.metadata.value.status == Failed && r.metadata.value.error.Some? && r.scan.None? && r.vuln.None?
    ensures aiScan ==> r.metadata.value.error == Some(SmartScannerTypeError)
  {
    var failed := (msg: string) => BatchRecord(Some(Metadata(target, now, Failed, Some(msg))), None, None, None);
    if aiScan then failed(SmartScannerTypeError)
    else match scanner(target)
      case Threw(message) => failed(message)
      case Returned(scan, stats) =>
        if vulnScan then
          match detector(target)
          case DetectorThrew(message) => failed(message)
          case Report(analysis) =>
            BatchRecord(Some(Metadata(target, now, Completed, None)), scan, stats, Some(analysis))
        else BatchRecord(Some(Metadata(target, now, Completed, None)), scan, stats, None)
  }

  /** The configuration and oracles shared by every target of a batch. */
  datatype BatchConfig = BatchConfig(aiScan: bool, vulnScan: bool, scanner: string -> ScanOutcome,
                                     detector: string -> DetectorOutcome)

  function RecordFor(target: string, c: BatchConfig, now: string): (r: BatchRecord)
    ensures TargetOf(r) == target && ScanTimeOf(r) == now
    ensures StatusOf(r) == Completed || StatusOf(r) == Failed
  {
    ScanSingleTarget(target, c.aiScan, c.vulnScan, c.scanner, c.detector, now)
  }

  /** scan_targets_sequential: the i-th target is scanned at times[i]. */
  method ScanTargetsSequential(targets: seq<string>, c: BatchConfig, times: seq<string>)
    returns (results: seq<BatchRecord>)
    requires |times| == |targets|
    ensures |results| == |targets|
    ensures forall i | 0 <= i < |targets| :: results[i] == RecordFor(targets[i], c, times[i])
    ensures RecordTargets(results) == targets
  {
    results := [];
    for i := 0 to |targets|
      invariant |results| == i
      invariant forall j | 0 <= j < i :: results[j] == RecordFor(targets[j], c, times[j])
    {
      var r := RecordFor(targets[i], c, times[i]);
      results := results + [r];
    }
  }

  /** The record an exception re-raised by future.result() becomes. */
  function ExceptionRecord(target: string, now: string, message: string): BatchRecord
  {
    BatchRecord(Some(Metadata(target, now, Excepted, Some(message))), None, None, None)
  }

  /** The metadata targets of records, in order. */
  function RecordTargets(records: seq<BatchRecord>): (ts: seq<string>)
    ensures |ts| == |records| && forall k | 0 <= k < |records| :: ts[k] == TargetOf(records[k])
  {
    seq(|records|, k requires 0 <= k < |records| => TargetOf(records[k]))
  }

  /** The record collected for the future of target i. */
  function Collected(targets: seq<string>, c: BatchConfig, raised: seq<Option<string>>, times: seq<string>, i: nat): BatchRecord
    requires i < |targets| == |raised| == |times|
  {
    if raised[i].Some? then ExceptionRecord(targets[i], times[i], raised[i].value)
    else RecordFor(targets[i], c, times[i])
  }

  /** scan_targets_parallel with the thread pool left out: order[k] is the
      index of the k-th future to complete, raised[i] the exception its
      result() re-raised if any, times[i] its scan time. */
  method ScanTargetsParallel(targets: seq<string>, c: BatchConfig, order: seq<nat>,
                             raised: seq<Option<string>>, times: seq<string>)
    returns (results: seq<BatchRecord>)
    requires |order| == |targets| == |raised| == |times|
    requires forall k | 0 <= k < |order| :: order[k] < |targets|
    requires forall i | 0 <= i < |targets| :: i in order
    ensures |results| == |targets|
    ensures forall k | 0 <= k < |order| :: TargetOf(results[k]) == targets[order[k]]
    ensures forall k | 0 <= k < |order| :: results[k] == Collected(targets, c, raised, times, order[k])
    ensures forall i | 0 <= i < |targets| :: targets[i] in RecordTargets(results)
  {
    results := [];
    for k := 0 to |order|
      invariant |results| == k
      invariant forall m | 0 <= m < k :: results[m] == Collected(targets, c, raised, times, order[m])
    {
      var i := order[k];
      var r;
      if raised[i].Some? {
        r := ExceptionRecord(targets[i], times[i], raised[i].value);
      } else {
        r := RecordFor(targets[i], c, times[i]);
      }
      results := results + [r];
    }
    forall i | 0 <= i < |targets|
      ensures targets[i] in RecordTargets(results)
    {
      assert i in order;
      var k :| 0 <= k < |order| && order[k] == i;
      assert RecordTargets(results)[k] == targets[i];
    }
  }

  // ---------------------------------------------------------------------
  // _generate_summary_report and the HTML counts

  function CountStatus(records: seq<BatchRecord>, status: string): (n: nat)
    ensures n <= |records|
    decreases |records|
  {
    if records == [] then 0
    else CountStatus(records[..|records| - 1], status) + (if StatusOf(records[|records| - 1]) == status then 1 else 0)
  }

  datatype BatchSummary = BatchSummary(total: nat, successful: nat, failed: nat)

  /** The batch_scan_summary counts: total, 'completed', and 'failed' or
      'exception'. */
  function SummaryCounts(records: seq<BatchRecord>): (s: BatchSummary)
    ensures s.total == |records| && s.successful + s.failed <= s.total
  {
    StatusCountsBound(records);
    BatchSummary(|records|, CountStatus(records, Completed),
                 CountStatus(records, Failed) + CountStatus(records, Excepted))
  }

  /** The three statuses are distinct, so their counts add up to at most
      the number of records. */
  lemma {:induction false} StatusCountsBound(records: seq<BatchRecord>)
    ensures CountStatus(records, Completed) + CountStatus(records, Failed) + CountStatus(records, Excepted) <= |records|
    decreases |records|
  {
    if records != [] {
      StatusCountsBound(records[..|records| - 1]);
    }
  }

  /** A record of scan_single_target or of the exception path has one of
      the three statuses. */
  predicate FromBatchPaths(r: BatchRecord)
  {
    StatusOf(r) == Completed || StatusOf(r) == Failed || StatusOf(r) == Excepted
  }

  /** When every record comes from the batch paths, successful and failed
      scans add up to the total. */
  lemma {:induction false} SummaryPartition(records: seq<BatchRecord>)
    requires forall i | 0 <= i < |records| :: FromBatchPaths(records[i])
    ensures SummaryCounts(records).successful + SummaryCounts(records).failed == |records|
    decreases |records|
  {
    if records != [] {
      var init := records[..|records| - 1];
      assert forall i | 0 <= i < |init| :: init[i] == records[i];
      SummaryPartition(init);
    }
  }

  lemma SequentialFromBatchPaths(targets: seq<string>, c: BatchConfig, times: seq<string>, results: seq<BatchRecord>)
    requires |times| == |targets| == |results|
    requires forall i | 0 <= i < |targets| :: results[i] == RecordFor(targets[i], c, times[i])
    ensures forall i | 0 <= i < |results| :: FromBatchPaths(results[i])
    ensures SummaryCounts(results).successful + SummaryCounts(results).failed == |targets|
  {
    SummaryPartition(results);
  }

  /** A target's entry in target_results. */
  datatype TargetSummary = TargetSummary(target: string, status: string, scanTime: string,
                                         hosts: Option<(int, int)>, vuln: Option<(int, real, int, int)>)

  /** The target_results list, one entry per record in order. */
  function TargetSummaries(records: seq<BatchRecord>): (ts: seq<TargetSummary>)
    ensures |ts| == |records|
    ensures forall i | 0 <= i < |records| :: ts[i].target == TargetOf(records[i]) && ts[i].status == StatusOf(records[i])
    ensures forall i | 0 <= i < |records| :: ts[i].vuln.Some? <==> records[i].vuln.Some?
    decreases |records|
  {
    if records == [] then []
    else
      var r := records[|records| - 1];
      TargetSummaries(records[..|records| - 1]) +
        [TargetSummary(TargetOf(r), StatusOf(r), ScanTimeOf(r), r.stats,
                       if r.vuln.Some? then Some((r.vuln.value.total, r.vuln.value.riskScore,
                                                  r.vuln.value.critical, r.vuln.value.high))
                       else None)]
  }

  /** The number of tcp entries of the hosts other than 'target'. */
  function TcpEntries(hosts: seq<(string, Host)>): nat
    decreases |hosts|
  {
    if hosts == [] then 0
    else
      var (ip, h) := hosts[|hosts| - 1];
      TcpEntries(hosts[..|hosts| - 1]) + (if ip == "target" then 0 else |h.tcp|)
  }

  datatype HtmlCounts = HtmlCounts(total: nat, successful: nat, failed: int, openPorts: nat)

  function OpenPortsFound(records: seq<BatchRecord>): nat
    decreases |records|
  {
    if records == [] then 0
    else
      var r := records[|records| - 1];
      OpenPortsFound(records[..|records| - 1]) +
        (if StatusOf(r) == Completed && r.scan.Some? then TcpEntries(r.scan.value) else 0)
  }

  /** The three stat boxes of _generate_html_report. */
  function HtmlStats(records: seq<BatchRecord>): (h: HtmlCounts)
    ensures h.successful == SummaryCounts(records).successful
    ensures h.successful + h.failed == h.total == |records|
  {
    var ok := CountStatus(records, Completed);
    HtmlCounts(|records|, ok, |records| - ok, OpenPortsFound(records))
  }

  /** The HTML failed count agrees with the summary when every record
      comes from the batch paths. */
  lemma HtmlFailedAgrees(records: seq<BatchRecord>)
    requires forall i | 0 <= i < |records| :: FromBatchPaths(records[i])
    ensures HtmlStats(records).failed == SummaryCounts(records).failed
  {
    SummaryPartition(records);
  }

  /** A record with a status outside the three makes the HTML failed count
      exceed the summary's. */
  lemma HtmlFailedCountsOtherStatuses()
    ensures var rs := [BatchRecord(None, None, None, None)];
      HtmlStats(rs).failed == 1 && SummaryCounts(rs).failed == 0
  {
    var rs := [BatchRecord(None, None, None, None)];
    assert rs[..0] == [];
    assert StatusOf(rs[0]) == "unknown";
  }

  // ---------------------------------------------------------------------
  // _generate_csv_report

  const CsvHeader := ["Target", "Status", "Scan Time", "Host IP", "Host Status", "Port", "Protocol",
                      "State", "Service", "Product", "Version", "Vulnerability Count", "Risk Score"]

  /** The per-record columns of every row of a record. */
  datatype RowContext = RowContext(target: string, status: string, scanTime: string,
                                   vulnCount: int, riskScore: real)

  datatype CsvRow = CsvRow(target: string, status: string, scanTime: string, hostIp: string,
                           hostStatus: string, port: string, protocol: string, state: string,
                           service: string, product: string, version: string,
                           vulnCount: int, riskScore: real)

  function ContextOf(r: BatchRecord): RowContext
  {
    RowContext(TargetOf(r), StatusOf(r), ScanTimeOf(r),
               if r.vuln.Some? then r.vuln.value.total else 0,
               if r.vuln.Some? then r.vuln.value.riskScore else 0.0)
  }

  /** The row carries the record columns of c. */
  predicate InContext(row: CsvRow, c: RowContext)
  {
    row.target == c.target && row.status == c.status && row.scanTime == c.scanTime
  }

  /** The row carries r's target, status and scan time. */
  predicate RowOf(row: CsvRow, r: BatchRecord)
  {
    InContext(row, ContextOf(r))
  }

  function PortRow(c: RowContext, ip: string, hostStatus: string, port: nat, p: PortData): CsvRow
  {
    CsvRow(c.target, c.status, c.scanTime, ip, hostStatus, NatToString(port), "tcp",
           p.state.UnwrapOr(""), p.name.UnwrapOr(""), p.product.UnwrapOr(""), p.version.UnwrapOr(""),
           c.vulnCount, c.riskScore)
  }

  function TcpRows(c: RowContext, ip: string, hostStatus: string, tcp: seq<(nat, PortData)>): (rows: seq<CsvRow>)
    ensures |rows| == |tcp|
    ensures forall row | row in rows :: InContext(row, c)
    decreases |tcp|
  {
    if tcp == [] then []
    else
      var n := |tcp| - 1;
      TcpRows(c, ip, hostStatus, tcp[..n]) + [PortRow(c, ip, hostStatus, tcp[n].0, tcp[n].1)]
  }

  /** The rows of one host: one per tcp port, or a single blank-port row
      when the host has neither tcp nor udp ports. */
  function HostRows(c: RowContext, ip: string, h: Host): (rows: seq<CsvRow>)
    ensures forall row | row in rows :: InContext(row, c)
  {
    var status := h.state.UnwrapOr("unknown");
    TcpRows(c, ip, status, h.tcp) +
      (if h.tcp == [] && h.udpCount == 0
       then [CsvRow(c.target, c.status, c.scanTime, ip, status, "", "", "", "", "", "", c.vulnCount, c.riskScore)]
       else [])
  }

  function HostsRows(c: RowContext, hosts: seq<(string, Host)>): (rows: seq<CsvRow>)
    ensures forall row | row in rows :: InContext(row, c)
    decreases |hosts|
  {
    if hosts == [] then []
    else
      var n := |hosts| - 1;
      HostsRows(c, hosts[..n]) + (if hosts[n].0 == "target" then [] else HostRows(c, hosts[n].0, hosts[n].1))
  }

  /** The rows of one record: its hosts' rows for a completed record with
      a scan map, otherwise one row with blank host and port and zero
      counts. */
  function RecordRows(r: BatchRecord): (rows: seq<CsvRow>)
    ensures forall row | row in rows :: RowOf(row, r)
  {
    var c := ContextOf(r);
    if c.status == Completed && r.scan.Some? then HostsRows(c, r.scan.value)
    else [CsvRow(c.target, c.status, c.scanTime, "", "", "", "", "", "", "", "", 0, 0.0)]
  }

  /** Every row belongs to one of the records: it carries that record's
      target, status and scan time. */
  function CsvRows(records: seq<BatchRecord>): (rows: seq<CsvRow>)
    ensures forall row | row in rows :: exists i | 0 <= i < |records| :: RowOf(row, records[i])
    decreases |records|
  {
    if records == [] then []
    else CsvRows(records[..|records| - 1]) + RecordRows(records[|records| - 1])
  }

  method WriteTcpRows(c: RowContext, ip: string, hostStatus: string, tcp: seq<(nat, PortData)>)
    returns (rows: seq<CsvRow>)
    ensures rows == TcpRows(c, ip, hostStatus, tcp)
  {
    rows := [];
    for i := 0 to |tcp|
      invariant rows == TcpRows(c, ip, hostStatus, tcp[..i])
    {
      assert tcp[..i + 1][..i] == tcp[..i];
      rows := rows + [PortRow(c, ip, hostStatus, tcp[i].0, tcp[i].1)];
    }
    assert tcp[..|tcp|] == tcp;
  }

  method WriteHostsRows(c: RowContext, hosts: seq<(string, Host)>) returns (rows: seq<CsvRow>)
    ensures rows == HostsRows(c, hosts)
  {
    rows := [];
    for i := 0 to |hosts|
      invariant rows == HostsRows(c, hosts[..i])
    {
      assert hosts[..i + 1][..i] == hosts[..i];
      var (ip, h) := hosts[i];
      if ip != "target" {
        var status := h.state.UnwrapOr("unknown");
        var tcpRows := WriteTcpRows(c, ip, status, h.tcp);
        rows := rows + tcpRows;
        if h.tcp == [] && h.udpCount == 0 {
          rows := rows + [CsvRow(c.target, c.status, c.scanTime, ip, status, "", "", "", "", "", "", c.vulnCount, c.riskScore)];
        }
      } else {
        assert HostsRows(c, hosts[..i + 1]) == HostsRows(c, hosts[..i]) + [];
      }
    }
    assert hosts[..|hosts|] == hosts;
  }

  /** _generate_csv_report: the header, then each record's rows in order. */
  method GenerateCsvReport(records: seq<BatchRecord>) returns (header: seq<string>, rows: seq<CsvRow>)
    ensures header == CsvHeader
    ensures rows == CsvRows(records)
  {
    header := CsvHeader;
    rows := [];
    for i := 0 to |records|
      invariant rows == CsvRows(records[..i])
    {
      assert records[..i + 1][..i] == records[..i];
      var r := records[i];
      var c := ContextOf(r);
      if c.status == Completed && r.scan.Some? {
        var hostRows := WriteHostsRows(c, r.scan.value);
        rows := rows + hostRows;
      } else {
        rows := rows + [CsvRow(c.target, c.status, c.scanTime, "", "", "", "", "", "", "", "", 0, 0.0)];
      }
    }
    assert records[..|records|] == records;
  }

  /** A udp-only host contributes no CSV row, and a host with neither tcp
      nor udp ports exactly one, with a blank port. */
  lemma HostRowShapes(c: RowContext, ip: string, h: Host)
    ensures h.tcp == [] && h.udpCount > 0 ==> HostRows(c, ip, h) == []
    ensures h.tcp == [] && h.udpCount == 0 ==> |HostRows(c, ip, h)| == 1 && HostRows(c, ip, h)[0].port == ""
    ensures h.tcp != [] ==> |HostRows(c, ip, h)| == |h.tcp|
  {
  }

  /** The i-th tcp row names the i-th port of the host. */
  lemma {:induction false} TcpRowsPorts(c: RowContext, ip: string, hostStatus: string, tcp: seq<(nat, PortData)>)
    ensures forall i | 0 <= i < |tcp| ::
              TcpRows(c, ip, hostStatus, tcp)[i].port == NatToString(tcp[i].0) &&
              TcpRows(c, ip, hostStatus, tcp)[i].protocol == "tcp" && TcpRows(c, ip, hostStatus, tcp)[i].hostIp == ip
    decreases |tcp|
  {
    if tcp != [] {
      TcpRowsPorts(c, ip, hostStatus, tcp[..|tcp| - 1]);
    }
  }

  function TcpRowCount(rows: seq<CsvRow>): nat
    decreases |rows|
  {
    if rows == [] then 0 else TcpRowCount(rows[..|rows| - 1]) + (if rows[|rows| - 1].protocol == "tcp" then 1 else 0)
  }

  lemma {:induction false} TcpRowCountAppend(a: seq<CsvRow>, b: seq<CsvRow>)
    ensures TcpRowCount(a + b) == TcpRowCount(a) + TcpRowCount(b)
    decreases |b|
  {
    if b == [] {
      assert a + b == a;
    } else {
      var n := |b| - 1;
      assert (a + b)[..|a + b| - 1] == a + b[..n];
      TcpRowCountAppend(a, b[..n]);
    }
  }

  lemma {:induction false} TcpRowsCount(c: RowContext, ip: string, hostStatus: string, tcp: seq<(nat, PortData)>)
    ensures TcpRowCount(TcpRows(c, ip, hostStatus, tcp)) == |tcp|
    decreases |tcp|
  {
    if tcp != [] {
      var n := |tcp| - 1;
      TcpRowsCount(c, ip, hostStatus, tcp[..n]);
      TcpRowCountAppend(TcpRows(c, ip, hostStatus, tcp[..n]), [PortRow(c, ip, hostStatus, tcp[n].0, tcp[n].1)]);
      assert [PortRow(c, ip, hostStatus, tcp[n].0, tcp[n].1)][..0] == [];
    }
  }

  lemma {:induction false} HostsTcpRows(c: RowContext, hosts: seq<(string, Host)>)
    ensures TcpRowCount(HostsRows(c, hosts)) == TcpEntries(hosts)
    decreases |hosts|
  {
    if hosts != [] {
      var n := |hosts| - 1;
      HostsTcpRows(c, hosts[..n]);
      var (ip, h) := hosts[n];
      if ip != "target" {
        var status := h.state.UnwrapOr("unknown");
        var blank := CsvRow(c.target, c.status, c.scanTime, ip, status, "", "", "", "", "", "", c.vulnCount, c.riskScore);
        TcpRowsCount(c, ip, status, h.tcp);
        var extra := if h.tcp == [] && h.udpCount == 0 then [blank] else [];
        TcpRowCountAppend(TcpRows(c, ip, status, h.tcp), extra);
        assert [blank][..0] == [];
        TcpRowCountAppend(HostsRows(c, hosts[..n]), HostRows(c, ip, h));
      } else {
        assert HostsRows(c, hosts) == HostsRows(c, hosts[..n]) + [];
        assert HostsRows(c, hosts) == HostsRows(c, hosts[..n]);
        assert TcpEntries(hosts) == TcpEntries(hosts[..n]);
      }
    }
  }

  /** The "Open Ports Found" box of the HTML report equals the number of
      tcp rows of the CSV report for the same records. */
  lemma {:induction false} OpenPortsMatchCsv(records: seq<BatchRecord>)
    ensures TcpRowCount(CsvRows(records)) == OpenPortsFound(records)
    decreases |records|
  {
    if records != [] {
      var n := |records| - 1;
      var r := records[n];
      OpenPortsMatchCsv(records[..n]);
      TcpRowCountAppend(CsvRows(records[..n]), RecordRows(r));
      var c := ContextOf(r);
      if c.status == Completed && r.scan.Some? {
        HostsTcpRows(c, r.scan.value);
      } else {
        var row := CsvRow(c.target, c.status, c.scanTime, "", "", "", "", "", "", "", "", 0, 0.0);
        assert [row][..0] == [];
      }
    }
  }

  /** Every record contributes at least one row unless it is a completed
      scan whose hosts all yield none; a record that is not a completed
      scan contributes exactly one. */
  lemma RecordRowsOfFailure(r: BatchRecord)
    requires StatusOf(r) != Completed || r.scan.None?
    ensures |RecordRows(r)| == 1 && RecordRows(r)[0].target == TargetOf(r) && RecordRows(r)[0].port == ""
  {
  }

  // ---------------------------------------------------------------------
  // _generate_vulnerability_report

  datatype TargetVulns = TargetVulns(target: string, total: int, riskScore: real,
                                     severity: Option<(int, int, int, int)>, topRecommendations: seq<string>)

  function TargetVulnsOf(r: BatchRecord): TargetVulns
  {
    if r.vuln.Some? then
      var v := r.vuln.value;
      var recs := v.recommendations;
      TargetVulns(TargetOf(r), v.total, v.riskScore, Some((v.critical, v.high, v.medium, v.low)),
                  if |recs| <= 5 then recs else recs[..5])
    else TargetVulns(TargetOf(r), 0, 0.0, None, [])
  }

  function TotalVulns(records: seq<BatchRecord>): int
    decreases |records|
  {
    if records == [] then 0 else TotalVulns(records[..|records| - 1]) + TargetVulnsOf(records[|records| - 1]).total
  }

  datatype VulnReport = VulnReport(analysed: nat, total: int, targets: seq<TargetVulns>)

  /** The vulnerability report over the records carrying an analysis. */
  function VulnerabilityReport(records: seq<BatchRecord>): (rep: VulnReport)
    ensures rep.analysed == |records| == |rep.targets|
    ensures forall i | 0 <= i < |records| ::
      rep.targets[i].target == TargetOf(records[i]) &&
      (rep.targets[i].severity.Some? <==> records[i].vuln.Some?) &&
      (records[i].vuln.None? ==> rep.targets[i].total == 0 && rep.targets[i].topRecommendations == [])
  {
    VulnReport(|records|, TotalVulns(records), seq(|records|, i requires 0 <= i < |records| => TargetVulnsOf(records[i])))
  }

  /** The records carrying a vulnerability analysis, in order. */
  function AnalysedRecords(records: seq<BatchRecord>): (rs: seq<BatchRecord>)
    ensures |rs| <= |records|
    ensures forall r :: r in rs <==> r in records && r.vuln.Some?
    decreases |records|
  {
    if records == [] then []
    else
      var n := |records| - 1;
      assert records == records[..n] + [records[n]];
      AnalysedRecords(records[..n]) + (if records[n].vuln.Some? then [records[n]] else [])
  }

  /** The vulnerability summary generate_reports writes: no file when no
      record carries an analysis, otherwise the report over those records
      only, each with its severity breakdown. */
  function VulnerabilitySummary(records: seq<BatchRecord>): (rep: Option<VulnReport>)
    ensures rep.None? <==> forall r | r in records :: r.vuln.None?
    ensures rep.Some? ==>
      rep.value.analysed == |AnalysedRecords(records)| > 0 &&
      forall i | 0 <= i < |rep.value.targets| :: rep.value.targets[i].severity.Some?
  {
    var analysed := AnalysedRecords(records);
    if analysed == [] then None
    else
      assert analysed[0] in analysed;
      assert forall i | 0 <= i < |analysed| :: analysed[i] in analysed;
      Some(VulnerabilityReport(analysed))
  }

  /** Each target keeps the first five recommendations at most, and the
      report total is the sum of the per-target totals. */
  lemma VulnerabilityReportFacts(records: seq<BatchRecord>)
    ensures var rep := VulnerabilityReport(records);
      |rep.targets| == rep.analysed == |records| &&
      (forall i | 0 <= i < |records| :: |rep.targets[i].topRecommendations| <= 5 &&
         rep.targets[i].topRecommendations <= (if records[i].vuln.Some? then records[i].vuln.value.recommendations else [])) &&
      rep.total == Sum(rep.targets)
  {
    var rep := VulnerabilityReport(records);
    forall i | 0 <= i < |records|
      ensures |rep.targets[i].topRecommendations| <= 5 &&
        rep.targets[i].topRecommendations <= (if records[i].vuln.Some? then records[i].vuln.value.recommendations else [])
    {
      TopRecommendations(records[i]);
    }
    TotalIsSum(records);
  }

  lemma TopRecommendations(r: BatchRecord)
    ensures |TargetVulnsOf(r).topRecommendations| <= 5
    ensures TargetVulnsOf(r).topRecommendations <= (if r.vuln.Some? then r.vuln.value.recommendations else [])
  {
  }

  lemma {:induction false} TotalIsSum(records: seq<BatchRecord>)
    ensures TotalVulns(records) == Sum(VulnerabilityReport(records).targets)
    decreases |records|
  {
    if records != [] {
      var n := |records| - 1;
      TotalIsSum(records[..n]);
      var a := VulnerabilityReport(records[..n]).targets;
      var b := VulnerabilityReport(records).targets;
      assert b[..n] == a;
      SumSnoc(b);
    }
  }

  function Sum(ts: seq<TargetVulns>): int
    decreases |ts|
  {
    if ts == [] then 0 else Sum(ts[..|ts| - 1]) + ts[|ts| - 1].total
  }

  lemma SumSnoc(ts: seq<TargetVulns>)
    requires ts != []
    ensures Sum(ts) == Sum(ts[..|ts| - 1]) + ts[|ts| - 1].total
  {
  }
}
