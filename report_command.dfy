/** The data shaping of nmap_ai/cli/commands/report.py: the JSON, CSV,
    HTML and XML generators, the printed summary counts, the JSON-to-other
    converters and the dispatch of the report command. */
module ReportCommand {
  import opened Wrappers
  import Seqs

  // ---------------------------------------------------------------------
  // input shapes

  /** A port entry; each field is the text the f-string renders, None when
      the key is missing (rendered as ''). */
  datatype ReportPort = ReportPort(port: Option<string>, service: Option<string>, version: Option<string>)

  datatype ReportHost = ReportHost(address: Option<string>, ports: Option<seq<ReportPort>>)

  /** The scan_results dict: its 'hosts' list and scan_info.elapsed, both
      possibly missing. */
  datatype ScanResults = ScanResults(hosts: Option<seq<ReportHost>>, elapsed: Option<int>)

  const EmptyResults := ScanResults(None, None)

  /** A vulnerability dict; only its severity is read. */
  datatype Vulnerability = Vulnerability(severity: Option<string>)

  function HostsOf(sr: ScanResults): seq<ReportHost>
  {
    sr.hosts.UnwrapOr([])
  }

  function PortsOf(h: ReportHost): seq<ReportPort>
  {
    h.ports.UnwrapOr([])
  }

  // ---------------------------------------------------------------------
  // JSON, HTML and XML reports

  datatype Totals = Totals(totalHosts: nat, totalVulnerabilities: nat)

  datatype JsonReport = JsonReport(tool: string, version: string, scanResults: ScanResults,
                                   vulnerabilities: seq<Vulnerability>, totals: Totals, scanDuration: int)

  /** generate_json_report with the timestamp left out. */
  function GenerateJsonReport(sr: ScanResults, vulns: seq<Vulnerability>): (r: JsonReport)
    ensures r.scanResults == sr && r.vulnerabilities == vulns
    ensures r.totals.totalHosts == |HostsOf(sr)| && r.totals.totalVulnerabilities == |vulns|
    ensures r.scanDuration == sr.elapsed.UnwrapOr(0)
    ensures r.tool == "NMAP-AI" && r.version == "1.0.0"
  {
    JsonReport("NMAP-AI", "1.0.0", sr, vulns, Totals(|HostsOf(sr)|, |vulns|), sr.elapsed.UnwrapOr(0))
  }

  /** The HTML and XML templates carry only the two totals beyond fixed
      text and the timestamp. */
  datatype HtmlReport = HtmlReport(totals: Totals)
  datatype XmlReport = XmlReport(totals: Totals)

  function GenerateHtmlReport(sr: ScanResults, vulns: seq<Vulnerability>): (r: HtmlReport)
    ensures r.totals == GenerateJsonReport(sr, vulns).totals
  {
    HtmlReport(Totals(|HostsOf(sr)|, |vulns|))
  }

  function GenerateXmlReport(sr: ScanResults, vulns: seq<Vulnerability>): (r: XmlReport)
    ensures r.totals == GenerateJsonReport(sr, vulns).totals
  {
    XmlReport(Totals(|HostsOf(sr)|, |vulns|))
  }

  // ---------------------------------------------------------------------
  // CSV report

  const CsvHeader := "Host,Port,Service,Version,Vulnerability,Severity"

  function Field(f: Option<string>): string
  {
    f.UnwrapOr("")
  }

  /** One data line: the four fields joined by commas without quoting,
      then the two literal None columns. */
  function CsvLine(h: ReportHost, p: ReportPort): string
  {
    Field(h.address) + "," + Field(p.port) + "," + Field(p.service) + "," + Field(p.version) + ",None,None"
  }

  function PortLines(h: ReportHost, ports: seq<ReportPort>): (lines: seq<string>)
    ensures |lines| == |ports|
    ensures forall j | 0 <= j < |ports| :: lines[j] == CsvLine(h, ports[j])
  {
    seq(|ports|, j requires 0 <= j < |ports| => CsvLine(h, ports[j]))
  }

  function HostsLines(hosts: seq<ReportHost>): seq<string>
    decreases |hosts|
  {
    if hosts == [] then []
    else HostsLines(hosts[..|hosts| - 1]) + PortLines(hosts[|hosts| - 1], PortsOf(hosts[|hosts| - 1]))
  }

  /** The lines of the CSV report: the header, then one line per (host,
      port) in input order. */
  function CsvLines(sr: ScanResults): seq<string>
  {
    [CsvHeader] + HostsLines(HostsOf(sr))
  }

  /** Each line followed by a newline. */
  function Render(lines: seq<string>): string
    decreases |lines|
  {
    if lines == [] then "" else Render(lines[..|lines| - 1]) + lines[|lines| - 1] + "\n"
  }

  lemma {:induction false} RenderAppend(a: seq<string>, b: seq<string>)
    ensures Render(a + b) == Render(a) + Render(b)
    decreases |b|
  {
    if b == [] {
      assert a + b == a;
    } else {
      var n := |b| - 1;
      assert (a + b)[..|a + b| - 1] == a + b[..n];
      RenderAppend(a, b[..n]);
    }
  }

  /** The inner loop of generate_csv_report: one line per port of h
      appended to the content so far. */
  method AppendPortLines(csv0: string, h: ReportHost) returns (csv: string)
    ensures csv == csv0 + Render(PortLines(h, PortsOf(h)))
  {
    var ports := PortsOf(h);
    csv := csv0;
    for j := 0 to |ports|
      invariant csv == csv0 + Render(PortLines(h, ports[..j]))
    {
      RenderPortStep(h, ports, j);
      csv := csv + CsvLine(h, ports[j]) + "\n";
    }
    assert ports[..|ports|] == ports;
  }

  lemma RenderPortStep(h: ReportHost, ports: seq<ReportPort>, j: nat)
    requires j < |ports|
    ensures Render(PortLines(h, ports[..j + 1])) == Render(PortLines(h, ports[..j])) + CsvLine(h, ports[j]) + "\n"
  {
    var line := CsvLine(h, ports[j]);
    var done := PortLines(h, ports[..j]);
    var lines := PortLines(h, ports[..j + 1]);
    assert lines == done + [line];
    assert lines[..|lines| - 1] == done;
  }

  lemma RenderHostsStep(hosts: seq<ReportHost>, i: nat)
    requires i < |hosts|
    ensures Render([CsvHeader] + HostsLines(hosts[..i + 1])) ==
      Render([CsvHeader] + HostsLines(hosts[..i])) + Render(PortLines(hosts[i], PortsOf(hosts[i])))
  {
    var before := [CsvHeader] + HostsLines(hosts[..i]);
    var added := PortLines(hosts[i], PortsOf(hosts[i]));
    assert hosts[..i + 1][..i] == hosts[..i];
    assert HostsLines(hosts[..i + 1]) == HostsLines(hosts[..i]) + added;
    RenderAppend(before, added);
    assert before + added == [CsvHeader] + HostsLines(hosts[..i + 1]);
  }

  /** generate_csv_report: csv_content grows by one line per port. The
      vulnerabilities argument is not read. */
  method GenerateCsvReport(sr: ScanResults, vulns: seq<Vulnerability>) returns (csv: string)
    ensures csv == Render(CsvLines(sr))
  {
    csv := CsvHeader + "\n";
    assert Render([CsvHeader]) == CsvHeader + "\n" by {
      assert [CsvHeader][..0] == [];
    }
    var hosts := HostsOf(sr);
    for i := 0 to |hosts|
      invariant csv == Render([CsvHeader] + HostsLines(hosts[..i]))
    {
      csv := AppendPortLines(csv, hosts[i]);
      RenderHostsStep(hosts, i);
    }
    assert hosts[..|hosts|] == hosts;
  }

  function TotalPorts(hosts: seq<ReportHost>): nat
    decreases |hosts|
  {
    if hosts == [] then 0 else TotalPorts(hosts[..|hosts| - 1]) + |PortsOf(hosts[|hosts| - 1])|
  }

  /** One data line per port: the line count is one more than the total
      number of ports. */
  lemma {:induction false} HostsLinesCount(hosts: seq<ReportHost>)
    ensures |HostsLines(hosts)| == TotalPorts(hosts)
    decreases |hosts|
  {
    if hosts != [] {
      HostsLinesCount(hosts[..|hosts| - 1]);
    }
  }

  lemma CsvLineCount(sr: ScanResults)
    ensures |CsvLines(sr)| == 1 + TotalPorts(HostsOf(sr))
    ensures CsvLines(sr)[0] == CsvHeader
  {
    HostsLinesCount(HostsOf(sr));
  }

  /** Every data line ends with the two None columns. */
  lemma {:induction false} HostsLinesEndWithNone(hosts: seq<ReportHost>)
    ensures forall k | 0 <= k < |HostsLines(hosts)| ::
      |HostsLines(hosts)[k]| >= 10 && HostsLines(hosts)[k][|HostsLines(hosts)[k]| - 10..] == ",None,None"
    decreases |hosts|
  {
    if hosts != [] {
      HostsLinesEndWithNone(hosts[..|hosts| - 1]);
      var h := hosts[|hosts| - 1];
      forall j | 0 <= j < |PortsOf(h)|
        ensures var l := CsvLine(h, PortsOf(h)[j]); |l| >= 10 && l[|l| - 10..] == ",None,None"
      {
        var p := PortsOf(h)[j];
        var pre := Field(h.address) + "," + Field(p.port) + "," + Field(p.service) + "," + Field(p.version);
        assert CsvLine(h, p) == pre + ",None,None";
      }
    }
  }

  /** A host without ports contributes no line, whatever its address. */
  lemma PortlessHostsAddNothing(hosts: seq<ReportHost>, h: ReportHost)
    requires PortsOf(h) == []
    ensures HostsLines(hosts + [h]) == HostsLines(hosts)
  {
    assert (hosts + [h])[..|hosts + [h]| - 1] == hosts;
  }

  // ---------------------------------------------------------------------
  // display_report_summary counts

  function SeverityOf(v: Vulnerability): string
  {
    v.severity.UnwrapOr("unknown")
  }

  function Severities(vulns: seq<Vulnerability>): (s: seq<string>)
    ensures |s| == |vulns|
    ensures forall i | 0 <= i < |vulns| :: s[i] == SeverityOf(vulns[i])
  {
    seq(|vulns|, i requires 0 <= i < |vulns| => SeverityOf(vulns[i]))
  }

  /** The printed summary: hosts, open ports, vulnerabilities and, when
      there are any, the severity breakdown in first-seen order. */
  datatype ReportSummary = ReportSummary(totalHosts: nat, totalOpenPorts: nat, totalVulnerabilities: nat,
                                         breakdown: Option<seq<(string, nat)>>)

  method SeverityBreakdown(vulns: seq<Vulnerability>) returns (counts: seq<(string, nat)>)
    ensures counts == Seqs.Tally(Severities(vulns))
    ensures Seqs.NoDups(Seqs.Keys(counts))
    ensures Seqs.SumCounts(counts) == |vulns|
    ensures forall k | 0 <= k < |counts| :: counts[k].1 == Seqs.Count(Severities(vulns), counts[k].0)
    ensures forall i | 0 <= i < |vulns| :: SeverityOf(vulns[i]) in Seqs.Keys(counts)
  {
    var sev := Severities(vulns);
    counts := [];
    for i := 0 to |vulns|
      invariant counts == Seqs.Tally(sev[..i])
    {
      assert sev[..i + 1][..i] == sev[..i];
      counts := Seqs.Bump(counts, SeverityOf(vulns[i]));
    }
    assert sev[..|vulns|] == sev;
    Seqs.TallyFacts(sev);
    Seqs.AddNewMembers([], sev);
    assert forall i | 0 <= i < |vulns| :: sev[i] in sev;
  }

  method DisplayReportSummary(sr: ScanResults, vulns: seq<Vulnerability>) returns (s: ReportSummary)
    ensures s.totalHosts == |HostsOf(sr)| && s.totalOpenPorts == TotalPorts(HostsOf(sr))
    ensures s.totalVulnerabilities == |vulns|
    ensures s.breakdown.Some? <==> vulns != []
    ensures s.breakdown.Some? ==> s.breakdown.value == Seqs.Tally(Severities(vulns))
    ensures s.breakdown.Some? ==> Seqs.SumCounts(s.breakdown.value) == |vulns|
    ensures s.breakdown.Some? ==> Seqs.NoDups(Seqs.Keys(s.breakdown.value))
    ensures s.breakdown.Some? ==> forall k | 0 <= k < |s.breakdown.value| ::
      s.breakdown.value[k].1 == Seqs.Count(Severities(vulns), s.breakdown.value[k].0)
    ensures s.breakdown.Some? ==> forall i | 0 <= i < |vulns| :: SeverityOf(vulns[i]) in Seqs.Keys(s.breakdown.value)
  {
    var breakdown: Option<seq<(string, nat)>> := None;
    if vulns != [] {
      var counts := SeverityBreakdown(vulns);
      breakdown := Some(counts);
    }
    s := ReportSummary(|HostsOf(sr)|, TotalPorts(HostsOf(sr)), |vulns|, breakdown);
  }

  // ---------------------------------------------------------------------
  // converters

  /** A loaded JSON report: its scan_results and vulnerabilities, either
      possibly missing. */
  datatype ReportData = ReportData(scanResults: Option<ScanResults>, vulnerabilities: Option<seq<Vulnerability>>)

  function ScanResultsOf(d: ReportData): ScanResults
  {
    d.scanResults.UnwrapOr(EmptyResults)
  }

  function VulnerabilitiesOf(d: ReportData): seq<Vulnerability>
  {
    d.vulnerabilities.UnwrapOr([])
  }

  /** The report data a JSON report serialises to. */
  function DataOf(r: JsonReport): ReportData
  {
    ReportData(Some(r.scanResults), Some(r.vulnerabilities))
  }

  function ConvertJsonToHtml(d: ReportData): (r: HtmlReport)
    ensures r == GenerateHtmlReport(ScanResultsOf(d), VulnerabilitiesOf(d))
    ensures d.scanResults.None? && d.vulnerabilities.None? ==> r.totals == Totals(0, 0)
  {
    GenerateHtmlReport(ScanResultsOf(d), VulnerabilitiesOf(d))
  }

  function ConvertJsonToXml(d: ReportData): (r: XmlReport)
    ensures r == GenerateXmlReport(ScanResultsOf(d), VulnerabilitiesOf(d))
    ensures d.scanResults.None? && d.vulnerabilities.None? ==> r.totals == Totals(0, 0)
  {
    GenerateXmlReport(ScanResultsOf(d), VulnerabilitiesOf(d))
  }

  method ConvertJsonToCsv(d: ReportData) returns (csv: string)
    ensures csv == Render(CsvLines(ScanResultsOf(d)))
  {
    csv := GenerateCsvReport(ScanResultsOf(d), VulnerabilitiesOf(d));
  }

  /** Converting a generated JSON report gives the report generated
      directly from the same inputs. */
  lemma ConvertRoundTrip(sr: ScanResults, vulns: seq<Vulnerability>)
    ensures ConvertJsonToHtml(DataOf(GenerateJsonReport(sr, vulns))) == GenerateHtmlReport(sr, vulns)
    ensures ConvertJsonToXml(DataOf(GenerateJsonReport(sr, vulns))) == GenerateXmlReport(sr, vulns)
    ensures ScanResultsOf(DataOf(GenerateJsonReport(sr, vulns))) == sr
  {
  }

  /** A missing scan_results gives the header line alone. */
  lemma EmptyReportCsv(d: ReportData)
    requires d.scanResults.None?
    ensures CsvLines(ScanResultsOf(d)) == [CsvHeader]
  {
  }

  // ---------------------------------------------------------------------
  // dispatch

  const ReportActions := ["generate", "list", "export", "delete"]

  /** report_command: the sub-command's exit code for a known action (its
      outcome is an input, None when it raised), else 1. */
  function ReportCommandExit(action: string, run: string -> Option<int>): (code: int)
    ensures action !in ReportActions ==> code == 1
    ensures action in ReportActions && run(action).None? ==> code == 1
    ensures action in ReportActions && run(action).Some? ==> code == run(action).value
  {
    if action == "generate" || action == "list" || action == "export" || action == "delete" then
      match run(action)
      case None => 1
      case Some(c) => c
    else 1
  }
}
