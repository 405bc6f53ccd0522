/** The rule tables of AIEngine in nmap_ai/core/ai_engine.py: argument
    optimisation, per-target risk analysis, the insights roll-up and scan
    plans. */
module AiEngine {
  import opened Wrappers
  import opened Text
  import Seqs
  import Validators
  import opened Parser

  // ---------------------------------------------------------------------
  // _analyze_targets and optimize_scan_arguments

  const WebIndicators: seq<string> := ["web", "www", "http", "api"]
  const DbIndicators: seq<string> := ["db", "database", "mysql", "postgres", "sql"]

  /** Some indicator occurs in the lower-cased target. */
  predicate HasIndicator(target: string, indicators: seq<string>)
  {
    exists k | 0 <= k < |indicators| :: Contains(Lower(target), indicators[k])
  }

  predicate SomeTargetHas(targets: seq<string>, indicators: seq<string>)
  {
    exists i | 0 <= i < |targets| :: HasIndicator(targets[i], indicators)
  }

  datatype TargetAnalysis = TargetAnalysis(
    likelyWebServers: bool, likelyDatabases: bool, mixedServices: bool, networkSize: nat)

  method AnalyzeTargets(targets: seq<string>) returns (a: TargetAnalysis)
    ensures a.likelyWebServers <==> SomeTargetHas(targets, WebIndicators)
    ensures a.likelyDatabases <==> SomeTargetHas(targets, DbIndicators)
    ensures a.mixedServices && a.networkSize == |targets|
  {
    a := TargetAnalysis(false, false, true, |targets|);
    for i := 0 to |targets|
      invariant a.likelyWebServers <==> SomeTargetHas(targets[..i], WebIndicators)
      invariant a.likelyDatabases <==> SomeTargetHas(targets[..i], DbIndicators)
      invariant a.mixedServices && a.networkSize == |targets|
    {
      assert forall j | 0 <= j < i :: targets[..i + 1][j] == targets[..i][j];
      assert targets[..i + 1][i] == targets[i];
      if HasIndicator(targets[i], WebIndicators) {
        a := a.(likelyWebServers := true);
      }
      if HasIndicator(targets[i], DbIndicators) {
        a := a.(likelyDatabases := true);
      }
    }
    assert targets[..|targets|] == targets;
  }

  /** The timing flag chosen by the number of targets. */
  function TimingFlag(targetCount: nat): string
  {
    if targetCount > 100 then "-T4" else if targetCount > 10 then "-T3" else "-T2"
  }

  /** What optimize_scan_arguments looks for in the base arguments. */
  datatype BaseFlags = BaseFlags(hasVersion: bool, hasOs: bool, hasScript: bool)

  function BaseFlagsOf(base: string): BaseFlags
  {
    BaseFlags(Contains(base, "-sV") || Contains(base, "--version-detect"),
              Contains(base, "-O"), Contains(base, "--script"))
  }

  /** The optimisations list, in the order they are appended. mixed is the
      analysis' mixed_services flag, which _analyze_targets always sets. */
  function Optimizations(targetCount: nat, flags: BaseFlags, likelyWeb: bool, mixed: bool): (opts: seq<string>)
    ensures 1 <= |opts| <= 4 && opts[0] in TimingFlags
    ensures mixed ==> 2 <= |opts| && opts[|opts| - 1] in ScriptFlags
  {
    var timing := [TimingFlag(targetCount)];
    var version := if !flags.hasVersion then ["-sV"] else [];
    var os := if !flags.hasOs && targetCount <= 50 then ["-O"] else [];
    var script :=
      if likelyWeb && !flags.hasScript then ["--script=http-*"]
      else if mixed then ["--script=safe"]
      else [];
    timing + version + os + script
  }

  /** optimize_scan_arguments; the port specification is not used. */
  method OptimizeScanArguments(targets: seq<string>, ports: string, base: string) returns (args: string)
    ensures args == Strip(base + " " + Join(Optimizations(|targets|, BaseFlagsOf(base), SomeTargetHas(targets, WebIndicators), true), " "))
  {
    var analysis := AnalyzeTargets(targets);
    ghost var flags := BaseFlagsOf(base);
    ghost var version: seq<string> := if !flags.hasVersion then ["-sV"] else [];
    ghost var os: seq<string> := if !flags.hasOs && |targets| <= 50 then ["-O"] else [];
    var optimizations: seq<string> := [];
    if |targets| > 100 {
      optimizations := optimizations + ["-T4"];
    } else if |targets| > 10 {
      optimizations := optimizations + ["-T3"];
    } else {
      optimizations := optimizations + ["-T2"];
    }
    assert optimizations == [TimingFlag(|targets|)];
    if !Contains(base, "-sV") && !Contains(base, "--version-detect") {
      optimizations := optimizations + ["-sV"];
    } else {
      assert optimizations + [] == optimizations;
    }
    assert optimizations == [TimingFlag(|targets|)] + version;
    if !Contains(base, "-O") && |targets| <= 50 {
      optimizations := optimizations + ["-O"];
    } else {
      assert optimizations + [] == optimizations;
    }
    assert optimizations == [TimingFlag(|targets|)] + version + os;
    if analysis.likelyWebServers && !Contains(base, "--script") {
      optimizations := optimizations + ["--script=http-*"];
    } else if analysis.mixedServices {
      optimizations := optimizations + ["--script=safe"];
    }
    assert optimizations == Optimizations(|targets|, flags, analysis.likelyWebServers, true);
    args := Strip(base + " " + Join(optimizations, " "));
  }

  const TimingFlags: seq<string> := ["-T2", "-T3", "-T4"]
  const ScriptFlags: seq<string> := ["--script=http-*", "--script=safe"]

  /** The number of elements of xs that belong to flags. */
  function CountAmong(xs: seq<string>, flags: seq<string>): nat
    decreases |xs|
  {
    if xs == [] then 0
    else
      var add := if xs[|xs| - 1] in flags then 1 else 0;
      CountAmong(xs[..|xs| - 1], flags) + add
  }

  lemma {:induction false} CountAmongAppend(xs: seq<string>, ys: seq<string>, flags: seq<string>)
    ensures CountAmong(xs + ys, flags) == CountAmong(xs, flags) + CountAmong(ys, flags)
    decreases |ys|
  {
    if ys == [] {
      assert xs + ys == xs;
    } else {
      CountAmongAppend(xs, ys[..|ys| - 1], flags);
      assert (xs + ys)[..|xs + ys| - 1] == xs + ys[..|ys| - 1];
    }
  }

  /** Exactly one timing flag and exactly one script flag are appended; the
      timing flag is -T4 above 100 targets, -T3 above 10, else -T2; the
      http script set is chosen iff some target looks like a web server
      and the base has no --script, otherwise the safe set. */
  lemma OptimizationFlags(targetCount: nat, flags: BaseFlags, likelyWeb: bool)
    ensures CountAmong(Optimizations(targetCount, flags, likelyWeb, true), TimingFlags) == 1
    ensures CountAmong(Optimizations(targetCount, flags, likelyWeb, true), ScriptFlags) == 1
    ensures "-T4" in Optimizations(targetCount, flags, likelyWeb, true) <==> targetCount > 100
    ensures "-T3" in Optimizations(targetCount, flags, likelyWeb, true) <==> 10 < targetCount <= 100
    ensures "-T2" in Optimizations(targetCount, flags, likelyWeb, true) <==> targetCount <= 10
    ensures "--script=http-*" in Optimizations(targetCount, flags, likelyWeb, true) <==>
      likelyWeb && !flags.hasScript
    ensures "--script=safe" in Optimizations(targetCount, flags, likelyWeb, true) <==>
      !(likelyWeb && !flags.hasScript)
  {
    OptimizationCounts(targetCount, flags, likelyWeb);
  }

  lemma OptimizationCounts(targetCount: nat, flags: BaseFlags, likelyWeb: bool)
    ensures CountAmong(Optimizations(targetCount, flags, likelyWeb, true), TimingFlags) == 1
    ensures CountAmong(Optimizations(targetCount, flags, likelyWeb, true), ScriptFlags) == 1
  {
    var timing := [TimingFlag(targetCount)];
    var version := if !flags.hasVersion then ["-sV"] else [];
    var os := if !flags.hasOs && targetCount <= 50 then ["-O"] else [];
    var script := if likelyWeb && !flags.hasScript then ["--script=http-*"] else ["--script=safe"];
    assert Optimizations(targetCount, flags, likelyWeb, true) == timing + version + os + script;
    PartsCount(timing, version, os, script, TimingFlags);
    PartsCount(timing, version, os, script, ScriptFlags);
  }

  /** Four parts of which the first is a timing flag, the last a script
      flag, and the middle two at most "-sV" and "-O". */
  lemma PartsCount(timing: seq<string>, version: seq<string>, os: seq<string>, script: seq<string>,
                   flags: seq<string>)
    requires |timing| == 1 && timing[0] in TimingFlags
    requires |script| == 1 && script[0] in ScriptFlags
    requires version == [] || version == ["-sV"]
    requires os == [] || os == ["-O"]
    requires flags == TimingFlags || flags == ScriptFlags
    ensures CountAmong(timing + version + os + script, flags) == 1
  {
    OneFlagCount(timing[0]);
    OneFlagCount(script[0]);
    OneFlagCount("-sV");
    OneFlagCount("-O");
    assert CountAmong([], flags) == 0;
    FourPartCount(timing, version, os, script, flags);
  }

  lemma FourPartCount(a: seq<string>, b: seq<string>, c: seq<string>, d: seq<string>, flags: seq<string>)
    ensures CountAmong(a + b + c + d, flags) ==
      CountAmong(a, flags) + CountAmong(b, flags) + CountAmong(c, flags) + CountAmong(d, flags)
  {
    CountAmongAppend(a, b, flags);
    CountAmongAppend(a + b, c, flags);
    CountAmongAppend(a + b + c, d, flags);
  }

  lemma OneFlagCount(flag: string)
    ensures CountAmong([flag], TimingFlags) == (if flag in TimingFlags then 1 else 0)
    ensures CountAmong([flag], ScriptFlags) == (if flag in ScriptFlags then 1 else 0)
  {
    assert [flag][..0] == [];
  }

  /** -sV is added iff the base names neither -sV nor --version-detect, and
      -O iff the base lacks -O and there are at most 50 targets. */
  lemma OptimizationDetection(targetCount: nat, base: string, likelyWeb: bool)
    ensures "-sV" in Optimizations(targetCount, BaseFlagsOf(base), likelyWeb, true) <==>
      !Contains(base, "-sV") && !Contains(base, "--version-detect")
    ensures "-O" in Optimizations(targetCount, BaseFlagsOf(base), likelyWeb, true) <==>
      !Contains(base, "-O") && targetCount <= 50
  {
  }

  // ---------------------------------------------------------------------
  // _analyze_target_result

  const HighRiskPorts: seq<int> := [21, 23, 135, 139, 445, 1433, 3306, 3389, 5432]
  const MediumRiskPorts: seq<int> := [25, 53, 80, 110, 143, 993, 995]
  const WindowsPorts: seq<int> := [135, 139, 445]

  datatype Risk = High | Medium | Low

  /** The number of open ports whose number is in the table. */
  function CountIn(ports: seq<OpenPort>, table: seq<int>): nat
    decreases |ports|
  {
    if ports == [] then 0
    else
      var add := if ports[|ports| - 1].port in table then 1 else 0;
      CountIn(ports[..|ports| - 1], table) + add
  }

  lemma {:induction false} CountInBound(ports: seq<OpenPort>, table: seq<int>)
    ensures CountIn(ports, table) <= |ports|
    decreases |ports|
  {
    if ports != [] {
      CountInBound(ports[..|ports| - 1], table);
    }
  }

  lemma {:induction false} CountInPositive(ports: seq<OpenPort>, table: seq<int>)
    ensures CountIn(ports, table) > 0 <==> exists i | 0 <= i < |ports| :: ports[i].port in table
    decreases |ports|
  {
    if ports != [] {
      var init := ports[..|ports| - 1];
      CountInPositive(init, table);
      if exists i | 0 <= i < |init| :: init[i].port in table {
        var i :| 0 <= i < |init| && init[i].port in table;
        assert ports[i] == init[i];
      }
      if exists i | 0 <= i < |ports| :: ports[i].port in table {
        var i :| 0 <= i < |ports| && ports[i].port in table;
        if i < |init| {
          assert init[i] == ports[i];
        }
      }
    }
  }

  function RiskLevel(ports: seq<OpenPort>): (r: Risk)
    ensures r == Medium ==> |ports| >= 3
    ensures ports == [] ==> r == Low
  {
    CountInBound(ports, MediumRiskPorts);
    if CountIn(ports, HighRiskPorts) > 0 then High
    else if CountIn(ports, MediumRiskPorts) > 2 then Medium
    else Low
  }

  /** 'high' iff some open port is high-risk; 'medium' iff none is and more
      than two are medium-risk; 'low' otherwise. */
  lemma RiskLevelRule(ports: seq<OpenPort>)
    ensures RiskLevel(ports) == High <==> exists i | 0 <= i < |ports| :: ports[i].port in HighRiskPorts
    ensures RiskLevel(ports) == Medium <==>
      (forall i | 0 <= i < |ports| :: ports[i].port !in HighRiskPorts) && CountIn(ports, MediumRiskPorts) > 2
  {
    CountInPositive(ports, HighRiskPorts);
  }

  datatype SecurityIssue = SecurityIssue(
    kind: string, port: int, service: string, severity: string, description: string)

  datatype TargetResultAnalysis = TargetResultAnalysis(
    riskLevel: Risk, securityIssues: seq<SecurityIssue>,
    recommendations: seq<string>, serviceFingerprints: seq<string>)

  /** The issue recorded for one open port, if any: telnet first, then ftp
      on port 21, then the Windows networking ports. */
  function IssueFor(p: OpenPort): Option<SecurityIssue>
  {
    var service := Lower(p.name);
    if p.port == 23 then
      Some(SecurityIssue("unencrypted_protocol", p.port, service, "high", "Telnet transmits data in plaintext"))
    else if p.port == 21 && Contains(service, "ftp") then
      Some(SecurityIssue("potentially_insecure", p.port, service, "medium",
                         "FTP may allow anonymous access or use weak authentication"))
    else if p.port in WindowsPorts then
      Some(SecurityIssue("windows_services", p.port, service, "medium", "Windows networking services exposed"))
    else None
  }

  function IssuesFor(ports: seq<OpenPort>): seq<SecurityIssue>
    decreases |ports|
  {
    if ports == [] then []
    else
      var last := IssueFor(ports[|ports| - 1]);
      IssuesFor(ports[..|ports| - 1]) + (if last.Some? then [last.value] else [])
  }

  const ReviewNow := "Immediate security review recommended"
  const FirewallRules := "Consider firewall rules to restrict access"
  const ReplaceProtocols := "Replace unencrypted protocols with secure alternatives"
  const ReviewPorts := "Review if all open ports are necessary"

  predicate HasUnencrypted(issues: seq<SecurityIssue>)
  {
    exists k | 0 <= k < |issues| :: issues[k].kind == "unencrypted_protocol"
  }

  /** The recommendations from the three conditions, in the order they
      are appended. */
  function Recommendations(highRisk: bool, unencrypted: bool, manyPorts: bool): (recs: seq<string>)
    ensures |recs| == (if highRisk then 2 else 0) + (if unencrypted then 1 else 0) + (if manyPorts then 1 else 0)
    ensures Seqs.NoDups(recs)
  {
    assert |ReviewNow| == 37 && |FirewallRules| == 42 && |ReplaceProtocols| == 54 && |ReviewPorts| == 38;
    (if highRisk then [ReviewNow, FirewallRules] else []) +
    (if unencrypted then [ReplaceProtocols] else []) +
    (if manyPorts then [ReviewPorts] else [])
  }

  lemma RecommendationMembers(highRisk: bool, unencrypted: bool, manyPorts: bool)
    ensures var recs := Recommendations(highRisk, unencrypted, manyPorts);
      (ReviewNow in recs <==> highRisk) && (FirewallRules in recs <==> highRisk) &&
      (ReplaceProtocols in recs <==> unencrypted) && (ReviewPorts in recs <==> manyPorts)
  {
    assert |ReviewNow| == 37 && |FirewallRules| == 42 && |ReplaceProtocols| == 54 && |ReviewPorts| == 38;
  }

  method AnalyzeTargetResult(target: string, parsed: ParsedResult) returns (a: TargetResultAnalysis)
    ensures a.riskLevel == RiskLevel(parsed.openPorts)
    ensures a.securityIssues == IssuesFor(parsed.openPorts)
    ensures a.recommendations == Recommendations(RiskLevel(parsed.openPorts) == High,
      HasUnencrypted(IssuesFor(parsed.openPorts)), |parsed.openPorts| > 10)
    ensures a.serviceFingerprints == []
  {
    var openPorts := parsed.openPorts;
    var highRiskCount := CountIn(openPorts, HighRiskPorts);
    var mediumRiskCount := CountIn(openPorts, MediumRiskPorts);
    var risk := Low;
    if highRiskCount > 0 {
      risk := High;
    } else if mediumRiskCount > 2 {
      risk := Medium;
    }
    var issues := CollectIssues(openPorts);
    var recommendations := BuildRecommendations(risk == High, HasUnencrypted(issues), |openPorts| > 10);
    a := TargetResultAnalysis(risk, issues, recommendations, []);
  }

  /** The issue loop of _analyze_target_result. */
  method CollectIssues(openPorts: seq<OpenPort>) returns (issues: seq<SecurityIssue>)
    ensures issues == IssuesFor(openPorts)
  {
    issues := [];
    for i := 0 to |openPorts|
      invariant issues == IssuesFor(openPorts[..i])
    {
      assert openPorts[..i + 1][..i] == openPorts[..i];
      issues := AppendIssue(issues, openPorts[i]);
    }
    assert openPorts[..|openPorts|] == openPorts;
  }

  /** One pass of the issue loop: at most one issue for the port. */
  method AppendIssue(issues0: seq<SecurityIssue>, p: OpenPort) returns (issues: seq<SecurityIssue>)
    ensures issues == issues0 + (if IssueFor(p).Some? then [IssueFor(p).value] else [])
  {
    var service := Lower(p.name);
    if p.port == 23 {
      issues := issues0 + [SecurityIssue("unencrypted_protocol", p.port, service, "high",
                                         "Telnet transmits data in plaintext")];
    } else if p.port == 21 && Contains(service, "ftp") {
      issues := issues0 + [SecurityIssue("potentially_insecure", p.port, service, "medium",
                                         "FTP may allow anonymous access or use weak authentication")];
    } else if p.port in WindowsPorts {
      issues := issues0 + [SecurityIssue("windows_services", p.port, service, "medium",
                                         "Windows networking services exposed")];
    } else {
      issues := issues0;
      assert issues0 + [] == issues0;
    }
  }

  /** The recommendation appends of _analyze_target_result. */
  method BuildRecommendations(highRisk: bool, unencrypted: bool, manyPorts: bool) returns (recs: seq<string>)
    ensures recs == Recommendations(highRisk, unencrypted, manyPorts)
  {
    var a: seq<string> := if highRisk then [ReviewNow, FirewallRules] else [];
    var b: seq<string> := if unencrypted then [ReplaceProtocols] else [];
    var c: seq<string> := if manyPorts then [ReviewPorts] else [];
    recs := [];
    if highRisk {
      recs := recs + [ReviewNow, FirewallRules];
    }
    assert recs == a;
    if unencrypted {
      recs := recs + [ReplaceProtocols];
    } else {
      assert recs + [] == recs;
    }
    assert recs == a + b;
    if manyPorts {
      recs := recs + [ReviewPorts];
    } else {
      assert recs + [] == recs;
    }
  }

  /** Every issue names the port of some open port, and there is at most
      one issue per open port. */
  lemma {:induction false} IssuesFromPorts(ports: seq<OpenPort>)
    ensures |IssuesFor(ports)| <= |ports|
    ensures forall k | 0 <= k < |IssuesFor(ports)| ::
      exists i | 0 <= i < |ports| :: IssueFor(ports[i]) == Some(IssuesFor(ports)[k])
    decreases |ports|
  {
    if ports != [] {
      var init := ports[..|ports| - 1];
      IssuesFromPorts(init);
      var issues := IssuesFor(ports);
      forall k | 0 <= k < |issues|
        ensures exists i | 0 <= i < |ports| :: IssueFor(ports[i]) == Some(issues[k])
      {
        if k < |IssuesFor(init)| {
          var i :| 0 <= i < |init| && IssueFor(init[i]) == Some(IssuesFor(init)[k]);
          assert ports[i] == init[i];
        } else {
          assert IssueFor(ports[|ports| - 1]) == Some(issues[k]);
        }
      }
    }
  }

  /** An unencrypted-protocol issue is recorded iff some open port is 23. */
  lemma {:induction false} TelnetIssue(ports: seq<OpenPort>)
    ensures HasUnencrypted(IssuesFor(ports)) <==> exists i | 0 <= i < |ports| :: ports[i].port == 23
    decreases |ports|
  {
    if ports != [] {
      var init := ports[..|ports| - 1];
      var last := ports[|ports| - 1];
      TelnetIssue(init);
      var extra := if IssueFor(last).Some? then [IssueFor(last).value] else [];
      assert IssuesFor(ports) == IssuesFor(init) + extra;
      HasUnencryptedAppend(IssuesFor(init), extra);
      LastIssue(last);
      Port23Snoc(ports, init);
    }
  }

  lemma HasUnencryptedAppend(a: seq<SecurityIssue>, b: seq<SecurityIssue>)
    ensures HasUnencrypted(a + b) <==> HasUnencrypted(a) || HasUnencrypted(b)
  {
    var ab := a + b;
    if HasUnencrypted(ab) {
      var k :| 0 <= k < |ab| && ab[k].kind == "unencrypted_protocol";
      if k < |a| {
        assert a[k] == ab[k];
      } else {
        assert b[k - |a|] == ab[k];
      }
    }
    if HasUnencrypted(a) {
      var k :| 0 <= k < |a| && a[k].kind == "unencrypted_protocol";
      assert ab[k] == a[k];
    }
    if HasUnencrypted(b) {
      var k :| 0 <= k < |b| && b[k].kind == "unencrypted_protocol";
      assert ab[k + |a|] == b[k];
    }
  }

  /** Only port 23 yields the unencrypted-protocol issue. */
  lemma LastIssue(p: OpenPort)
    ensures HasUnencrypted(if IssueFor(p).Some? then [IssueFor(p).value] else []) <==> p.port == 23
  {
    var extra := if IssueFor(p).Some? then [IssueFor(p).value] else [];
    if p.port == 23 {
      assert extra[0].kind == "unencrypted_protocol";
    } else {
      forall k | 0 <= k < |extra| ensures extra[k].kind != "unencrypted_protocol" {
        assert extra[k] == IssueFor(p).value;
      }
    }
  }

  lemma Port23Snoc(ports: seq<OpenPort>, init: seq<OpenPort>)
    requires ports != [] && init == ports[..|ports| - 1]
    ensures (exists i | 0 <= i < |ports| :: ports[i].port == 23) <==>
      (exists i | 0 <= i < |init| :: init[i].port == 23) || ports[|ports| - 1].port == 23
  {
    if exists i | 0 <= i < |ports| :: ports[i].port == 23 {
      var i :| 0 <= i < |ports| && ports[i].port == 23;
      if i < |init| {
        assert init[i] == ports[i];
      }
    }
    if exists i | 0 <= i < |init| :: init[i].port == 23 {
      var i :| 0 <= i < |init| && init[i].port == 23;
      assert ports[i] == init[i];
    }
  }


  /** The recommendations: the review and firewall pair iff the risk is
      high, protocol replacement iff some open port is 23, and the
      open-port review iff there are more than 10 open ports. */
  lemma RecommendationRules(ports: seq<OpenPort>)
    ensures var recs := Recommendations(RiskLevel(ports) == High, HasUnencrypted(IssuesFor(ports)), |ports| > 10);
      (ReviewNow in recs <==> RiskLevel(ports) == High) &&
      (FirewallRules in recs <==> RiskLevel(ports) == High) &&
      (ReplaceProtocols in recs <==> exists i | 0 <= i < |ports| :: ports[i].port == 23) &&
      (ReviewPorts in recs <==> |ports| > 10)
  {
    TelnetIssue(ports);
    RecommendationMembers(RiskLevel(ports) == High, HasUnencrypted(IssuesFor(ports)), |ports| > 10);
  }

  // ---------------------------------------------------------------------
  // _generate_scan_insights

  /** What the insights roll-up reads from one per-target entry: whether it
      has an 'error' key, the risk level of its ai_analysis, and the
      services of its parsed result. */
  datatype ResultEntry = ResultEntry(hasError: bool, aiRisk: Option<Risk>, services: Option<seq<string>>)

  datatype Statistics = Statistics(totalTargets: nat, successfulScans: nat)

  datatype Summary = Summary(high: nat, medium: nat, low: nat, mostCommonServices: seq<(string, nat)>)

  /** The insights; summary and statistics are None when they stay {}. */
  datatype ScanInsights = ScanInsights(
    summary: Option<Summary>, statistics: Option<Statistics>, recommendations: seq<string>)

  function SuccessCount(entries: seq<ResultEntry>): nat
    decreases |entries|
  {
    if entries == [] then 0
    else
      var add := if entries[|entries| - 1].hasError then 0 else 1;
      SuccessCount(entries[..|entries| - 1]) + add
  }

  function RiskCount(entries: seq<ResultEntry>, risk: Risk): nat
    decreases |entries|
  {
    if entries == [] then 0
    else
      var add := if entries[|entries| - 1].aiRisk == Some(risk) then 1 else 0;
      RiskCount(entries[..|entries| - 1], risk) + add
  }

  /** The number of entries that carry an ai_analysis. */
  function AnalysedCount(entries: seq<ResultEntry>): nat
    decreases |entries|
  {
    if entries == [] then 0
    else
      var add := if entries[|entries| - 1].aiRisk.Some? then 1 else 0;
      AnalysedCount(entries[..|entries| - 1]) + add
  }

  /** Every service of every parsed entry, in visiting order. */
  function AllServices(entries: seq<ResultEntry>): seq<string>
    decreases |entries|
  {
    if entries == [] then []
    else
      var last := entries[|entries| - 1];
      AllServices(entries[..|entries| - 1]) + last.services.UnwrapOr([])
  }

  predicate NonIncreasing(s: seq<(string, nat)>)
  {
    forall i, j | 0 <= i < j < |s| :: s[i].1 >= s[j].1
  }

  /** Inserts x after every element whose count is at least x's. */
  function InsertDesc(x: (string, nat), s: seq<(string, nat)>): (r: seq<(string, nat)>)
    ensures multiset(r) == multiset(s) + multiset{x}
    ensures r[0] == x || (s != [] && r[0] == s[0])
    decreases |s|
  {
    if s == [] then [x]
    else if s[0].1 >= x.1 then
      assert s == [s[0]] + s[1..];
      [s[0]] + InsertDesc(x, s[1..])
    else [x] + s
  }

  lemma {:induction false} InsertDescSorted(x: (string, nat), s: seq<(string, nat)>)
    requires NonIncreasing(s)
    ensures NonIncreasing(InsertDesc(x, s))
    decreases |s|
  {
    if s != [] && s[0].1 >= x.1 {
      InsertDescSorted(x, s[1..]);
      var rest := InsertDesc(x, s[1..]);
      assert rest[0].1 <= s[0].1;
      forall j | 0 < j < |rest| + 1
        ensures ([s[0]] + rest)[j].1 <= s[0].1
      {
        assert ([s[0]] + rest)[j] == rest[j - 1];
        assert rest[j - 1].1 <= rest[0].1;
      }
    }
  }

  /** sorted(items, key=count, reverse=True): a stable descending sort. */
  function SortDesc(items: seq<(string, nat)>): seq<(string, nat)>
    decreases |items|
  {
    if items == [] then []
    else InsertDesc(items[|items| - 1], SortDesc(items[..|items| - 1]))
  }

  lemma {:induction false} SortDescFacts(items: seq<(string, nat)>)
    ensures NonIncreasing(SortDesc(items))
    ensures multiset(SortDesc(items)) == multiset(items)
    decreases |items|
  {
    if items != [] {
      var init := items[..|items| - 1];
      SortDescFacts(init);
      InsertDescSorted(items[|items| - 1], SortDesc(init));
      assert items == init + [items[|items| - 1]];
    }
  }

  /** The five most common services: the sorted counter cut to five. */
  function TopFive(items: seq<(string, nat)>): seq<(string, nat)>
  {
    var sorted := SortDesc(items);
    if |sorted| <= 5 then sorted else sorted[..5]
  }

  method GenerateScanInsights(results: Option<seq<ResultEntry>>) returns (ins: ScanInsights)
    ensures results.None? ==> ins == ScanInsights(None, None, [])
    ensures results.Some? ==>
      var entries := results.value;
      ins.statistics == Some(Statistics(|entries|, SuccessCount(entries))) &&
      ins.summary == Some(Summary(RiskCount(entries, High), RiskCount(entries, Medium),
                                  RiskCount(entries, Low), TopFive(Seqs.Tally(AllServices(entries))))) &&
      ins.recommendations ==
        (if RiskCount(entries, High) > 0 then ["High-risk hosts detected - immediate review required"] else []) +
        (if 5 * SuccessCount(entries) < 4 * |entries| then ["Low scan success rate - check network connectivity"] else [])
  {
    if results.None? {
      return ScanInsights(None, None, []);
    }
    var entries := results.value;
    var successful := 0;
    var high, medium, low := 0, 0, 0;
    var counter: seq<(string, nat)> := [];
    for i := 0 to |entries|
      invariant successful == SuccessCount(entries[..i])
      invariant high == RiskCount(entries[..i], High)
      invariant medium == RiskCount(entries[..i], Medium)
      invariant low == RiskCount(entries[..i], Low)
      invariant counter == Seqs.Tally(AllServices(entries[..i]))
    {
      successful, high, medium, low := CountEntry(entries, i, successful, high, medium, low);
      counter := CountEntryServices(counter, entries, i);
    }
    assert entries[..|entries|] == entries;
    var recommendations: seq<string> := [];
    if high > 0 {
      recommendations := recommendations + ["High-risk hosts detected - immediate review required"];
    }
    ghost var first := recommendations;
    if 5 * successful < 4 * |entries| {
      recommendations := recommendations + ["Low scan success rate - check network connectivity"];
    } else {
      assert recommendations == first + [];
    }
    ins := ScanInsights(Some(Summary(high, medium, low, TopFive(counter))),
                        Some(Statistics(|entries|, successful)), recommendations);
  }

  /** The counters of one pass of the entry loop. */
  method CountEntry(entries: seq<ResultEntry>, i: nat, successful0: nat, high0: nat, medium0: nat, low0: nat)
    returns (successful: nat, high: nat, medium: nat, low: nat)
    requires i < |entries|
    requires successful0 == SuccessCount(entries[..i])
    requires high0 == RiskCount(entries[..i], High)
    requires medium0 == RiskCount(entries[..i], Medium)
    requires low0 == RiskCount(entries[..i], Low)
    ensures successful == SuccessCount(entries[..i + 1])
    ensures high == RiskCount(entries[..i + 1], High)
    ensures medium == RiskCount(entries[..i + 1], Medium)
    ensures low == RiskCount(entries[..i + 1], Low)
  {
    CountsStep(entries, i);
    var entry := entries[i];
    successful, high, medium, low := successful0, high0, medium0, low0;
    if !entry.hasError {
      successful := successful + 1;
    }
    if entry.aiRisk == Some(High) {
      high := high + 1;
    } else if entry.aiRisk == Some(Medium) {
      medium := medium + 1;
    } else if entry.aiRisk == Some(Low) {
      low := low + 1;
    }
  }

  lemma CountsStep(entries: seq<ResultEntry>, i: nat)
    requires i < |entries|
    ensures SuccessCount(entries[..i + 1]) == SuccessCount(entries[..i]) + (if entries[i].hasError then 0 else 1)
    ensures forall risk ::
      RiskCount(entries[..i + 1], risk) == RiskCount(entries[..i], risk) + (if entries[i].aiRisk == Some(risk) then 1 else 0)
  {
    assert entries[..i + 1][..i] == entries[..i];
  }

  /** The services of entries[i] counted into the tally of the earlier
      entries' services. */
  method CountEntryServices(counter0: seq<(string, nat)>, entries: seq<ResultEntry>, i: nat)
    returns (counter: seq<(string, nat)>)
    requires i < |entries|
    requires counter0 == Seqs.Tally(AllServices(entries[..i]))
    ensures counter == Seqs.Tally(AllServices(entries[..i + 1]))
  {
    var entry := entries[i];
    assert entries[..i + 1][..i] == entries[..i];
    assert AllServices(entries[..i + 1]) == AllServices(entries[..i]) + entry.services.UnwrapOr([]);
    if entry.services.Some? {
      counter := CountServices(counter0, AllServices(entries[..i]), entry.services.value);
    } else {
      counter := counter0;
      assert AllServices(entries[..i]) + [] == AllServices(entries[..i]);
    }
  }

  /** The inner loop: common_services[s] = common_services.get(s, 0) + 1
      for every service of one entry. */
  method CountServices(counter0: seq<(string, nat)>, ghost before: seq<string>, services: seq<string>)
    returns (counter: seq<(string, nat)>)
    requires counter0 == Seqs.Tally(before)
    ensures counter == Seqs.Tally(before + services)
  {
    counter := counter0;
    assert before + services[..0] == before;
    for j := 0 to |services|
      invariant counter == Seqs.Tally(before + services[..j])
    {
      assert (before + services[..j + 1])[..|before + services[..j + 1]| - 1] == before + services[..j];
      counter := Seqs.Bump(counter, services[j]);
    }
    assert services[..|services|] == services;
  }

  /** successful_scans counts the entries without 'error' and never
      exceeds the number of targets. */
  lemma {:induction false} SuccessBound(entries: seq<ResultEntry>)
    ensures SuccessCount(entries) <= |entries|
    ensures SuccessCount(entries) == |entries| <==> forall i | 0 <= i < |entries| :: !entries[i].hasError
    decreases |entries|
  {
    if entries != [] {
      var init := entries[..|entries| - 1];
      SuccessBound(init);
      if forall i | 0 <= i < |entries| :: !entries[i].hasError {
        assert forall i | 0 <= i < |init| :: init[i] == entries[i];
      }
    }
  }

  /** The risk distribution adds up to the number of analysed entries. */
  lemma {:induction false} RiskDistributionSum(entries: seq<ResultEntry>)
    ensures RiskCount(entries, High) + RiskCount(entries, Medium) + RiskCount(entries, Low) ==
      AnalysedCount(entries)
    decreases |entries|
  {
    if entries != [] {
      RiskDistributionSum(entries[..|entries| - 1]);
      var last := entries[|entries| - 1];
      if last.aiRisk.Some? {
        match last.aiRisk.value
        case High => assert last.aiRisk == Some(High);
        case Medium => assert last.aiRisk == Some(Medium);
        case Low => assert last.aiRisk == Some(Low);
      }
    }
  }

  /** most_common_services is Counter.most_common(5): min(5, distinct
      services) pairs in non-increasing count order, for distinct services
      that occur, each with its number of occurrences, and no service left
      out occurs more often than any listed one. */
  lemma MostCommonServices(entries: seq<ResultEntry>)
    ensures var services := AllServices(entries);
      var top := TopFive(Seqs.Tally(services));
      var distinct := |Seqs.AddNew([], services)|;
      |top| == (if distinct <= 5 then distinct else 5) && NonIncreasing(top) &&
      (forall k | 0 <= k < |top| :: top[k].0 in services) &&
      (forall k | 0 <= k < |top| :: top[k].1 == Seqs.Count(services, top[k].0)) &&
      (forall k, l | 0 <= k < l < |top| :: top[k].0 != top[l].0) &&
      (forall x, k | x in services && x !in Seqs.Keys(top) && 0 <= k < |top| ::
         Seqs.Count(services, x) <= top[k].1)
  {
    var services := AllServices(entries);
    MostCommonCounts(entries);
    MostCommonSelection(services);
  }

  /** The pairs of most_common_services carry distinct services, each with
      its number of occurrences across the parsed entries. */
  lemma MostCommonCounts(entries: seq<ResultEntry>)
    ensures var top := TopFive(Seqs.Tally(AllServices(entries)));
      |top| <= 5 && NonIncreasing(top) &&
      (forall k | 0 <= k < |top| :: top[k].1 == Seqs.Count(AllServices(entries), top[k].0)) &&
      (forall k, l | 0 <= k < l < |top| :: top[k].0 != top[l].0)
  {
    var tally := Seqs.Tally(AllServices(entries));
    Seqs.TallyFacts(AllServices(entries));
    SortDescFacts(tally);
    var sorted := SortDesc(tally);
    var top := TopFive(tally);
    assert forall k | 0 <= k < |top| :: top[k] == sorted[k];
    assert forall k | 0 <= k < |sorted| :: sorted[k] in multiset(tally);
    forall k | 0 <= k < |top|
      ensures top[k].1 == Seqs.Count(AllServices(entries), top[k].0)
    {
      assert sorted[k] in multiset(tally);
      var m :| 0 <= m < |tally| && tally[m] == sorted[k];
    }
    forall k, l | 0 <= k < l < |top|
      ensures top[k].0 != top[l].0
    {
      SortedKeysDistinct(tally, sorted, k, l);
    }
  }

  /** The services most_common(5) leaves out: none occurs more often than
      a listed one, and min(5, distinct services) are listed, each of them
      occurring. */
  lemma MostCommonSelection(services: seq<string>)
    ensures var top := TopFive(Seqs.Tally(services));
      var distinct := |Seqs.AddNew([], services)|;
      |top| == (if distinct <= 5 then distinct else 5) &&
      (forall k | 0 <= k < |top| :: top[k].0 in services) &&
      forall x, k | x in services && x !in Seqs.Keys(top) && 0 <= k < |top| ::
        Seqs.Count(services, x) <= top[k].1
  {
    var tally := Seqs.Tally(services);
    Seqs.TallyFacts(services);
    Seqs.AddNewMembers([], services);
    TopFiveSelects(tally);
    ListedOccur(services, tally);
    LeftOutCountLess(services, tally);
  }

  lemma ListedOccur(services: seq<string>, tally: seq<(string, nat)>)
    requires forall x :: x in Seqs.Keys(tally) <==> x in services
    ensures forall k | 0 <= k < |TopFive(tally)| :: TopFive(tally)[k].0 in services
  {
    var top := TopFive(tally);
    SortDescFacts(tally);
    forall k | 0 <= k < |top| ensures top[k].0 in services {
      assert top[k] == SortDesc(tally)[k];
      assert top[k] in multiset(tally);
      var m :| 0 <= m < |tally| && tally[m] == top[k];
      assert Seqs.Keys(tally)[m] == top[k].0;
    }
  }

  lemma LeftOutCountLess(services: seq<string>, tally: seq<(string, nat)>)
    requires forall x :: x in Seqs.Keys(tally) <==> x in services
    requires forall i | 0 <= i < |tally| :: tally[i].1 == Seqs.Count(services, tally[i].0)
    requires forall x, k | x in multiset(tally) && x !in TopFive(tally) && 0 <= k < |TopFive(tally)| ::
      x.1 <= TopFive(tally)[k].1
    ensures forall x, k | x in services && x !in Seqs.Keys(TopFive(tally)) && 0 <= k < |TopFive(tally)| ::
      Seqs.Count(services, x) <= TopFive(tally)[k].1
  {
    var top := TopFive(tally);
    forall x, k | x in services && x !in Seqs.Keys(top) && 0 <= k < |top|
      ensures Seqs.Count(services, x) <= top[k].1
    {
      var m :| 0 <= m < |tally| && Seqs.Keys(tally)[m] == x;
      var p := tally[m];
      assert p in multiset(tally);
      forall j | 0 <= j < |top| ensures top[j] != p {
        assert Seqs.Keys(top)[j] == top[j].0;
      }
    }
  }

  /** The first five of the descending sort: min(5, |items|) of the items,
      and every item not taken counts no more than any taken one. */
  lemma TopFiveSelects(items: seq<(string, nat)>)
    ensures |TopFive(items)| == if |items| <= 5 then |items| else 5
    ensures forall x, k | x in multiset(items) && x !in TopFive(items) && 0 <= k < |TopFive(items)| ::
      x.1 <= TopFive(items)[k].1
  {
    SortDescFacts(items);
    var sorted := SortDesc(items);
    assert |sorted| == |items| by {
      assert |multiset(sorted)| == |multiset(items)|;
    }
    SortedPrefixDominates(sorted, if |sorted| <= 5 then |sorted| else 5);
  }

  /** In a non-increasing sequence, every element outside a prefix counts no
      more than any element of the prefix. */
  lemma SortedPrefixDominates(sorted: seq<(string, nat)>, n: nat)
    requires NonIncreasing(sorted) && n <= |sorted|
    ensures forall x, k | x in sorted && x !in sorted[..n] && 0 <= k < n :: x.1 <= sorted[k].1
  {
    forall x, k | x in sorted && x !in sorted[..n] && 0 <= k < n
      ensures x.1 <= sorted[k].1
    {
      var j :| 0 <= j < |sorted| && sorted[j] == x;
    }
  }

  /** Distinct keys survive a reordering of the pairs. */
  lemma SortedKeysDistinct(tally: seq<(string, nat)>, sorted: seq<(string, nat)>, k: nat, l: nat)
    requires Seqs.NoDups(Seqs.Keys(tally))
    requires multiset(sorted) == multiset(tally)
    requires k < l < |sorted|
    ensures sorted[k].0 != sorted[l].0
  {
    assert sorted[k] in multiset(tally) && sorted[l] in multiset(tally);
    var a :| 0 <= a < |tally| && tally[a] == sorted[k];
    var b :| 0 <= b < |tally| && tally[b] == sorted[l];
    if sorted[k] == sorted[l] {
      var ms := multiset(sorted);
      assert sorted == sorted[..l] + [sorted[l]] + sorted[l + 1..];
      assert sorted[k] in sorted[..l];
      assert ms[sorted[l]] >= 2 by {
        assert multiset(sorted) == multiset(sorted[..l]) + multiset{sorted[l]} + multiset(sorted[l + 1..]);
      }
      assert multiset(tally)[tally[a]] >= 2;
      PairOnce(tally, a);
    } else if a != b {
      assert Seqs.Keys(tally)[a] == tally[a].0;
      assert Seqs.Keys(tally)[b] == tally[b].0;
    }
  }

  /** With distinct keys, each pair occurs once. */
  lemma PairOnce(tally: seq<(string, nat)>, a: nat)
    requires Seqs.NoDups(Seqs.Keys(tally))
    requires a < |tally|
    ensures multiset(tally)[tally[a]] == 1
  {
    var x := tally[a];
    assert tally == tally[..a] + [x] + tally[a + 1..];
    assert multiset(tally) == multiset(tally[..a]) + multiset{x} + multiset(tally[a + 1..]);
    assert x !in multiset(tally[..a]) by {
      forall m | 0 <= m < a ensures tally[..a][m] != x {
        assert Seqs.Keys(tally)[m] != Seqs.Keys(tally)[a];
      }
    }
    assert x !in multiset(tally[a + 1..]) by {
      var rest := tally[a + 1..];
      forall m | 0 <= m < |rest| ensures rest[m] != x {
        assert rest[m] == tally[a + 1 + m];
        assert Seqs.Keys(tally)[a + 1 + m] != Seqs.Keys(tally)[a];
      }
    }
  }

  // ---------------------------------------------------------------------
  // create_scan_plan and _create_adaptive_plan

  /** A previous scan: its target list and, per target, whether its result
      entry has an 'error' key. */
  datatype ScanRecord = ScanRecord(targets: seq<string>, results: map<string, bool>)

  /** The plan dictionary. target and profile are None for an adaptive
      plan, whose dictionary replaces the one that held them. */
  datatype Plan = Plan(
    target: Option<string>, profile: Option<string>, ports: string, arguments: string,
    timing: string, reasoning: string, historicalContext: string)

  /** The previous scans that list the target, in order. */
  function TargetHistory(target: string, scans: seq<ScanRecord>): (h: seq<ScanRecord>)
    ensures |h| <= |scans|
    ensures forall s :: s in h <==> s in scans && target in s.targets
    decreases |scans|
  {
    if scans == [] then []
    else
      var last := scans[|scans| - 1];
      var init := TargetHistory(target, scans[..|scans| - 1]);
      assert scans == scans[..|scans| - 1] + [last];
      if target in last.targets then init + [last] else init
  }

  /** The scan records the target without an 'error' key (a missing
      entry counts as no error). */
  predicate SucceededFor(target: string, scan: ScanRecord)
  {
    !(target in scan.results && scan.results[target])
  }

  /** Some scan among the last three succeeded for the target. */
  predicate RecentSuccess(target: string, history: seq<ScanRecord>)
  {
    exists k | (if |history| > 3 then |history| - 3 else 0) <= k < |history| :: SucceededFor(target, history[k])
  }

  /** _create_adaptive_plan as (ports, arguments, timing). */
  function AdaptivePlan(target: string, history: seq<ScanRecord>): (plan: (string, string, string))
    ensures plan.0 in ["1-100", "1-1000", "1-10000"] && plan.2 == "T3"
  {
    if history == [] then ("1-1000", "-T3 -sV", "T3")
    else if RecentSuccess(target, history) then ("1-10000", "-T3 -sV -O --script=safe", "T3")
    else ("1-100", "-T2", "T3")
  }

  function HistoricalContext(history: seq<ScanRecord>): (context: string)
    ensures context == "No historical data" <==> history == []
  {
    if history == [] then "No historical data"
    else "Based on " + NatToString(|history|) + " previous scans"
  }

  /** create_scan_plan; the duration estimate is not modelled. */
  function CreateScanPlan(target: string, profile: string, previousScans: seq<ScanRecord>): (plan: Plan)
    ensures plan.target.Some? <==> profile in ["fast", "thorough", "stealth"]
    ensures plan.target.Some? ==> plan.target == Some(target) && plan.profile == Some(profile)
    ensures plan.timing in ["T1", "T3", "T4"]
  {
    var history := TargetHistory(target, previousScans);
    var reasoning := "Plan optimized for " + profile + " scanning";
    var context := HistoricalContext(history);
    if profile == "fast" then
      Plan(Some(target), Some(profile), "1-1000", "-T4 -F", "T4", reasoning, context)
    else if profile == "thorough" then
      Plan(Some(target), Some(profile), "1-65535", "-T3 -sV -O -A", "T3", reasoning, context)
    else if profile == "stealth" then
      Plan(Some(target), Some(profile), "1-1000", "-T1 -sS -f", "T1", reasoning, context)
    else
      var adaptive := AdaptivePlan(target, history);
      Plan(None, None, adaptive.0, adaptive.1, adaptive.2, reasoning, context)
  }

  /** The adaptive plan: '1-1000' without history; '1-10000' iff one of
      the last three matching scans succeeded; otherwise the narrow
      '1-100' plan with '-T2' arguments, whose timing stays 'T3'. */
  lemma AdaptivePlanRule(target: string, profile: string, previousScans: seq<ScanRecord>)
    requires profile !in ["fast", "thorough", "stealth"]
    ensures var plan := CreateScanPlan(target, profile, previousScans);
      var history := TargetHistory(target, previousScans);
      plan.target.None? && plan.profile.None? && plan.timing == "T3" &&
      (plan.ports == "1-1000" <==> history == []) &&
      (plan.ports == "1-10000" <==> history != [] && RecentSuccess(target, history)) &&
      (plan.ports == "1-100" <==> history != [] && !RecentSuccess(target, history)) &&
      (plan.arguments == "-T2" <==> plan.ports == "1-100")
  {
  }

  /** The adaptive plan widens exactly when some matching scan among the
      last three has no error for the target. */
  lemma WidenAfterSuccess(target: string, previousScans: seq<ScanRecord>, k: nat)
    requires var h := TargetHistory(target, previousScans); |h| - 3 <= k < |h| && SucceededFor(target, h[k])
    ensures CreateScanPlan(target, "adaptive", previousScans).ports == "1-10000"
  {
  }

  /** Without any matching history the context says so, and every other
      plan reports how many matching scans there were. */
  lemma HistoricalContextRule(target: string, profile: string, previousScans: seq<ScanRecord>)
    ensures var plan := CreateScanPlan(target, profile, previousScans);
      (plan.historicalContext == "No historical data" <==>
        forall s | s in previousScans :: target !in s.targets)
  {
    var history := TargetHistory(target, previousScans);
    var plan := CreateScanPlan(target, profile, previousScans);
    assert plan.historicalContext == HistoricalContext(history);
    if history != [] {
      var ctx := HistoricalContext(history);
      assert ctx[0] == 'B';
      assert history[0] in history;
    } else {
      forall s | s in previousScans ensures target !in s.targets {
        assert s !in history;
      }
    }
  }

  /** Every plan's port specification passes validate_ports. */
  lemma PlanPortsValid(target: string, profile: string, previousScans: seq<ScanRecord>)
    ensures Validators.ValidatePorts(CreateScanPlan(target, profile, previousScans).ports)
  {
    var ports := CreateScanPlan(target, profile, previousScans).ports;
    PlanPortChoices(target, profile, previousScans);
    var n := RangeBound(ports);
    RangeFromOneValid(n, ports);
  }

  /** The four port ranges a plan can scan. */
  lemma PlanPortChoices(target: string, profile: string, previousScans: seq<ScanRecord>)
    ensures CreateScanPlan(target, profile, previousScans).ports in ["1-100", "1-1000", "1-10000", "1-65535"]
  {
    var history := TargetHistory(target, previousScans);
    var adaptive := AdaptivePlan(target, history);
    assert adaptive.0 in ["1-100", "1-1000", "1-10000"];
  }

  /** Each of them is '1-' followed by the decimal text of its upper bound. */
  lemma RangeBound(ports: string) returns (n: nat)
    requires ports in ["1-100", "1-1000", "1-10000", "1-65535"]
    ensures 1 < n <= 65535 && ports == "1-" + NatToString(n)
  {
    if ports == "1-100" {
      n := 100;
      RangeText(100, "100");
    } else if ports == "1-1000" {
      n := 1000;
      RangeText(1000, "1000");
    } else if ports == "1-10000" {
      n := 10000;
      RangeText(10000, "10000");
    } else {
      n := 65535;
      RangeText(65535, "65535");
    }
  }

  lemma RangeText(n: nat, text: string)
    requires n in {100, 1000, 10000, 65535}
    requires text == if n == 100 then "100" else if n == 1000 then "1000" else if n == 10000 then "10000" else "65535"
    ensures "1-" + text == "1-" + NatToString(n)
  {
    PlanBoundTexts();
  }

  /** A range '1-n' with 1 < n <= 65535 is a valid port specification. */
  lemma RangeFromOneValid(n: nat, spec: string)
    requires 1 < n <= 65535 && spec == "1-" + NatToString(n)
    ensures Validators.ValidatePorts(spec)
  {
    assert NatToString(1) == "1";
    assert "1-" + NatToString(n) == NatToString(1) + "-" + NatToString(n);
    Validators.PortRangeValid(1, n);
  }

  lemma AppendDigit(n: nat, d: nat)
    requires 0 < n && d < 10
    ensures NatToString(10 * n + d) == NatToString(n) + [DigitChar(d)]
  {
    assert (10 * n + d) / 10 == n && (10 * n + d) % 10 == d;
  }

  /** The decimal texts of the plan's upper bounds. */
  lemma PlanBoundTexts()
    ensures NatToString(100) == "100" && NatToString(1000) == "1000"
    ensures NatToString(10000) == "10000" && NatToString(65535) == "65535"
  {
    AppendDigit(1, 0);
    AppendDigit(10, 0);
    AppendDigit(100, 0);
    AppendDigit(1000, 0);
    AppendDigit(6, 5);
    AppendDigit(65, 5);
    AppendDigit(655, 3);
    AppendDigit(6553, 5);
  }
}
