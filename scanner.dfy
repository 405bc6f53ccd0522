/** NmapAIScanner of nmap_ai/core/scanner.py with the nmap engine as an
    oracle: input validation, one result entry per target, the scan
    history and the batch-file target list. */
module Scanner {
  import opened Wrappers
  import opened Text
  import Validators
  import Parser
  import AiEngine

  /** What one engine run reports: the hosts it saw with their raw
      results, or the exception it raised; either way the last command
      line. */
  datatype EngineOutcome =
    | Scanned(hosts: map<string, Parser.RawHost>, command: string)
    | Raised(message: string, command: string)

  /** The engine: the outcome of call number n for a target and nmap
      arguments. */
  type Engine = (nat, string, string) -> EngineOutcome

  /** A per-target results entry: a successful single scan, the error
      dictionary _perform_single_scan returns, or {'error': message}. */
  datatype TargetResult =
    | Completed(raw: Parser.RawHost, parsed: Parser.ParsedResult, command: string)
    | ScanError(error: string, command: string)
    | ErrorOnly(error: string)

  /** A string target or a list of targets. */
  datatype Targets = One(target: string) | Many(targets: seq<string>)

  function TargetList(t: Targets): seq<string>
  {
    match t
    case One(target) => [target]
    case Many(targets) => targets
  }

  /** The clock readings a scan takes: the epoch seconds used in the scan
      id, the start and end times, and the parse time of each target, read
      when engine call n is parsed. */
  datatype Clock = Clock(timestamp: int, startTime: string, endTime: string, parseTime: nat -> string)

  datatype ScanSummary = ScanSummary(
    scanId: string, startTime: string, endTime: string, targets: seq<string>,
    ports: string, arguments: string, aiEnabled: bool,
    results: map<string, TargetResult>, aiInsights: Option<AiEngine.ScanInsights>)

  /** What python-nmap's scan result gives for a target with no host entry:
      an empty plain dictionary. */
  const EmptyRawHost := Parser.RawHost(false, None, None, map[], None, None, None, {})

  /** self.nm[target] if target in self.nm.all_hosts() else {}: a present
      host is python-nmap's host object, which has all_protocols. */
  function HostEntry(hosts: map<string, Parser.RawHost>, target: string): (raw: Parser.RawHost)
    ensures target in hosts ==> raw.hostObject && raw.protocols == hosts[target].protocols
    ensures target !in hosts ==> Parser.IsEmpty(raw) && !raw.hostObject
  {
    if target in hosts then hosts[target].(hostObject := true) else EmptyRawHost
  }

  /** The entry _perform_single_scan returns for call number n. */
  function SingleScanResult(n: nat, target: string, ports: string, arguments: string,
                            engine: Engine, now: string): TargetResult
  {
    match engine(n, target, "-p " + ports + " " + arguments)
    case Scanned(hosts, command) =>
      var raw := HostEntry(hosts, target);
      Completed(raw, Parser.ParsedOf(raw, now), command)
    case Raised(message, command) => ScanError(message, command)
  }

  method PerformSingleScan(n: nat, target: string, ports: string, arguments: string,
                           engine: Engine, now: string) returns (r: TargetResult)
    ensures r == SingleScanResult(n, target, ports, arguments, engine, now)
  {
    var outcome := engine(n, target, "-p " + ports + " " + arguments);
    match outcome {
      case Scanned(hosts, command) =>
        var raw := HostEntry(hosts, target);
        var parsed := Parser.ParseScanResult(raw, now);
        r := Completed(raw, parsed, command);
      case Raised(message, command) =>
        r := ScanError(message, command);
    }
  }

  /** The results dictionary after scanning targets in order: the i-th
      target is scanned by engine call i, and a repeated target keeps the
      entry of its last scan. */
  function ResultsOf(targets: seq<string>, ports: string, arguments: string,
                     engine: Engine, now: nat -> string): map<string, TargetResult>
    decreases |targets|
  {
    if targets == [] then map[]
    else
      var n := |targets| - 1;
      ResultsOf(targets[..n], ports, arguments, engine, now)[
        targets[n] := SingleScanResult(n, targets[n], ports, arguments, engine, now(n))]
  }

  /** `if ports and not validate_ports(ports)` */
  predicate PortsRejected(ports: Option<string>)
  {
    ports.Some? && ports.value != "" && !Validators.ValidatePorts(ports.value)
  }

  /** `ports or default_ports` */
  function EffectivePorts(ports: Option<string>, defaultPorts: string): (p: string)
    ensures p == defaultPorts || (ports.Some? && p == ports.value)
    ensures p == "" ==> defaultPorts == ""
  {
    if ports.Some? && ports.value != "" then ports.value else defaultPorts
  }

  /** The arguments after `arguments or ""` and the optional optimiser. */
  function EffectiveArguments(targets: seq<string>, arguments: Option<string>, optimize: bool): (args: string)
    ensures !optimize ==> args == arguments.UnwrapOr("")
    ensures optimize ==> args != [] && NoSpaceAtEnds(args)
  {
    var base := arguments.UnwrapOr("");
    if optimize then
      var opts := AiEngine.Optimizations(|targets|, AiEngine.BaseFlagsOf(base),
                                         AiEngine.SomeTargetHas(targets, AiEngine.WebIndicators), true);
      var joined := Join(opts, " ");
      assert joined[0] == opts[0][0] == '-';
      assert (base + " " + joined)[|base| + 1] == '-';
      Strip(base + " " + joined)
    else base
  }

  /** The index of the first invalid target, if any. */
  function FirstInvalid(targets: seq<string>, isIpAddress: string -> bool, isIpNetwork: string -> bool): (r: Option<nat>)
    ensures r.Some? ==> r.value < |targets| && !Validators.ValidateTarget(targets[r.value], isIpAddress, isIpNetwork)
    ensures r.Some? ==> forall j | 0 <= j < r.value :: Validators.ValidateTarget(targets[j], isIpAddress, isIpNetwork)
    ensures r.None? ==> forall j | 0 <= j < |targets| :: Validators.ValidateTarget(targets[j], isIpAddress, isIpNetwork)
    decreases |targets|
  {
    if targets == [] then None
    else if !Validators.ValidateTarget(targets[0], isIpAddress, isIpNetwork) then Some(0)
    else
      var rest := FirstInvalid(targets[1..], isIpAddress, isIpNetwork);
      if rest.Some? then Some(rest.value + 1) else None
  }

  /** The validation loop of scan: the index of the first invalid
      target, if any. */
  method CheckTargets(targets: seq<string>, isIpAddress: string -> bool, isIpNetwork: string -> bool)
    returns (bad: Option<nat>)
    ensures bad == FirstInvalid(targets, isIpAddress, isIpNetwork)
  {
    for i := 0 to |targets|
      invariant forall j | 0 <= j < i :: Validators.ValidateTarget(targets[j], isIpAddress, isIpNetwork)
    {
      if !Validators.ValidateTarget(targets[i], isIpAddress, isIpNetwork) {
        return Some(i);
      }
    }
    return None;
  }

  /** The scanning loop of scan: each target in order, the i-th by engine
      call i. */
  method ScanAll(targets: seq<string>, ports: string, arguments: string, engine: Engine, now: nat -> string)
    returns (results: map<string, TargetResult>)
    ensures results == ResultsOf(targets, ports, arguments, engine, now)
  {
    results := map[];
    for i := 0 to |targets|
      invariant results == ResultsOf(targets[..i], ports, arguments, engine, now)
    {
      assert targets[..i + 1][..i] == targets[..i];
      var entry := PerformSingleScan(i, targets[i], ports, arguments, engine, now(i));
      results := results[targets[i] := entry];
    }
    assert targets[..|targets|] == targets;
  }

  class NmapAIScanner {
    const aiEnabled: bool
    /** config.scanning.default_ports */
    const defaultPorts: string
    var scanHistory: seq<ScanSummary>

    constructor(aiEnabled: bool, defaultPorts: string)
      ensures this.aiEnabled == aiEnabled && this.defaultPorts == defaultPorts
      ensures scanHistory == []
    {
      this.aiEnabled := aiEnabled;
      this.defaultPorts := defaultPorts;
      scanHistory := [];
    }

    /** _generate_scan_id: scan_<epoch seconds>_<history length>. */
    function ScanId(timestamp: int): (id: string)
      reads this
      ensures "scan_" <= id
      ensures AfterLastSep(id) == NatToString(|scanHistory|)
    {
      NatToStringNoSep(|scanHistory|);
      AfterLastSepOf("scan_" + IntToString(timestamp), NatToString(|scanHistory|));
      "scan_" + IntToString(timestamp) + "_" + NatToString(|scanHistory|)
    }

    /** scan: validate every target and a given port specification, then
        scan each target in order, record the summary in the history and
        return it. A ValueError is the Failure result. */
    method Scan(targets: Targets, ports: Option<string>, arguments: Option<string>, aiOptimize: bool,
                engine: Engine, isIpAddress: string -> bool, isIpNetwork: string -> bool, clock: Clock)
      returns (r: Result<ScanSummary, string>)
      modifies this
      ensures var ts := TargetList(targets);
        r.Failure? <==>
          (exists j | 0 <= j < |ts| :: !Validators.ValidateTarget(ts[j], isIpAddress, isIpNetwork)) ||
          PortsRejected(ports)
      ensures r.Failure? ==> scanHistory == old(scanHistory)
      ensures r.Failure? ==> var ts := TargetList(targets);
        var bad := FirstInvalid(ts, isIpAddress, isIpNetwork);
        r.error == if bad.Some? then "Invalid target: " + ts[bad.value]
                   else "Invalid port specification: " + ports.value
      ensures r.Success? ==> scanHistory == old(scanHistory) + [r.value]
      ensures r.Success? ==>
        var ts := TargetList(targets);
        var p := EffectivePorts(ports, defaultPorts);
        var args := EffectiveArguments(ts, arguments, aiOptimize && aiEnabled);
        r.value == ScanSummary(
          "scan_" + IntToString(clock.timestamp) + "_" + NatToString(|old(scanHistory)|),
          clock.startTime, clock.endTime, ts, p, args, aiEnabled,
          ResultsOf(ts, p, args, engine, clock.parseTime),
          if aiEnabled then Some(AiEngine.ScanInsights(None, None, [])) else None)
    {
      var ts := TargetList(targets);
      var bad := CheckTargets(ts, isIpAddress, isIpNetwork);
      if bad.Some? {
        return Failure("Invalid target: " + ts[bad.value]);
      }
      if ports.Some? && ports.value != "" && !Validators.ValidatePorts(ports.value) {
        return Failure("Invalid port specification: " + ports.value);
      }
      var p := if ports.Some? && ports.value != "" then ports.value else defaultPorts;
      var args := arguments.UnwrapOr("");
      if aiOptimize && aiEnabled {
        args := AiEngine.OptimizeScanArguments(ts, p, args);
      }
      var results := ScanAll(ts, p, args, engine, clock.parseTime);
      var insights: Option<AiEngine.ScanInsights> := None;
      if aiEnabled {
        // enhance_results receives the per-target map; unless a target is
        // named 'results' it has no such key, so only empty insights are
        // added (the two colliding target names are not modelled)
        var ins := AiEngine.GenerateScanInsights(None);
        insights := Some(ins);
      }
      var summary := ScanSummary(ScanId(clock.timestamp), clock.startTime, clock.endTime, ts, p, args,
                                 aiEnabled, results, insights);
      scanHistory := scanHistory + [summary];
      r := Success(summary);
    }

    /** get_scan_history: with a non-zero limit the slice
        history[-limit:], otherwise a copy of the whole list. */
    function GetScanHistory(limit: Option<int>): (h: seq<ScanSummary>)
      reads this
      ensures limit.Some? && limit.value > 0 ==>
        |h| == (if limit.value < |scanHistory| then limit.value else |scanHistory|) &&
        h == scanHistory[|scanHistory| - |h|..]
      ensures limit.None? || limit.value == 0 ==> h == scanHistory
      ensures limit.Some? && limit.value < 0 ==>
        h == scanHistory[(if -limit.value < |scanHistory| then -limit.value else |scanHistory|)..]
    {
      if limit.Some? && limit.value != 0 then
        var start := if limit.value > |scanHistory| then 0
                     else if -limit.value > |scanHistory| then |scanHistory|
                     else if limit.value > 0 then |scanHistory| - limit.value
                     else -limit.value;
        scanHistory[start..]
      else scanHistory
    }

    method ClearScanHistory()
      modifies this
      ensures scanHistory == []
    {
      scanHistory := [];
    }
  }

  /** Every target gets exactly one entry in the results dictionary. */
  lemma {:induction false} ResultsKeys(targets: seq<string>, ports: string, arguments: string, engine: Engine, now: nat -> string)
    ensures ResultsOf(targets, ports, arguments, engine, now).Keys == set t | t in targets
    decreases |targets|
  {
    if targets != [] {
      var n := |targets| - 1;
      ResultsKeys(targets[..n], ports, arguments, engine, now);
      assert targets == targets[..n] + [targets[n]];
    }
  }

  /** A target's entry is the outcome of its last scan in the list. */
  lemma {:induction false} ResultsLastScan(targets: seq<string>, ports: string, arguments: string,
                                           engine: Engine, now: nat -> string, j: nat)
    requires j < |targets|
    requires forall k | j < k < |targets| :: targets[k] != targets[j]
    ensures targets[j] in ResultsOf(targets, ports, arguments, engine, now)
    ensures ResultsOf(targets, ports, arguments, engine, now)[targets[j]] ==
      SingleScanResult(j, targets[j], ports, arguments, engine, now(j))
    decreases |targets|
  {
    var n := |targets| - 1;
    if j < n {
      ResultsLastScan(targets[..n], ports, arguments, engine, now, j);
    }
  }

  /** An exception raised while scanning a target becomes its error entry;
      the remaining targets are still scanned. */
  lemma ErrorCaptured(targets: seq<string>, ports: string, arguments: string,
                      engine: Engine, now: nat -> string, j: nat)
    requires j < |targets|
    requires forall k | j < k < |targets| :: targets[k] != targets[j]
    requires engine(j, targets[j], "-p " + ports + " " + arguments).Raised?
    ensures targets[j] in ResultsOf(targets, ports, arguments, engine, now)
    ensures ResultsOf(targets, ports, arguments, engine, now)[targets[j]] ==
      ScanError(engine(j, targets[j], "-p " + ports + " " + arguments).message,
                engine(j, targets[j], "-p " + ports + " " + arguments).command)
    ensures ResultsOf(targets, ports, arguments, engine, now).Keys == set t | t in targets
  {
    ResultsLastScan(targets, ports, arguments, engine, now, j);
    ResultsKeys(targets, ports, arguments, engine, now);
  }

  /** A target the engine did not report yields a successful entry whose
      parsed status is 'no_data'. */
  lemma AbsentHostNoData(n: nat, target: string, ports: string, arguments: string, engine: Engine, now: string)
    requires engine(n, target, "-p " + ports + " " + arguments).Scanned?
    requires target !in engine(n, target, "-p " + ports + " " + arguments).hosts
    ensures SingleScanResult(n, target, ports, arguments, engine, now).Completed?
    ensures SingleScanResult(n, target, ports, arguments, engine, now).parsed.status == "no_data"
    ensures SingleScanResult(n, target, ports, arguments, engine, now).parsed.openPorts == []
  {
  }

  /** Each summary's scan id ends with the history length at the time of
      the call, so the ids of one scanner's summaries are distinct. */
  lemma ScanIdsDistinct(t1: int, n1: nat, t2: int, n2: nat)
    requires n1 != n2
    ensures "scan_" + IntToString(t1) + "_" + NatToString(n1) != "scan_" + IntToString(t2) + "_" + NatToString(n2)
  {
    var a := "scan_" + IntToString(t1) + "_" + NatToString(n1);
    var b := "scan_" + IntToString(t2) + "_" + NatToString(n2);
    if a == b {
      var sa, sb := NatToString(n1), NatToString(n2);
      // the part after the last '_' is the history length
      assert '_' !in sa && '_' !in sb;
      SuffixAfterLastSep(IntToString(t1), sa, IntToString(t2), sb);
      NatToStringInjective(n1, n2);
    }
  }

  lemma NatToStringNoSep(n: nat)
    ensures '_' !in NatToString(n)
  {
    var s := NatToString(n);
    forall k | 0 <= k < |s| ensures s[k] != '_' {
      assert IsDigit(s[k]);
    }
  }

  /** The text after the last '_' of a string. */
  function AfterLastSep(w: string): string
    decreases |w|
  {
    if w == [] || w[|w| - 1] == '_' then [] else AfterLastSep(w[..|w| - 1]) + [w[|w| - 1]]
  }

  lemma {:induction false} AfterLastSepOf(x: string, s: string)
    requires '_' !in s
    ensures AfterLastSep(x + "_" + s) == s
    decreases |s|
  {
    var w := x + "_" + s;
    if s != [] {
      var init := s[..|s| - 1];
      assert w[..|w| - 1] == x + "_" + init;
      AfterLastSepOf(x, init);
      assert init + [s[|s| - 1]] == s;
    }
  }

  /** Two strings p + "_" + s and q + "_" + t with no '_' in s and t are
      equal only when s == t. */
  lemma SuffixAfterLastSep(p: string, s: string, q: string, t: string)
    requires '_' !in s && '_' !in t
    requires "scan_" + p + "_" + s == "scan_" + q + "_" + t
    ensures s == t
  {
    AfterLastSepOf("scan_" + p, s);
    AfterLastSepOf("scan_" + q, t);
  }

  // ---------------------------------------------------------------------
  // async collection and batch_scan

  /** What asyncio.gather returned for one target: an exception, or the
      pair (target, that target's results entry). */
  datatype Gathered = Threw(message: string) | Returned(target: string, entry: TargetResult)

  /** The results entry a gathered value stores. */
  function EntryOf(g: Gathered): TargetResult
  {
    match g
    case Threw(message) => ErrorOnly(message)
    case Returned(_, entry) => entry
  }

  /** After the first i gathered values: the keys are the targets seen, and
      a target's entry comes from its last occurrence. */
  predicate GatheredUpTo(results: map<string, TargetResult>, targets: seq<string>, gathered: seq<Gathered>, i: nat)
    requires i <= |targets| == |gathered|
  {
    results.Keys == (set t | t in targets[..i])
    && forall m | 0 <= m < i && (forall k | m < k < i :: targets[k] != targets[m]) ::
         results[targets[m]] == EntryOf(gathered[m])
  }

  lemma GatheredStep(results: map<string, TargetResult>, targets: seq<string>, gathered: seq<Gathered>, i: nat)
    requires i < |targets| == |gathered|
    requires GatheredUpTo(results, targets, gathered, i)
    ensures GatheredUpTo(results[targets[i] := EntryOf(gathered[i])], targets, gathered, i + 1)
  {
    assert targets[..i + 1] == targets[..i] + [targets[i]];
  }

  /** The loop over the gathered results of _async_scan_impl. */
  method CollectGathered(targets: seq<string>, gathered: seq<Gathered>) returns (results: map<string, TargetResult>)
    requires |gathered| == |targets|
    requires forall i | 0 <= i < |gathered| :: gathered[i].Returned? ==> gathered[i].target == targets[i]
    ensures results.Keys == set t | t in targets
    ensures forall i | 0 <= i < |targets| && (forall k | i < k < |targets| :: targets[k] != targets[i]) ::
      results[targets[i]] == (match gathered[i]
                              case Threw(message) => ErrorOnly(message)
                              case Returned(_, entry) => entry)
  {
    results := map[];
    for i := 0 to |targets|
      invariant GatheredUpTo(results, targets, gathered, i)
    {
      GatheredStep(results, targets, gathered, i);
      match gathered[i] {
        case Threw(message) =>
          results := results[targets[i] := ErrorOnly(message)];
        case Returned(target, entry) =>
          results := results[target := entry];
      }
    }
    assert targets[..|targets|] == targets;
    forall i | 0 <= i < |targets| && (forall k | i < k < |targets| :: targets[k] != targets[i])
      ensures results[targets[i]] == EntryOf(gathered[i])
    {
    }
  }

  /** The stripped non-empty lines of the file, in order. */
  function NonBlankLines(lines: seq<string>): (ts: seq<string>)
    ensures |ts| <= |lines|
    decreases |lines|
  {
    if lines == [] then []
    else
      var rest := NonBlankLines(lines[..|lines| - 1]);
      var t := Strip(lines[|lines| - 1]);
      if t != "" then rest + [t] else rest
  }

  /** batch_scan's target list: the lines of the file stripped, with blank
      lines dropped. A read failure (its message e) becomes "Could not read
      targets file <path>: <e>", and no target at all is an error. */
  function BatchTargets(path: string, lines: Result<seq<string>, string>): (r: Result<seq<string>, string>)
    ensures lines.Failure? ==> r == Failure("Could not read targets file " + path + ": " + lines.error)
    ensures lines.Success? && r.Success? ==> r.value != [] && |r.value| <= |lines.value|
    ensures lines.Success? && r.Failure? ==> r.error == "No targets found in file"
  {
    if lines.Failure? then Failure("Could not read targets file " + path + ": " + lines.error)
    else
      var ts := NonBlankLines(lines.value);
      if ts == [] then Failure("No targets found in file") else Success(ts)
  }

  /** Every batch target is a non-empty stripped line, and every line that
      is not blank contributes one target, comment lines included. */
  lemma NonBlankLinesFacts(lines: seq<string>)
    ensures forall t | t in NonBlankLines(lines) :: t != "" && NoSpaceAtEnds(t)
    ensures forall t | t in NonBlankLines(lines) :: exists i | 0 <= i < |lines| :: Strip(lines[i]) == t
    ensures forall i | 0 <= i < |lines| && Strip(lines[i]) != "" :: Strip(lines[i]) in NonBlankLines(lines)
    ensures |NonBlankLines(lines)| == |lines| <==> forall i | 0 <= i < |lines| :: Strip(lines[i]) != ""
    ensures NonBlankLines(lines) == [] <==> forall i | 0 <= i < |lines| :: Strip(lines[i]) == ""
  {
    NonBlankShape(lines);
    NonBlankKeeps(lines);
    NonBlankCount(lines);
    NonBlankNone(lines);
  }

  lemma {:induction false} NonBlankShape(lines: seq<string>)
    ensures forall t | t in NonBlankLines(lines) ::
      t != "" && NoSpaceAtEnds(t) && exists i | 0 <= i < |lines| :: Strip(lines[i]) == t
    decreases |lines|
  {
    if lines != [] {
      var n := |lines| - 1;
      var init := lines[..n];
      NonBlankShape(init);
      forall u | u in NonBlankLines(lines)
        ensures u != "" && NoSpaceAtEnds(u) && exists i | 0 <= i < |lines| :: Strip(lines[i]) == u
      {
        if u in NonBlankLines(init) {
          var i :| 0 <= i < |init| && Strip(init[i]) == u;
          assert lines[i] == init[i];
        } else {
          assert u == Strip(lines[n]);
        }
      }
    }
  }

  lemma {:induction false} NonBlankKeeps(lines: seq<string>)
    ensures forall i | 0 <= i < |lines| && Strip(lines[i]) != "" :: Strip(lines[i]) in NonBlankLines(lines)
    decreases |lines|
  {
    if lines != [] {
      var n := |lines| - 1;
      var init := lines[..n];
      NonBlankKeeps(init);
      forall i | 0 <= i < |lines| && Strip(lines[i]) != "" ensures Strip(lines[i]) in NonBlankLines(lines) {
        if i < n {
          assert lines[i] == init[i];
        }
      }
    }
  }

  lemma {:induction false} NonBlankCount(lines: seq<string>)
    ensures |NonBlankLines(lines)| == |lines| <==> forall i | 0 <= i < |lines| :: Strip(lines[i]) != ""
    decreases |lines|
  {
    if lines != [] {
      var n := |lines| - 1;
      var init := lines[..n];
      NonBlankCount(init);
      AllButLast(lines, init, (l: string) => Strip(l) != "");
    }
  }

  lemma {:induction false} NonBlankNone(lines: seq<string>)
    ensures NonBlankLines(lines) == [] <==> forall i | 0 <= i < |lines| :: Strip(lines[i]) == ""
    decreases |lines|
  {
    if lines != [] {
      var n := |lines| - 1;
      var init := lines[..n];
      NonBlankNone(init);
      AllButLast(lines, init, (l: string) => Strip(l) == "");
    }
  }

  /** A property holds of every line iff it holds of all but the last and
      of the last. */
  lemma AllButLast(lines: seq<string>, init: seq<string>, p: string -> bool)
    requires lines != [] && init == lines[..|lines| - 1]
    ensures (forall i | 0 <= i < |lines| :: p(lines[i])) <==>
      (forall i | 0 <= i < |init| :: p(init[i])) && p(lines[|lines| - 1])
  {
    if forall i | 0 <= i < |init| :: p(init[i]) {
      forall i | 0 <= i < |init| ensures p(lines[i]) {
        assert lines[i] == init[i];
      }
    }
  }

  /** A '#' line is a target like any other. */
  lemma CommentLineKept(path: string)
    ensures BatchTargets(path, Success(["# comment", " "])) == Success(["# comment"])
  {
    var lines := ["# comment", " "];
    assert NoSpaceAtEnds("# comment");
    StripUnchanged("# comment");
    assert forall k | 0 <= k < |" "| :: IsSpace(" "[k]);
    assert Strip(" ") == "";
    assert lines[..1] == ["# comment"];
    assert ["# comment"][..0] == [];
    assert NonBlankLines(["# comment"]) == [] + ["# comment"];
    assert NonBlankLines(lines) == NonBlankLines(lines[..1]);
    assert [] + ["# comment"] == ["# comment"];
    assert NonBlankLines(lines) == ["# comment"];
  }

  /** A file with only blank lines is an error. */
  lemma BlankFileRejected(path: string, lines: seq<string>)
    requires forall i | 0 <= i < |lines| :: Strip(lines[i]) == ""
    ensures BatchTargets(path, Success(lines)) == Failure("No targets found in file")
  {
    NonBlankLinesFacts(lines);
  }
}
