/** SmartScanner of nmap_ai/ai/smart_scanner.py: the strategy table, the
    phase aggregation with its early stop, the bounded adaptive loop, the
    posture and profile rules and the capped learning buffer. The
    intelligence gathering and the phase scans are inputs. */
module SmartScanner {
  import opened Wrappers
  import opened Text
  import Seqs
  import Validators
  import Parser

  // ---------------------------------------------------------------------
  // _plan_scan_strategy

  /** A strategy phase; a key the table leaves out is None. */
  datatype Phase = Phase(name: string, ports: Option<string>, args: Option<string>, timing: Option<string>)

  datatype Strategy = Strategy(approach: string, phases: seq<Phase>, estimatedDuration: string, stealthLevel: string)

  /** The phases, approach and stealth level for an optimisation level,
      given the intelligence confidence and likely services. */
  function PlanScanStrategy(level: string, confidence: real, likelyServices: seq<string>): (s: Strategy)
    ensures 2 <= |s.phases| <= 3 && (|s.phases| == 3 <==> level == "aggressive")
    ensures s.stealthLevel == "low" <==> level == "aggressive"
    ensures s.stealthLevel == "high" <==> level == "conservative"
    ensures s.estimatedDuration == "5-10 minutes"
    ensures forall i | 0 <= i < |s.phases| :: s.phases[i].ports.Some? || s.phases[i].args.Some?
  {
    if level == "aggressive" then
      Strategy("comprehensive", [
        Phase("fast_port_scan", Some("1-65535"), None, Some("T4")),
        Phase("service_detection", None, Some("-sV -O"), Some("T4")),
        Phase("script_scanning", None, Some("--script=default,vuln"), Some("T4"))],
        "5-10 minutes", "low")
    else if level == "conservative" then
      Strategy("careful", [
        Phase("slow_port_scan", Some("1-1000"), None, Some("T1")),
        Phase("service_detection", None, Some("-sV"), Some("T2"))],
        "5-10 minutes", "high")
    else if confidence > 0.7 && "web_server" in likelyServices then
      Strategy("balanced", [
        Phase("web_focused_scan", Some("80,443,8080,8443"), Some("-sV --script=http-*"), None),
        Phase("common_ports", Some("1-1000"), None, Some("T3"))],
        "5-10 minutes", "medium")
    else if confidence > 0.7 then
      Strategy("balanced", [
        Phase("common_ports", Some("1-1000"), Some("-sV"), Some("T3")),
        Phase("extended_scan", Some("1001-5000"), None, Some("T3"))],
        "5-10 minutes", "medium")
    else
      Strategy("balanced", [
        Phase("discovery_scan", Some("1-1000"), None, Some("T3")),
        Phase("service_analysis", None, Some("-sV -O"), Some("T3"))],
        "5-10 minutes", "medium")
  }

  /** aggressive gives three T4 phases at low stealth, conservative two
      phases at high stealth, and any other level two balanced phases at
      medium stealth, web-focused only for a confident web_server guess. */
  lemma StrategyRules(level: string, confidence: real, likelyServices: seq<string>)
    ensures var s := PlanScanStrategy(level, confidence, likelyServices);
      (level == "aggressive" ==>
         s.approach == "comprehensive" && s.stealthLevel == "low" && |s.phases| == 3 &&
         forall i | 0 <= i < 3 :: s.phases[i].timing == Some("T4")) &&
      (level == "conservative" ==> s.approach == "careful" && s.stealthLevel == "high" && |s.phases| == 2) &&
      (level != "aggressive" && level != "conservative" ==>
         s.approach == "balanced" && s.stealthLevel == "medium" && |s.phases| == 2 &&
         (s.phases[0].name == "web_focused_scan" <==> confidence > 0.7 && "web_server" in likelyServices) &&
         (s.phases[0].name == "discovery_scan" <==> confidence <= 0.7))
  {
  }

  // ---------------------------------------------------------------------
  // _execute_adaptive_scan

  /** What a phase scan returned: the parsed result's open ports and
      services (None when the key is absent, as in the 'No results from
      phase' dictionary), or the exception it raised. */
  datatype PhaseOutcome =
    | PhaseResult(openPorts: Option<seq<Parser.OpenPort>>, services: Option<seq<string>>)
    | PhaseThrew(message: string)

  /** The accumulated scan_results dictionary. */
  datatype Aggregate = Aggregate(phasesCompleted: nat, totalPortsScanned: nat,
                                 openPortsFound: seq<Parser.OpenPort>, servicesIdentified: seq<string>,
                                 errors: seq<string>)

  const EmptyAggregate := Aggregate(0, 0, [], [], [])

  /** _execute_single_phase's call arguments: the phase ports (default
      '1-1000') and '-<timing> <args>' stripped (defaults T3 and ''). */
  function PhaseCall(p: Phase): (string, string)
  {
    (p.ports.UnwrapOr("1-1000"), Strip("-" + p.timing.UnwrapOr("T3") + " " + p.args.UnwrapOr("")))
  }

  /** _should_stop_scanning: 20 open ports found, or a phase without open
      ports once more than two phases have completed. */
  predicate ShouldStop(current: Aggregate, phaseOpenPorts: Option<seq<Parser.OpenPort>>)
    ensures ShouldStop(current, phaseOpenPorts) && |current.openPortsFound| < 20 ==>
      current.phasesCompleted >= 3 && (phaseOpenPorts.None? || phaseOpenPorts.value == [])
    ensures current.phasesCompleted <= 2 ==> (ShouldStop(current, phaseOpenPorts) <==> |current.openPortsFound| >= 20)
  {
    |current.openPortsFound| >= 20 ||
    ((phaseOpenPorts.None? || phaseOpenPorts.value == []) && current.phasesCompleted > 2)
  }

  /** One phase of the loop: the new aggregate and whether to stop. */
  function Step(a: Aggregate, p: Phase, outcome: PhaseOutcome): (r: (Aggregate, bool))
    ensures r.0.phasesCompleted + |r.0.errors| == a.phasesCompleted + |a.errors| + 1
    ensures r.1 ==> outcome.PhaseResult? && (|r.0.openPortsFound| >= 20 || r.0.phasesCompleted > 2)
    ensures r.0.totalPortsScanned == a.totalPortsScanned
  {
    match outcome
    case PhaseThrew(message) =>
      (a.(errors := a.errors + ["Phase " + p.name + ": " + message]), false)
    case PhaseResult(ports, services) =>
      var next := a.(
        openPortsFound := if ports.Some? then Seqs.AddNew(a.openPortsFound, ports.value) else a.openPortsFound,
        servicesIdentified := if services.Some? then Seqs.AddNew(a.servicesIdentified, services.value) else a.servicesIdentified,
        phasesCompleted := a.phasesCompleted + 1);
      (next, ShouldStop(next, ports))
  }

  /** The phase scans as a function of the target and the call arguments. */
  type PhaseRunner = (string, string, string) -> PhaseOutcome

  function Outcome(target: string, p: Phase, run: PhaseRunner): PhaseOutcome
  {
    run(target, PhaseCall(p).0, PhaseCall(p).1)
  }

  /** The aggregate after running phases[i..] from a. */
  function RunFrom(target: string, phases: seq<Phase>, run: PhaseRunner, i: nat, a: Aggregate): (r: Aggregate)
    requires i <= |phases|
    ensures r.totalPortsScanned == a.totalPortsScanned
    ensures a.phasesCompleted + |a.errors| <= r.phasesCompleted + |r.errors| <= a.phasesCompleted + |a.errors| + |phases| - i
    decreases |phases| - i
  {
    if i == |phases| then a
    else
      var (next, stop) := Step(a, phases[i], Outcome(target, phases[i], run));
      if stop then next else RunFrom(target, phases, run, i + 1, next)
  }

  /** One pass of the phase loop's body: run the phase and fold its
      outcome into the aggregate. */
  method RunPhase(target: string, phase: Phase, run: PhaseRunner, a: Aggregate)
    returns (next: Aggregate, stop: bool)
    ensures (next, stop) == Step(a, phase, Outcome(target, phase, run))
  {
    var (ports, args) := PhaseCall(phase);
    var outcome := run(target, ports, args);
    next := a;
    stop := false;
    match outcome {
      case PhaseThrew(message) =>
        next := a.(errors := a.errors + ["Phase " + phase.name + ": " + message]);
      case PhaseResult(phasePorts, phaseServices) =>
        var found := a.openPortsFound;
        if phasePorts.Some? {
          found := Seqs.AddNew(found, phasePorts.value);
        }
        var identified := a.servicesIdentified;
        if phaseServices.Some? {
          identified := Seqs.AddNew(identified, phaseServices.value);
        }
        next := a.(openPortsFound := found, servicesIdentified := identified,
                   phasesCompleted := a.phasesCompleted + 1);
        stop := ShouldStop(next, phasePorts);
    }
  }

  method ExecuteAdaptiveScan(target: string, strategy: Strategy, run: PhaseRunner) returns (results: Aggregate)
    ensures results == RunFrom(target, strategy.phases, run, 0, EmptyAggregate)
  {
    var phases := strategy.phases;
    results := EmptyAggregate;
    var i := 0;
    while i < |phases|
      invariant 0 <= i <= |phases|
      invariant RunFrom(target, phases, run, 0, EmptyAggregate) == RunFrom(target, phases, run, i, results)
      decreases |phases| - i
    {
      var stop;
      results, stop := RunPhase(target, phases[i], run, results);
      if stop {
        return;
      }
      i := i + 1;
    }
  }

  /** A failing phase adds exactly one 'Phase <name>: ...' error, leaves
      the counts and lists alone, and never stops the loop. */
  lemma FailedPhase(a: Aggregate, p: Phase, message: string)
    ensures var (next, stop) := Step(a, p, PhaseThrew(message));
      !stop && next.phasesCompleted == a.phasesCompleted && next.openPortsFound == a.openPortsFound &&
      next.servicesIdentified == a.servicesIdentified && next.errors == a.errors + ["Phase " + p.name + ": " + message]
  {
  }

  predicate Consistent(a: Aggregate)
  {
    Seqs.NoDups(a.openPortsFound) && Seqs.NoDups(a.servicesIdentified)
  }

  /** One phase keeps the lists duplicate-free and extends them, counts
      itself once as completed or failed, and stops only under the stop
      rule. */
  lemma StepFacts(a: Aggregate, p: Phase, outcome: PhaseOutcome)
    requires Consistent(a)
    ensures var (next, stop) := Step(a, p, outcome);
      Consistent(next) && a.openPortsFound <= next.openPortsFound &&
      a.servicesIdentified <= next.servicesIdentified && a.errors <= next.errors &&
      next.totalPortsScanned == a.totalPortsScanned &&
      next.phasesCompleted + |next.errors| == a.phasesCompleted + |a.errors| + 1 &&
      (stop ==> |next.openPortsFound| >= 20 || next.phasesCompleted > 2)
  {
    if outcome.PhaseResult? {
      if outcome.openPorts.Some? {
        Seqs.AddNewNoDups(a.openPortsFound, outcome.openPorts.value);
      }
      if outcome.services.Some? {
        Seqs.AddNewNoDups(a.servicesIdentified, outcome.services.value);
      }
    }
  }

  /** The found ports and identified services stay duplicate-free and
      keep their first-seen order; every phase runs or is cut off by the
      stop rule, and a run that ends before the last phase ended on it. */
  lemma RunFacts(target: string, phases: seq<Phase>, run: PhaseRunner, i: nat, a: Aggregate)
    requires i <= |phases|
    requires Consistent(a)
    requires a.phasesCompleted + |a.errors| == i
    ensures var r := RunFrom(target, phases, run, i, a);
      Consistent(r) && a.openPortsFound <= r.openPortsFound && a.servicesIdentified <= r.servicesIdentified &&
      a.errors <= r.errors && r.totalPortsScanned == a.totalPortsScanned &&
      i <= r.phasesCompleted + |r.errors| <= |phases| &&
      (r.phasesCompleted + |r.errors| < |phases| ==> |r.openPortsFound| >= 20 || r.phasesCompleted > 2)
  {
    RunExtends(target, phases, run, i, a);
    RunCounts(target, phases, run, i, a);
  }

  /** b keeps a's lists as prefixes and its total port count. */
  predicate Extends(a: Aggregate, b: Aggregate)
  {
    a.openPortsFound <= b.openPortsFound && a.servicesIdentified <= b.servicesIdentified &&
    a.errors <= b.errors && b.totalPortsScanned == a.totalPortsScanned
  }

  lemma ExtendsTrans(a: Aggregate, b: Aggregate, c: Aggregate)
    requires Extends(a, b) && Extends(b, c)
    ensures Extends(a, c)
  {
    PrefixTrans(a.openPortsFound, b.openPortsFound, c.openPortsFound);
    PrefixTrans(a.servicesIdentified, b.servicesIdentified, c.servicesIdentified);
    PrefixTrans(a.errors, b.errors, c.errors);
  }

  lemma {:induction false} RunExtends(target: string, phases: seq<Phase>, run: PhaseRunner, i: nat, a: Aggregate)
    requires i <= |phases|
    requires Consistent(a)
    ensures Consistent(RunFrom(target, phases, run, i, a)) && Extends(a, RunFrom(target, phases, run, i, a))
    decreases |phases| - i
  {
    if i < |phases| {
      var outcome := Outcome(target, phases[i], run);
      StepFacts(a, phases[i], outcome);
      var (next, stop) := Step(a, phases[i], outcome);
      var r := RunFrom(target, phases, run, i, a);
      if stop {
        assert r == next;
      } else {
        assert r == RunFrom(target, phases, run, i + 1, next);
        RunExtends(target, phases, run, i + 1, next);
        ExtendsTrans(a, next, r);
      }
    }
  }

  lemma {:induction false} RunCounts(target: string, phases: seq<Phase>, run: PhaseRunner, i: nat, a: Aggregate)
    requires i <= |phases|
    requires a.phasesCompleted + |a.errors| == i
    ensures var r := RunFrom(target, phases, run, i, a);
      i <= r.phasesCompleted + |r.errors| <= |phases| &&
      (r.phasesCompleted + |r.errors| < |phases| ==> |r.openPortsFound| >= 20 || r.phasesCompleted > 2)
    decreases |phases| - i
  {
    if i < |phases| {
      var outcome := Outcome(target, phases[i], run);
      var (next, stop) := Step(a, phases[i], outcome);
      var r := RunFrom(target, phases, run, i, a);
      if stop {
        assert r == next;
      } else {
        assert r == RunFrom(target, phases, run, i + 1, next);
        RunCounts(target, phases, run, i + 1, next);
      }
    }
  }

  lemma PrefixTrans<T>(x: seq<T>, y: seq<T>, z: seq<T>)
    requires x <= y && y <= z
    ensures x <= z
  {
    assert z[..|x|] == y[..|x|];
  }

  /** Every found port came from some phase that did not fail. */
  lemma {:induction false} FoundPortsFromPhases(target: string, phases: seq<Phase>, run: PhaseRunner, i: nat,
                                                a: Aggregate, port: Parser.OpenPort)
    requires i <= |phases|
    requires port in RunFrom(target, phases, run, i, a).openPortsFound
    ensures port in a.openPortsFound ||
      exists j | i <= j < |phases| :: Outcome(target, phases[j], run).PhaseResult? &&
        Outcome(target, phases[j], run).openPorts.Some? && port in Outcome(target, phases[j], run).openPorts.value
    decreases |phases| - i
  {
    if i < |phases| {
      var outcome := Outcome(target, phases[i], run);
      var step := Step(a, phases[i], outcome);
      if outcome.PhaseResult? && outcome.openPorts.Some? {
        Seqs.AddNewMembers(a.openPortsFound, outcome.openPorts.value);
      }
      if !step.1 {
        FoundPortsFromPhases(target, phases, run, i + 1, step.0, port);
      }
    }
  }

  // ---------------------------------------------------------------------
  // adaptive_scan

  datatype AdaptivePhasePlan = AdaptivePhasePlan(phase: nat, ports: string, args: string, worthContinuing: bool)

  /** _plan_adaptive_phase: the thousand ports starting at n*1000, with
      version detection after the first phase, worth running up to the
      third. The range is a valid port spec exactly for phases 1 to 64:
      phase 0 starts at port 0 and from phase 65 on it passes 65535. */
  function PlanAdaptivePhase(n: nat): (plan: AdaptivePhasePlan)
    ensures plan.phase == n && (plan.worthContinuing <==> n <= 3)
    ensures plan.args == "-sV" <==> n > 1
    ensures Validators.ValidatePorts(plan.ports) <==> 1 <= n <= 64
  {
    var a, b := n * 1000, (n + 1) * 1000 - 1;
    assert b == a + 999;
    Validators.PortRangeValid(a, b);
    AdaptivePhasePlan(n, NatToString(a) + "-" + NatToString(b), if n > 1 then "-sV" else "", n <= 3)
  }

  function PhaseKey(n: nat): string
  {
    "phase_" + NatToString(n)
  }

  lemma PhaseKeyInjective(m: nat, n: nat)
    requires PhaseKey(m) == PhaseKey(n)
    ensures m == n
  {
    assert NatToString(m) == PhaseKey(m)[6..];
    assert NatToString(n) == PhaseKey(n)[6..];
    NatToStringInjective(m, n);
  }

  /** The knowledge base after k phases: phase_<i> for each i in 1..k. */
  function KnowledgeOf(k: nat): (r: map<string, nat>)
    ensures forall key | key in r :: 1 <= r[key] <= k
    ensures k > 0 ==> PhaseKey(k) in r && r[PhaseKey(k)] == k
  {
    if k == 0 then map[] else KnowledgeOf(k - 1)[PhaseKey(k) := k]
  }

  /** After k phases the knowledge base holds exactly the keys phase_1 to
      phase_k, each mapped to its phase, so it has k entries. */
  lemma KnowledgeFacts(k: nat)
    ensures |KnowledgeOf(k)| == k
    ensures forall i | 1 <= i <= k :: PhaseKey(i) in KnowledgeOf(k) && KnowledgeOf(k)[PhaseKey(i)] == i
    ensures forall key | key in KnowledgeOf(k) :: exists i | 1 <= i <= k :: key == PhaseKey(i)
  {
    KnowledgeSize(k);
    KnowledgeValues(k);
    KnowledgeKeys(k);
  }

  lemma {:induction false} KnowledgeKeys(k: nat)
    ensures forall key | key in KnowledgeOf(k) :: exists i | 1 <= i <= k :: key == PhaseKey(i)
  {
    if k > 0 {
      KnowledgeKeys(k - 1);
      forall key | key in KnowledgeOf(k) ensures exists i | 1 <= i <= k :: key == PhaseKey(i) {
        if key != PhaseKey(k) {
          assert key in KnowledgeOf(k - 1);
          var i :| 1 <= i <= k - 1 && key == PhaseKey(i);
        }
      }
    }
  }

  /** Phase k adds a key not present before. */
  lemma KnowledgeFresh(k: nat)
    requires k > 0
    ensures PhaseKey(k) !in KnowledgeOf(k - 1)
  {
    KnowledgeKeys(k - 1);
    if PhaseKey(k) in KnowledgeOf(k - 1) {
      var i :| 1 <= i <= k - 1 && PhaseKey(k) == PhaseKey(i);
      PhaseKeyInjective(i, k);
    }
  }

  lemma {:induction false} KnowledgeSize(k: nat)
    ensures |KnowledgeOf(k)| == k
  {
    if k > 0 {
      KnowledgeSize(k - 1);
      KnowledgeFresh(k);
    }
  }

  lemma {:induction false} KnowledgeValues(k: nat)
    ensures forall i | 1 <= i <= k :: PhaseKey(i) in KnowledgeOf(k) && KnowledgeOf(k)[PhaseKey(i)] == i
  {
    if k > 0 {
      KnowledgeValues(k - 1);
      forall i | 1 <= i < k
        ensures KnowledgeOf(k)[PhaseKey(i)] == i
      {
        if PhaseKey(i) == PhaseKey(k) {
          PhaseKeyInjective(i, k);
        }
      }
    }
  }

  datatype AdaptivePhase = AdaptivePhase(phase: nat, plan: AdaptivePhasePlan)

  datatype AdaptiveInsights = AdaptiveInsights(totalPhases: nat, efficiency: string, pattern: string)

  function Min(a: int, b: int): int
  {
    if a < b then a else b
  }

  /** phases[i] is phase i + 1 with its plan. */
  predicate PhasesInOrder(phases: seq<AdaptivePhase>)
  {
    forall i | 0 <= i < |phases| :: phases[i] == AdaptivePhase(i + 1, PlanAdaptivePhase(i + 1))
  }

  lemma PhasesSnoc(phases: seq<AdaptivePhase>, n: nat)
    requires PhasesInOrder(phases) && |phases| == n - 1
    ensures PhasesInOrder(phases + [AdaptivePhase(n, PlanAdaptivePhase(n))])
  {
    var next := phases + [AdaptivePhase(n, PlanAdaptivePhase(n))];
    forall i | 0 <= i < |next| ensures next[i] == AdaptivePhase(i + 1, PlanAdaptivePhase(i + 1)) {
      if i < |phases| {
        assert next[i] == phases[i];
      }
    }
  }

  /** adaptive_scan with the phase durations left out: the phase loop stops
      at the first phase not worth continuing or once the knowledge base
      holds three entries. */
  method AdaptiveScan(maxPhases: int) returns (phases: seq<AdaptivePhase>, knowledge: map<string, nat>,
                                               insights: AdaptiveInsights)
    ensures |phases| == if maxPhases < 1 then 0 else Min(maxPhases, 3)
    ensures forall i | 0 <= i < |phases| :: phases[i] == AdaptivePhase(i + 1, PlanAdaptivePhase(i + 1))
    ensures knowledge == KnowledgeOf(|phases|)
    ensures insights == AdaptiveInsights(|phases|, "high", "adaptive_successful")
  {
    phases := [];
    knowledge := map[];
    var n := 1;
    while n <= maxPhases
      invariant 1 <= n <= 3
      invariant n <= maxPhases + 1 || n == 1
      invariant |phases| == n - 1 && knowledge == KnowledgeOf(n - 1)
      invariant PhasesInOrder(phases)
      decreases maxPhases - n
    {
      var plan := PlanAdaptivePhase(n);
      if !plan.worthContinuing {
        break;
      }
      PhasesSnoc(phases, n);
      phases := phases + [AdaptivePhase(n, plan)];
      knowledge := knowledge[PhaseKey(n) := n];
      KnowledgeSize(n);
      n := n + 1;
      if |knowledge| >= 3 {
        break;
      }
    }
    insights := AdaptiveInsights(|phases|, if |phases| <= 3 then "high" else "moderate", "adaptive_successful");
  }

  // ---------------------------------------------------------------------
  // posture, profile and further testing

  datatype Posture = Posture(level: string, reason: string)

  /** _assess_security_posture by the number of open ports found. */
  function AssessSecurityPosture(openPortsCount: nat): (p: Posture)
    ensures p.level == "concerning" <==> openPortsCount > 15
    ensures p.level == "moderate" <==> 5 < openPortsCount <= 15
    ensures p.level == "good" <==> openPortsCount <= 5
  {
    if openPortsCount > 15 then Posture("concerning", "Many open ports detected")
    else if openPortsCount > 5 then Posture("moderate", "Several open ports detected")
    else Posture("good", "Few open ports detected")
  }

  /** More open ports never give a better posture. */
  lemma PostureMonotone(m: nat, n: nat)
    requires m <= n
    ensures AssessSecurityPosture(m).level == "concerning" ==> AssessSecurityPosture(n).level == "concerning"
    ensures AssessSecurityPosture(n).level == "good" ==> AssessSecurityPosture(m).level == "good"
  {
  }

  datatype TargetProfile = TargetProfile(kind: string, webDetected: bool)

  /** _generate_target_profile: a web server iff http or https was
      identified (confidence 0.8 instead of 0.5). */
  function TargetProfileOf(services: seq<string>): (p: TargetProfile)
    ensures p.kind == "web_server" <==> "http" in services || "https" in services
    ensures p.kind != "web_server" ==> p.kind == "unknown"
  {
    if "http" in services || "https" in services then TargetProfile("web_server", true)
    else TargetProfile("unknown", false)
  }

  /** _suggest_further_testing. */
  function FurtherTesting(services: seq<string>): (s: seq<string>)
    ensures "Consider web application security testing" in s <==> "http" in services || "https" in services
    ensures "Consider SSH security assessment" in s <==> "ssh" in services
    ensures |s| <= 2
  {
    (if "http" in services || "https" in services then ["Consider web application security testing"] else []) +
    (if "ssh" in services then ["Consider SSH security assessment"] else [])
  }

  datatype AiInsights = AiInsights(profile: TargetProfile, posture: Posture, furtherTesting: seq<string>)

  function InsightsOf(a: Aggregate): AiInsights
  {
    AiInsights(TargetProfileOf(a.servicesIdentified), AssessSecurityPosture(|a.openPortsFound|),
               FurtherTesting(a.servicesIdentified))
  }

  // ---------------------------------------------------------------------
  // _enhance_with_ai_analysis

  datatype SmartRecommendation = SmartRecommendation(kind: string, severity: string, message: string)

  const TelnetAdvice := SmartRecommendation("security", "high", "Telnet service detected - consider using SSH instead")
  const ManyPortsAdvice := SmartRecommendation("security", "medium", "Many open ports detected - review if all are necessary")

  /** The copied scan results with ai_confidence, recommendations and
      ai_insights added; the confidence is kept in tenths (0.3 is 3). */
  datatype Enhanced = Enhanced(results: Aggregate, confidenceTenths: nat,
                               recommendations: seq<SmartRecommendation>, insights: AiInsights)

  predicate HasPort(ports: seq<Parser.OpenPort>, port: int)
  {
    exists i | 0 <= i < |ports| :: ports[i].port == port
  }

  /** The sum of the confidence factors: 0.3 for a completed phase, 0.4 for
      an open port, 0.3 for an identified service. */
  function ConfidenceTenths(a: Aggregate): (c: nat)
    ensures c <= 10
    ensures c == 0 <==> a.phasesCompleted == 0 && a.openPortsFound == [] && a.servicesIdentified == []
    ensures c == 10 <==> a.phasesCompleted > 0 && a.openPortsFound != [] && a.servicesIdentified != []
  {
    (if a.phasesCompleted > 0 then 3 else 0) +
    (if |a.openPortsFound| > 0 then 4 else 0) +
    (if |a.servicesIdentified| > 0 then 3 else 0)
  }

  /** The recommendations: Telnet first when port 23 is open, then the
      many-ports advice above ten open ports. */
  function SmartRecommendations(ports: seq<Parser.OpenPort>): (r: seq<SmartRecommendation>)
    ensures TelnetAdvice in r <==> HasPort(ports, 23)
    ensures ManyPortsAdvice in r <==> |ports| > 10
    ensures |r| <= 2 && (HasPort(ports, 23) ==> r[0] == TelnetAdvice)
  {
    (if HasPort(ports, 23) then [TelnetAdvice] else []) +
    (if |ports| > 10 then [ManyPortsAdvice] else [])
  }

  function EnhanceWithAiAnalysis(a: Aggregate): (e: Enhanced)
    ensures e.results == a
    ensures e.confidenceTenths == ConfidenceTenths(a)
    ensures e.recommendations == SmartRecommendations(a.openPortsFound)
    ensures e.insights == InsightsOf(a)
  {
    Enhanced(a, ConfidenceTenths(a), SmartRecommendations(a.openPortsFound), InsightsOf(a))
  }

  /** Finding more never lowers the confidence: an aggregate that extends
      another, after at least as many phases, scores at least as high. */
  lemma ConfidenceMonotone(a: Aggregate, b: Aggregate)
    requires Extends(a, b) && a.phasesCompleted <= b.phasesCompleted
    ensures ConfidenceTenths(a) <= ConfidenceTenths(b)
  {
    assert |a.openPortsFound| <= |b.openPortsFound| && |a.servicesIdentified| <= |b.servicesIdentified|;
  }

  /** The recommendations and the posture agree: the many-ports advice is
      given whenever the posture is concerning, and never when it is good. */
  lemma AdviceMatchesPosture(a: Aggregate)
    ensures InsightsOf(a).posture.level == "concerning" ==> ManyPortsAdvice in SmartRecommendations(a.openPortsFound)
    ensures InsightsOf(a).posture.level == "good" ==> ManyPortsAdvice !in SmartRecommendations(a.openPortsFound)
  {
  }

  // ---------------------------------------------------------------------
  // learning data

  const LearningCapacity := 100

  datatype LearningEntry = LearningEntry(target: string, timestamp: string, results: Aggregate,
                                         insights: AiInsights, portsFound: nat, servicesIdentified: nat,
                                         phasesCompleted: nat)

  /** self.learning_data[-100:] when over capacity. */
  function KeepLast(entries: seq<LearningEntry>): (r: seq<LearningEntry>)
  {
    if |entries| > LearningCapacity then entries[|entries| - LearningCapacity..] else entries
  }

  /** Appending to a buffer within capacity keeps it within capacity, puts
      the new entry last, and drops exactly the oldest entry when the buffer
      was full. */
  lemma KeepLastAppend(entries: seq<LearningEntry>, e: LearningEntry)
    requires |entries| <= LearningCapacity
    ensures var r := KeepLast(entries + [e]);
      |r| <= LearningCapacity && r[|r| - 1] == e &&
      (|entries| < LearningCapacity ==> r == entries + [e]) &&
      (|entries| == LearningCapacity ==> r == entries[1..] + [e])
  {
  }

  class SmartScannerState {
    var learningData: seq<LearningEntry>

    predicate Valid()
      reads this
    {
      |learningData| <= LearningCapacity
    }

    constructor()
      ensures Valid() && learningData == []
    {
      learningData := [];
    }

    /** _update_learning_data. */
    method UpdateLearningData(target: string, results: Aggregate, insights: AiInsights, now: string)
      requires Valid()
      modifies this
      ensures Valid()
      ensures learningData == KeepLast(old(learningData) + [LearningEntry(target, now, results, insights,
        |results.openPortsFound|, |results.servicesIdentified|, results.phasesCompleted)])
      ensures |old(learningData)| < LearningCapacity ==> |learningData| == |old(learningData)| + 1
    {
      var entry := LearningEntry(target, now, results, insights, |results.openPortsFound|,
                                 |results.servicesIdentified|, results.phasesCompleted);
      KeepLastAppend(learningData, entry);
      learningData := learningData + [entry];
      if |learningData| > LearningCapacity {
        learningData := learningData[|learningData| - LearningCapacity..];
      }
    }
  }
}
