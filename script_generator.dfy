/** AIScriptGenerator of nmap_ai/ai/script_generator.py: how the pieces
    of a generated Nmap script are chosen from the target type, the listed
    vulnerabilities and the stealth level. The Lua text of templates and
    check blocks is named by constructors, not spelled out. */
module ScriptGenerator {
  import opened Wrappers
  import opened Text

  // ---------------------------------------------------------------------
  // templates and descriptions

  datatype Template = WebServerTemplate | NetworkDeviceTemplate | DatabaseTemplate | GeneralTemplate

  /** _select_template: the template registered for the type, else the
      general one. */
  function SelectTemplate(targetType: string): (t: Template)
    ensures t == GeneralTemplate <==> targetType != "web_server" && targetType != "network_device" && targetType != "database"
  {
    if targetType == "web_server" then WebServerTemplate
    else if targetType == "network_device" then NetworkDeviceTemplate
    else if targetType == "database" then DatabaseTemplate
    else GeneralTemplate
  }

  const GeneralDescription := "Performs general security scanning and vulnerability detection"

  function BaseDescription(targetType: string): string
  {
    if targetType == "web_server" then "Performs comprehensive security testing on web servers"
    else if targetType == "network_device" then "Tests network devices for common vulnerabilities and misconfigurations"
    else if targetType == "database" then "Scans database services for security issues and weak configurations"
    else GeneralDescription
  }

  const SpecificallyTesting := ", specifically testing for: "

  /** `if vulnerabilities:` — None and the empty list are both falsy. */
  predicate HasAny(vulns: Option<seq<string>>)
  {
    vulns.Some? && vulns.value != []
  }

  /** _generate_description: the base description, extended with the
      comma-joined vulnerabilities when there are any. */
  function GenerateDescription(targetType: string, vulns: Option<seq<string>>): (d: string)
    ensures BaseDescription(targetType) <= d
    ensures HasAny(vulns) ==> d == BaseDescription(targetType) + SpecificallyTesting + Join(vulns.value, ", ")
    ensures !HasAny(vulns) ==> d == BaseDescription(targetType)
  {
    if HasAny(vulns) then BaseDescription(targetType) + SpecificallyTesting + Join(vulns.value, ", ")
    else BaseDescription(targetType)
  }

  /** An unknown type gets the general template and description. */
  lemma UnknownTypeIsGeneral(targetType: string, vulns: Option<seq<string>>)
    requires targetType != "web_server" && targetType != "network_device" && targetType != "database"
    ensures SelectTemplate(targetType) == GeneralTemplate
    ensures GeneralDescription <= GenerateDescription(targetType, vulns)
  {
  }

  /** The description is extended exactly when there are vulnerabilities:
      the extended form is longer than the base by the separator at
      least. */
  lemma DescriptionExtendedIff(targetType: string, vulns: Option<seq<string>>)
    ensures |GenerateDescription(targetType, vulns)| > |BaseDescription(targetType)| <==> HasAny(vulns)
  {
  }

  // ---------------------------------------------------------------------
  // categories and dependencies

  predicate AnyIn(vulns: seq<string>, table: seq<string>)
  {
    exists i | 0 <= i < |vulns| :: vulns[i] in table
  }

  const IntrusiveVulns := ["sql_injection", "xss", "rce"]
  const AuthVulns := ["weak_authentication", "default_credentials"]

  /** _generate_categories as the list before it is quoted and joined. */
  method GenerateCategories(targetType: string, vulns: Option<seq<string>>) returns (cats: seq<string>)
    ensures |cats| >= 2 && cats[..2] == ["discovery", "safe"]
    ensures "intrusive" in cats <==> HasAny(vulns) && AnyIn(vulns.value, IntrusiveVulns)
    ensures "auth" in cats <==> HasAny(vulns) && AnyIn(vulns.value, AuthVulns)
    ensures "http" in cats <==> HasAny(vulns) && Contains(Lower(targetType), "web")
    ensures !HasAny(vulns) ==> cats == ["discovery", "safe"]
    ensures Distinct(cats)
  {
    cats := ["discovery", "safe"];
    if HasAny(vulns) {
      if AnyIn(vulns.value, IntrusiveVulns) {
        cats := cats + ["intrusive"];
      }
      if AnyIn(vulns.value, AuthVulns) {
        cats := cats + ["auth"];
      }
      if Contains(Lower(targetType), "web") {
        cats := cats + ["http"];
      }
    }
  }

  predicate Distinct(s: seq<string>)
  {
    forall i, j | 0 <= i < j < |s| :: s[i] != s[j]
  }

  predicate WebInAny(vulns: seq<string>)
  {
    exists i | 0 <= i < |vulns| :: Contains(vulns[i], "web")
  }

  /** _generate_dependencies as the list of library names. */
  method GenerateDependencies(targetType: string, vulns: Option<seq<string>>) returns (deps: seq<string>)
    ensures |deps| >= 2 && deps[..2] == ["stdnse", "shortport"]
    ensures "http" in deps <==> Contains(Lower(targetType), "web") || (HasAny(vulns) && WebInAny(vulns.value))
    ensures "httpspider" in deps <==> "http" in deps
    ensures "sql" in deps <==> vulns.Some? && "sql_injection" in vulns.value
    ensures Distinct(deps)
  {
    deps := ["stdnse", "shortport"];
    if Contains(Lower(targetType), "web") || (HasAny(vulns) && WebInAny(vulns.value)) {
      deps := deps + ["http", "httpspider"];
    }
    if HasAny(vulns) && "sql_injection" in vulns.value {
      deps := deps + ["sql"];
    }
  }

  /** One `local <dep> = require "<dep>"` line per dependency, joined by
      newlines. */
  function RequireLines(deps: seq<string>): (lines: seq<string>)
    ensures |lines| == |deps|
    ensures forall i | 0 <= i < |deps| :: lines[i] == "local " + deps[i] + " = require \"" + deps[i] + "\""
  {
    seq(|deps|, i requires 0 <= i < |deps| => "local " + deps[i] + " = require \"" + deps[i] + "\"")
  }

  // ---------------------------------------------------------------------
  // portrule

  datatype PortRule = HttpRule | DatabaseRule | SshRule | OpenStateRule

  /** _generate_portrule: web before database before ssh, by substring of
      the lower-cased type, else any open port. Each rule is chosen exactly
      when its keyword is the first of the three found in the type. */
  function GeneratePortrule(targetType: string): (r: PortRule)
    ensures var t := Lower(targetType);
      (r == HttpRule <==> Contains(t, "web")) &&
      (r == DatabaseRule <==> !Contains(t, "web") && Contains(t, "database")) &&
      (r == SshRule <==> !Contains(t, "web") && !Contains(t, "database") && Contains(t, "ssh")) &&
      (r == OpenStateRule <==> !Contains(t, "web") && !Contains(t, "database") && !Contains(t, "ssh"))
  {
    var t := Lower(targetType);
    if Contains(t, "web") then HttpRule
    else if Contains(t, "database") then DatabaseRule
    else if Contains(t, "ssh") then SshRule
    else OpenStateRule
  }

  /** The rule the portrule text renders to. */
  function PortRuleText(r: PortRule): string
  {
    match r
    case HttpRule => "portrule = shortport.http"
    case DatabaseRule =>
      "portrule = shortport.port_or_service({1433, 3306, 5432, 1521}, {\"mssql\", \"mysql\", \"postgresql\", \"oracle\"})"
    case SshRule => "portrule = shortport.port_or_service(22, \"ssh\")"
    case OpenStateRule => "portrule = function(host, port) return port.state == \"open\" end"
  }

  // ---------------------------------------------------------------------
  // vulnerability checks and timing

  /** The vulnerabilities the pattern table knows. */
  const KnownPatterns := ["sql_injection", "xss", "directory_traversal", "rce", "weak_authentication"]

  /** A Lua check block: the three hand-written ones, the generic one with
      its title-cased heading, and the basic service block. */
  datatype CheckBlock =
    | SqlInjectionCheck
    | XssCheck
    | WeakAuthenticationCheck
    | GenericCheck(heading: string, vuln: string)
    | BasicServiceCheck

  function CheckFor(vuln: string): CheckBlock
  {
    if vuln == "sql_injection" then SqlInjectionCheck
    else if vuln == "xss" then XssCheck
    else if vuln == "weak_authentication" then WeakAuthenticationCheck
    else GenericCheck(Title(ReplaceChar(vuln, '_', ' ')), vuln)
  }

  /** One block per known vulnerability, in input order: unknown names are
      dropped, so there are never more blocks than names, and named
      vulnerabilities never produce the basic service block. */
  function KnownChecks(vulns: seq<string>): (r: seq<CheckBlock>)
    ensures |r| <= |vulns|
    ensures BasicServiceCheck !in r
    decreases |vulns|
  {
    if vulns == [] then []
    else
      var v := vulns[|vulns| - 1];
      KnownChecks(vulns[..|vulns| - 1]) + (if v in KnownPatterns then [CheckFor(v)] else [])
  }

  /** _generate_vulnerability_checks as the list of blocks it joins. */
  method GenerateVulnerabilityChecks(vulns: Option<seq<string>>) returns (checks: seq<CheckBlock>)
    ensures !HasAny(vulns) ==> checks == [BasicServiceCheck]
    ensures HasAny(vulns) ==> checks == KnownChecks(vulns.value)
  {
    if !HasAny(vulns) {
      return [BasicServiceCheck];
    }
    var vs := vulns.value;
    checks := [];
    for i := 0 to |vs|
      invariant checks == KnownChecks(vs[..i])
    {
      assert vs[..i + 1][..i] == vs[..i];
      if vs[i] in KnownPatterns {
        checks := checks + [CheckFor(vs[i])];
      }
    }
    assert vs[..|vs|] == vs;
  }

  /** The known-vulnerability filter distributes over concatenation. */
  lemma {:induction false} KnownChecksAppend(a: seq<string>, b: seq<string>)
    ensures KnownChecks(a + b) == KnownChecks(a) + KnownChecks(b)
    decreases |b|
  {
    if b == [] {
      assert a + b == a;
    } else {
      var n := |b| - 1;
      assert (a + b)[..|a + b| - 1] == a + b[..n];
      KnownChecksAppend(a, b[..n]);
    }
  }

  /** No block at all exactly when no name is known. */
  lemma {:induction false} KnownChecksEmptyIff(vulns: seq<string>)
    ensures KnownChecks(vulns) == [] <==> forall i | 0 <= i < |vulns| :: vulns[i] !in KnownPatterns
    decreases |vulns|
  {
    if vulns != [] {
      var init := vulns[..|vulns| - 1];
      KnownChecksEmptyIff(init);
      assert forall i | 0 <= i < |init| :: init[i] == vulns[i];
    }
  }

  /** When every name is known, block i is the check for name i. */
  lemma {:induction false} KnownChecksAllKnown(vulns: seq<string>)
    requires forall i | 0 <= i < |vulns| :: vulns[i] in KnownPatterns
    ensures |KnownChecks(vulns)| == |vulns|
    ensures forall i | 0 <= i < |vulns| :: KnownChecks(vulns)[i] == CheckFor(vulns[i])
    decreases |vulns|
  {
    if vulns != [] {
      var n := |vulns| - 1;
      var init := vulns[..n];
      KnownChecksAllKnown(init);
      assert vulns[n] in KnownPatterns;
      var r := KnownChecks(vulns);
      assert r == KnownChecks(init) + [CheckFor(vulns[n])];
      forall i | 0 <= i < |vulns| ensures r[i] == CheckFor(vulns[i]) {
        if i < n {
          assert vulns[i] == init[i];
        }
      }
    }
  }

  /** An all-unknown list yields an empty block list, unlike the empty
      list, which yields the basic block. */
  lemma UnknownOnlyGivesNoChecks(vulns: seq<string>)
    requires vulns != [] && forall i | 0 <= i < |vulns| :: vulns[i] !in KnownPatterns
    ensures KnownChecks(vulns) == []
  {
    KnownChecksEmptyIff(vulns);
  }

  datatype TimingBlock = HighStealthDelay | MediumStealthDelay | LowStealthDelay

  /** _generate_timing_controls: 'high' and 'medium' get their delays,
      any other level the minimal one. */
  function GenerateTimingControls(stealthLevel: string): (t: TimingBlock)
    ensures t == LowStealthDelay <==> stealthLevel != "high" && stealthLevel != "medium"
  {
    if stealthLevel == "high" then HighStealthDelay
    else if stealthLevel == "medium" then MediumStealthDelay
    else LowStealthDelay
  }

  // ---------------------------------------------------------------------
  // create_script and generate_targeted_script

  datatype Script = Script(template: Template, description: string, categories: seq<string>,
                           dependencies: seq<string>, author: string, license: string,
                           portrule: PortRule, timing: TimingBlock, checks: seq<CheckBlock>)

  /** The pieces create_script picks for a type, vulnerability list and
      stealth level. */
  predicate Selected(s: Script, targetType: string, vulns: Option<seq<string>>, stealthLevel: string)
  {
    s.template == SelectTemplate(targetType) &&
    s.description == GenerateDescription(targetType, vulns) &&
    s.portrule == GeneratePortrule(targetType) &&
    s.timing == GenerateTimingControls(stealthLevel) &&
    s.checks == (if HasAny(vulns) then KnownChecks(vulns.value) else [BasicServiceCheck])
  }

  /** create_script with the text compilation left out. */
  method CreateScript(targetType: string, vulns: Option<seq<string>>, stealthLevel: string) returns (s: Script)
    ensures Selected(s, targetType, vulns, stealthLevel)
    ensures |s.categories| >= 2 && s.categories[..2] == ["discovery", "safe"]
    ensures "intrusive" in s.categories <==> HasAny(vulns) && AnyIn(vulns.value, IntrusiveVulns)
    ensures "auth" in s.categories <==> HasAny(vulns) && AnyIn(vulns.value, AuthVulns)
    ensures "http" in s.categories <==> HasAny(vulns) && Contains(Lower(targetType), "web")
    ensures !HasAny(vulns) ==> s.categories == ["discovery", "safe"]
    ensures Distinct(s.categories)
    ensures |s.dependencies| >= 2 && s.dependencies[..2] == ["stdnse", "shortport"]
    ensures "http" in s.dependencies <==> Contains(Lower(targetType), "web") || (HasAny(vulns) && WebInAny(vulns.value))
    ensures "httpspider" in s.dependencies <==> "http" in s.dependencies
    ensures "sql" in s.dependencies <==> vulns.Some? && "sql_injection" in vulns.value
    ensures Distinct(s.dependencies)
    ensures s.author == "NMAP-AI Script Generator" && s.license == "MIT"
  {
    var cats := GenerateCategories(targetType, vulns);
    var deps := GenerateDependencies(targetType, vulns);
    var checks := GenerateVulnerabilityChecks(vulns);
    s := Script(SelectTemplate(targetType), GenerateDescription(targetType, vulns), cats, deps,
                "NMAP-AI Script Generator", "MIT", GeneratePortrule(targetType),
                GenerateTimingControls(stealthLevel), checks);
  }

  /** The services of one per-target entry: Some(list) when it has
      parsed.services. */
  type TargetServices = Option<seq<string>>

  /** _analyze_services: the services of every entry of scan_results
      ['results'] (None when the key is missing), with duplicates
      removed; list(set(...)) has no defined order, so the result is a
      set. */
  method AnalyzeServices(results: Option<seq<TargetServices>>) returns (services: set<string>)
    ensures forall x :: x in services <==>
      results.Some? && exists i | 0 <= i < |results.value| :: results.value[i].Some? && x in results.value[i].value
  {
    var collected: seq<string> := [];
    if results.Some? {
      var entries := results.value;
      for i := 0 to |entries|
        invariant forall x :: x in collected <==> exists j | 0 <= j < i :: entries[j].Some? && x in entries[j].value
      {
        if entries[i].Some? {
          collected := collected + entries[i].value;
        }
      }
    }
    services := set x | x in collected;
  }

  /** What generate_targeted_script tests a web server for. */
  const WebVulns: seq<string> := ["xss", "sql_injection", "directory_traversal"]

  /** The type and vulnerabilities generate_targeted_script chooses from the
      detected services. */
  function TargetedChoice(detected: set<string>): (r: (string, Option<seq<string>>))
    ensures r.0 == "web_server" <==> "http" in detected || "https" in detected
    ensures r.0 == "network_device" <==> "http" !in detected && "https" !in detected && "ssh" in detected
    ensures r.0 == "general" <==> detected !! {"http", "https", "ssh", "mysql", "postgresql", "mssql"}
    ensures r.1.None? <==> r.0 == "general"
  {
    if "http" in detected || "https" in detected then ("web_server", Some(WebVulns))
    else if "ssh" in detected then ("network_device", Some(["weak_authentication"]))
    else if "mysql" in detected || "postgresql" in detected || "mssql" in detected then
      ("database", Some(["sql_injection", "weak_authentication"]))
    else ("general", None)
  }

  /** generate_targeted_script: services are only analysed for a truthy
      scan_results; the stealth level defaults to 'medium'. */
  method GenerateTargetedScript(stealthLevel: Option<string>, scanResults: Option<Option<seq<TargetServices>>>)
    returns (s: Script)
    ensures Selected(s, TargetedChoice(DetectedOf(scanResults)).0, TargetedChoice(DetectedOf(scanResults)).1,
                     stealthLevel.UnwrapOr("medium"))
  {
    var detected: set<string> := {};
    if scanResults.Some? {
      detected := AnalyzeServices(scanResults.value);
      ServicesOfMembers(scanResults.value);
    }
    assert detected == DetectedOf(scanResults);
    var choice := TargetedChoice(detected);
    s := CreateScript(choice.0, choice.1, stealthLevel.UnwrapOr("medium"));
  }

  /** The services analysed for a scan_results argument: none when it is
      falsy. */
  function DetectedOf(scanResults: Option<Option<seq<TargetServices>>>): set<string>
  {
    if scanResults.Some? then ServicesOf(scanResults.value) else {}
  }

  /** The set AnalyzeServices computes. */
  function ServicesOf(results: Option<seq<TargetServices>>): set<string>
  {
    if results.None? then {}
    else set i, x | 0 <= i < |results.value| && results.value[i].Some? && x in results.value[i].value :: x
  }

  lemma ServicesOfMembers(results: Option<seq<TargetServices>>)
    ensures forall x :: x in ServicesOf(results) <==>
      results.Some? && exists i | 0 <= i < |results.value| :: results.value[i].Some? && x in results.value[i].value
  {
  }

  /** The web server vulnerabilities each have their own check, in order. */
  lemma WebChecks()
    ensures KnownChecks(WebVulns) == [CheckFor("xss"), CheckFor("sql_injection"), CheckFor("directory_traversal")]
  {
    ThreeKnownChecks(WebVulns[0], WebVulns[1], WebVulns[2]);
    assert WebVulns == [WebVulns[0], WebVulns[1], WebVulns[2]];
  }

  /** Three known vulnerabilities give their three checks, in order. */
  lemma ThreeKnownChecks(a: string, b: string, c: string)
    requires a in KnownPatterns && b in KnownPatterns && c in KnownPatterns
    ensures KnownChecks([a, b, c]) == [CheckFor(a), CheckFor(b), CheckFor(c)]
  {
    var vs := [a, b, c];
    KnownChecksAllKnown(vs);
    var r := KnownChecks(vs);
    assert |r| == 3 && r[0] == CheckFor(vs[0]) && r[1] == CheckFor(vs[1]) && r[2] == CheckFor(vs[2]);
  }

  /** Web services take priority: any http or https service gives the web
      server script with three checks, whatever else was detected. */
  lemma WebServicesFirst(detected: set<string>)
    requires "http" in detected || "https" in detected
    ensures TargetedChoice(detected).0 == "web_server"
    ensures KnownChecks(TargetedChoice(detected).1.value) ==
      [CheckFor("xss"), CheckFor("sql_injection"), CheckFor("directory_traversal")]
  {
    assert TargetedChoice(detected) == ("web_server", Some(WebVulns));
    WebChecks();
  }

  /** With nothing detected the general script has the basic block only. */
  lemma NothingDetectedIsGeneral()
    ensures TargetedChoice({}) == ("general", None)
    ensures !HasAny(TargetedChoice({}).1)
  {
  }
}
