# NMAP-AI core, modelled in Dafny

NMAP-AI wraps the nmap port scanner. It adds AI-style scan planning and
result analysis, a command-line interface, a small web API and a plugin
system. This project models the parts of NMAP-AI that decide things. It
does not model the parts that talk to nmap, the disk or the network. Each
module follows one source file:

- **Validators**: the input checks. These are targets (host names, IP
  ranges), port specifications, nmap argument strings and file names.
- **Helpers**: port-range parsing, string truncation, dictionary merging
  and the retry loop.
- **Parser**: turning one host's raw result into a parsed result. The raw
  result is python-nmap's per-host object, whose protocol tables are
  visited in `all_protocols()` order, or a plain dictionary, whose tcp,
  udp and sctp tables are visited. Also the service-based vulnerability
  extraction.
- **AiEngine**: argument optimisation, per-target risk analysis, scan
  insights and scan plans.
- **Scanner**: `NmapAIScanner`, meaning the scan pipeline, its history and
  the batch target file.
- **SmartScanner**: strategy planning, the adaptive multi-phase scan,
  security posture and the bounded learning log.
- **ScriptGenerator**: the choices behind a generated NSE script. These
  are the template, description, categories, dependencies, port rule,
  checks and timing.
- **ReportCommand**, **ScanCommand** and **ConfigCommand**: the CLI
  commands. This covers report generation and conversion, option
  building, result saving, and dotted-key configuration editing.
- **Configuration**: the configuration sections and the manager that
  loads, updates and resets them.
- **ApiModels** and **WebEndpoints**: request validation, plus the web
  API's scan registry and its status, results, cancel and list handlers.
- **Plugins**: plugins and the plugin manager's registry.
- **BatchScanning**: the batch-scanning example program. It loads a
  target file, scans sequentially or in parallel, and writes summaries,
  CSV and HTML statistics.

`Text`, `Seqs` and `Wrappers` hold shared vocabulary. `Text` has ASCII
strip, lower and title, decimal rendering and split. `Seqs` has
insertion-ordered keys, counting and tallies. `Wrappers` has Option and
Result.

The surrounding world appears as parameters, never as hidden state:

- the nmap engine's outcome per call;
- Python's `ipaddress` checks;
- the vulnerability detector;
- a plugin's import and `initialize()`/`cleanup()` outcomes;
- file contents;
- the clock;
- generated ids.

Classes stand where the source updates objects in place. These are the
scanner history, the learning log, the configuration sections and
manager, the scan registry and the plugin manager. Their methods are
proved against pure transition functions. Loops in the source are
methods with loop invariants, proved against functions on their inputs.

The source disagrees with its description in these places, and the model
follows the code:

- `validate_ports` accepts an all-blank string.
- `batch_scan` keeps `#` comment lines as targets.
- Constructing `SmartScanner(config)` raises a `TypeError`. Both the batch
  example and the web API's AI path therefore always fail.
- `update_configuration` ignores a confidence threshold of `0.0`, because
  the value is falsy.
- The web API's intermediate progress values (10, 20, 30, 80) can never be
  observed, because each handler runs to completion as one step.
- `Config`, which the web endpoints import, is not defined in the
  repository. The model uses a plain settings record in its place.

## Model

| member | source | states |
|---|---|---|
| Validators.HostnameAccepted | nmap_ai/utils/validators.py:40-45 | any dot-joined sequence of well-formed hostname labels is accepted as a target, whatever the ipaddress checks say |
| Validators.RangeFormAccepted | nmap_ai/utils/validators.py:48-50 | every a.b.c.d-e digit form is accepted as a target (the range pattern checks shape only, not octet values) |
| Validators.IpRangeLabels | nmap_ai/utils/validators.py:48 | a text matching the IP-range pattern splits on dots into labels that each begin and end with a digit |
| Validators.HyphenEdgedLabelRejected | nmap_ai/utils/validators.py:20-52 | a target that is no IP address or network and has a label starting or ending with '-' is rejected |
| Validators.ValidateTarget | nmap_ai/utils/validators.py:10-52 | an empty or all-blank target is rejected unless the IP parsers accept the empty text (they do not) |
| Validators.ValidatePorts | nmap_ai/utils/validators.py:55-111 | an accepted port list that is not a keyword holds only digits, commas, dashes and white space |
| Validators.KeywordPortsAccepted | nmap_ai/utils/validators.py:65-73 | each port keyword is accepted in any letter case; the empty port string is rejected |
| Validators.DigitsNotKeyword | nmap_ai/utils/validators.py:71-72 | a text starting with a digit is never one of the port keywords |
| Validators.OnePartPorts | nmap_ai/utils/validators.py:65-111 | a comma-free, trimmed, non-keyword port spec is valid exactly when its single part is |
| Validators.SinglePortValid | nmap_ai/utils/validators.py:83-87 | a single decimal port is valid iff it lies in 1..65535 |
| Validators.PortRangeValid | nmap_ai/utils/validators.py:90-106 | "a-b" is valid iff both ends lie in 1..65535 and a < b (equal ends are rejected) |
| Validators.PortListValid | nmap_ai/utils/validators.py:76-111 | a comma-joined list of in-range ports is valid |
| Validators.ThreePiecePartRejected | nmap_ai/utils/validators.py:91-93 | a part with two hyphens is rejected |
| Validators.LetterPartRejected | nmap_ai/utils/validators.py:83-109 | a hyphen-free part containing a letter is rejected |
| Validators.BadPartRejectsList | nmap_ai/utils/validators.py:78-109 | one bad non-blank part rejects the whole port list |
| Validators.BlankPortsAccepted | nmap_ai/utils/validators.py:65-80 | a non-empty all-blank port string is accepted (every part is skipped) |
| Validators.ValidateScanArguments | nmap_ai/utils/validators.py:114-142 | accepted arguments, lowered, contain none of --datadir, --resume, --iflist, --packet-trace and --open |
| Validators.DangerousFlagRejected | nmap_ai/utils/validators.py:128-142 | an argument string containing a dangerous flag, in any case and at any position, is rejected |
| Validators.DevOutputRejected | nmap_ai/utils/validators.py:132-142 | an output flag followed by spaces and a /dev/ path is rejected |
| Validators.ScriptFileRejected | nmap_ai/utils/validators.py:129-142 | "--script" followed on the same line by a .nse or .lua name is rejected |
| Validators.ReplaceEachBy | nmap_ai/utils/validators.py:192-194 | each invalid character becomes '_' and every other character is kept, position by position |
| Validators.TraversalRemovalKeepsCleanName | nmap_ai/utils/validators.py:189 | removing "../" and "..\\" leaves unchanged a name that holds none of a set of characters containing both slashes (the invalid characters are such a set) |
| Validators.CutAndStrip | nmap_ai/utils/validators.py:197-204 | the cut name is non-empty, at most 255 characters, trimmed, made of the input's characters or "unnamed"; an already acceptable name is kept |
| Validators.SanitizeFilename | nmap_ai/utils/validators.py:185-204 | the result is non-empty, at most 255 characters, free of invalid characters and trimmed, and a name that already satisfies all that is returned unchanged |
| Validators.ReplaceEachByClean | nmap_ai/utils/validators.py:192-194 | replacement leaves a name without invalid characters unchanged |
| Helpers.ParsePortRange | nmap_ai/utils/helpers.py:116-130 | succeeds iff every comma part parses as int() would parse it; the result is strictly ascending and contains exactly the ports some part covers |
| Text.GroupedDigitsParse | nmap_ai/utils/helpers.py:125-128 | int() accepts one underscore between digit runs and ignores it ("1_000" is 1000) |
| Text.DoubleUnderscoreRejected | nmap_ai/utils/helpers.py:125-128 | int() refuses a doubled underscore ("1__0") |
| Helpers.GroupedPortParses | nmap_ai/utils/helpers.py:128 | the part "1_000" (digits, an underscore, digits) denotes the single port 1000 |
| Helpers.ExtendRange | nmap_ai/utils/helpers.py:126 | adding a span a..b gives exactly the old ports plus a..b |
| Helpers.SortedDistinct | nmap_ai/utils/helpers.py:130 | sorted(set(ports)) is strictly ascending with the same members |
| Helpers.InsertSorted | nmap_ai/utils/helpers.py:130 | insertion keeps a strictly ascending sequence ascending and adds exactly x |
| Helpers.SpanPartParses | nmap_ai/utils/helpers.py:123-126 | "a-b" parses to the span a..b |
| Helpers.DescendingSpanEmpty | nmap_ai/utils/helpers.py:123-126 | a span with a > b covers no port |
| Helpers.TrailingCommaDisagreement | nmap_ai/utils/helpers.py:120-128 | "n," passes validate_ports but parse_port_range fails on it |
| Helpers.PyPrefix | nmap_ai/utils/helpers.py:144 | text[:stop] is a prefix of the text, of length stop when 0 <= stop <= len(text) |
| Helpers.TruncateString | nmap_ai/utils/helpers.py:140-144 | short text is unchanged; long text ends with the suffix and, when the suffix fits, has exactly max_length characters and keeps the text's prefix |
| Helpers.TruncateOverlong | nmap_ai/utils/helpers.py:144 | truncating "abcdef" to 2 with "..." gives "abcde...", longer than 2 |
| Helpers.TruncateStringBounded | nmap_ai/utils/helpers.py:140-144 | corrected truncation: never longer than max_length when it cuts, agrees with the source whenever the suffix fits, and is a prefix of the text otherwise |
| Helpers.MergeDictionaries | nmap_ai/utils/helpers.py:147-153 | the loop computes Merged (update with each dictionary in turn, empty ones skipped); the merged keys are exactly those of some input, and each value is taken from the last dictionary that has the key |
| Helpers.Merged | nmap_ai/utils/helpers.py:149-153 | the empty list merges to {}, and every key of the last dictionary is kept with that dictionary's value |
| Helpers.MergedFacts | nmap_ai/utils/helpers.py:147-153 | a key is in the merge iff some dictionary has it, and its value is the one in the last dictionary that has it |
| Helpers.MergedSource | nmap_ai/utils/helpers.py:150-153 | for a merged key, names the last dictionary holding it, whose value the merge keeps |
| Helpers.Backoff | nmap_ai/utils/helpers.py:163 | the first delay is the given one and no delay is shorter than a non-negative base |
| Helpers.BackoffDoubles | nmap_ai/utils/helpers.py:163 | each delay is twice the one before |
| Helpers.RetryOperation | nmap_ai/utils/helpers.py:156-164 | calls at most max_retries times, stops at the first success, re-raises the last error after max_retries failures, and sleeps delay times 2 to the k between attempts |
| Parser.ParseScanResult | nmap_ai/core/parser.py:30-114 | an empty host gives no_data; otherwise the status, the open ports of the visited protocol tables, distinct service names and host names come from the host |
| Parser.ProtocolOrder | nmap_ai/core/parser.py:58-83 | a host object's tables are visited over ip, sctp, tcp and udp, a plain dictionary's over tcp, udp and sctp, each protocol once |
| Parser.ParsedOf | nmap_ai/core/parser.py:30-114 | the scan time is missing iff the raw host is empty, no vulnerabilities are attached, and the services are distinct names of the open ports |
| Parser.CopyHostnames | nmap_ai/core/parser.py:50-55 | the host names are copied in order |
| Parser.ScanTable | nmap_ai/core/parser.py:60-101 | one protocol's table adds exactly its open entries to the ports and their names to the distinct services |
| Parser.OpenInTableMembers | nmap_ai/core/parser.py:85-97 | an entry is listed iff its state is open, and it carries the table's protocol |
| Parser.NamesFollowTable | nmap_ai/core/parser.py:78-99 | one service name per open port, the port's name or "unknown" when empty |
| Parser.ProtocolSplit | nmap_ai/core/parser.py:58-84 | the open ports are the ip, sctp, tcp, then udp tables' open entries for a host object, and the tcp, udp, then sctp tables' for a plain dictionary |
| Parser.OpenPortsExact | nmap_ai/core/parser.py:58-97 | an entry is an open port iff some visited protocol's table lists it as open |
| Parser.ProtocolsVisited | nmap_ai/core/parser.py:58-97 | every open port carries a visited protocol, so an ip port appears only for a host object |
| Parser.OpenPortsProtocolOrder | nmap_ai/core/parser.py:58-83 | open ports are grouped in visiting order |
| Parser.ServiceNamesFollowPorts | nmap_ai/core/parser.py:58-101 | the service names correspond one to one with the open ports |
| Parser.TcpUdpPorts | nmap_ai/core/parser.py:58-101 | without ip and sctp tables, both paths list the same open ports and service names |
| Parser.HostObjectAgreesOnTcpUdp | nmap_ai/core/parser.py:30-114 | without ip and sctp tables, a host object and a plain dictionary parse alike |
| Parser.ServicesDistinct | nmap_ai/core/parser.py:99-101 | the services list has no duplicates and contains exactly the names seen |
| Parser.IssuesOf | nmap_ai/core/parser.py:348-357 | a known vulnerable service has exactly two issues; any other service has none |
| Parser.MakeVulnerability | nmap_ai/core/parser.py:366-373 | a medium service_vulnerability of the service on the port, whose description reads back the lowered issue between "Potential " and " on <service> service" |
| Parser.VulnsOf | nmap_ai/core/parser.py:359-374 | every finding is a medium service_vulnerability of a table service |
| Parser.ExtractVulnerabilities | nmap_ai/core/parser.py:345-376 | the vulnerabilities are those of the open ports, port by port |
| Parser.VulnCount | nmap_ai/core/parser.py:360-374 | two findings per open port running a listed service |
| Parser.VulnShape | nmap_ai/core/parser.py:361-374 | each finding is a medium service_vulnerability of a listed service on one of the open ports |
| Parser.HttpOnOtherPort | nmap_ai/core/parser.py:353-364 | HTTP on port 8080 still yields the two http findings (matching is by lowered service name) |
| AiEngine.AnalyzeTargets | nmap_ai/core/ai_engine.py:77-97 | web and database likelihood hold iff some target contains an indicator; mixed services is always set; the network size is the target count |
| AiEngine.OptimizeScanArguments | nmap_ai/core/ai_engine.py:25-75 | the optimised arguments are the base arguments followed by the optimisation flags chosen for the targets |
| AiEngine.Optimizations | nmap_ai/core/ai_engine.py:44-70 | one to four flags, a timing flag first; with mixed services (always set) at least two, a script flag last |
| AiEngine.OptimizationFlags | nmap_ai/core/ai_engine.py:50-70 | exactly one timing flag, -T4 above 100 targets, -T3 above 10, -T2 otherwise; exactly one script flag, http-* iff web targets and no script given |
| AiEngine.OptimizationCounts | nmap_ai/core/ai_engine.py:50-70 | the optimisation adds exactly one timing flag and one script flag |
| AiEngine.OptimizationDetection | nmap_ai/core/ai_engine.py:58-63 | -sV is added iff no version detection is asked for; -O iff not asked for and at most 50 targets |
| AiEngine.RiskLevel | nmap_ai/core/ai_engine.py:138-149 | medium risk needs at least three open ports, and no open port means low risk |
| AiEngine.RiskLevelRule | nmap_ai/core/ai_engine.py:138-149 | high iff some port is high risk; medium iff none is and more than two are medium risk; low otherwise |
| AiEngine.CountInPositive | nmap_ai/core/ai_engine.py:141-147 | the count of ports in a risk table is positive iff some port is in it |
| AiEngine.Recommendations | nmap_ai/core/ai_engine.py:184-192 | two recommendations for high risk, one for an unencrypted protocol, one for more than ten ports, none repeated |
| AiEngine.RecommendationMembers | nmap_ai/core/ai_engine.py:184-192 | each recommendation is present iff its condition holds |
| AiEngine.AnalyzeTargetResult | nmap_ai/core/ai_engine.py:125-194 | the analysis carries the ports' risk level, their issues and the recommendations for them |
| AiEngine.IssuesFromPorts | nmap_ai/core/ai_engine.py:152-181 | every issue comes from some open port, at most one per port |
| AiEngine.TelnetIssue | nmap_ai/core/ai_engine.py:156-188 | an unencrypted-protocol issue is raised iff port 23 is open |
| AiEngine.RecommendationRules | nmap_ai/core/ai_engine.py:184-192 | the recommendations follow the risk level, the unencrypted issue and more than 10 open ports, each iff |
| AiEngine.GenerateScanInsights | nmap_ai/core/ai_engine.py:196-245 | no results give empty insights; otherwise the statistics, risk distribution and top services are counted from the per-target results |
| AiEngine.CountServices | nmap_ai/core/ai_engine.py:228-233 | the counter loop yields the tally of all services seen |
| AiEngine.SuccessBound | nmap_ai/core/ai_engine.py:208-217 | successful scans are at most all scans, and all of them iff none has an error |
| AiEngine.RiskDistributionSum | nmap_ai/core/ai_engine.py:220-226 | high, medium and low counts sum to the number of analysed targets |
| AiEngine.MostCommonServices | nmap_ai/core/ai_engine.py:228-235 | most_common(5) of the service counter: min(5, distinct services) pairs, in non-increasing count order, for distinct services that occur, each with its true count; no service left out occurs more often than any listed one |
| AiEngine.MostCommonSelection | nmap_ai/core/ai_engine.py:228-235 | the first five of the descending sort are min(5, distinct services) occurring services, and every service left out counts no more than each listed one |
| AiEngine.TopFiveSelects | nmap_ai/core/ai_engine.py:235 | taking the first five of the descending sort keeps min(5, n) items and no item left out counts more than a taken one |
| AiEngine.SortDescFacts | nmap_ai/core/ai_engine.py:234 | sorting by count is non-increasing and a permutation |
| AiEngine.InsertDesc | nmap_ai/core/ai_engine.py:234 | insertion adds exactly one element to the multiset |
| AiEngine.TargetHistory | nmap_ai/core/ai_engine.py:276-277 | the history holds exactly the previous scans that include the target |
| AiEngine.CreateScanPlan | nmap_ai/core/ai_engine.py:247-302 | the target and profile keys survive iff the profile is fast, thorough or stealth; the timing is T1, T3 or T4 |
| AiEngine.AdaptivePlan | nmap_ai/core/ai_engine.py:304-328 | the adaptive plan scans 1-100, 1-1000 or 1-10000 at T3 timing |
| AiEngine.AdaptivePlanRule | nmap_ai/core/ai_engine.py:292-328 | an unknown profile gives the adaptive plan with T3 timing and no target or profile: 1-1000 iff no history, 1-10000 iff one of the last three scans succeeded, otherwise 1-100 with -T2 |
| AiEngine.WidenAfterSuccess | nmap_ai/core/ai_engine.py:312-322 | a success among the target's last three scans widens the adaptive ports to 1-10000 |
| AiEngine.HistoricalContext | nmap_ai/core/ai_engine.py:299 | "No historical data" iff the target has no history |
| AiEngine.HistoricalContextRule | nmap_ai/core/ai_engine.py:299 | the plan says "No historical data" iff no previous scan includes the target |
| AiEngine.PlanPortsValid | nmap_ai/core/ai_engine.py:280-328 | every plan's port range passes validate_ports |
| Scanner.PerformSingleScan | nmap_ai/core/scanner.py:115-145 | one target's result: the engine's error, no_data for an absent host, or the parsed host object |
| Scanner.HostEntry | nmap_ai/core/scanner.py:130 | a present host is a host object with its own tables; an absent one is an empty plain dictionary |
| Scanner.EffectivePorts | nmap_ai/core/scanner.py:69 | the ports are the given specification or the configured default, and are empty only if the default is |
| Scanner.EffectiveArguments | nmap_ai/core/scanner.py:70-77 | without optimisation the given arguments (or ""); with it a non-empty stripped argument string |
| Scanner.FirstInvalid | nmap_ai/core/scanner.py:59-64 | the first target failing validation, every earlier one valid; none iff all are valid |
| Scanner.CheckTargets | nmap_ai/core/scanner.py:59-64 | the validation loop stops at the first invalid target |
| Scanner.ScanAll | nmap_ai/core/scanner.py:82-90 | the results map each target to its single scan result, parsed at its own clock reading |
| Scanner.NmapAIScanner.constructor | nmap_ai/core/scanner.py:28-33 | a new scanner has an empty history |
| Scanner.NmapAIScanner.Scan | nmap_ai/core/scanner.py:35-113 | fails iff some target is invalid or given ports are invalid, naming the first culprit and leaving the history alone; on success appends exactly one summary with the effective ports and arguments |
| Scanner.NmapAIScanner.GetScanHistory | nmap_ai/core/scanner.py:304-308 | a positive limit gives the last entries, none or 0 a full copy, a negative one Python's slice |
| Scanner.NmapAIScanner.ClearScanHistory | nmap_ai/core/scanner.py:310-312 | the history becomes empty |
| Scanner.ResultsKeys | nmap_ai/core/scanner.py:82-90 | the results have exactly the targets as keys |
| Scanner.ResultsLastScan | nmap_ai/core/scanner.py:82-90 | a repeated target keeps its last scan's result |
| Scanner.ErrorCaptured | nmap_ai/core/scanner.py:85-90 | an engine error is stored as that target's result and the other targets are still scanned |
| Scanner.AbsentHostNoData | nmap_ai/core/scanner.py:130-138 | a target missing from the engine's hosts yields no_data with no open ports |
| Scanner.NmapAIScanner.ScanId | nmap_ai/core/scanner.py:314-316 | the id starts with "scan_" and its text after the last "_" is the history length |
| Scanner.ScanIdsDistinct | nmap_ai/core/scanner.py:314-316 | scan ids with different counters differ, whatever the timestamps |
| Scanner.CollectGathered | nmap_ai/core/scanner.py:190-197 | the gathered async results map each target to its entry, an exception to an error entry |
| Scanner.BatchTargets | nmap_ai/core/scanner.py:284-293 | a read error e becomes "Could not read targets file <path>: <e>"; otherwise a non-empty list of at most as many targets as lines, or "No targets found in file" |
| Scanner.NonBlankLines | nmap_ai/core/scanner.py:288 | the batch file keeps at most as many targets as lines |
| Scanner.NonBlankLinesFacts | nmap_ai/core/scanner.py:288 | exactly the stripped non-blank lines are kept, and none is blank |
| Scanner.CommentLineKept | nmap_ai/core/scanner.py:288 | a "#" comment line is kept as a target |
| Scanner.BlankFileRejected | nmap_ai/core/scanner.py:292-293 | a file of blank lines fails with "No targets found in file" |
| SmartScanner.PlanScanStrategy | nmap_ai/ai/smart_scanner.py:202-258 | two or three phases, three and low stealth iff aggressive, high stealth iff conservative, and every phase names ports or arguments |
| SmartScanner.ShouldStop | nmap_ai/ai/smart_scanner.py:401-415 | before 20 ports are found the scan stops only after the third phase and a phase with no open ports; up to two phases only 20 ports stop it |
| SmartScanner.Step | nmap_ai/ai/smart_scanner.py:278-297 | a phase counts once as completed or failed, stops only after a result under the stop rule, and keeps the total |
| SmartScanner.RunFrom | nmap_ai/ai/smart_scanner.py:270-299 | completed phases plus errors grow by at most the number of phases left, and the total is kept |
| SmartScanner.KnowledgeOf | nmap_ai/ai/smart_scanner.py:486-494 | every value is a phase number up to k, and phase k's key maps to k |
| SmartScanner.StrategyRules | nmap_ai/ai/smart_scanner.py:202-258 | the strategy's approach, stealth level, phases and timing follow the aggressiveness level |
| SmartScanner.ExecuteAdaptiveScan | nmap_ai/ai/smart_scanner.py:260-299 | the phase loop accumulates each phase's outcome in order |
| SmartScanner.FailedPhase | nmap_ai/ai/smart_scanner.py:295-297 | a failing phase adds one error message and changes nothing else |
| SmartScanner.StepFacts | nmap_ai/ai/smart_scanner.py:278-293 | one phase only grows the ports, services and errors and keeps the aggregate consistent |
| SmartScanner.RunFacts | nmap_ai/ai/smart_scanner.py:270-299 | the whole run keeps the aggregate consistent and completed phases plus errors count the phases run |
| SmartScanner.FoundPortsFromPhases | nmap_ai/ai/smart_scanner.py:278-281 | every open port found comes from some phase's result |
| SmartScanner.PlanAdaptivePhase | nmap_ai/ai/smart_scanner.py:464-476 | phase n scans the thousand ports from n*1000, adds -sV after phase 1, is worth continuing up to phase 3, and its range is a valid port spec iff 1 <= n <= 64 |
| SmartScanner.PhaseKeyInjective | nmap_ai/ai/smart_scanner.py:493 | different phases have different knowledge keys |
| SmartScanner.KnowledgeFacts | nmap_ai/ai/smart_scanner.py:486-498 | the knowledge has one key per phase, each mapping to its phase number |
| SmartScanner.AdaptiveScan | nmap_ai/ai/smart_scanner.py:88-149 | min(max_phases, 3) phases are planned, each with its port range, plus the matching knowledge |
| SmartScanner.AssessSecurityPosture | nmap_ai/ai/smart_scanner.py:438-447 | concerning above 15 open ports, moderate above 5, good otherwise |
| SmartScanner.PostureMonotone | nmap_ai/ai/smart_scanner.py:442-447 | more open ports never improve the posture |
| SmartScanner.TargetProfileOf | nmap_ai/ai/smart_scanner.py:417-436 | web_server iff http or https is seen, unknown otherwise |
| SmartScanner.FurtherTesting | nmap_ai/ai/smart_scanner.py:449-461 | the web suggestion iff http(s), the SSH suggestion iff ssh, nothing more |
| SmartScanner.ConfidenceTenths | nmap_ai/ai/smart_scanner.py:334-347 | the confidence is at most 1.0, zero iff no phase completed and nothing was found, and 1.0 iff a phase completed and both ports and services were found |
| SmartScanner.SmartRecommendations | nmap_ai/ai/smart_scanner.py:349-366 | the Telnet advice iff port 23 is open (and then first), the many-ports advice iff more than ten ports are open, nothing else |
| SmartScanner.EnhanceWithAiAnalysis | nmap_ai/ai/smart_scanner.py:326-376 | the results are kept and the confidence, recommendations and insights of the results are added |
| SmartScanner.ConfidenceMonotone | nmap_ai/ai/smart_scanner.py:336-347 | a run that found more, after as many phases, never has a lower confidence |
| SmartScanner.AdviceMatchesPosture | nmap_ai/ai/smart_scanner.py:361-366 | the many-ports advice is given whenever the posture is concerning and never when it is good |
| SmartScanner.KeepLastAppend | nmap_ai/ai/smart_scanner.py:531-535 | appending keeps at most 100 entries, ends with the new one and drops only the oldest |
| SmartScanner.SmartScannerState.constructor | nmap_ai/ai/smart_scanner.py:20-24 | the learning log starts empty |
| SmartScanner.SmartScannerState.UpdateLearningData | nmap_ai/ai/smart_scanner.py:512-535 | the entry for this scan is appended and the log is cut to its last 100 entries |
| ScriptGenerator.SelectTemplate | nmap_ai/ai/script_generator.py:170-172 | the general template iff the target type is none of the three known ones |
| ScriptGenerator.GenerateDescription | nmap_ai/ai/script_generator.py:174-189 | the type's base description, extended by the tested vulnerabilities iff there are any |
| ScriptGenerator.UnknownTypeIsGeneral | nmap_ai/ai/script_generator.py:172-183 | an unknown type uses the general template and description |
| ScriptGenerator.DescriptionExtendedIff | nmap_ai/ai/script_generator.py:185-189 | the description is longer than the base iff vulnerabilities are given |
| ScriptGenerator.GenerateCategories | nmap_ai/ai/script_generator.py:191-203 | discovery and safe first, intrusive, auth and http each iff its condition, no duplicates |
| ScriptGenerator.GenerateDependencies | nmap_ai/ai/script_generator.py:205-215 | stdnse and shortport first, http and httpspider iff web, sql iff sql_injection, no duplicates |
| ScriptGenerator.RequireLines | nmap_ai/ai/script_generator.py:215 | one require line per dependency, in order |
| ScriptGenerator.GeneratePortrule | nmap_ai/ai/script_generator.py:217-226 | the port rule is chosen by web, then database, then ssh in the lower-cased type, and the open-state rule iff none of them occurs |
| ScriptGenerator.GenerateVulnerabilityChecks | nmap_ai/ai/script_generator.py:261-277 | the basic check without vulnerabilities, otherwise one check per known pattern |
| ScriptGenerator.KnownChecks | nmap_ai/ai/script_generator.py:270-277 | never more checks than named vulnerabilities, and never the basic check |
| ScriptGenerator.KnownChecksEmptyIff | nmap_ai/ai/script_generator.py:270-277 | no checks iff no known pattern is named |
| ScriptGenerator.KnownChecksAllKnown | nmap_ai/ai/script_generator.py:270-277 | known patterns give their checks one by one, in order |
| ScriptGenerator.UnknownOnlyGivesNoChecks | nmap_ai/ai/script_generator.py:270-277 | only unknown names give an empty check list, not the basic check |
| ScriptGenerator.KnownChecksAppend | nmap_ai/ai/script_generator.py:270-277 | checks of a concatenation are the concatenated checks |
| ScriptGenerator.GenerateTimingControls | nmap_ai/ai/script_generator.py:316-334 | the low-stealth delay iff the stealth level is neither high nor medium |
| ScriptGenerator.CreateScript | nmap_ai/ai/script_generator.py:24-62 | the script carries the selected template, description, portrule, timing and checks, fixed author and license; its categories start with discovery and safe, hold intrusive, auth and http exactly under their conditions, and have no duplicates; its dependencies start with stdnse and shortport, hold http and httpspider iff the type or a vulnerability mentions web, sql iff sql_injection is named, and have no duplicates |
| ScriptGenerator.AnalyzeServices | nmap_ai/ai/script_generator.py:389-399 | the services are exactly the names listed under parsed.services of some entry of scan_results['results'], and none when that key is missing |
| ScriptGenerator.ServicesOfMembers | nmap_ai/ai/script_generator.py:394-399 | membership in the detected services, stated for the pure version |
| ScriptGenerator.GenerateTargetedScript | nmap_ai/ai/script_generator.py:349-387 | the script is created for the type and vulnerabilities chosen from the detected services |
| ScriptGenerator.TargetedChoice | nmap_ai/ai/script_generator.py:365-387 | web_server iff http or https is detected, network_device iff ssh without them, general with no vulnerabilities iff none of the six services is detected |
| ScriptGenerator.WebServicesFirst | nmap_ai/ai/script_generator.py:365-370 | http(s) selects web_server with the xss, sql injection and traversal checks |
| ScriptGenerator.NothingDetectedIsGeneral | nmap_ai/ai/script_generator.py:383-387 | nothing detected gives a general script with no vulnerabilities |
| ReportCommand.GenerateJsonReport | nmap_ai/cli/commands/report.py:195-210 | the report carries the results, the vulnerabilities, their totals and the tool name and version |
| ReportCommand.GenerateHtmlReport | nmap_ai/cli/commands/report.py:213-243 | the HTML totals agree with the JSON report's |
| ReportCommand.GenerateXmlReport | nmap_ai/cli/commands/report.py:258-274 | the XML totals agree with the JSON report's |
| ReportCommand.PortLines | nmap_ai/cli/commands/report.py:252-253 | one CSV line per port of the host |
| ReportCommand.AppendPortLines | nmap_ai/cli/commands/report.py:252-253 | the loop appends exactly the host's rendered port lines |
| ReportCommand.GenerateCsvReport | nmap_ai/cli/commands/report.py:245-255 | the CSV is the header followed by every host's port lines |
| ReportCommand.HostsLinesCount | nmap_ai/cli/commands/report.py:248-253 | one line per port over all hosts |
| ReportCommand.CsvLineCount | nmap_ai/cli/commands/report.py:248-253 | the CSV has one header plus one line per port |
| ReportCommand.HostsLinesEndWithNone | nmap_ai/cli/commands/report.py:253 | every port line ends with the literal None fields |
| ReportCommand.PortlessHostsAddNothing | nmap_ai/cli/commands/report.py:251-253 | a host without ports adds no line |
| ReportCommand.Severities | nmap_ai/cli/commands/report.py:353 | one severity per vulnerability, unknown when missing |
| ReportCommand.SeverityBreakdown | nmap_ai/cli/commands/report.py:350-358 | each severity once, with its true count, counts summing to the vulnerabilities |
| ReportCommand.DisplayReportSummary | nmap_ai/cli/commands/report.py:340-358 | hosts, open ports and vulnerabilities are counted; a breakdown iff there are vulnerabilities, and then it is the first-seen tally of the severities ("unknown" when missing): each severity once, with its true count, every vulnerability's severity listed, counts summing to the vulnerabilities |
| ReportCommand.ConvertJsonToHtml | nmap_ai/cli/commands/report.py:361-367 | converting data regenerates the HTML from its results and vulnerabilities, empty data giving zero totals |
| ReportCommand.ConvertJsonToXml | nmap_ai/cli/commands/report.py:379-385 | the same for XML |
| ReportCommand.ConvertJsonToCsv | nmap_ai/cli/commands/report.py:370-376 | converting data renders the CSV of its results |
| ReportCommand.ConvertRoundTrip | nmap_ai/cli/commands/report.py:361-385 | converting a generated JSON report gives the HTML and XML generated from the original inputs |
| ReportCommand.EmptyReportCsv | nmap_ai/cli/commands/report.py:370-376 | data without results converts to the header alone |
| ReportCommand.ReportCommandExit | nmap_ai/cli/commands/report.py:19-44 | an unknown action or a failed one exits 1, otherwise the action's code |
| ScanCommand.Put | nmap_ai/cli/commands/scan.py:142-182 | one option is stored iff its value is truthy |
| ScanCommand.BasicOptions | nmap_ai/cli/commands/scan.py:142-152 | the basic options are stored by the same rule |
| ScanCommand.DetectionOptions | nmap_ai/cli/commands/scan.py:154-160 | the detection options are stored by the same rule |
| ScanCommand.StealthOptions | nmap_ai/cli/commands/scan.py:162-170 | the stealth options are stored by the same rule |
| ScanCommand.RateOptions | nmap_ai/cli/commands/scan.py:172-176 | the rate options are stored by the same rule |
| ScanCommand.ScriptOptions | nmap_ai/cli/commands/scan.py:178-182 | the script options are stored by the same rule |
| ScanCommand.BuildScanOptions | nmap_ai/cli/commands/scan.py:138-184 | an option is present iff its value is truthy, and it holds that value (a flag as True) |
| ScanCommand.ZeroDroppedFlagsTrue | nmap_ai/cli/commands/scan.py:143-182 | a zero value is dropped, flags are stored as True, scripts are kept as given |
| ScanCommand.ServiceLabel | nmap_ai/cli/commands/scan.py:288-297 | the label is the name, with the product and version in parentheses when present |
| ScanCommand.ServiceLabelFacts | nmap_ai/cli/commands/scan.py:292-297 | the label extends the name, and equals it iff there is no product |
| ScanCommand.RenderedHosts | nmap_ai/cli/commands/scan.py:272-274 | the displayed hosts are the entries other than "target" |
| ScanCommand.WithoutTargetFacts | nmap_ai/cli/commands/scan.py:207-208 | exactly the non-"target" entries are kept, in order |
| ScanCommand.SaveFormatOf | nmap_ai/cli/commands/scan.py:197-253 | an unsupported format fails with its message |
| ScanCommand.SaveFormatIgnoresCase | nmap_ai/cli/commands/scan.py:201 | the format is matched case-insensitively |
| ScanCommand.HostSaveRows | nmap_ai/cli/commands/scan.py:210-217 | one row per tcp port of the host |
| ScanCommand.AppendHostRows | nmap_ai/cli/commands/scan.py:210-217 | the loop appends exactly the host's rows |
| ScanCommand.SaveCsvRows | nmap_ai/cli/commands/scan.py:201-217 | the CSV is the header plus every host's rows |
| ScanCommand.SaveRowShape | nmap_ai/cli/commands/scan.py:211-217 | each row has the header's width and starts with the host and port |
| ScanCommand.SaveRowsOfRendered | nmap_ai/cli/commands/scan.py:206-208 | the "target" entry contributes no rows |
| ConfigCommand.WithoutDots | nmap_ai/cli/commands/config.py:96 | the text with its dots removed |
| ConfigCommand.Coerce | nmap_ai/cli/commands/config.py:91-97 | true/false in any case become booleans, digits an integer, a dotted number a float; fails iff digits-with-dots do not parse as a float; otherwise the text |
| ConfigCommand.VersionStringRejected | nmap_ai/cli/commands/config.py:96-114 | a value like 1.2.3 makes the command fail |
| ConfigCommand.DecimalAccepted | nmap_ai/cli/commands/config.py:96-97 | a value like 1.5 becomes a float |
| ConfigCommand.DottedNotWordOrDigits | nmap_ai/cli/commands/config.py:92-97 | a dotted value is neither a boolean word nor an integer |
| ConfigCommand.Blocked | nmap_ai/cli/commands/config.py:82-85 | a missing key is filled with a new dictionary, so only a path whose first key exists and is followed by another key can be blocked |
| ConfigCommand.SetPath | nmap_ai/cli/commands/config.py:78-99 | a failure needs an existing first key with keys after it; a success adds only the first key at the top level and keeps every other top-level entry |
| ConfigCommand.SetPathFailsIff | nmap_ai/cli/commands/config.py:78-99 | setting a dotted key fails iff some prefix holds a non-dictionary |
| ConfigCommand.SetPathStores | nmap_ai/cli/commands/config.py:78-99 | after setting, the key reads back the value |
| ConfigCommand.SetPathIntermediates | nmap_ai/cli/commands/config.py:78-99 | every proper prefix of the key is then a dictionary |
| ConfigCommand.SetPathKeepsOthers | nmap_ai/cli/commands/config.py:78-99 | unrelated keys read as before |
| ConfigCommand.Descend | nmap_ai/cli/commands/config.py:82-85 | the descent loop fails iff a prefix is blocked, else records the path |
| ConfigCommand.Rebuild | nmap_ai/cli/commands/config.py:88-99 | rebuilding from the recorded path gives the functional update |
| ConfigCommand.SetConfig | nmap_ai/cli/commands/config.py:72-114 | exits 0 iff the value coerces, the key can be set and the result validates, and then saves exactly that configuration |
| ConfigCommand.ShowConfig | nmap_ai/cli/commands/config.py:45-69 | exits 0 iff the configuration loads and the section, if any, exists |
| ConfigCommand.ValidateConfigCommand | nmap_ai/cli/commands/config.py:117-131 | exits 0 iff the configuration loads and validates |
| ConfigCommand.ConfigCommandExit | nmap_ai/cli/commands/config.py:17-42 | an unknown action or a failed one exits 1, otherwise the action's code |
| Configuration.ApplyExisting | nmap_ai/config.py:121-144 | applying items never adds or removes a field |
| Configuration.ApplyExistingValues | nmap_ai/config.py:121-144 | each field takes its last given value, or keeps its own |
| Configuration.UnknownKeysIgnored | nmap_ai/config.py:123 | items naming no field change nothing |
| Configuration.Section.constructor | nmap_ai/config.py:13-60 | a section starts with its dataclass defaults |
| Configuration.Section.SetIfPresent | nmap_ai/config.py:123-124 | only an existing field is set |
| Configuration.Section.Update | nmap_ai/config.py:122-124 | the section becomes the items applied to it |
| Configuration.NmapAIConfig.constructor | nmap_ai/config.py:63-72 | fresh sections with their defaults, INFO logging, debug off |
| Configuration.NmapAIConfig.Shared | nmap_ai/config.py:66-70 | a configuration built over the shared default section objects |
| Configuration.NmapAIConfig.SectionOf | nmap_ai/config.py:159-160 | a section is found iff the name is one of the five sections; log_level and debug, which hasattr also finds, are not sections and are judged by the raise rule |
| Configuration.SharedDefaults.constructor | nmap_ai/config.py:66-70 | the default section objects, created once with their defaults |
| Configuration.SharedResetKeepsChanges | nmap_ai/config.py:66-167 | with shared defaults, a timeout changed to 10 is still 10 after a reset |
| Configuration.ConfigManager.constructor | nmap_ai/config.py:78-81 | the defaults, overlaid by the loaded file section by section up to the first section that is not a mapping; log level and debug copied only when no section raised |
| Configuration.ConfigManager.LoadConfig | nmap_ai/config.py:89-102 | a missing, unreadable or empty file, or one whose top level is not a mapping, changes nothing; otherwise the dict is loaded and a raising section stops the load, keeping what came before it |
| Configuration.ConfigManager.UpdateConfigFromDict | nmap_ai/config.py:119-150 | raises iff some known section is not a mapping; the sections before the first such one take their loaded values on existing fields, it and the later ones are unchanged; log level and debug are copied when present and nothing raised |
| Configuration.StopsAtBadSection | nmap_ai/config.py:119-150 | once a section is not a mapping, that section and every later one are left unchanged |
| Configuration.WellFormedLoadsAll | nmap_ai/config.py:119-144 | when every known section is a mapping, every section takes its loaded values |
| Configuration.EmptyLoadsNothing | nmap_ai/config.py:97-98 | an empty dict changes no section |
| Configuration.ConfigManager.LoadSection | nmap_ai/config.py:121-124 | one section is overlaid with its loaded values when they form a mapping; it raises iff the entry is present and not a mapping |
| Configuration.ConfigManager.GetConfig | nmap_ai/config.py:152-154 | the current configuration object |
| Configuration.ConfigManager.UpdateConfig | nmap_ai/config.py:156-163 | it raises iff some keyword raises: a section given a non-dictionary, or log_level or debug given a non-dictionary or a key the current value has as an attribute; the keywords before the first such one are applied, each section taking their dictionary values for its existing fields, and the rest are not |
| Configuration.RaiseIndex | nmap_ai/config.py:158-163 | the number of keywords handled before the first that raises: none of those raises, and the one at the index does |
| Configuration.RaiseIndexFirst | nmap_ai/config.py:158-163 | the first raising keyword is the only stopping point |
| Configuration.SectionDictsNeverRaise | nmap_ai/config.py:158-163 | dictionaries given to names other than log_level and debug never raise |
| Configuration.DebugFlagRaises | nmap_ai/config.py:159-161 | update_config(debug=True) or debug=False raises at once |
| Configuration.ConfigManager.ResetToDefaults | nmap_ai/config.py:165-168 | every section is back at its defaults, in fresh objects |
| Configuration.UpdatedIgnoresOthers | nmap_ai/config.py:158-159 | updates for other sections leave a section alone |
| Configuration.UpdatedKeepsKeys | nmap_ai/config.py:161-163 | updates never add fields |
| Configuration.ScanDefaultsStated | nmap_ai/config.py:26-31 | the scanning defaults: timeout 300, 50 hosts, 3 retries, ports 1-1000, no stealth, timing 3 |
| ApiModels.ParseScanType | nmap_ai/web/api/models.py:11-17 | exactly the five scan type values parse, back to themselves |
| ApiModels.ScanTypeRoundTrip | nmap_ai/web/api/models.py:11-17 | every scan type parses back from its value |
| ApiModels.TimingLevel | nmap_ai/web/api/models.py:20-27 | the timing level lies in 0..5 |
| ApiModels.ParseTiming | nmap_ai/web/api/models.py:20-27 | exactly T0..T5 parse, back to themselves |
| ApiModels.TimingRoundTrip | nmap_ai/web/api/models.py:20-27 | every timing parses back from its value |
| ApiModels.ParseOutputFormat | nmap_ai/web/api/models.py:30-35 | exactly json, xml, csv and html parse, back to themselves |
| ApiModels.OutputFormatRoundTrip | nmap_ai/web/api/models.py:30-35 | every format parses back from its value |
| ApiModels.OptionErrors | nmap_ai/web/api/models.py:38-56 | every constrained field is checked: a field is listed iff its check fails (scan type or timing not a member, timeout outside 1..3600, threads outside 1..100), only those fields are listed, and the first listed is the first failing in declaration order |
| ApiModels.ValidateScanOptions | nmap_ai/web/api/models.py:38-56 | accepted iff the scan type and timing are known and timeout and threads are in bounds, carrying every field over; otherwise fails with all the failing fields |
| ApiModels.AllFailingFieldsListed | nmap_ai/web/api/models.py:38-56 | a bad scan type and a zero timeout are both reported, the scan type first |
| ApiModels.DefaultOptionsValid | nmap_ai/web/api/models.py:40-46 | the defaults validate to ports 1-1000, syn, T3, 300 seconds |
| ApiModels.ValidateTarget | nmap_ai/web/api/models.py:66-71 | fails iff the target is blank, else returns it trimmed |
| ApiModels.ValidateTargetIdempotent | nmap_ai/web/api/models.py:71 | validating a validated target changes nothing |
| ApiModels.ValidateTargetChars | nmap_ai/web/api/models.py:71 | the trimmed target uses only the input's characters |
| ApiModels.Located | nmap_ai/web/api/models.py:64 | a nested model's error locations are prefixed with the field holding it, and a prefixed name is listed iff the nested one is |
| ApiModels.RequestErrors | nmap_ai/web/api/models.py:59-71 | "target" is listed iff the target is blank, and first when it is; "options.f" is listed iff options were sent and their field f fails; none iff both validate |
| ApiModels.ValidateScanRequest | nmap_ai/web/api/models.py:59-71 | accepted iff the target and options validate, carrying the stripped target, the validated options and the flags; otherwise fails with every failing field |
| ApiModels.BlankTargetAndBadOptions | nmap_ai/web/api/models.py:59-71 | a blank target with a bad scan type and a zero timeout reports all three fields |
| ApiModels.ValidateScanningSettings | nmap_ai/web/api/models.py:149-153 | accepted unchanged iff timeout and threads are in bounds; otherwise each failing field is listed, default_timeout first |
| ApiModels.ValidatedSettingsTruthy | nmap_ai/web/api/models.py:151-152 | validated settings are never zero |
| WebEndpoints.Status | nmap_ai/web/api/endpoints.py:97-120 | 404 iff the scan is unknown; an active scan shows its own state, a completed one 100 percent |
| WebEndpoints.Results | nmap_ai/web/api/endpoints.py:134-140 | the results iff completed, 400 while active, 404 otherwise |
| WebEndpoints.StatusResultsAgree | nmap_ai/web/api/endpoints.py:97-140 | results are available iff the status is completed; 400 iff the status is another; 404 iff the status is 404 |
| WebEndpoints.ObservableProgress | nmap_ai/web/api/endpoints.py:346-390 | the observable progress is only ever 0 or 100 |
| WebEndpoints.Start | nmap_ai/web/api/endpoints.py:54-63 | the new id becomes active at starting with progress 0 and the request's target; other active scans and the completed ones are untouched |
| WebEndpoints.StartEffect | nmap_ai/web/api/endpoints.py:54-63 | starting adds exactly the new scan at status starting and changes no other |
| WebEndpoints.Cancelled | nmap_ai/web/api/endpoints.py:154-163 | the same scans stay active and completed; an active scan is marked cancelled with its progress kept, and no other scan changes |
| WebEndpoints.CancelEffect | nmap_ai/web/api/endpoints.py:154-163 | 404 iff the scan is not active; otherwise only its status and message change |
| WebEndpoints.Execute | nmap_ai/web/api/endpoints.py:335-390 | an id that is not active changes nothing; otherwise no scan is lost or gained, scans only move from active to completed, and other active scans are untouched |
| WebEndpoints.FailedConsistent | nmap_ai/web/api/endpoints.py:386-390 | marking failed keeps the registry consistent |
| WebEndpoints.ExecuteConsistent | nmap_ai/web/api/endpoints.py:344-390 | executing a scan keeps the registry consistent |
| WebEndpoints.ExecuteSucceeds | nmap_ai/web/api/endpoints.py:370-379 | a successful scan moves to completed with its results |
| WebEndpoints.ExecuteFails | nmap_ai/web/api/endpoints.py:350-390 | an AI scan or a failing scan stays active as failed with the error |
| WebEndpoints.CancelDoesNotStopScan | nmap_ai/web/api/endpoints.py:154-159 | a cancelled scan still completes with its results |
| WebEndpoints.Rows | nmap_ai/web/api/endpoints.py:174-197 | one row per active and per completed scan |
| WebEndpoints.ActiveRowsAt | nmap_ai/web/api/endpoints.py:177-184 | one row per active scan, in order |
| WebEndpoints.CompletedRowsAt | nmap_ai/web/api/endpoints.py:187-195 | one row per completed scan, in order |
| WebEndpoints.RowsListEveryScan | nmap_ai/web/api/endpoints.py:174-197 | the list shows every active scan, then every completed one |
| WebEndpoints.ScanRegistry.constructor | nmap_ai/web/api/endpoints.py:26-27 | the registry starts empty |
| WebEndpoints.ScanRegistry.StartScan | nmap_ai/web/api/endpoints.py:54-79 | the registry takes the start transition and answers "starting" |
| WebEndpoints.ScanRegistry.CancelScan | nmap_ai/web/api/endpoints.py:154-163 | the registry takes the cancel transition and answers accordingly |
| WebEndpoints.ScanRegistry.MarkFailed | nmap_ai/web/api/endpoints.py:387-390 | only the scan's status, message and progress change |
| WebEndpoints.ScanRegistry.Complete | nmap_ai/web/api/endpoints.py:367-379 | the scan moves from active to completed with its results |
| WebEndpoints.ScanRegistry.ExecuteScan | nmap_ai/web/api/endpoints.py:335-390 | the registry takes the execute transition |
| WebEndpoints.ScanRegistry.Proceed | nmap_ai/web/api/endpoints.py:355-390 | for a non-AI scan the registry ends in the execute transition: a failure marks the scan failed, a success completes it |
| WebEndpoints.ScanRegistry.SetProgress | nmap_ai/web/api/endpoints.py:346-362 | only the entry's status and progress change, and the final outcome of the execute transition is the same as before the write |
| WebEndpoints.ExecuteIgnoresProgress | nmap_ai/web/api/endpoints.py:346-390 | the intermediate status and progress writes never show in what an execution leaves behind, since failure overwrites them and success removes the entry |
| WebEndpoints.ScanRegistry.ListScans | nmap_ai/web/api/endpoints.py:174-197 | the loops build the rows of every scan |
| WebEndpoints.UpdateConfiguration | nmap_ai/web/api/endpoints.py:294-304 | a given truthy timeout, thread count and confidence threshold are written, a given smart-scanning flag is written whatever its value, every other setting keeps its value, and nothing outside those four changes |
| WebEndpoints.ValidatedUpdateWrites | nmap_ai/web/api/endpoints.py:294-298 | validated scanning settings are written |
| WebEndpoints.ZeroThresholdIgnored | nmap_ai/web/api/endpoints.py:303-304 | a 0.0 confidence threshold is ignored |
| WebEndpoints.OutputOnlyUpdateIgnored | nmap_ai/web/api/endpoints.py:294-304 | an output-only update changes nothing |
| WebEndpoints.UpdateIdempotent | nmap_ai/web/api/endpoints.py:294-304 | applying the same update twice equals applying it once |
| Plugins.Plugin.constructor | nmap_ai/plugins/base.py:36-46 | a new plugin is enabled, not initialized, with empty config when none is given |
| Plugins.Plugin.Enable | nmap_ai/plugins/base.py:74-77 | the plugin becomes enabled |
| Plugins.Plugin.Disable | nmap_ai/plugins/base.py:79-82 | the plugin becomes disabled |
| Plugins.LowerAll | nmap_ai/plugins/base.py:195 | each supported format is lowered |
| Plugins.ValidateFormat | nmap_ai/plugins/base.py:185-195 | a format is valid iff some supported format matches it ignoring case |
| Plugins.SupportedFormatValidates | nmap_ai/plugins/base.py:195 | every supported format validates in any case |
| Plugins.ValidateFormatIgnoresCase | nmap_ai/plugins/base.py:195 | formats that lower alike validate alike |
| Plugins.NoFormatsRejectAll | nmap_ai/plugins/base.py:195 | without supported formats every format is rejected |
| Plugins.OfType | nmap_ai/plugins/base.py:414-417 | no more names than registered, each a registered name whose plugin is an instance of the type |
| Plugins.OfTypeMembers | nmap_ai/plugins/base.py:414-417 | a name is listed iff registered with a plugin of that type |
| Plugins.OfBaseTypeIsAll | nmap_ai/plugins/base.py:411-417 | filtering by the base type lists every name in order |
| Plugins.KindsOf | nmap_ai/plugins/base.py:414-417 | each registered name's plugin kind |
| Plugins.Listed | nmap_ai/plugins/base.py:411-417 | only registered names are listed, never more than are registered, and with a type only instances of it |
| Plugins.PluginManager.constructor | nmap_ai/plugins/base.py:267-276 | the manager starts empty, with the given directories |
| Plugins.PluginManager.LoadPlugin | nmap_ai/plugins/base.py:300-362 | registered, replacing an old one, iff a plugin class was found and initialize() returned True; otherwise nothing changes |
| Plugins.PluginManager.UnloadPlugin | nmap_ai/plugins/base.py:364-387 | removed iff registered and cleanup() did not raise; otherwise nothing changes |
| Plugins.PluginManager.GetPlugin | nmap_ai/plugins/base.py:389-399 | the plugin iff registered |
| Plugins.PluginManager.ListPlugins | nmap_ai/plugins/base.py:401-417 | the registered names, filtered by type when one is given |
| Plugins.PluginManager.CleanupAll | nmap_ai/plugins/base.py:419-422 | exactly the plugins whose cleanup raised remain |
| Plugins.Survivors | nmap_ai/plugins/base.py:419-422 | the remaining plugins are loaded ones, unchanged; a plugin whose cleanup raises and one not yet reached both remain |
| Plugins.ListAllIsListBase | nmap_ai/plugins/base.py:411-417 | listing without a type equals listing by the base type |
| Plugins.ListedByType | nmap_ai/plugins/base.py:411-417 | a typed listing names exactly the plugins of that type |
| BatchScanning.LoadTargetsFromFile | examples/batch_scanning.py:38-58 | a missing file fails with its message; otherwise the target lines |
| BatchScanning.TargetLines | examples/batch_scanning.py:48-51 | at most one target per line, each stripped, non-empty and not starting with '#' |
| BatchScanning.TargetLinesFacts | examples/batch_scanning.py:48-51 | targets are trimmed, non-empty, non-comment lines, and all lines iff all qualify |
| BatchScanning.TargetLinesAppend | examples/batch_scanning.py:48-51 | target filtering works line by line |
| BatchScanning.ScanSingleTarget | examples/batch_scanning.py:60-113 | completed iff not an AI scan, the scan returned and any vulnerability analysis reported; an AI scan always fails with the TypeError, worded as Python 3.10 and later word it |
| BatchScanning.RecordFor | examples/batch_scanning.py:60-113 | the record carries the target and the scan time, and its status is completed or failed |
| BatchScanning.ScanTargetsSequential | examples/batch_scanning.py:156-173 | one record per target, in order |
| BatchScanning.RecordTargets | examples/batch_scanning.py:156-173 | the target of each record |
| BatchScanning.ScanTargetsParallel | examples/batch_scanning.py:115-154 | one record per target, in completion order, each target present |
| BatchScanning.CountStatus | examples/batch_scanning.py:202-204 | a status count is at most the records |
| BatchScanning.SummaryCounts | examples/batch_scanning.py:200-205 | the total is the number of records, and successful plus failed never exceeds it |
| BatchScanning.StatusCountsBound | examples/batch_scanning.py:203-204 | the completed, failed and exception counts add up to at most the records |
| BatchScanning.SummaryPartition | examples/batch_scanning.py:202-204 | successful and failed counts add up to the records |
| BatchScanning.SequentialFromBatchPaths | examples/batch_scanning.py:156-204 | sequential scanning yields records whose counts add up to the targets |
| BatchScanning.TargetSummaries | examples/batch_scanning.py:210-233 | one summary per record with its target, status and vulnerability presence |
| BatchScanning.HtmlStats | examples/batch_scanning.py:296-334 | successful plus failed is the total |
| BatchScanning.HtmlFailedAgrees | examples/batch_scanning.py:296-297 | the HTML failed count agrees with the summary's on batch records |
| BatchScanning.HtmlFailedCountsOtherStatuses | examples/batch_scanning.py:296-297 | a record without status counts as failed in HTML but not in the summary |
| BatchScanning.TcpRows | examples/batch_scanning.py:264-288 | one row per tcp port |
| BatchScanning.WriteTcpRows | examples/batch_scanning.py:264-288 | the loop writes the host's tcp rows |
| BatchScanning.WriteHostsRows | examples/batch_scanning.py:264-288 | the loop writes every host's rows |
| BatchScanning.CsvRows | examples/batch_scanning.py:252-292 | every row carries the target, status and scan time of one of the records |
| BatchScanning.GenerateCsvReport | examples/batch_scanning.py:238-292 | the header and the rows of every record |
| BatchScanning.HostRowShapes | examples/batch_scanning.py:266-288 | a host with tcp ports gives one row each; without any port one empty row; with udp ports only none |
| BatchScanning.TcpRowsPorts | examples/batch_scanning.py:270-276 | each row carries its port and tcp |
| BatchScanning.TcpRowsCount | examples/batch_scanning.py:270-276 | the tcp rows count the host's tcp ports |
| BatchScanning.HostsTcpRows | examples/batch_scanning.py:266-288 | the tcp rows count all hosts' tcp ports |
| BatchScanning.OpenPortsMatchCsv | examples/batch_scanning.py:273-334 | the HTML's open-port total equals the CSV's tcp rows |
| BatchScanning.RecordRowsOfFailure | examples/batch_scanning.py:289-292 | a failed record gives exactly one row without a port |
| BatchScanning.AnalysedRecords | examples/batch_scanning.py:192 | exactly the records carrying a vulnerability analysis |
| BatchScanning.VulnerabilitySummary | examples/batch_scanning.py:191-194 | no summary iff no record carries an analysis; otherwise one entry per analysed record, each with a severity breakdown |
| BatchScanning.VulnerabilityReport | examples/batch_scanning.py:404-428 | one entry per record passed, with its target, a severity breakdown iff the record has an analysis, and zero vulnerabilities and no recommendations without one |
| BatchScanning.VulnerabilityReportFacts | examples/batch_scanning.py:404-431 | one entry per record passed, each keeping at most the first five of its recommendations, and the total is the sum of the entries' totals |

## Left out

- Running nmap, reading and writing files, HTTP serving, logging, the clock, uuid generation and randomness. Their results are parameters.
- Concurrency. Parallel and async scans are modelled by their completion order, which is a parameter.
- Configuration.ConfigManager.UpdateConfig: a keyword naming one of Python's own attributes of the configuration object, such as `__dict__` or `__class__`, which hasattr also finds, is treated as naming nothing. The model has no object attributes beyond the dataclass fields.
- Floating point: scan durations, progress percentages, average risk, and the float bounds of the web models (nmap_ai/web/api/models.py:129,144,160).
- Python dictionaries are modelled as values. Aliasing between dictionaries is not modelled, except for the shared configuration defaults.
- Strings are ASCII. Strip, lower and isdigit follow ASCII only.
- The XML and file paths of the parser (nmap_ai/core/parser.py:116-333). They read files.
- Python's `ipaddress` module is an oracle parameter.
- The e-mail and URL validators (nmap_ai/utils/validators.py:207-249) and `validate_file_path`. They depend on regexes and the file system.
- The helper functions outside nmap_ai/utils/helpers.py:116-164. They format output or read the system.
- `_estimate_scan_duration` (nmap_ai/core/ai_engine.py:330-357). It is float arithmetic.
- `generate_script` (nmap_ai/core/ai_engine.py:359-376). It delegates to the script generator.
- `smart_scan` (nmap_ai/ai/smart_scanner.py:26-87), the intelligence gathering (151-200) and the stub methods (377-399). They call the network or return fixed placeholders.
- EnhanceWithAiAnalysis: the confidence is a sum of the floats 0.3, 0.4 and 0.3; the model counts it in tenths and leaves floating-point rounding out. The intelligence argument is passed on to the target profile, which never reads it (nmap_ai/ai/smart_scanner.py:417-436), so the model drops it; the profile's fixed confidence figures 0.5 and 0.8 are carried by its web flag.
- The Lua text of generated scripts, `_compile_script` (nmap_ai/ai/script_generator.py:336-347) and the full text of `_generate_action_function` (228-259). Only the choices are modelled.
- The report file commands `generate`, `list`, `export` and `delete`, and the saving functions (nmap_ai/cli/commands/report.py:47-192, 276-337). They are I/O.
- `scan_command` (nmap_ai/cli/commands/scan.py:43-136), the XML and HTML save text, and `display_results` beyond the service label. They are I/O and formatting.
- `reset_config` (nmap_ai/cli/commands/config.py:134-155). It reads the terminal and files.
- The web API's `analyze_vulnerabilities`, `get_configuration` and `health_check` (nmap_ai/web/api/endpoints.py:200-274, 315-332), and the HTTP 500 wrapping. These are a detector oracle, a projection and a clock.
- `discover_plugins` and the dynamic import (nmap_ai/plugins/base.py:278-298, 313-344). They use the file system and the import machinery. Their outcome is a parameter.
- setup.py, the GUI and the program entry points.
- Imports that do not resolve. nmap_ai/cli/commands/config.py:11 imports `load_config`, `save_config` and `validate_config`, which nmap_ai/config.py does not define. nmap_ai/cli/commands/report.py:12 imports `NmapResultParser`, but the parser class is named `ResultParser` (nmap_ai/core/parser.py:12). `Config` is imported by nmap_ai/cli/commands/scan.py:12, nmap_ai/web/api/endpoints.py:14, examples/basic_scan.py:15, examples/ai_script_gen.py:17 and examples/batch_scanning.py:25, and nmap_ai/config.py defines no `Config`. Each of these modules fails when it is imported. The ConfigCommand, ReportCommand, ScanCommand, WebEndpoints and BatchScanning models describe the function bodies as if those imports resolved.
- The batch scanner oracle. The summary returned by `NmapAIScanner.scan` has no 'scan' and no 'stats' key (nmap_ai/core/scanner.py:98-108). With that scanner, every completed batch record gets no host counts (examples/batch_scanning.py:218), takes the blank-row CSV branch (examples/batch_scanning.py:264-292) and counts no open ports in the HTML report (examples/batch_scanning.py:334). BatchScanning.ScanOutcome.Returned is not limited to that shape: its scan and stats parts may both be present, as another scanner could return them.
- The web configuration is not kept between requests. `get_config` builds a fresh configuration for every request (nmap_ai/web/api/endpoints.py:30-32), so the change made by `update_configuration` is discarded once the request ends. WebEndpoints.UpdateConfiguration models the change within one request.
- Scanner.NmapAIScanner.Scan: does not model a target named "results" or "ai_insights". The per-target map is passed to enhance_results (nmap_ai/core/scanner.py:93-94), which looks up its 'results' key and writes its 'ai_insights' key (nmap_ai/core/ai_engine.py:113-121). A target named "results" has its own result dict read as the target map, so the insights are computed from that dict instead of being empty. A target named "ai_insights" has its result replaced by the insights. The model keeps every result and states empty insights beside them.
- Plugins.PluginManager.CleanupAll: does not state the order in which the remaining names stay registered. It states only which names remain.
- BatchScanning.BatchRecord: an empty 'stats' dictionary is represented as absent. Both are falsy, so the source takes the same no-counts branch for them (examples/batch_scanning.py:218). The saved JSON would show `{}` rather than no key; the model does not distinguish the two.
- Configuration.ConfigManager.LoadConfig: file content whose top level is a list or a scalar is passed as absent. Such content either holds no section name or raises on the first one it holds, because indexing a list or string by a name fails (nmap_ai/config.py:119-121). That happens before any field changes, and the exception is caught, so nothing changes.
- WebEndpoints.ScanRegistry.StartScan: assumes the new scan id is not yet in use. The source relies on uuid4 for that.
- SmartScanner.StrategyRules: states the approach, stealth level, phase count, first phase and aggressive timing per level. It does not state each phase's argument text.

## Findings

| source | as written | input that shows it | evidently intended | confidence | as-written member | corrected member |
|---|---|---|---|---|---|---|
| nmap_ai/utils/helpers.py:144 | when max_length is shorter than the suffix, the cut position is negative, so Python's slice keeps most of the text | truncate_string("abcdef", 2, "...") gives "abcde...", eight characters for a limit of two | the result is never longer than max_length | not executed | Helpers.TruncateOverlong | Helpers.TruncateStringBounded |
| nmap_ai/config.py:66-167 | the configuration's sections default to section objects created once, so every configuration built from the defaults shares them, and a reset keeps earlier changes (Python 3.11 and later refuse such defaults with a ValueError) | set the scanning timeout to 10, then reset: the timeout is still 10 | a reset restores the defaults in fresh section objects | not executed | Configuration.SharedResetKeepsChanges | Configuration.ConfigManager.ResetToDefaults |
