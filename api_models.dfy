/** The request and response models of the web API: the enumerations a
    request may name, the integer bounds its fields must respect, the
    defaults it gets, and the target validator. Validation is modelled as a
    function from the fields as sent to either the model or the locations of
    every field that failed, in declaration order, as one ValidationError
    lists them; a nested field's location is its path joined with dots. */
module ApiModels {
  import opened Wrappers
  import opened Text

  // ---------------------------------------------------------------------
  // Enumerations
  // ---------------------------------------------------------------------

  datatype ScanType = Syn | Tcp | Udp | Ack | Connect

  function ScanTypeValue(t: ScanType): string
  {
    match t
    case Syn => "syn"
    case Tcp => "tcp"
    case Udp => "udp"
    case Ack => "ack"
    case Connect => "connect"
  }

  /** Parsing a value into the enumeration: only the five exact values are
      accepted, and each one names the member whose value it is. */
  function ParseScanType(s: string): (r: Option<ScanType>)
    ensures r.Some? <==> s in ["syn", "tcp", "udp", "ack", "connect"]
    ensures r.Some? ==> ScanTypeValue(r.value) == s
  {
    if s == "syn" then Some(Syn)
    else if s == "tcp" then Some(Tcp)
    else if s == "udp" then Some(Udp)
    else if s == "ack" then Some(Ack)
    else if s == "connect" then Some(Connect)
    else None
  }

  lemma ScanTypeRoundTrip(t: ScanType)
    ensures ParseScanType(ScanTypeValue(t)) == Some(t)
  {
  }

  /** Nmap timing templates T0 (paranoid) to T5 (insane). */
  datatype TimingTemplate = T0 | T1 | T2 | T3 | T4 | T5

  function TimingLevel(t: TimingTemplate): (n: nat)
    ensures n <= 5
  {
    match t
    case T0 => 0
    case T1 => 1
    case T2 => 2
    case T3 => 3
    case T4 => 4
    case T5 => 5
  }

  function TimingValue(t: TimingTemplate): string
  {
    ['T', DigitChar(TimingLevel(t))]
  }

  function ParseTiming(s: string): (r: Option<TimingTemplate>)
    ensures r.Some? <==> s in ["T0", "T1", "T2", "T3", "T4", "T5"]
    ensures r.Some? ==> TimingValue(r.value) == s
  {
    if s == "T0" then Some(T0)
    else if s == "T1" then Some(T1)
    else if s == "T2" then Some(T2)
    else if s == "T3" then Some(T3)
    else if s == "T4" then Some(T4)
    else if s == "T5" then Some(T5)
    else None
  }

  lemma TimingRoundTrip(t: TimingTemplate)
    ensures ParseTiming(TimingValue(t)) == Some(t)
  {
  }

  datatype OutputFormat = Json | Xml | Csv | Html

  function OutputFormatValue(f: OutputFormat): string
  {
    match f
    case Json => "json"
    case Xml => "xml"
    case Csv => "csv"
    case Html => "html"
  }

  function ParseOutputFormat(s: string): (r: Option<OutputFormat>)
    ensures r.Some? <==> s in ["json", "xml", "csv", "html"]
    ensures r.Some? ==> OutputFormatValue(r.value) == s
  {
    if s == "json" then Some(Json)
    else if s == "xml" then Some(Xml)
    else if s == "csv" then Some(Csv)
    else if s == "html" then Some(Html)
    else None
  }

  lemma OutputFormatRoundTrip(f: OutputFormat)
    ensures ParseOutputFormat(OutputFormatValue(f)) == Some(f)
  {
  }

  // ---------------------------------------------------------------------
  // Bounds
  // ---------------------------------------------------------------------

  /** A constrained optional integer: absent, or within lo..hi inclusive. */
  predicate Within(v: Option<int>, lo: int, hi: int)
  {
    v.None? || lo <= v.value <= hi
  }

  /** The error locations of a nested model, each prefixed with the field
      holding it. */
  function Located(prefix: string, errors: seq<string>): (r: seq<string>)
    ensures |r| == |errors|
    ensures forall i | 0 <= i < |r| :: r[i] == prefix + errors[i]
    ensures forall f :: prefix + f in r <==> f in errors
  {
    LocatedMembers(prefix, errors);
    seq(|errors|, i requires 0 <= i < |errors| => prefix + errors[i])
  }

  lemma LocatedMembers(prefix: string, errors: seq<string>)
    ensures forall f ::
      (prefix + f in seq(|errors|, i requires 0 <= i < |errors| => prefix + errors[i])) <==> f in errors
  {
    var r := seq(|errors|, i requires 0 <= i < |errors| => prefix + errors[i]);
    forall f
      ensures prefix + f in r <==> f in errors
    {
      if prefix + f in r {
        var i :| 0 <= i < |r| && r[i] == prefix + f;
        assert f == (prefix + f)[|prefix|..] == (prefix + errors[i])[|prefix|..] == errors[i];
      }
      if f in errors {
        var i :| 0 <= i < |errors| && errors[i] == f;
        assert r[i] == prefix + f;
      }
    }
  }

  /** The progress percentage of a status or a progress update. */
  predicate ProgressInRange(p: int)
  {
    0 <= p <= 100
  }

  // ---------------------------------------------------------------------
  // Scan options
  // ---------------------------------------------------------------------

  /** The scan options as sent, before the enumerations are parsed. */
  datatype ScanOptionsInput = ScanOptionsInput(
    ports: Option<string>,
    scanType: Option<string>,
    timing: Option<string>,
    timeout: Option<int>,
    threads: Option<int>,
    serviceDetection: Option<bool>,
    versionDetection: Option<bool>,
    osDetection: Option<bool>,
    aggressive: Option<bool>,
    stealth: Option<bool>,
    scripts: Option<seq<string>>,
    scriptArgs: Option<string>,
    fragment: Option<bool>,
    decoy: Option<string>,
    sourcePort: Option<int>,
    maxRate: Option<int>,
    minRate: Option<int>)

  datatype ScanOptions = ScanOptions(
    ports: Option<string>,
    scanType: Option<ScanType>,
    timing: Option<TimingTemplate>,
    timeout: Option<int>,
    threads: Option<int>,
    serviceDetection: Option<bool>,
    versionDetection: Option<bool>,
    osDetection: Option<bool>,
    aggressive: Option<bool>,
    stealth: Option<bool>,
    scripts: Option<seq<string>>,
    scriptArgs: Option<string>,
    fragment: Option<bool>,
    decoy: Option<string>,
    sourcePort: Option<int>,
    maxRate: Option<int>,
    minRate: Option<int>)

  /** The field values an omitted field takes. */
  const DefaultScanOptionsInput := ScanOptionsInput(
    Some("1-1000"), Some("syn"), Some("T3"), Some(300), None,
    Some(true), Some(true), Some(false), Some(false), Some(false),
    None, None, Some(false), None, None, None, None)

  predicate ScanTypeAccepted(s: Option<string>)
  {
    s.None? || ParseScanType(s.value).Some?
  }

  predicate TimingAccepted(s: Option<string>)
  {
    s.None? || ParseTiming(s.value).Some?
  }

  function ParsedScanType(s: Option<string>): Option<ScanType>
    requires ScanTypeAccepted(s)
  {
    if s.None? then None else ParseScanType(s.value)
  }

  function ParsedTiming(s: Option<string>): Option<TimingTemplate>
    requires TimingAccepted(s)
  {
    if s.None? then None else ParseTiming(s.value)
  }

  /** The constrained fields of ScanOptions, in declaration order. */
  const OptionFields: seq<string> := ["scan_type", "timing", "timeout", "threads"]

  /** The fields of a scan options input that fail: the scan type and timing
      must name a member, timeout lies in 1..3600 and threads in 1..100.
      Every field is checked, and the failing ones are listed in declaration
      order. */
  function OptionErrors(input: ScanOptionsInput): (errors: seq<string>)
    ensures "scan_type" in errors <==> !ScanTypeAccepted(input.scanType)
    ensures "timing" in errors <==> !TimingAccepted(input.timing)
    ensures "timeout" in errors <==> !Within(input.timeout, 1, 3600)
    ensures "threads" in errors <==> !Within(input.threads, 1, 100)
    ensures forall e | e in errors :: e in OptionFields
    ensures errors != [] ==> errors[0] == FirstFailing(input)
  {
    (if !ScanTypeAccepted(input.scanType) then ["scan_type"] else []) +
    (if !TimingAccepted(input.timing) then ["timing"] else []) +
    (if !Within(input.timeout, 1, 3600) then ["timeout"] else []) +
    (if !Within(input.threads, 1, 100) then ["threads"] else [])
  }

  /** The first constrained field, in declaration order, that fails. */
  function FirstFailing(input: ScanOptionsInput): string
  {
    if !ScanTypeAccepted(input.scanType) then "scan_type"
    else if !TimingAccepted(input.timing) then "timing"
    else if !Within(input.timeout, 1, 3600) then "timeout"
    else "threads"
  }

  /** ScanOptions(**fields): the model when no field fails, with every field
      carried over unchanged; otherwise the failing fields. */
  function ValidateScanOptions(input: ScanOptionsInput): (r: Result<ScanOptions, seq<string>>)
    ensures r.Success? <==>
      ScanTypeAccepted(input.scanType) && TimingAccepted(input.timing)
      && Within(input.timeout, 1, 3600) && Within(input.threads, 1, 100)
    ensures r.Success? ==>
      && (input.scanType.None? <==> r.value.scanType.None?)
      && (input.timing.None? <==> r.value.timing.None?)
      && (input.scanType.Some? ==> ScanTypeValue(r.value.scanType.value) == input.scanType.value)
      && (input.timing.Some? ==> TimingValue(r.value.timing.value) == input.timing.value)
      && r.value.timeout == input.timeout && r.value.threads == input.threads
      && r.value.ports == input.ports
    ensures r.Success? ==>
      && r.value.serviceDetection == input.serviceDetection
      && r.value.versionDetection == input.versionDetection
      && r.value.osDetection == input.osDetection && r.value.aggressive == input.aggressive
      && r.value.stealth == input.stealth && r.value.scripts == input.scripts
      && r.value.scriptArgs == input.scriptArgs && r.value.fragment == input.fragment
      && r.value.decoy == input.decoy && r.value.sourcePort == input.sourcePort
      && r.value.maxRate == input.maxRate && r.value.minRate == input.minRate
    ensures r.Failure? ==> r.error != [] && r.error == OptionErrors(input)
  {
    var errors := OptionErrors(input);
    if errors != [] then Failure(errors)
    else Success(ScanOptions(
      input.ports, ParsedScanType(input.scanType), ParsedTiming(input.timing),
      input.timeout, input.threads, input.serviceDetection, input.versionDetection,
      input.osDetection, input.aggressive, input.stealth, input.scripts,
      input.scriptArgs, input.fragment, input.decoy, input.sourcePort,
      input.maxRate, input.minRate))
  }

  /** A bad scan type does not hide a bad timeout: both are reported, the
      scan type first. */
  lemma AllFailingFieldsListed()
    ensures var input := DefaultScanOptionsInput.(scanType := Some("bogus"), timeout := Some(0));
      ValidateScanOptions(input) == Failure(["scan_type", "timeout"])
  {
    var input := DefaultScanOptionsInput.(scanType := Some("bogus"), timeout := Some(0));
    assert !ScanTypeAccepted(input.scanType);
    assert TimingAccepted(input.timing) by {
      assert ParseTiming("T3") == Some(T3);
    }
    assert !Within(input.timeout, 1, 3600) && Within(input.threads, 1, 100);
    var errors := OptionErrors(input);
    assert errors == ["scan_type"] + [] + ["timeout"] + [];
    assert errors == ["scan_type", "timeout"];
  }

  /** The defaults validate: ports 1-1000, a SYN scan at T3 with a 300 s
      timeout and service and version detection on. */
  lemma DefaultOptionsValid()
    ensures var r := ValidateScanOptions(DefaultScanOptionsInput);
      r.Success? && r.value.ports == Some("1-1000") && r.value.scanType == Some(Syn)
      && r.value.timing == Some(T3) && r.value.timeout == Some(300)
      && r.value.threads.None?
      && r.value.serviceDetection == Some(true) && r.value.versionDetection == Some(true)
  {
    assert ParseScanType("syn") == Some(Syn);
    assert ParseTiming("T3") == Some(T3);
  }

  // ---------------------------------------------------------------------
  // Scan request
  // ---------------------------------------------------------------------

  const EmptyTargetError := "Target cannot be empty"

  /** validate_target: an empty or all-white-space target is refused, any
      other one is kept with its surrounding white space removed. */
  function ValidateTarget(v: string): (r: Result<string, string>)
    ensures r.Failure? <==> forall k | 0 <= k < |v| :: IsSpace(v[k])
    ensures r.Failure? ==> r.error == EmptyTargetError
    ensures r.Success? ==> r.value != [] && NoSpaceAtEnds(r.value) && |r.value| <= |v|
  {
    if v == [] || Strip(v) == [] then Failure(EmptyTargetError) else Success(Strip(v))
  }

  /** A validated target passes validation again unchanged. */
  lemma ValidateTargetIdempotent(v: string)
    requires ValidateTarget(v).Success?
    ensures ValidateTarget(ValidateTarget(v).value) == ValidateTarget(v)
  {
    StripIdempotent(v);
  }

  /** Every character of a validated target comes from the input. */
  lemma ValidateTargetChars(v: string)
    requires ValidateTarget(v).Success?
    ensures forall k | 0 <= k < |ValidateTarget(v).value| :: ValidateTarget(v).value[k] in v
  {
    StripChars(v);
  }

  datatype ScanRequestInput = ScanRequestInput(
    target: string, aiScan: Option<bool>, vulnScan: Option<bool>, options: Option<ScanOptionsInput>)

  datatype ScanRequest = ScanRequest(
    target: string, aiScan: Option<bool>, vulnScan: Option<bool>, options: Option<ScanOptions>)

  /** The failing fields of a scan request: the target, then the nested
      options' fields under "options.". */
  function RequestErrors(input: ScanRequestInput): (errors: seq<string>)
    ensures "target" in errors <==> ValidateTarget(input.target).Failure?
    ensures ValidateTarget(input.target).Failure? ==> errors[0] == "target"
    ensures forall f :: "options." + f in errors <==>
      input.options.Some? && f in OptionErrors(input.options.value)
    ensures errors == [] <==>
      (ValidateTarget(input.target).Success? &&
       (input.options.Some? ==> OptionErrors(input.options.value) == []))
  {
    var located := if input.options.Some? then Located("options.", OptionErrors(input.options.value)) else [];
    assert forall i | 0 <= i < |located| :: |located[i]| >= 8;
    (if ValidateTarget(input.target).Failure? then ["target"] else []) + located
  }

  /** ScanRequest(**fields): the target is stripped and the options are
      validated; when either fails, every failing field is reported. */
  function ValidateScanRequest(input: ScanRequestInput): (r: Result<ScanRequest, seq<string>>)
    ensures r.Success? <==>
      ValidateTarget(input.target).Success?
      && (input.options.Some? ==> ValidateScanOptions(input.options.value).Success?)
    ensures r.Success? ==>
      r.value.target == ValidateTarget(input.target).value
      && r.value.aiScan == input.aiScan && r.value.vulnScan == input.vulnScan
      && (input.options.None? <==> r.value.options.None?)
      && (input.options.Some? ==> r.value.options == Some(ValidateScanOptions(input.options.value).value))
    ensures r.Failure? ==> r.error != [] && r.error == RequestErrors(input)
  {
    var errors := RequestErrors(input);
    if errors != [] then Failure(errors)
    else
      var options := if input.options.Some? then Some(ValidateScanOptions(input.options.value).value) else None;
      Success(ScanRequest(ValidateTarget(input.target).value, input.aiScan, input.vulnScan, options))
  }

  /** A blank target and bad options are reported together. */
  lemma BlankTargetAndBadOptions()
    ensures var options := DefaultScanOptionsInput.(scanType := Some("bogus"), timeout := Some(0));
      ValidateScanRequest(ScanRequestInput("  ", None, None, Some(options))) ==
        Failure(["target", "options.scan_type", "options.timeout"])
  {
    var options := DefaultScanOptionsInput.(scanType := Some("bogus"), timeout := Some(0));
    var input := ScanRequestInput("  ", None, None, Some(options));
    assert ValidateTarget("  ").Failure? by {
      assert IsSpace("  "[0]) && IsSpace("  "[1]);
    }
    AllFailingFieldsListed();
    assert OptionErrors(options) == ["scan_type", "timeout"];
    var located := Located("options.", ["scan_type", "timeout"]);
    assert located[0] == "options." + "scan_type" == "options.scan_type";
    assert located[1] == "options." + "timeout" == "options.timeout";
    assert located == ["options.scan_type", "options.timeout"];
    assert RequestErrors(input) == ["target"] + located;
    var r := ValidateScanRequest(input);
    assert r.Failure? && r.error == RequestErrors(input);
    assert r.error == ["target", "options.scan_type", "options.timeout"];
  }

  // ---------------------------------------------------------------------
  // Configuration update
  // ---------------------------------------------------------------------

  datatype ScanningSettings = ScanningSettings(
    defaultTimeout: Option<int>, maxThreads: Option<int>, defaultPorts: Option<string>)

  /** The confidence threshold is a float; its bounds are not modelled. */
  datatype AISettings = AISettings(
    enableSmartScanning: Option<bool>, enableVulnerabilityDetection: Option<bool>,
    confidenceThreshold: Option<real>)

  datatype OutputSettings = OutputSettings(
    defaultFormat: Option<OutputFormat>, resultsDirectory: Option<string>)

  datatype ConfigUpdate = ConfigUpdate(
    scanning: Option<ScanningSettings>, ai: Option<AISettings>, output: Option<OutputSettings>)

  /** The scanning settings carry the same bounds as the scan options; both
      are checked and the failing ones are listed in declaration order. */
  function ValidateScanningSettings(s: ScanningSettings): (r: Result<ScanningSettings, seq<string>>)
    ensures r.Success? <==> Within(s.defaultTimeout, 1, 3600) && Within(s.maxThreads, 1, 100)
    ensures r.Success? ==> r.value == s
    ensures r.Failure? ==> ("default_timeout" in r.error <==> !Within(s.defaultTimeout, 1, 3600))
    ensures r.Failure? ==> ("max_threads" in r.error <==> !Within(s.maxThreads, 1, 100))
    ensures r.Failure? ==> r.error != [] && r.error[0] == (if Within(s.defaultTimeout, 1, 3600)
                                                            then "max_threads" else "default_timeout")
    ensures r.Failure? ==> |r.error| <= 2
  {
    var errors := (if !Within(s.defaultTimeout, 1, 3600) then ["default_timeout"] else []) +
                  (if !Within(s.maxThreads, 1, 100) then ["max_threads"] else []);
    if errors != [] then Failure(errors) else Success(s)
  }

  /** Once validated, a timeout or thread count that is present is
      positive, so "present" and "truthy" coincide for it. */
  lemma ValidatedSettingsTruthy(s: ScanningSettings)
    requires ValidateScanningSettings(s).Success?
    ensures s.defaultTimeout.Some? ==> s.defaultTimeout.value != 0
    ensures s.maxThreads.Some? ==> s.maxThreads.value != 0
  {
  }
}
