/** The data shaping of nmap_ai/cli/commands/scan.py: the option dict
    built from the command-line values, the service label of the text
    display, the skipping of the 'target' entry of the scan map, and the
    output-format dispatch of save_results with its CSV rows. */
module ScanCommand {
  import opened Wrappers
  import opened Text
  import opened Seqs

  // ---------------------------------------------------------------------
  // build_scan_options

  /** The command-line values build_scan_options reads. */
  datatype Key =
    | Ports | Timing | ScanType | Timeout | Threads
    | ServiceDetection | OsDetection | Aggressive
    | Stealth | Fragment | Decoy | SourcePort
    | MaxRate | MinRate | Script | ScriptArgs

  /** A click value: text, a number, a flag or the tuple of a multiple
      option. */
  datatype CliValue = Text(s: string) | Number(n: int) | Switch(b: bool) | Many(items: seq<string>)

  /** Python truthiness of a value; a missing value is falsy. */
  predicate Truthy(v: Option<CliValue>)
  {
    match v
    case None => false
    case Some(Text(s)) => s != ""
    case Some(Number(n)) => n != 0
    case Some(Switch(b)) => b
    case Some(Many(items)) => items != []
  }

  function Get(kwargs: map<Key, CliValue>, k: Key): Option<CliValue>
  {
    if k in kwargs then Some(kwargs[k]) else None
  }

  /** The name a stored option has in the options dict. */
  function OptionName(k: Key): string
  {
    match k
    case Ports => "ports"
    case Timing => "timing_template"
    case ScanType => "scan_type"
    case Timeout => "timeout"
    case Threads => "threads"
    case ServiceDetection => "service_detection"
    case OsDetection => "os_detection"
    case Aggressive => "aggressive"
    case Stealth => "stealth"
    case Fragment => "fragment"
    case Decoy => "decoy"
    case SourcePort => "source_port"
    case MaxRate => "max_rate"
    case MinRate => "min_rate"
    case Script => "scripts"
    case ScriptArgs => "script_args"
  }

  /** The detection and stealth flags, which are stored as True. */
  predicate IsFlag(k: Key)
  {
    k == ServiceDetection || k == OsDetection || k == Aggressive || k == Stealth || k == Fragment
  }

  /** The value an option is stored with: True for a flag, the list of the
      tuple's items for the scripts, the value itself otherwise. */
  function StoredValue(k: Key, v: CliValue): CliValue
  {
    if IsFlag(k) then Switch(true)
    else if k == Script && v.Many? then Many(v.items)
    else v
  }

  /** The position of each assignment in build_scan_options. */
  function Rank(k: Key): (n: nat)
    ensures n < 16
  {
    match k
    case Ports => 0
    case Timing => 1
    case ScanType => 2
    case Timeout => 3
    case Threads => 4
    case ServiceDetection => 5
    case OsDetection => 6
    case Aggressive => 7
    case Stealth => 8
    case Fragment => 9
    case Decoy => 10
    case SourcePort => 11
    case MaxRate => 12
    case MinRate => 13
    case Script => 14
    case ScriptArgs => 15
  }

  /** The options dict once the first n assignments have run. */
  predicate Built(options: map<Key, CliValue>, kwargs: map<Key, CliValue>, n: nat)
  {
    (forall k :: k in options <==> Rank(k) < n && Truthy(Get(kwargs, k))) &&
    (forall k | k in options :: k in kwargs && options[k] == StoredValue(k, kwargs[k]))
  }

  /** One `if kwargs.get(key): options[name] = value` step. */
  method Put(options: map<Key, CliValue>, kwargs: map<Key, CliValue>, k: Key, ghost n: nat)
    returns (r: map<Key, CliValue>)
    requires Built(options, kwargs, n) && Rank(k) == n
    ensures Built(r, kwargs, n + 1)
  {
    r := options;
    if Truthy(Get(kwargs, k)) {
      r := r[k := StoredValue(k, kwargs[k])];
    }
    forall k' ensures k' in r <==> Rank(k') < n + 1 && Truthy(Get(kwargs, k')) {
      RankInjective(k, k');
    }
  }

  /** Each assignment of build_scan_options has its own position. */
  lemma RankInjective(a: Key, b: Key)
    ensures Rank(a) == Rank(b) ==> a == b
  {
  }

  /** Basic scan options. */
  method BasicOptions(options: map<Key, CliValue>, kwargs: map<Key, CliValue>) returns (r: map<Key, CliValue>)
    requires Built(options, kwargs, 0)
    ensures Built(r, kwargs, 5)
  {
    r := options;
    r := Put(r, kwargs, Ports, 0);
    r := Put(r, kwargs, Timing, 1);
    r := Put(r, kwargs, ScanType, 2);
    r := Put(r, kwargs, Timeout, 3);
    r := Put(r, kwargs, Threads, 4);
  }

  /** Detection options. */
  method DetectionOptions(options: map<Key, CliValue>, kwargs: map<Key, CliValue>) returns (r: map<Key, CliValue>)
    requires Built(options, kwargs, 5)
    ensures Built(r, kwargs, 8)
  {
    r := options;
    r := Put(r, kwargs, ServiceDetection, 5);
    r := Put(r, kwargs, OsDetection, 6);
    r := Put(r, kwargs, Aggressive, 7);
  }

  /** Stealth options. */
  method StealthOptions(options: map<Key, CliValue>, kwargs: map<Key, CliValue>) returns (r: map<Key, CliValue>)
    requires Built(options, kwargs, 8)
    ensures Built(r, kwargs, 12)
  {
    r := options;
    r := Put(r, kwargs, Stealth, 8);
    r := Put(r, kwargs, Fragment, 9);
    r := Put(r, kwargs, Decoy, 10);
    r := Put(r, kwargs, SourcePort, 11);
  }

  /** Rate limiting. */
  method RateOptions(options: map<Key, CliValue>, kwargs: map<Key, CliValue>) returns (r: map<Key, CliValue>)
    requires Built(options, kwargs, 12)
    ensures Built(r, kwargs, 14)
  {
    r := options;
    r := Put(r, kwargs, MaxRate, 12);
    r := Put(r, kwargs, MinRate, 13);
  }

  /** Scripts. */
  method ScriptOptions(options: map<Key, CliValue>, kwargs: map<Key, CliValue>) returns (r: map<Key, CliValue>)
    requires Built(options, kwargs, 14)
    ensures Built(r, kwargs, 16)
  {
    r := options;
    r := Put(r, kwargs, Script, 14);
    r := Put(r, kwargs, ScriptArgs, 15);
  }

  /** build_scan_options: one guarded assignment per key, in the source's
      order. A key stored under k appears in the options dict under
      OptionName(k). */
  method BuildScanOptions(kwargs: map<Key, CliValue>) returns (options: map<Key, CliValue>)
    ensures forall k :: k in options <==> Truthy(Get(kwargs, k))
    ensures forall k | k in options :: k in kwargs && options[k] == StoredValue(k, kwargs[k])
  {
    options := BasicOptions(map[], kwargs);
    options := DetectionOptions(options, kwargs);
    options := StealthOptions(options, kwargs);
    options := RateOptions(options, kwargs);
    options := ScriptOptions(options, kwargs);
  }

  /** A zero timeout, thread count, source port or rate is dropped, and a
      flag is only ever stored as True. */
  lemma ZeroDroppedFlagsTrue(kwargs: map<Key, CliValue>, options: map<Key, CliValue>)
    requires forall k :: k in options <==> Truthy(Get(kwargs, k))
    requires forall k | k in options :: k in kwargs && options[k] == StoredValue(k, kwargs[k])
    ensures forall k | k in kwargs && kwargs[k] == Number(0) :: k !in options
    ensures forall k | k in options && IsFlag(k) :: options[k] == Switch(true)
    ensures Script in options && kwargs[Script].Many? ==> options[Script] == Many(kwargs[Script].items)
  {
  }

  // ---------------------------------------------------------------------
  // service label of display_results

  /** The label: the name (default 'unknown'), then ' (product', ' version'
      when the version is non-empty, and ')' — all only when the product is
      non-empty. */
  method ServiceLabel(name: Option<string>, product: string, version: string) returns (shown: string)
    ensures product == "" ==> shown == name.UnwrapOr("unknown")
    ensures product != "" && version == "" ==> shown == name.UnwrapOr("unknown") + " (" + product + ")"
    ensures product != "" && version != "" ==> shown == name.UnwrapOr("unknown") + " (" + product + " " + version + ")"
  {
    shown := name.UnwrapOr("unknown");
    if product != "" {
      shown := shown + " (" + product;
      if version != "" {
        shown := shown + " " + version;
      }
      shown := shown + ")";
    }
  }

  /** The partner of ServiceLabel: the label starts with the name and
      grows beyond it exactly when there is a product. */
  lemma ServiceLabelFacts(name: string, product: string, version: string, shown: string)
    requires product == "" ==> shown == name
    requires product != "" && version == "" ==> shown == name + " (" + product + ")"
    requires product != "" && version != "" ==> shown == name + " (" + product + " " + version + ")"
    ensures name <= shown
    ensures shown == name <==> product == ""
    ensures product != "" ==> shown[|shown| - 1] == ')' && shown[|name|..|name| + 2] == " ("
  {
  }

  // ---------------------------------------------------------------------
  // the 'target' entry and the save formats

  /** One port entry of the tcp map. */
  datatype PortEntry = PortEntry(state: Option<string>, name: Option<string>, product: Option<string>,
                                 version: Option<string>)

  /** One host entry of the scan map, its tcp ports in dict order. */
  datatype HostEntry = HostEntry(tcp: Option<seq<(nat, PortEntry)>>)

  /** The hosts every renderer visits: the scan map in order, without the
      'target' entry. */
  method RenderedHosts(scan: seq<(string, HostEntry)>) returns (hosts: seq<(string, HostEntry)>)
    ensures hosts == WithoutTarget(scan)
  {
    hosts := [];
    for i := 0 to |scan|
      invariant hosts == WithoutTarget(scan[..i])
    {
      assert scan[..i + 1][..i] == scan[..i];
      if scan[i].0 == "target" {
        continue;
      }
      hosts := hosts + [scan[i]];
    }
    assert scan[..|scan|] == scan;
  }

  function WithoutTarget(scan: seq<(string, HostEntry)>): seq<(string, HostEntry)>
    decreases |scan|
  {
    if scan == [] then []
    else
      var last := scan[|scan| - 1];
      WithoutTarget(scan[..|scan| - 1]) + (if last.0 == "target" then [] else [last])
  }

  /** Every host except 'target' is kept, in order, and 'target' never is. */
  lemma WithoutTargetFacts(scan: seq<(string, HostEntry)>)
    ensures forall k | 0 <= k < |WithoutTarget(scan)| :: WithoutTarget(scan)[k].0 != "target"
    ensures forall p :: p in WithoutTarget(scan) <==> p in scan && p.0 != "target"
    ensures |WithoutTarget(scan)| <= |scan|
    ensures (forall i | 0 <= i < |scan| :: scan[i].0 != "target") ==> WithoutTarget(scan) == scan
  {
    var w := WithoutTarget(scan);
    WithoutTargetMembers(scan);
    forall k | 0 <= k < |w| ensures w[k].0 != "target" {
      assert w[k] in w;
    }
    WithoutTargetLength(scan);
    if forall i | 0 <= i < |scan| :: scan[i].0 != "target" {
      WithoutTargetKeepsAll(scan);
    }
  }

  lemma {:induction false} WithoutTargetMembers(scan: seq<(string, HostEntry)>)
    ensures forall p :: p in WithoutTarget(scan) <==> p in scan && p.0 != "target"
    decreases |scan|
  {
    if scan != [] {
      var init, last := scan[..|scan| - 1], scan[|scan| - 1];
      WithoutTargetMembers(init);
      assert scan == init + [last];
      assert WithoutTarget(scan) == WithoutTarget(init) + (if last.0 == "target" then [] else [last]);
    }
  }

  lemma {:induction false} WithoutTargetLength(scan: seq<(string, HostEntry)>)
    ensures |WithoutTarget(scan)| <= |scan|
    decreases |scan|
  {
    if scan != [] {
      WithoutTargetLength(scan[..|scan| - 1]);
    }
  }

  lemma {:induction false} WithoutTargetKeepsAll(scan: seq<(string, HostEntry)>)
    requires forall i | 0 <= i < |scan| :: scan[i].0 != "target"
    ensures WithoutTarget(scan) == scan
    decreases |scan|
  {
    if scan != [] {
      var init, last := scan[..|scan| - 1], scan[|scan| - 1];
      assert forall i | 0 <= i < |init| :: init[i] == scan[i];
      WithoutTargetKeepsAll(init);
      assert scan == init + [last];
    }
  }

  datatype SaveFormat = Json | Csv | Xml | Html

  /** The format branch of save_results, compared case-insensitively; any
      other format raises ValueError('Unsupported format: ...'). */
  function SaveFormatOf(formatType: string): (r: Result<SaveFormat, string>)
    ensures r.Failure? <==> Lower(formatType) !in ["json", "csv", "xml", "html"]
    ensures r.Failure? ==> r.error == "Unsupported format: " + formatType
  {
    var f := Lower(formatType);
    if f == "json" then Success(Json)
    else if f == "csv" then Success(Csv)
    else if f == "xml" then Success(Xml)
    else if f == "html" then Success(Html)
    else Failure("Unsupported format: " + formatType)
  }

  /** Upper-case spellings are accepted like lower-case ones. */
  lemma SaveFormatIgnoresCase(formatType: string)
    requires Lower(formatType) == "csv"
    ensures SaveFormatOf(formatType) == Success(Csv)
  {
  }

  const SaveCsvHeader := ["Host", "Port", "State", "Service", "Version"]

  /** One written CSV row: the host, the port, the state and name ('' when
      missing), and product and version joined by a space and stripped. */
  function SaveRow(host: string, port: nat, e: PortEntry): seq<string>
  {
    [host, NatToString(port), e.state.UnwrapOr(""), e.name.UnwrapOr(""),
     Strip(e.product.UnwrapOr("") + " " + e.version.UnwrapOr(""))]
  }

  function TcpOf(h: HostEntry): seq<(nat, PortEntry)>
  {
    h.tcp.UnwrapOr([])
  }

  function HostSaveRows(host: string, tcp: seq<(nat, PortEntry)>): (rows: seq<seq<string>>)
    ensures |rows| == |tcp|
    ensures forall j | 0 <= j < |tcp| :: rows[j] == SaveRow(host, tcp[j].0, tcp[j].1)
  {
    seq(|tcp|, j requires 0 <= j < |tcp| => SaveRow(host, tcp[j].0, tcp[j].1))
  }

  function SaveRows(scan: seq<(string, HostEntry)>): seq<seq<string>>
    decreases |scan|
  {
    if scan == [] then []
    else
      SaveRows(scan[..|scan| - 1]) + EntryRows(scan[|scan| - 1])
  }

  /** The rows of one entry of the scan dictionary: none for 'target'. */
  function EntryRows(entry: (string, HostEntry)): seq<seq<string>>
  {
    if entry.0 == "target" then [] else HostSaveRows(entry.0, TcpOf(entry.1))
  }

  /** The inner loop of the csv branch: one row per tcp port of a host. */
  method AppendHostRows(rows0: seq<seq<string>>, host: string, tcp: seq<(nat, PortEntry)>)
    returns (rows: seq<seq<string>>)
    ensures rows == rows0 + HostSaveRows(host, tcp)
  {
    rows := rows0;
    for j := 0 to |tcp|
      invariant rows == rows0 + HostSaveRows(host, tcp[..j])
    {
      rows := rows + [SaveRow(host, tcp[j].0, tcp[j].1)];
    }
    assert tcp[..|tcp|] == tcp;
  }

  lemma SaveRowsStep(scan: seq<(string, HostEntry)>, i: nat)
    requires i < |scan|
    ensures [SaveCsvHeader] + SaveRows(scan[..i + 1]) == ([SaveCsvHeader] + SaveRows(scan[..i])) + EntryRows(scan[i])
  {
    SaveRowsSnoc(scan, i);
    ConsAppendAssoc(SaveCsvHeader, SaveRows(scan[..i]), EntryRows(scan[i]));
  }

  lemma SaveRowsSnoc(scan: seq<(string, HostEntry)>, i: nat)
    requires i < |scan|
    ensures SaveRows(scan[..i + 1]) == SaveRows(scan[..i]) + EntryRows(scan[i])
  {
    assert scan[..i + 1][..i] == scan[..i];
  }

  /** One pass of the csv branch's outer loop: a host's rows, none for
      the 'target' entry. */
  method SaveHostStep(rows0: seq<seq<string>>, entry: (string, HostEntry)) returns (rows: seq<seq<string>>)
    ensures rows == rows0 + EntryRows(entry)
  {
    if entry.0 != "target" {
      rows := AppendHostRows(rows0, entry.0, TcpOf(entry.1));
    } else {
      rows := rows0;
      assert rows0 + [] == rows0;
    }
  }

  /** The csv branch of save_results: the header, then one row per tcp port
      of every host except 'target'. */
  method SaveCsvRows(scan: seq<(string, HostEntry)>) returns (rows: seq<seq<string>>)
    ensures rows == [SaveCsvHeader] + SaveRows(scan)
  {
    assert SaveRows(scan[..0]) == [];
    rows := [SaveCsvHeader];
    for i := 0 to |scan|
      invariant rows == [SaveCsvHeader] + SaveRows(scan[..i])
    {
      SaveRowsStep(scan, i);
      rows := SaveHostStep(rows, scan[i]);
    }
    assert scan[..|scan|] == scan;
  }

  /** Every row has the five header columns, starts with its host and port,
      and its version column has no surrounding whitespace. */
  lemma SaveRowShape(host: string, port: nat, e: PortEntry)
    ensures var row := SaveRow(host, port, e);
      |row| == |SaveCsvHeader| && row[0] == host && row[1] == NatToString(port) && NoSpaceAtEnds(row[4])
  {
  }

  /** The rows follow the rendered hosts: the 'target' entry adds none. */
  lemma {:induction false} SaveRowsOfRendered(scan: seq<(string, HostEntry)>)
    ensures SaveRows(scan) == SaveRows(WithoutTarget(scan))
    decreases |scan|
  {
    if scan != [] {
      var init := scan[..|scan| - 1];
      var last := scan[|scan| - 1];
      SaveRowsOfRendered(init);
      var w := WithoutTarget(init);
      if last.0 != "target" {
        assert WithoutTarget(scan) == w + [last];
        assert (w + [last])[..|w + [last]| - 1] == w;
        assert SaveRows(w + [last]) == SaveRows(w) + EntryRows(last);
      } else {
        assert WithoutTarget(scan) == w + [] == w;
        assert SaveRows(scan) == SaveRows(init) + [] == SaveRows(init);
      }
    }
  }
}
