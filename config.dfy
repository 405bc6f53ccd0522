/** The configuration objects of nmap_ai/config.py: five dataclass
    sections with their defaults, the top-level log level and debug flag,
    and the ConfigManager updates that overwrite only fields a section
    already has. Reading and writing the YAML or JSON file are left out;
    the loaded data is an input. */
module Configuration {
  import opened Wrappers

  /** A setting value. A float is kept as its decimal text; lists and
      nested maps are opaque. */
  datatype Value = Text(s: string) | Number(n: int) | Flag(b: bool) | Decimal(text: string) | Compound

  /** An entry of a loaded dict: a section's items in order, or a plain
      value. */
  datatype Entry = Items(items: seq<(string, Value)>) | Scalar(v: Value)

  type Fields = map<string, Value>

  // ---------------------------------------------------------------------
  // defaults

  const AiDefaults: Fields := map[
    "script_generation_model" := Text("models/script_gen_v3.pkl"),
    "vulnerability_detection_model" := Text("models/vuln_detect_v2.pkl"),
    "port_prediction_model" := Text("models/port_pred_v1.pkl"),
    "confidence_threshold" := Decimal("0.7"),
    "max_script_length" := Number(5000)]

  const ScanDefaults: Fields := map[
    "default_timeout" := Number(300),
    "max_parallel_hosts" := Number(50),
    "retries" := Number(3),
    "default_ports" := Text("1-1000"),
    "stealth_mode" := Flag(false),
    "timing_template" := Number(3)]

  const OutputDefaults: Fields := map[
    "default_format" := Text("json"),
    "include_raw_nmap" := Flag(true),
    "compress_results" := Flag(true),
    "output_directory" := Text("results"),
    "report_templates_dir" := Text("data/templates")]

  const WebDefaults: Fields := map[
    "host" := Text("localhost"),
    "port" := Number(8080),
    "debug" := Flag(false),
    "secret_key" := Text("change-me-in-production"),
    "max_upload_size" := Number(10 * 1024 * 1024)]

  const DatabaseDefaults: Fields := map[
    "url" := Text("sqlite:///nmap_ai.db"),
    "echo" := Flag(false),
    "pool_size" := Number(5),
    "max_overflow" := Number(10)]

  const SectionNames := ["ai", "scanning", "output", "web", "database"]

  // ---------------------------------------------------------------------
  // one section

  /** The fields after `if hasattr(section, key): setattr(section, key,
      value)` for each item in order. */
  function ApplyExisting(fields: Fields, items: seq<(string, Value)>): (r: Fields)
    ensures r.Keys == fields.Keys
    decreases |items|
  {
    if items == [] then fields
    else
      var f := ApplyExisting(fields, items[..|items| - 1]);
      var (k, v) := items[|items| - 1];
      if k in f then f[k := v] else f
  }

  /** The value of the last item with key k. */
  function LastValue(items: seq<(string, Value)>, k: string): Option<Value>
    decreases |items|
  {
    if items == [] then None
    else if items[|items| - 1].0 == k then Some(items[|items| - 1].1)
    else LastValue(items[..|items| - 1], k)
  }

  /** Each existing field ends with the last value given for it, or keeps
      its value; no field is added. */
  lemma {:induction false} ApplyExistingValues(fields: Fields, items: seq<(string, Value)>)
    ensures forall k | k in fields :: ApplyExisting(fields, items)[k] == LastValue(items, k).UnwrapOr(fields[k])
    decreases |items|
  {
    if items != [] {
      ApplyExistingValues(fields, items[..|items| - 1]);
    }
  }

  /** Items naming no existing field change nothing. */
  lemma {:induction false} UnknownKeysIgnored(fields: Fields, items: seq<(string, Value)>)
    requires forall i | 0 <= i < |items| :: items[i].0 !in fields
    ensures ApplyExisting(fields, items) == fields
    decreases |items|
  {
    if items != [] {
      UnknownKeysIgnored(fields, items[..|items| - 1]);
    }
  }

  class Section {
    var fields: Fields

    constructor (defaults: Fields)
      ensures fields == defaults
    {
      fields := defaults;
    }

    /** `if hasattr(section, key): setattr(section, key, value)`. */
    method SetIfPresent(key: string, value: Value)
      modifies this
      ensures fields == if key in old(fields) then old(fields)[key := value] else old(fields)
    {
      if key in fields {
        fields := fields[key := value];
      }
    }

    /** The loop over one section's items. */
    method Update(items: seq<(string, Value)>)
      modifies this
      ensures fields == ApplyExisting(old(fields), items)
    {
      ghost var start := fields;
      for i := 0 to |items|
        invariant fields == ApplyExisting(start, items[..i])
      {
        assert items[..i + 1][..i] == items[..i];
        SetIfPresent(items[i].0, items[i].1);
      }
      assert items[..|items|] == items;
    }
  }

  // ---------------------------------------------------------------------
  // the configuration object

  class NmapAIConfig {
    const ai: Section
    const scanning: Section
    const output: Section
    const web: Section
    const database: Section
    var logLevel: Entry
    var debug: Entry

    ghost predicate Valid()
      reads this
    {
      ai != scanning && ai != output && ai != web && ai != database &&
      scanning != output && scanning != web && scanning != database &&
      output != web && output != database && web != database
    }

    /** A configuration with its own default sections, as
        field(default_factory=...) would give. */
    constructor ()
      ensures Valid()
      ensures fresh(ai) && fresh(scanning) && fresh(output) && fresh(web) && fresh(database)
      ensures ai.fields == AiDefaults && scanning.fields == ScanDefaults && output.fields == OutputDefaults
      ensures web.fields == WebDefaults && database.fields == DatabaseDefaults
      ensures logLevel == Scalar(Text("INFO")) && debug == Scalar(Flag(false))
    {
      ai := new Section(AiDefaults);
      scanning := new Section(ScanDefaults);
      output := new Section(OutputDefaults);
      web := new Section(WebDefaults);
      database := new Section(DatabaseDefaults);
      logLevel := Scalar(Text("INFO"));
      debug := Scalar(Flag(false));
    }

    /** The configuration as written: every instance takes the section
        objects created once with the class. */
    constructor Shared(d: SharedDefaults)
      ensures ai == d.ai && scanning == d.scanning && output == d.output && web == d.web && database == d.database
      ensures logLevel == Scalar(Text("INFO")) && debug == Scalar(Flag(false))
    {
      ai := d.ai;
      scanning := d.scanning;
      output := d.output;
      web := d.web;
      database := d.database;
      logLevel := Scalar(Text("INFO"));
      debug := Scalar(Flag(false));
    }

    /** The section a section name denotes (getattr on the configuration).
        hasattr also holds for log_level and debug, which are not sections;
        update_config treats those apart (KeywordRaises). */
    function SectionOf(name: string): (s: Option<Section>)
      reads this
      ensures s.Some? <==> name in SectionNames
    {
      if name == "ai" then Some(ai)
      else if name == "scanning" then Some(scanning)
      else if name == "output" then Some(output)
      else if name == "web" then Some(web)
      else if name == "database" then Some(database)
      else None
    }
  }

  /** The section instances the dataclass defaults create once. */
  class SharedDefaults {
    const ai: Section
    const scanning: Section
    const output: Section
    const web: Section
    const database: Section

    constructor ()
      ensures ai.fields == AiDefaults && scanning.fields == ScanDefaults && output.fields == OutputDefaults
      ensures web.fields == WebDefaults && database.fields == DatabaseDefaults
      ensures fresh(ai) && fresh(scanning) && fresh(output) && fresh(web) && fresh(database)
    {
      ai := new Section(AiDefaults);
      scanning := new Section(ScanDefaults);
      output := new Section(OutputDefaults);
      web := new Section(WebDefaults);
      database := new Section(DatabaseDefaults);
    }
  }

  /** With the shared default sections, a change made through one
      configuration shows in the next fresh one, so reset_to_defaults does
      not restore the default timeout. */
  method SharedResetKeepsChanges() returns (before: Value, after: Value)
    ensures before == Number(300) && after == Number(10)
  {
    var d := new SharedDefaults();
    var config := new NmapAIConfig.Shared(d);
    before := config.scanning.fields["default_timeout"];
    config.scanning.SetIfPresent("default_timeout", Number(10));
    config := new NmapAIConfig.Shared(d);
    after := config.scanning.fields["default_timeout"];
  }

  // ---------------------------------------------------------------------
  // the manager

  /** The fields of a section after a loaded dict: its items applied when
      the dict has the section. */
  function Loaded(fields: Fields, data: map<string, Entry>, name: string): Fields
  {
    if name in data && data[name].Items? then ApplyExisting(fields, data[name].items) else fields
  }

  /** A section entry that is not a dict (a YAML section with no body
      loads as None): `.items()` raises on it. */
  predicate BadSection(data: map<string, Entry>, name: string)
  {
    name in data && data[name].Scalar?
  }

  /** Whether one of the first k sections raises, which stops the update
      before section k. */
  predicate RaisesBefore(data: map<string, Entry>, k: nat)
    requires k <= |SectionNames|
  {
    k > 0 && (RaisesBefore(data, k - 1) || BadSection(data, SectionNames[k - 1]))
  }

  /** A dict whose every known section is a dict loads without raising. */
  predicate WellFormed(data: map<string, Entry>)
  {
    forall name | name in SectionNames :: !BadSection(data, name)
  }

  /** Section k of SectionNames after _update_config_from_dict: overlaid
      with its loaded items unless an earlier section raised. */
  function AfterLoad(fields: Fields, data: map<string, Entry>, k: nat): Fields
    requires k < |SectionNames|
  {
    if RaisesBefore(data, k) then fields else Loaded(fields, data, SectionNames[k])
  }

  /** log_level or debug after _update_config_from_dict: copied when present,
      unless a section raised before the copy. */
  function AfterLoadTop(v: Entry, data: map<string, Entry>, key: string): Entry
  {
    if WellFormed(data) && key in data then data[key] else v
  }

  /** The update stops at the first section that raises: every section
      before it is loaded, it and every later one are left alone. */
  lemma StopsAtBadSection(fields: Fields, data: map<string, Entry>, k: nat, j: nat)
    requires k < j < |SectionNames| && BadSection(data, SectionNames[k])
    ensures AfterLoad(fields, data, k) == fields
    ensures AfterLoad(fields, data, j) == fields
  {
    RaisesFrom(data, k + 1, j);
  }

  lemma {:induction false} RaisesFrom(data: map<string, Entry>, k: nat, j: nat)
    requires 0 < k <= j <= |SectionNames| && BadSection(data, SectionNames[k - 1])
    ensures RaisesBefore(data, j)
    decreases j
  {
    if j > k {
      RaisesFrom(data, k, j - 1);
    }
  }

  /** An empty dict changes no section. */
  lemma EmptyLoadsNothing(f: Fields, d: map<string, Entry>, k: nat)
    requires d == map[] && k < |SectionNames|
    ensures AfterLoad(f, d, k) == f
  {
  }

  /** A well-formed dict loads every section. */
  lemma WellFormedLoadsAll(fields: Fields, data: map<string, Entry>, k: nat)
    requires WellFormed(data) && k < |SectionNames|
    ensures AfterLoad(fields, data, k) == Loaded(fields, data, SectionNames[k])
  {
    NoRaise(data, k);
  }

  lemma {:induction false} NoRaise(data: map<string, Entry>, k: nat)
    requires WellFormed(data) && k <= |SectionNames|
    ensures !RaisesBefore(data, k)
    decreases k
  {
    if k > 0 {
      NoRaise(data, k - 1);
      assert SectionNames[k - 1] in SectionNames;
    }
  }

  /** The fields of a section after update_config's keyword arguments in
      order: each keyword naming the section with a dict applies its items. */
  function Updated(fields: Fields, kwargs: seq<(string, Entry)>, name: string): Fields
    decreases |kwargs|
  {
    if kwargs == [] then fields
    else
      var f := Updated(fields, kwargs[..|kwargs| - 1], name);
      var kw := kwargs[|kwargs| - 1];
      if kw.0 == name && kw.1.Items? then ApplyExisting(f, kw.1.items) else f
  }

  /** Whether update_config raises on one keyword argument. hasattr finds a
      section and also the top-level log_level and debug. `.items()` raises
      on a value that is not a dict. For log_level and debug, a key naming an
      attribute of the current top-level value makes setattr raise, since a
      built-in value takes no attributes. hasAttr stands for Python's hasattr
      on such a value. */
  predicate KeywordRaises(kw: (string, Entry), logLevel: Entry, debug: Entry, hasAttr: (Entry, string) -> bool)
  {
    if kw.0 in SectionNames then kw.1.Scalar?
    else if kw.0 == "log_level" then TopLevelRaises(logLevel, kw.1, hasAttr)
    else if kw.0 == "debug" then TopLevelRaises(debug, kw.1, hasAttr)
    else false
  }

  /** `for key, value in updates.items(): if hasattr(current, key):
      setattr(current, key, value)` on a top-level value raises. */
  predicate TopLevelRaises(current: Entry, updates: Entry, hasAttr: (Entry, string) -> bool)
  {
    updates.Scalar? || exists i | 0 <= i < |updates.items| :: hasAttr(current, updates.items[i].0)
  }

  /** How many keyword arguments update_config gets through: the index of
      the first one that raises, or all of them. */
  function RaiseIndex(kwargs: seq<(string, Entry)>, logLevel: Entry, debug: Entry, hasAttr: (Entry, string) -> bool): (k: nat)
    ensures k <= |kwargs|
    ensures forall j | 0 <= j < k :: !KeywordRaises(kwargs[j], logLevel, debug, hasAttr)
    ensures k < |kwargs| ==> KeywordRaises(kwargs[k], logLevel, debug, hasAttr)
    decreases |kwargs|
  {
    if kwargs == [] then 0
    else if KeywordRaises(kwargs[0], logLevel, debug, hasAttr) then 0
    else 1 + RaiseIndex(kwargs[1..], logLevel, debug, hasAttr)
  }

  /** The first raising keyword is where update_config stops. */
  lemma {:induction false} RaiseIndexFirst(kwargs: seq<(string, Entry)>, k: nat, logLevel: Entry, debug: Entry, hasAttr: (Entry, string) -> bool)
    requires k <= |kwargs|
    requires forall j | 0 <= j < k :: !KeywordRaises(kwargs[j], logLevel, debug, hasAttr)
    requires k < |kwargs| ==> KeywordRaises(kwargs[k], logLevel, debug, hasAttr)
    ensures RaiseIndex(kwargs, logLevel, debug, hasAttr) == k
    decreases |kwargs|
  {
    if kwargs != [] && k > 0 {
      RaiseIndexFirst(kwargs[1..], k - 1, logLevel, debug, hasAttr);
    }
  }

  /** Dicts addressed to sections or to other names never raise. */
  lemma {:induction false} SectionDictsNeverRaise(kwargs: seq<(string, Entry)>, logLevel: Entry, debug: Entry, hasAttr: (Entry, string) -> bool)
    requires forall j | 0 <= j < |kwargs| :: kwargs[j].1.Items? && kwargs[j].0 != "log_level" && kwargs[j].0 != "debug"
    ensures RaiseIndex(kwargs, logLevel, debug, hasAttr) == |kwargs|
    decreases |kwargs|
  {
    if kwargs != [] {
      SectionDictsNeverRaise(kwargs[1..], logLevel, debug, hasAttr);
    }
  }

  /** update_config(debug=True) raises, whatever the attributes: True has no
      `.items()`. */
  lemma DebugFlagRaises(logLevel: Entry, debug: Entry, hasAttr: (Entry, string) -> bool, b: bool)
    ensures RaiseIndex([("debug", Scalar(Flag(b)))], logLevel, debug, hasAttr) == 0
  {
  }

  class ConfigManager {
    var config: NmapAIConfig

    ghost predicate Valid()
      reads this, config
    {
      config.Valid()
    }

    /** __init__ with the file's content as input: None when the file is
        missing or does not parse; an empty dict loads nothing. A section
        that raises is caught by load_config, which keeps what was loaded
        before it. */
    constructor (data: Option<map<string, Entry>>)
      ensures Valid() && fresh(config)
      ensures var d := data.UnwrapOr(map[]);
        config.ai.fields == AfterLoad(AiDefaults, d, 0) &&
        config.scanning.fields == AfterLoad(ScanDefaults, d, 1) &&
        config.output.fields == AfterLoad(OutputDefaults, d, 2) &&
        config.web.fields == AfterLoad(WebDefaults, d, 3) &&
        config.database.fields == AfterLoad(DatabaseDefaults, d, 4) &&
        config.logLevel == AfterLoadTop(Scalar(Text("INFO")), d, "log_level") &&
        config.debug == AfterLoadTop(Scalar(Flag(false)), d, "debug")
    {
      config := new NmapAIConfig();
      new;
      LoadConfig(data);
    }

    /** load_config with the file's content as input: a non-empty dict is
        loaded, and an exception from a section is caught. data is None for
        a missing or unreadable file, and for content whose top level is a
        list or a scalar: indexing one by a section name raises before any
        field changes, so such content loads nothing. */
    method LoadConfig(data: Option<map<string, Entry>>)
      requires Valid()
      modifies config, config.ai, config.scanning, config.output, config.web, config.database
      ensures Valid() && config == old(config)
      ensures var d := data.UnwrapOr(map[]);
        config.ai.fields == AfterLoad(old(config.ai.fields), d, 0) &&
        config.scanning.fields == AfterLoad(old(config.scanning.fields), d, 1) &&
        config.output.fields == AfterLoad(old(config.output.fields), d, 2) &&
        config.web.fields == AfterLoad(old(config.web.fields), d, 3) &&
        config.database.fields == AfterLoad(old(config.database.fields), d, 4) &&
        config.logLevel == AfterLoadTop(old(config.logLevel), d, "log_level") &&
        config.debug == AfterLoadTop(old(config.debug), d, "debug")
    {
      if data.Some? && data.value != map[] {
        var _ := UpdateConfigFromDict(data.value);
      } else {
        var d := data.UnwrapOr(map[]);
        EmptyLoadsNothing(config.ai.fields, d, 0);
        EmptyLoadsNothing(config.scanning.fields, d, 1);
        EmptyLoadsNothing(config.output.fields, d, 2);
        EmptyLoadsNothing(config.web.fields, d, 3);
        EmptyLoadsNothing(config.database.fields, d, 4);
      }
    }


    /** _update_config_from_dict: each known section present in the dict
        gets its items applied, in the order ai, scanning, output, web,
        database; a section that is not a dict raises and ends the update
        there; log_level and debug are copied only when present and no
        section raised. */
    method UpdateConfigFromDict(data: map<string, Entry>) returns (raised: bool)
      requires Valid()
      modifies config, config.ai, config.scanning, config.output, config.web, config.database
      ensures Valid() && config == old(config)
      ensures raised <==> !WellFormed(data)
      ensures config.ai.fields == AfterLoad(old(config.ai.fields), data, 0)
      ensures config.scanning.fields == AfterLoad(old(config.scanning.fields), data, 1)
      ensures config.output.fields == AfterLoad(old(config.output.fields), data, 2)
      ensures config.web.fields == AfterLoad(old(config.web.fields), data, 3)
      ensures config.database.fields == AfterLoad(old(config.database.fields), data, 4)
      ensures config.logLevel == AfterLoadTop(old(config.logLevel), data, "log_level")
      ensures config.debug == AfterLoadTop(old(config.debug), data, "debug")
    {
      raised := LoadSection(config.ai, data, "ai");
      if raised {
        return;
      }
      raised := LoadSection(config.scanning, data, "scanning");
      if raised {
        return;
      }
      raised := LoadSection(config.output, data, "output");
      if raised {
        return;
      }
      raised := LoadSection(config.web, data, "web");
      if raised {
        return;
      }
      raised := LoadSection(config.database, data, "database");
      if raised {
        return;
      }
      if "log_level" in data {
        config.logLevel := data["log_level"];
      }
      if "debug" in data {
        config.debug := data["debug"];
      }
    }

    /** One `if name in data: for key, value in data[name].items(): ...`
        block; raised when the entry is not a dict. */
    static method LoadSection(section: Section, data: map<string, Entry>, name: string) returns (raised: bool)
      modifies section
      ensures raised <==> BadSection(data, name)
      ensures section.fields == Loaded(old(section.fields), data, name)
    {
      raised := false;
      if name in data {
        match data[name]
        case Items(items) =>
          section.Update(items);
        case Scalar(_) =>
          raised := true;
      }
    }

    /** get_config. */
    function GetConfig(): (c: NmapAIConfig)
      reads this
      ensures c == config
    {
      config
    }

    /** update_config: each keyword naming a section applies its dict's
        items to that section's existing fields, and the first keyword that
        raises (see KeywordRaises) ends the update there. */
    method UpdateConfig(kwargs: seq<(string, Entry)>, hasAttr: (Entry, string) -> bool) returns (raised: bool)
      requires Valid()
      modifies config.ai, config.scanning, config.output, config.web, config.database
      ensures Valid()
      ensures var k := RaiseIndex(kwargs, config.logLevel, config.debug, hasAttr);
        (raised <==> k < |kwargs|) &&
        config.ai.fields == Updated(old(config.ai.fields), kwargs[..k], "ai") &&
        config.scanning.fields == Updated(old(config.scanning.fields), kwargs[..k], "scanning") &&
        config.output.fields == Updated(old(config.output.fields), kwargs[..k], "output") &&
        config.web.fields == Updated(old(config.web.fields), kwargs[..k], "web") &&
        config.database.fields == Updated(old(config.database.fields), kwargs[..k], "database")
    {
      raised := false;
      var i := 0;
      while i < |kwargs|
        invariant 0 <= i <= |kwargs|
        invariant forall j | 0 <= j < i :: !KeywordRaises(kwargs[j], config.logLevel, config.debug, hasAttr)
        invariant config.ai.fields == Updated(old(config.ai.fields), kwargs[..i], "ai")
        invariant config.scanning.fields == Updated(old(config.scanning.fields), kwargs[..i], "scanning")
        invariant config.output.fields == Updated(old(config.output.fields), kwargs[..i], "output")
        invariant config.web.fields == Updated(old(config.web.fields), kwargs[..i], "web")
        invariant config.database.fields == Updated(old(config.database.fields), kwargs[..i], "database")
      {
        raised := KeywordStep(kwargs[i], hasAttr);
        if raised {
          RaiseIndexFirst(kwargs, i, config.logLevel, config.debug, hasAttr);
          return;
        }
        assert kwargs[..i + 1][..i] == kwargs[..i];
        i := i + 1;
      }
      RaiseIndexFirst(kwargs, i, config.logLevel, config.debug, hasAttr);
    }

    /** One pass of update_config's loop. */
    method KeywordStep(kw: (string, Entry), hasAttr: (Entry, string) -> bool) returns (raised: bool)
      requires Valid()
      modifies config.ai, config.scanning, config.output, config.web, config.database
      ensures Valid()
      ensures raised <==> KeywordRaises(kw, config.logLevel, config.debug, hasAttr)
      ensures raised ==> unchanged(config.ai, config.scanning, config.output, config.web, config.database)
      ensures !raised ==>
        config.ai.fields == Updated(old(config.ai.fields), [kw], "ai") &&
        config.scanning.fields == Updated(old(config.scanning.fields), [kw], "scanning") &&
        config.output.fields == Updated(old(config.output.fields), [kw], "output") &&
        config.web.fields == Updated(old(config.web.fields), [kw], "web") &&
        config.database.fields == Updated(old(config.database.fields), [kw], "database")
    {
      var (name, updates) := kw;
      raised := false;
      if name in SectionNames {
        var section := config.SectionOf(name);
        match updates
        case Scalar(_) =>
          raised := true;
        case Items(items) =>
          section.value.Update(items);
      } else if name == "log_level" || name == "debug" {
        var current := if name == "log_level" then config.logLevel else config.debug;
        match updates
        case Scalar(_) =>
          raised := true;
        case Items(items) =>
          var j := 0;
          while j < |items| && !raised
            invariant 0 <= j <= |items|
            invariant !raised ==> forall m | 0 <= m < j :: !hasAttr(current, items[m].0)
            invariant raised ==> 0 < j && hasAttr(current, items[j - 1].0)
          {
            raised := hasAttr(current, items[j].0);
            j := j + 1;
          }
      }
    }

    /** reset_to_defaults with sections of its own: every section is back
        at its defaults. Saving the file is left out. */
    method ResetToDefaults()
      modifies this
      ensures Valid() && fresh(config)
      ensures config.ai.fields == AiDefaults && config.scanning.fields == ScanDefaults
      ensures config.output.fields == OutputDefaults && config.web.fields == WebDefaults
      ensures config.database.fields == DatabaseDefaults
      ensures config.logLevel == Scalar(Text("INFO")) && config.debug == Scalar(Flag(false))
    {
      config := new NmapAIConfig();
    }
  }

  /** Keywords that name no section leave every section as it was. */
  lemma {:induction false} UpdatedIgnoresOthers(fields: Fields, kwargs: seq<(string, Entry)>, name: string)
    requires forall i | 0 <= i < |kwargs| :: kwargs[i].0 != name
    ensures Updated(fields, kwargs, name) == fields
    decreases |kwargs|
  {
    if kwargs != [] {
      UpdatedIgnoresOthers(fields, kwargs[..|kwargs| - 1], name);
    }
  }

  /** update_config never adds a field to a section. */
  lemma {:induction false} UpdatedKeepsKeys(fields: Fields, kwargs: seq<(string, Entry)>, name: string)
    ensures Updated(fields, kwargs, name).Keys == fields.Keys
    decreases |kwargs|
  {
    if kwargs != [] {
      UpdatedKeepsKeys(fields, kwargs[..|kwargs| - 1], name);
    }
  }

  /** The defaults of the scanning section. */
  lemma ScanDefaultsStated()
    ensures ScanDefaults["default_timeout"] == Number(300) && ScanDefaults["max_parallel_hosts"] == Number(50)
    ensures ScanDefaults["retries"] == Number(3) && ScanDefaults["default_ports"] == Text("1-1000")
    ensures ScanDefaults["stealth_mode"] == Flag(false) && ScanDefaults["timing_template"] == Number(3)
  {
  }
}
