/** The plugin system: a plugin with its enable flag, the report plugin's
    format check, and the manager's registry of loaded plugins by name.

    Loading imports a file dynamically and runs the plugin's own
    initialize(); unloading runs its cleanup(). Those are not visible here,
    so their outcomes are parameters. */
module Plugins {
  import opened Wrappers
  import opened Seqs
  import opened Text

  /** Which base class a concrete plugin derives from. */
  datatype PluginKind = ScannerKind | ReportKind | AIKind | OtherKind

  /** The class a listing may filter by. */
  datatype PluginType = BaseType | ScannerType | ReportType | AIType

  /** isinstance(plugin, plugin_type): every plugin is a BasePlugin; the
      three specialised bases hold only their own kind. */
  predicate IsInstance(k: PluginKind, t: PluginType)
  {
    match t
    case BaseType => true
    case ScannerType => k == ScannerKind
    case ReportType => k == ReportKind
    case AIType => k == AIKind
  }

  class Plugin {
    const kind: PluginKind
    const config: map<string, string>
    /** supported_formats, meaningful for a report plugin. */
    const supportedFormats: seq<string>
    var enabled: bool
    var initialized: bool

    /** A new plugin is enabled and not yet initialized; a missing
        configuration becomes the empty one. */
    constructor (kind: PluginKind, config: Option<map<string, string>>, supportedFormats: seq<string>)
      ensures this.kind == kind && this.supportedFormats == supportedFormats
      ensures this.config == config.UnwrapOr(map[])
      ensures enabled && !initialized
    {
      this.kind := kind;
      this.config := config.UnwrapOr(map[]);
      this.supportedFormats := supportedFormats;
      enabled := true;
      initialized := false;
    }

    method Enable()
      modifies this
      ensures enabled && initialized == old(initialized)
    {
      enabled := true;
    }

    method Disable()
      modifies this
      ensures !enabled && initialized == old(initialized)
    {
      enabled := false;
    }
  }

  // ---------------------------------------------------------------------
  // Report formats
  // ---------------------------------------------------------------------

  function LowerAll(formats: seq<string>): (r: seq<string>)
    ensures |r| == |formats|
    ensures forall i | 0 <= i < |formats| :: r[i] == Lower(formats[i])
  {
    seq(|formats|, i requires 0 <= i < |formats| => Lower(formats[i]))
  }

  /** validate_format: the format matches one of the supported ones when
      both are lowered. */
  function ValidateFormat(formatType: string, supported: seq<string>): (r: bool)
    ensures r <==> exists i | 0 <= i < |supported| :: Lower(supported[i]) == Lower(formatType)
  {
    Lower(formatType) in LowerAll(supported)
  }

  /** Every supported format validates, in whatever case it is written. */
  lemma SupportedFormatValidates(supported: seq<string>, i: int, formatType: string)
    requires 0 <= i < |supported|
    requires Lower(formatType) == Lower(supported[i])
    ensures ValidateFormat(formatType, supported)
  {
  }

  /** The check depends on the format only through its lowered form. */
  lemma ValidateFormatIgnoresCase(f: string, g: string, supported: seq<string>)
    requires Lower(f) == Lower(g)
    ensures ValidateFormat(f, supported) == ValidateFormat(g, supported)
  {
  }

  /** A plugin that supports no format rejects every format. */
  lemma NoFormatsRejectAll(formatType: string)
    ensures !ValidateFormat(formatType, [])
  {
  }

  // ---------------------------------------------------------------------
  // Listing
  // ---------------------------------------------------------------------

  /** The registered names, in registration order, whose plugin is an
      instance of t. */
  function OfType(order: seq<string>, kinds: map<string, PluginKind>, t: PluginType): (r: seq<string>)
    requires forall i | 0 <= i < |order| :: order[i] in kinds
    ensures |r| <= |order|
    ensures forall x | x in r :: x in order && IsInstance(kinds[x], t)
    decreases |order|
  {
    if order == [] then []
    else
      var last := order[|order| - 1];
      OfType(order[..|order| - 1], kinds, t) + (if IsInstance(kinds[last], t) then [last] else [])
  }

  /** A name is listed exactly when it is registered and its plugin is an
      instance of the type; the listing is a subsequence of the order. */
  lemma {:induction false} OfTypeMembers(order: seq<string>, kinds: map<string, PluginKind>, t: PluginType)
    requires forall i | 0 <= i < |order| :: order[i] in kinds
    ensures |OfType(order, kinds, t)| <= |order|
    ensures forall x :: x in OfType(order, kinds, t) <==> x in order && IsInstance(kinds[x], t)
    decreases |order|
  {
    if order != [] {
      var init := order[..|order| - 1];
      OfTypeMembers(init, kinds, t);
      assert order == init + [order[|order| - 1]];
    }
  }

  /** Filtering by BasePlugin lists every registered name, in order. */
  lemma {:induction false} OfBaseTypeIsAll(order: seq<string>, kinds: map<string, PluginKind>)
    requires forall i | 0 <= i < |order| :: order[i] in kinds
    ensures OfType(order, kinds, BaseType) == order
    decreases |order|
  {
    if order != [] {
      OfBaseTypeIsAll(order[..|order| - 1], kinds);
      assert order == order[..|order| - 1] + [order[|order| - 1]];
    }
  }

  function KindsOf(plugins: map<string, Plugin>): (kinds: map<string, PluginKind>)
    ensures kinds.Keys == plugins.Keys
    ensures forall n | n in plugins :: kinds[n] == plugins[n].kind
  {
    map n | n in plugins :: plugins[n].kind
  }

  /** list_plugins: every name without a type, the instances of the type
      with one. */
  function Listed(order: seq<string>, plugins: map<string, Plugin>, t: Option<PluginType>): (r: seq<string>)
    requires Enumerates(order, plugins)
    ensures |r| <= |order| && forall n | n in r :: n in plugins
    ensures t.Some? ==> forall n | n in r :: IsInstance(plugins[n].kind, t.value)
  {
    if t.None? then order else OfType(order, KindsOf(plugins), t.value)
  }

  // ---------------------------------------------------------------------
  // The manager
  // ---------------------------------------------------------------------

  /** What the dynamic import found for a plugin name. */
  datatype LoadOutcome =
    | FileNotFound
    | NoSpec
    | NoPluginClass
    | Raised(message: string)
      /** A plugin class was found; initialize() returned initializeOk. */
    | Found(kind: PluginKind, supportedFormats: seq<string>, initializeOk: bool)

  class PluginManager {
    const pluginDirs: seq<string>
    var plugins: map<string, Plugin>
    /** Registration order of the names in plugins. */
    var order: seq<string>

    ghost predicate Valid()
      reads this
    {
      Enumerates(order, plugins)
    }

    constructor (pluginDirs: Option<seq<string>>)
      ensures this.pluginDirs == pluginDirs.UnwrapOr([])
      ensures plugins == map[] && order == []
      ensures Valid()
    {
      this.pluginDirs := pluginDirs.UnwrapOr([]);
      plugins := map[];
      order := [];
    }

    /** load_plugin: the plugin is registered under name, replacing any
        plugin already registered under it, exactly when a plugin class
        was found and its initialize() returned True; every other outcome
        returns False and leaves the registry as it was. */
    method LoadPlugin(name: string, config: Option<map<string, string>>, outcome: LoadOutcome)
      returns (loaded: bool)
      requires Valid()
      modifies this
      ensures Valid()
      ensures loaded <==> outcome.Found? && outcome.initializeOk
      ensures !loaded ==> plugins == old(plugins) && order == old(order)
      ensures loaded ==>
        plugins.Keys == old(plugins).Keys + {name} && order == InsertKey(old(order), name)
        && fresh(plugins[name]) && plugins[name].kind == outcome.kind
        && plugins[name].enabled && plugins[name].config == config.UnwrapOr(map[])
        && (forall n | n in old(plugins) && n != name :: plugins[n] == old(plugins)[n])
    {
      if !outcome.Found? {
        return false;
      }
      var plugin := new Plugin(outcome.kind, config, outcome.supportedFormats);
      if !outcome.initializeOk {
        return false;
      }
      InsertKeyEnumerates(order, plugins, name, plugin);
      order := InsertKey(order, name);
      plugins := plugins[name := plugin];
      loaded := true;
    }

    /** unload_plugin: an unknown name returns False; when cleanup()
        raises the plugin stays registered and False is returned; otherwise
        the plugin is removed and True returned, whatever cleanup()
        returned. */
    method UnloadPlugin(name: string, cleanupRaises: bool) returns (unloaded: bool)
      requires Valid()
      modifies this
      ensures Valid()
      ensures unloaded <==> name in old(plugins) && !cleanupRaises
      ensures unloaded ==> plugins == old(plugins) - {name} && order == RemoveKey(old(order), name)
      ensures !unloaded ==> plugins == old(plugins) && order == old(order)
    {
      if name !in plugins {
        return false;
      }
      if cleanupRaises {
        return false;
      }
      RemoveKeyEnumerates(order, plugins, name);
      plugins := plugins - {name};
      order := RemoveKey(order, name);
      unloaded := true;
    }

    /** get_plugin. */
    function GetPlugin(name: string): (r: Option<Plugin>)
      reads this
      ensures r.Some? <==> name in plugins
      ensures r.Some? ==> r.value == plugins[name]
    {
      if name in plugins then Some(plugins[name]) else None
    }

    /** list_plugins. */
    method ListPlugins(t: Option<PluginType>) returns (names: seq<string>)
      requires Valid()
      ensures names == Listed(order, plugins, t)
    {
      if t.None? {
        return order;
      }
      var kinds := KindsOf(plugins);
      names := [];
      for i := 0 to |order|
        invariant names == OfType(order[..i], kinds, t.value)
      {
        assert order[..i + 1][..i] == order[..i];
        if IsInstance(plugins[order[i]].kind, t.value) {
          names := names + [order[i]];
        }
      }
      assert order[..|order|] == order;
    }

    /** cleanup_all: unload every registered plugin; the ones whose
        cleanup() raised (the names in failing) are all that remain. */
    method CleanupAll(failing: set<string>)
      requires Valid()
      modifies this
      ensures Valid()
      ensures plugins == map n | n in old(plugins) && n in failing :: old(plugins)[n]
    {
      var names := order;
      ghost var before := plugins;
      for i := 0 to |names|
        invariant Valid()
        invariant plugins == Survivors(before, failing, names[..i])
      {
        assert names[..i + 1] == names[..i] + [names[i]];
        SurvivorsStep(before, failing, names[..i], names[i]);
        var _ := UnloadPlugin(names[i], names[i] in failing);
      }
      assert names[..|names|] == names;
      SurvivorsAll(before, failing, names);
    }
  }

  /** The plugins left once the names in done have had cleanup attempted:
      those not yet reached, and those whose cleanup raised. */
  function Survivors(before: map<string, Plugin>, failing: set<string>, done: seq<string>): (r: map<string, Plugin>)
    ensures r.Keys <= before.Keys && forall n | n in r :: r[n] == before[n]
    ensures forall n | n in before && n in failing :: n in r
    ensures forall n | n in before && n !in done :: n in r
  {
    map n | n in before && (n in failing || n !in done) :: before[n]
  }

  /** Attempting one more cleanup removes that plugin exactly when it is
      still loaded and its cleanup does not raise. */
  lemma SurvivorsStep(before: map<string, Plugin>, failing: set<string>, done: seq<string>, x: string)
    ensures Survivors(before, failing, done + [x]) ==
      if x in Survivors(before, failing, done) && x !in failing
      then Survivors(before, failing, done) - {x}
      else Survivors(before, failing, done)
  {
    var s0 := Survivors(before, failing, done);
    var s1 := Survivors(before, failing, done + [x]);
    forall n ensures n in s1 <==> n in (if x in s0 && x !in failing then s0 - {x} else s0) {
      assert n in done + [x] <==> n in done || n == x;
    }
  }

  /** Once every loaded name was reached, only the failing plugins remain. */
  lemma SurvivorsAll(before: map<string, Plugin>, failing: set<string>, names: seq<string>)
    requires forall n | n in before :: n in names
    ensures Survivors(before, failing, names) == map n | n in before && n in failing :: before[n]
  {
  }

  /** Listing without a type and listing by BasePlugin agree. */
  lemma ListAllIsListBase(order: seq<string>, plugins: map<string, Plugin>)
    requires Enumerates(order, plugins)
    ensures Listed(order, plugins, None) == Listed(order, plugins, Some(BaseType))
  {
    OfBaseTypeIsAll(order, KindsOf(plugins));
  }

  /** A typed listing names exactly the registered plugins of that type. */
  lemma ListedByType(order: seq<string>, plugins: map<string, Plugin>, t: PluginType)
    requires Enumerates(order, plugins)
    ensures forall n :: n in Listed(order, plugins, Some(t)) <==> n in plugins && IsInstance(plugins[n].kind, t)
  {
    OfTypeMembers(order, KindsOf(plugins), t);
  }
}
