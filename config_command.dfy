/** The logic of nmap_ai/cli/commands/config.py: the dotted-key set with
    its value coercion, and the exit codes of show, validate and the
    command dispatch. Loading and saving the file are inputs and outputs;
    validate_config, which nmap_ai/config.py does not define, is a
    predicate passed in. */
module ConfigCommand {
  import opened Wrappers
  import opened Text

  /** A configuration value as YAML loads it. A float is kept as the text
      it was parsed from. */
  datatype Value = Bool(b: bool) | Int(i: nat) | Float(text: string) | Str(s: string) | Dict(entries: map<string, Value>)

  type Config = map<string, Value>

  // ---------------------------------------------------------------------
  // value coercion

  /** value.replace('.', ''). */
  function WithoutDots(s: string): (r: string)
    ensures '.' !in r && |r| <= |s|
    decreases |s|
  {
    if s == [] then []
    else WithoutDots(s[..|s| - 1]) + (if s[|s| - 1] == '.' then [] else [s[|s| - 1]])
  }

  function DotCount(s: string): nat
    decreases |s|
  {
    if s == [] then 0 else DotCount(s[..|s| - 1]) + (if s[|s| - 1] == '.' then 1 else 0)
  }

  /** The coercion of set_config: 'true'/'false' in any case become a bool,
      a digit string an int, a digit string once its dots are removed a
      float, and anything else stays a string. float() of digits and dots
      fails when there is more than one dot, which raises. */
  function Coerce(s: string): (r: Result<Value, string>)
    ensures Lower(s) == "true" ==> r == Success(Bool(true))
    ensures Lower(s) == "false" ==> r == Success(Bool(false))
    ensures Lower(s) != "true" && Lower(s) != "false" && IsDigits(s) ==> r == Success(Int(DigitsValue(s)))
    ensures r.Failure? <==>
      Lower(s) != "true" && Lower(s) != "false" && !IsDigits(s) && IsDigits(WithoutDots(s)) && DotCount(s) > 1
    ensures r.Success? && r.value.Float? ==> r.value.text == s && DotCount(s) <= 1
    ensures r == Success(Str(s)) <==> Lower(s) != "true" && Lower(s) != "false" && !IsDigits(WithoutDots(s))
  {
    var lowered := Lower(s);
    if lowered == "true" || lowered == "false" then Success(Bool(lowered == "true"))
    else if IsDigits(s) then
      DigitsWithoutDots(s);
      Success(Int(DigitsValue(s)))
    else if IsDigits(WithoutDots(s)) then
      if DotCount(s) <= 1 then Success(Float(s)) else Failure("could not convert string to float: " + s)
    else Success(Str(s))
  }

  /** Dropping dots and counting them both distribute over concatenation. */
  lemma WithoutDotsAppend(a: string, b: string)
    ensures WithoutDots(a + b) == WithoutDots(a) + WithoutDots(b)
    ensures DotCount(a + b) == DotCount(a) + DotCount(b)
  {
    WithoutDotsConcat(a, b);
    DotCountConcat(a, b);
  }

  lemma {:induction false} WithoutDotsConcat(a: string, b: string)
    ensures WithoutDots(a + b) == WithoutDots(a) + WithoutDots(b)
    decreases |b|
  {
    if b == [] {
      assert a + b == a;
    } else {
      var n := |b| - 1;
      assert (a + b)[..|a + b| - 1] == a + b[..n];
      assert (a + b)[|a + b| - 1] == b[n];
      var tail := if b[n] == '.' then [] else [b[n]];
      var wa, wb := WithoutDots(a), WithoutDots(b[..n]);
      calc {
        WithoutDots(a + b);
        WithoutDots(a + b[..n]) + tail;
        { WithoutDotsConcat(a, b[..n]); }
        (wa + wb) + tail;
        wa + (wb + tail);
        WithoutDots(a) + WithoutDots(b);
      }
    }
  }

  lemma {:induction false} DotCountConcat(a: string, b: string)
    ensures DotCount(a + b) == DotCount(a) + DotCount(b)
    decreases |b|
  {
    if b == [] {
      assert a + b == a;
    } else {
      var n := |b| - 1;
      assert (a + b)[..|a + b| - 1] == a + b[..n];
      assert (a + b)[|a + b| - 1] == b[n];
      DotCountConcat(a, b[..n]);
    }
  }

  lemma {:induction false} DigitsWithoutDots(a: string)
    requires forall i | 0 <= i < |a| :: IsDigit(a[i])
    ensures WithoutDots(a) == a && DotCount(a) == 0
    decreases |a|
  {
    if a != [] {
      var init := a[..|a| - 1];
      DigitsWithoutDots(init);
      assert a == init + [a[|a| - 1]];
    }
  }

  lemma OneDot()
    ensures WithoutDots(".") == [] && DotCount(".") == 1
  {
    assert "."[..0] == [];
  }

  /** A value with a dot in it is neither a bool word nor a digit string. */
  lemma DottedNotWordOrDigits(s: string, i: nat)
    requires i < |s| && s[i] == '.'
    ensures Lower(s) != "true" && Lower(s) != "false" && !IsDigits(s)
  {
    assert Lower(s)[i] == '.';
    assert '.' in Lower(s);
  }

  lemma DigitsConcat(a: string, b: string)
    requires IsDigits(a) && IsDigits(b)
    ensures IsDigits(a + b)
  {
    assert forall i | 0 <= i < |a + b| :: (a + b)[i] == if i < |a| then a[i] else b[i - |a|];
  }

  lemma DecimalParts(a: string, b: string)
    requires IsDigits(a) && IsDigits(b)
    ensures WithoutDots(a + "." + b) == a + b && DotCount(a + "." + b) == 1
  {
    DigitsWithoutDots(a);
    DigitsWithoutDots(b);
    OneDot();
    var ad := a + ".";
    WithoutDotsAppend(a, ".");
    assert WithoutDots(ad) == a + [] == a;
    WithoutDotsAppend(ad, b);
    assert WithoutDots(ad + b) == a + b;
  }

  /** A version-like value such as '1.2.3' passes the float test, but
      float() rejects it, so the set fails. */
  lemma VersionStringRejected(a: string, b: string, c: string)
    requires IsDigits(a) && IsDigits(b) && IsDigits(c)
    ensures Coerce(a + "." + b + "." + c).Failure?
  {
    var s := a + "." + b + "." + c;
    var ab := a + "." + b;
    DecimalParts(a, b);
    DigitsWithoutDots(c);
    OneDot();
    var abd := ab + ".";
    WithoutDotsAppend(ab, ".");
    assert WithoutDots(abd) == (a + b) + [] == a + b;
    WithoutDotsAppend(abd, c);
    assert WithoutDots(abd + c) == (a + b) + c;
    assert DotCount(abd + c) == 2;
    DigitsConcat(a + b, c);
    DottedNotWordOrDigits(s, |a|);
  }

  /** A value with one dot is coerced to a float. */
  lemma DecimalAccepted(a: string, b: string)
    requires IsDigits(a) && IsDigits(b)
    ensures Coerce(a + "." + b) == Success(Float(a + "." + b))
  {
    var s := a + "." + b;
    DecimalParts(a, b);
    DigitsConcat(a, b);
    DottedNotWordOrDigits(s, |a|);
  }

  // ---------------------------------------------------------------------
  // the dotted path

  /** The value at a non-empty key path, None when some key is missing or
      an intermediate value is not a map. */
  function Lookup(m: Config, path: seq<string>): Option<Value>
    requires |path| >= 1
    decreases |path|
  {
    if path[0] !in m then None
    else if |path| == 1 then Some(m[path[0]])
    else if m[path[0]].Dict? then Lookup(m[path[0]].entries, path[1..])
    else None
  }

  /** The map `current = current[key]` moves to: the existing map, or the
      empty map inserted for a missing key. */
  function ChildOf(m: Config, k: string): Config
  {
    if k in m && m[k].Dict? then m[k].entries else map[]
  }

  /** The walk reaches a value that is not a map before the last key, so
      indexing into it raises. A missing key is filled with a new map, so
      only a path whose first key exists and has a further key can be
      blocked. */
  predicate Blocked(m: Config, keys: seq<string>)
    requires |keys| >= 1
    ensures Blocked(m, keys) ==> |keys| > 1 && keys[0] in m
    decreases |keys|
  {
    |keys| > 1 && ((keys[0] in m && !m[keys[0]].Dict?) || Blocked(ChildOf(m, keys[0]), keys[1..]))
  }

  /** The config after `current[final_key] = value` at the end of the walk:
      missing intermediate keys hold new maps. */
  function SetPath(m: Config, keys: seq<string>, v: Value): (r: Result<Config, string>)
    requires |keys| >= 1
    ensures r.Failure? ==> |keys| > 1 && keys[0] in m
    ensures r.Success? ==> r.value.Keys == m.Keys + {keys[0]}
    ensures r.Success? ==> forall k | k in m && k != keys[0] :: r.value[k] == m[k]
    decreases |keys|
  {
    if |keys| == 1 then Success(m[keys[0] := v])
    else if keys[0] in m && !m[keys[0]].Dict? then Failure("not a mapping: " + keys[0])
    else
      match SetPath(ChildOf(m, keys[0]), keys[1..], v)
      case Failure(e) => Failure(e)
      case Success(c) => Success(m[keys[0] := Dict(c)])
  }

  lemma {:induction false} SetPathFailsIff(m: Config, keys: seq<string>, v: Value)
    requires |keys| >= 1
    ensures SetPath(m, keys, v).Failure? <==> Blocked(m, keys)
    decreases |keys|
  {
    if |keys| > 1 {
      SetPathFailsIff(ChildOf(m, keys[0]), keys[1..], v);
    }
  }

  /** After a successful set, the key path holds the value. */
  lemma {:induction false} SetPathStores(m: Config, keys: seq<string>, v: Value)
    requires |keys| >= 1 && SetPath(m, keys, v).Success?
    ensures Lookup(SetPath(m, keys, v).value, keys) == Some(v)
    decreases |keys|
  {
    if |keys| > 1 {
      SetPathStores(ChildOf(m, keys[0]), keys[1..], v);
    }
  }

  /** Every intermediate key of the path holds a map afterwards. */
  lemma {:induction false} SetPathIntermediates(m: Config, keys: seq<string>, v: Value)
    requires |keys| >= 1 && SetPath(m, keys, v).Success?
    ensures forall n | 1 <= n < |keys| :: Lookup(SetPath(m, keys, v).value, keys[..n]).Some? &&
                                          Lookup(SetPath(m, keys, v).value, keys[..n]).value.Dict?
    decreases |keys|
  {
    if |keys| > 1 {
      var rest := keys[1..];
      SetPathIntermediates(ChildOf(m, keys[0]), rest, v);
      var m' := SetPath(m, keys, v).value;
      forall n | 1 <= n < |keys|
        ensures Lookup(m', keys[..n]).Some? && Lookup(m', keys[..n]).value.Dict?
      {
        if n > 1 {
          assert keys[..n][1..] == rest[..n - 1];
        }
      }
    }
  }

  /** A path that is neither a prefix nor an extension of the set path
      keeps its value. */
  lemma {:induction false} SetPathKeepsOthers(m: Config, keys: seq<string>, v: Value, p: seq<string>)
    requires |keys| >= 1 && SetPath(m, keys, v).Success?
    requires |p| >= 1 && !(p <= keys) && !(keys <= p)
    ensures Lookup(SetPath(m, keys, v).value, p) == Lookup(m, p)
    decreases |keys|
  {
    if p[0] == keys[0] && |keys| > 1 {
      assert |p| > 1;
      var m' := SetPath(m, keys, v).value;
      var c := SetPath(ChildOf(m, keys[0]), keys[1..], v).value;
      assert !(p[1..] <= keys[1..]) && !(keys[1..] <= p[1..]);
      SetPathKeepsOthers(ChildOf(m, keys[0]), keys[1..], v, p[1..]);
      assert Lookup(m', p) == Lookup(c, p[1..]);
      if keys[0] in m && m[keys[0]].Dict? {
        assert Lookup(m, p) == Lookup(ChildOf(m, keys[0]), p[1..]);
      } else {
        assert Lookup(m, p) == None;
        LookupEmpty(p[1..]);
      }
    }
  }

  lemma LookupEmpty(p: seq<string>)
    requires |p| >= 1
    ensures Lookup(map[], p) == None
  {
  }

  // ---------------------------------------------------------------------
  // the walk of set_config

  /** The walk down keys[:-1]: the maps visited, in order, or the failure
      of indexing into a value that is not a map. */
  method Descend(config: Config, keys: seq<string>) returns (r: Result<seq<Config>, string>)
    requires |keys| >= 1
    ensures r.Failure? <==> Blocked(config, keys)
    ensures r.Success? ==> Walked(config, keys, r.value)
  {
    var chain := [config];
    var i := 0;
    while i < |keys| - 1
      invariant 0 <= i <= |keys| - 1 && |chain| == i + 1
      invariant Walked(config, keys[..i + 1], chain)
      invariant Blocked(config, keys) <==> Blocked(chain[i], keys[i..])
    {
      var k := keys[i];
      var current := chain[i];
      assert keys[i..][1..] == keys[i + 1..];
      if k in current && !current[k].Dict? {
        return Failure("not a mapping: " + k);
      }
      chain := chain + [ChildOf(current, k)];
      i := i + 1;
    }
    assert keys[..i + 1] == keys;
    return Success(chain);
  }

  /** The maps the walk visits: each is the child of the previous under the
      next key, and none of them holds a non-map value there. */
  predicate Walked(config: Config, keys: seq<string>, chain: seq<Config>)
  {
    |chain| == |keys| >= 1 && chain[0] == config &&
    forall j | 0 <= j < |keys| - 1 ::
      chain[j + 1] == ChildOf(chain[j], keys[j]) && !(keys[j] in chain[j] && !chain[j][keys[j]].Dict?)
  }

  /** The final assignment and the write-back of every map on the path. */
  method Rebuild(config: Config, keys: seq<string>, chain: seq<Config>, v: Value) returns (r: Config)
    requires Walked(config, keys, chain)
    ensures SetPath(config, keys, v) == Success(r)
  {
    var j := |keys| - 1;
    r := chain[j][keys[j] := v];
    assert keys[j..] == [keys[j]];
    while j > 0
      invariant 0 <= j < |keys|
      invariant SetPath(chain[j], keys[j..], v) == Success(r)
    {
      assert keys[j - 1..][1..] == keys[j..];
      r := chain[j - 1][keys[j - 1] := Dict(r)];
      j := j - 1;
    }
    assert keys[0..] == keys;
  }

  // ---------------------------------------------------------------------
  // commands

  /** set_config on the loaded config: the exit code and the config saved,
      if any. */
  method SetConfig(config: Config, key: string, raw: string, validate: Config -> bool)
    returns (code: int, saved: Option<Config>)
    ensures var keys := Split(key, '.');
      code == 0 <==> Coerce(raw).Success? && SetPath(config, keys, Coerce(raw).value).Success? &&
                     validate(SetPath(config, keys, Coerce(raw).value).value)
    ensures Blocked(config, Split(key, '.')) ==> code == 1
    ensures code == 0 || code == 1
    ensures code == 0 ==> saved == Some(SetPath(config, Split(key, '.'), Coerce(raw).value).value)
    ensures code == 1 ==> saved == None
  {
    var keys := Split(key, '.');
    var walk := Descend(config, keys);
    if walk.Failure? {
      if Coerce(raw).Success? {
        SetPathFailsIff(config, keys, Coerce(raw).value);
      }
      return 1, None;
    }
    var value := Coerce(raw);
    if value.Failure? {
      return 1, None;
    }
    var updated := Rebuild(config, keys, walk.value, value.value);
    if !validate(updated) {
      return 1, None;
    }
    return 0, Some(updated);
  }

  /** show_config: an empty section name shows everything; a named section
      must exist. */
  function ShowConfig(config: Option<Config>, section: string): (code: int)
    ensures code == 0 <==> config.Some? && (section == "" || section in config.value)
  {
    if config.None? then 1
    else if section != "" && section !in config.value then 1
    else 0
  }

  /** validate_config_command. */
  function ValidateConfigCommand(config: Option<Config>, validate: Config -> bool): (code: int)
    ensures code == 0 <==> config.Some? && validate(config.value)
  {
    if config.Some? && validate(config.value) then 0 else 1
  }

  const ConfigActions := ["show", "set", "validate", "reset"]

  /** config_command: the sub-command's code for a known action (None when
      it raised), else 1. */
  function ConfigCommandExit(action: string, run: string -> Option<int>): (code: int)
    ensures action !in ConfigActions ==> code == 1
    ensures action in ConfigActions && run(action).None? ==> code == 1
    ensures action in ConfigActions && run(action).Some? ==> code == run(action).value
  {
    if action == "show" || action == "set" || action == "validate" || action == "reset" then
      match run(action)
      case None => 1
      case Some(c) => c
    else 1
  }
}
