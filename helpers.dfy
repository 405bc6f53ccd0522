/** Utility functions of nmap_ai/utils/helpers.py: port-list expansion,
    string truncation, dictionary merging and retry with exponential
    back-off. */
module Helpers {
  import opened Wrappers
  import opened Text
  import opened Validators

  // ---------------------------------------------------------------------
  // parse_port_range

  /** What one comma-separated part of a port specification denotes. */
  datatype PortPart = Single(port: int) | Span(first: int, last: int)

  predicate Covers(pp: PortPart, p: int)
  {
    match pp
    case Single(n) => p == n
    case Span(a, b) => a <= p <= b
  }

  /** One comma-separated part, stripped: with a dash, int() of the text
      on each side of the first dash; otherwise int() of the whole part.
      None where int() raises ValueError. */
  function ParsePart(rawPart: string): Option<PortPart>
  {
    var part := Strip(rawPart);
    var halves := SplitOnce(part, '-');
    if halves.Some? then
      var lo, hi := ParseInt(halves.value.0), ParseInt(halves.value.1);
      if lo.Some? && hi.Some? then Some(Span(lo.value, hi.value)) else None
    else
      // int(part) on a part that is already stripped
      var n := ParseStripped(part);
      if n.Some? then Some(Single(n.value)) else None
  }

  function SpecParts(spec: string): seq<string>
  {
    Split(spec, ',')
  }

  /** Part j of the list parses. */
  predicate PartParses(parts: seq<string>, j: int)
    requires 0 <= j < |parts|
  {
    ParsePart(parts[j]).Some?
  }

  /** Every part of the specification parses. */
  predicate AllPartsParse(spec: string)
  {
    var parts := SpecParts(spec);
    forall i | 0 <= i < |parts| :: PartParses(parts, i)
  }

  /** Part j of the list parses and denotes p. */
  predicate PartCovers(parts: seq<string>, j: int, p: int)
    requires 0 <= j < |parts|
  {
    var pp := ParsePart(parts[j]);
    pp.Some? && Covers(pp.value, p)
  }

  predicate StrictlyAscending(s: seq<int>)
  {
    forall i, j | 0 <= i < j < |s| :: s[i] < s[j]
  }

  /** Inserts x into a strictly ascending list, keeping it so. */
  function InsertSorted(s: seq<int>, x: int): (r: seq<int>)
    requires StrictlyAscending(s)
    ensures StrictlyAscending(r)
    ensures forall y :: y in r <==> y in s || y == x
    decreases |s|
  {
    if s == [] then [x]
    else if x < s[0] then [x] + s
    else if x == s[0] then s
    else
      TailAscending(s);
      var rest := InsertSorted(s[1..], x);
      ConsAscending(s[0], rest);
      [s[0]] + rest
  }

  lemma TailAscending(s: seq<int>)
    requires s != [] && StrictlyAscending(s)
    ensures StrictlyAscending(s[1..])
    ensures forall y | y in s[1..] :: s[0] < y
    ensures forall y :: y in s <==> y == s[0] || y in s[1..]
  {
    assert s == [s[0]] + s[1..];
  }

  lemma ConsAscending(h: int, rest: seq<int>)
    requires StrictlyAscending(rest) && forall y | y in rest :: h < y
    ensures StrictlyAscending([h] + rest)
    ensures forall y :: y in [h] + rest <==> y == h || y in rest
  {
    var r := [h] + rest;
    forall i, j | 0 <= i < j < |r| ensures r[i] < r[j] {
      assert r[j] == rest[j - 1];
      if i > 0 {
        assert r[i] == rest[i - 1];
      } else {
        assert rest[j - 1] in rest;
      }
    }
  }

  /** ports.extend(range(a, b + 1)) */
  method ExtendRange(ports: seq<int>, a: int, b: int) returns (r: seq<int>)
    ensures forall p :: p in r <==> p in ports || a <= p <= b
  {
    r := ports;
    var k := a;
    while k <= b
      invariant a <= k <= if a <= b then b + 1 else a
      invariant forall p :: p in r <==> p in ports || a <= p < k
      decreases b - k
    {
      r := r + [k];
      k := k + 1;
    }
  }

  /** sorted(list(set(ports))) */
  method SortedDistinct(ports: seq<int>) returns (sorted: seq<int>)
    ensures StrictlyAscending(sorted)
    ensures forall p :: p in sorted <==> p in ports
  {
    sorted := [];
    for j := 0 to |ports|
      invariant StrictlyAscending(sorted)
      invariant forall p :: p in sorted <==> p in ports[..j]
    {
      sorted := InsertSorted(sorted, ports[j]);
      assert ports[..j + 1] == ports[..j] + [ports[j]];
    }
    assert ports[..|ports|] == ports;
  }

  /** parse_port_range: sorted(set(ports)) of every listed port and every
      port of every listed inclusive range; ValueError (Failure) as soon as
      a part is not a number or a number-dash-number pair. */
  method ParsePortRange(spec: string) returns (r: Result<seq<int>, string>)
    ensures r.Success? <==> AllPartsParse(spec)
    ensures r.Success? ==> StrictlyAscending(r.value)
    ensures r.Success? ==> forall p :: p in r.value <==>
      exists j | 0 <= j < |SpecParts(spec)| :: PartCovers(SpecParts(spec), j, p)
  {
    var parts := SpecParts(spec);
    var ports: seq<int> := [];
    for i := 0 to |parts|
      invariant forall j | 0 <= j < i :: PartParses(parts, j)
      invariant CoveredBy(parts, i, ports)
    {
      var pp := ParsePart(parts[i]);
      if pp.None? {
        assert !PartParses(parts, i);
        return Failure("invalid literal for int() with base 10");
      }
      ghost var before := ports;
      match pp.value {
        case Single(n) =>
          ports := ports + [n];
        case Span(a, b) =>
          ports := ExtendRange(ports, a, b);
      }
      CoverStep(parts, i, before, ports);
    }
    var sorted := SortedDistinct(ports);
    return Success(sorted);
  }

  /** ports holds exactly the ports denoted by the first n parts. */
  ghost predicate CoveredBy(parts: seq<string>, n: nat, ports: seq<int>)
    requires n <= |parts|
  {
    forall p :: p in ports <==> exists j | 0 <= j < n :: PartCovers(parts, j, p)
  }

  lemma CoverStep(parts: seq<string>, i: nat, before: seq<int>, after: seq<int>)
    requires i < |parts| && ParsePart(parts[i]).Some?
    requires CoveredBy(parts, i, before)
    requires forall p :: p in after <==> p in before || Covers(ParsePart(parts[i]).value, p)
    ensures CoveredBy(parts, i + 1, after)
  {
    forall p ensures p in after <==> exists j | 0 <= j < i + 1 :: PartCovers(parts, j, p) {
      if PartCovers(parts, i, p) {
        assert p in after;
      }
    }
  }

  /** The part "a-b" denotes the span a..b, for any integer b: "5--3" is
      the empty span 5..-3 rather than an error. */
  lemma SpanPartParses(a: nat, b: int)
    ensures ParsePart(NatToString(a) + "-" + IntToString(b)) == Some(Span(a, b))
  {
    var lo, hi := NatToString(a), IntToString(b);
    DigitsHaveNoSeparators(lo);
    SplitOnceAt(lo, '-', hi);
    assert SplitOnce(lo + "-" + hi, '-') == Some((lo, hi));
    ParseIntOfIntToString(a);
    assert IntToString(a) == lo;
    ParseIntOfIntToString(b);
  }

  /** int() accepts an underscore between digits, so the part "1_000"
      denotes port 1000. */
  lemma GroupedPortParses(a: string, b: string)
    requires IsDigits(a) && IsDigits(b)
    ensures ParsePart(a + "_" + b) == Some(Single(DigitsValue(a + b)))
  {
    var t := a + "_" + b;
    DigitsHaveNoSeparators(a);
    DigitsHaveNoSeparators(b);
    assert NoSpaceAtEnds(t) by { assert t[0] == a[0] && t[|t| - 1] == b[|b| - 1]; }
    StripUnchanged(t);
    assert '-' !in t by {
      assert forall k | 0 <= k < |a| :: t[k] == a[k];
      assert forall k | |a| < k < |t| :: t[k] == b[k - |a| - 1];
    }
    GroupedDigitsParse(a, b);
  }

  /** A span whose start exceeds its end denotes no port. */
  lemma DescendingSpanEmpty(a: int, b: int, p: int)
    requires a > b
    ensures !Covers(Span(a, b), p)
  {
  }

  /** A trailing comma is accepted by validate_ports but makes
      parse_port_range raise, since int('') fails. */
  lemma TrailingCommaDisagreement(n: nat)
    requires InPortRange(n)
    ensures ValidatePorts(NatToString(n) + ",")
    ensures !AllPartsParse(NatToString(n) + ",")
  {
    var a := NatToString(n);
    var s := a + ",";
    DigitsHaveNoSeparators(a);
    assert Join([a, ""], ",") == s;
    SplitJoin([a, ""], ',');
    assert SpecParts(s) == [a, ""];
    assert NoSpaceAtEnds(s) by { assert s[0] == a[0]; }
    StripUnchanged(s);
    StripUnchanged(a);
    DigitsNotKeyword(s);
    NatToStringValue(n);
    assert PortPartOk(Strip(SpecParts(s)[0]));
    assert Strip(SpecParts(s)[1]) == "";
    assert ParsePart("") == None by {
      assert Strip("") == "";
      assert Split("", '-') == [""];
    }
    assert !PartParses(SpecParts(s), 1);
  }

  // ---------------------------------------------------------------------
  // truncate_string

  /** text[:stop] with Python's rule for a negative stop. */
  function PyPrefix(text: string, stop: int): (r: string)
    ensures |r| <= |text|
    ensures r == text[..|r|]
    ensures 0 <= stop <= |text| ==> |r| == stop
  {
    if stop >= 0 then (if stop <= |text| then text[..stop] else text)
    else if |text| + stop >= 0 then text[..|text| + stop]
    else []
  }

  /** truncate_string as written: text[:max_length - len(suffix)] + suffix
      once the text is too long. */
  function TruncateString(text: string, maxLength: int, suffix: string): (r: string)
    ensures |text| <= maxLength ==> r == text
    ensures |text| > maxLength >= |suffix| ==>
      |r| == maxLength && r == text[..maxLength - |suffix|] + suffix
    ensures |text| > maxLength ==> EndsWith(r, suffix)
  {
    if |text| <= maxLength then text
    else PyPrefix(text, maxLength - |suffix|) + suffix
  }

  /** When max_length is shorter than the suffix the slice end is negative
      and the "truncated" text is longer than max_length. */
  lemma TruncateOverlong()
    ensures TruncateString("abcdef", 2, "...") == "abcde..."
    ensures |TruncateString("abcdef", 2, "...")| > 2
  {
    assert PyPrefix("abcdef", -1) == "abcde";
  }

  /** truncate_string as evidently intended: never longer than
      max_length; the suffix is dropped when it does not fit. */
  function TruncateStringBounded(text: string, maxLength: int, suffix: string): (r: string)
    ensures |text| <= maxLength ==> r == text
    ensures |r| <= |text| || |r| <= maxLength
    ensures maxLength >= 0 ==> |r| <= maxLength || r == text
    ensures |text| > maxLength ==> |r| <= if maxLength < 0 then 0 else maxLength
    ensures |text| > maxLength >= |suffix| ==> r == TruncateString(text, maxLength, suffix)
    ensures |text| > maxLength && maxLength < |suffix| ==> r == text[..|r|]
  {
    if |text| <= maxLength then text
    else if maxLength < |suffix| then PyPrefix(text, if maxLength < 0 then 0 else maxLength)
    else PyPrefix(text, maxLength - |suffix|) + suffix
  }

  // ---------------------------------------------------------------------
  // merge_dictionaries

  /** The map left by updating an empty dict with each of dicts in turn. */
  function Merged<K, V>(dicts: seq<map<K, V>>): (r: map<K, V>)
    ensures |dicts| > 0 ==> forall k | k in dicts[|dicts| - 1] :: k in r && r[k] == dicts[|dicts| - 1][k]
    ensures |dicts| == 0 ==> r == map[]
    decreases |dicts|
  {
    if |dicts| == 0 then map[] else Merged(dicts[..|dicts| - 1]) + dicts[|dicts| - 1]
  }

  /** A key is merged iff some dict has it, and its value comes from the
      last dict that has it. */
  lemma MergedFacts<K, V>(dicts: seq<map<K, V>>)
    ensures forall k :: k in Merged(dicts) <==> exists i | 0 <= i < |dicts| :: k in dicts[i]
    ensures forall k | k in Merged(dicts) :: exists i | 0 <= i < |dicts| ::
      k in dicts[i] && Merged(dicts)[k] == dicts[i][k] && forall j | i < j < |dicts| :: k !in dicts[j]
  {
    forall k ensures k in Merged(dicts) <==> exists i | 0 <= i < |dicts| :: k in dicts[i] {
      MergedKey(dicts, k);
    }
    forall k | k in Merged(dicts) ensures exists i | 0 <= i < |dicts| ::
      k in dicts[i] && Merged(dicts)[k] == dicts[i][k] && forall j | i < j < |dicts| :: k !in dicts[j]
    {
      var i := MergedSource(dicts, k);
    }
  }

  lemma {:induction false} MergedKey<K, V>(dicts: seq<map<K, V>>, k: K)
    ensures k in Merged(dicts) <==> exists i | 0 <= i < |dicts| :: k in dicts[i]
    decreases |dicts|
  {
    if |dicts| > 0 {
      var n := |dicts| - 1;
      var init := dicts[..n];
      MergedKey(init, k);
      if k in dicts[n] {
      } else if k in Merged(init) {
        var i :| 0 <= i < n && k in init[i];
        assert k in dicts[i];
      } else {
        forall i | 0 <= i < n ensures k !in dicts[i] {
          assert dicts[i] == init[i];
        }
      }
    }
  }

  /** The last dict that holds a merged key, and the value comes from it. */
  lemma {:induction false} MergedSource<K, V>(dicts: seq<map<K, V>>, k: K) returns (i: nat)
    requires k in Merged(dicts)
    ensures i < |dicts| && k in dicts[i] && Merged(dicts)[k] == dicts[i][k]
    ensures forall j | i < j < |dicts| :: k !in dicts[j]
    decreases |dicts|
  {
    var n := |dicts| - 1;
    var init := dicts[..n];
    if k in dicts[n] {
      i := n;
    } else {
      i := MergedSource(init, k);
      assert dicts[i] == init[i];
      forall j | i < j < n ensures k !in dicts[j] {
        assert dicts[j] == init[j];
      }
    }
  }

  /** merge_dictionaries: result.update(d) for every non-empty d in turn. */
  method MergeDictionaries<K, V>(dicts: seq<map<K, V>>) returns (r: map<K, V>)
    ensures r == Merged(dicts)
    ensures forall k :: k in r <==> exists i | 0 <= i < |dicts| :: k in dicts[i]
    ensures forall k | k in r :: exists i | 0 <= i < |dicts| ::
      k in dicts[i] && r[k] == dicts[i][k] && forall j | i < j < |dicts| :: k !in dicts[j]
  {
    r := map[];
    for i := 0 to |dicts|
      invariant r == Merged(dicts[..i])
    {
      assert dicts[..i + 1][..i] == dicts[..i];
      if dicts[i] != map[] {
        r := r + dicts[i];
      } else {
        assert r + dicts[i] == r;
      }
    }
    assert dicts[..|dicts|] == dicts;
    MergedFacts(dicts);
  }

  // ---------------------------------------------------------------------
  // retry_operation

  /** The outcome of one call of the retried function. */
  datatype Attempt<T> = Returned(value: T) | Raised(error: string)

  /** What retry_operation does: return a value, re-raise the last
      exception, or fall off the end of an empty loop and return None. */
  datatype RetryOutcome<T> = Value(value: T) | Reraised(error: string) | NoneReturned

  function Pow2(n: nat): (r: nat)
    ensures r >= 1
  {
    if n == 0 then 1 else 2 * Pow2(n - 1)
  }

  /** The delay before retry k + 1: delay * (2 ** k). */
  function Backoff(delay: real, k: nat): (d: real)
    ensures k == 0 ==> d == delay
    ensures delay >= 0.0 ==> d >= delay
  {
    delay * Pow2(k) as real
  }

  /** Each delay is twice the one before. */
  lemma BackoffDoubles(delay: real, k: nat)
    requires k > 0
    ensures Backoff(delay, k) == 2.0 * Backoff(delay, k - 1)
  {
    var p := Pow2(k - 1) as real;
    assert Pow2(k) as real == 2.0 * p;
    assert delay * (2.0 * p) == 2.0 * (delay * p);
  }

  /** retry_operation. func(k) is the outcome of the k-th call (from 0);
      sleeps are the delays passed to time.sleep, in order. */
  method RetryOperation<T>(func: nat -> Attempt<T>, maxRetries: int, delay: real)
    returns (out: RetryOutcome<T>, calls: nat, sleeps: seq<real>)
    ensures maxRetries <= 0 ==> out == NoneReturned && calls == 0 && sleeps == []
    ensures maxRetries > 0 ==> 1 <= calls <= maxRetries
    ensures forall k | 0 <= k < calls - 1 :: func(k).Raised?
    ensures calls > 0 && func(calls - 1).Returned? ==> out == Value(func(calls - 1).value)
    ensures calls > 0 && func(calls - 1).Raised? ==>
      out == Reraised(func(calls - 1).error) && calls == maxRetries
    ensures calls > 0 ==> |sleeps| == calls - 1
    ensures forall k | 0 <= k < |sleeps| :: sleeps[k] == Backoff(delay, k)
  {
    sleeps := [];
    var attempt: nat := 0;
    while attempt < maxRetries
      invariant maxRetries <= 0 || attempt < maxRetries
      invariant forall k | 0 <= k < attempt :: func(k).Raised?
      invariant |sleeps| == attempt
      invariant forall k | 0 <= k < |sleeps| :: sleeps[k] == Backoff(delay, k)
      decreases maxRetries - attempt
    {
      match func(attempt) {
        case Returned(v) =>
          return Value(v), attempt + 1, sleeps;
        case Raised(e) =>
          if attempt == maxRetries - 1 {
            return Reraised(e), attempt + 1, sleeps;
          }
          sleeps := sleeps + [Backoff(delay, attempt)];
          attempt := attempt + 1;
      }
    }
    return NoneReturned, 0, [];
  }
}
