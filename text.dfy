/** Python string operations the source relies on, restricted to ASCII:
    str.strip, str.lower, str.isdigit, int(), str(int), str.split,
    str.join, substring search, str.replace and str.title. */
module Text {
  import opened Wrappers

  /** Python's str.isspace on the ASCII range: tab to carriage return,
      the four separators 0x1C-0x1F and the space. */
  predicate IsSpace(c: char)
  {
    ('\t' <= c <= '\r') || ('\U{001C}' <= c <= ' ')
  }

  predicate IsDigit(c: char)
  {
    '0' <= c <= '9'
  }

  predicate IsAsciiLetter(c: char)
  {
    ('a' <= c <= 'z') || ('A' <= c <= 'Z')
  }

  predicate IsAlnum(c: char)
  {
    IsDigit(c) || IsAsciiLetter(c)
  }

  /** str.isdigit: non-empty and every character a digit. */
  predicate IsDigits(s: string)
  {
    |s| > 0 && forall i | 0 <= i < |s| :: IsDigit(s[i])
  }

  predicate NoSpaceAtEnds(s: string)
  {
    s == [] || (!IsSpace(s[0]) && !IsSpace(s[|s| - 1]))
  }

  function StripLeft(s: string): string
  {
    if |s| > 0 && IsSpace(s[0]) then StripLeft(s[1..]) else s
  }

  function StripRight(s: string): string
  {
    if |s| > 0 && IsSpace(s[|s| - 1]) then StripRight(s[..|s| - 1]) else s
  }

  lemma {:induction false} StripLeftFacts(s: string)
    ensures var r := StripLeft(s);
      |r| <= |s| && r == s[|s| - |r|..]
      && (forall k | 0 <= k < |s| - |r| :: IsSpace(s[k]))
      && (r == [] || !IsSpace(r[0]))
    decreases |s|
  {
    if |s| > 0 && IsSpace(s[0]) {
      StripLeftFacts(s[1..]);
    }
  }

  lemma {:induction false} StripRightFacts(s: string)
    ensures var r := StripRight(s);
      |r| <= |s| && r == s[..|r|]
      && (forall k | |r| <= k < |s| :: IsSpace(s[k]))
      && (r == [] || !IsSpace(r[|r| - 1]))
    decreases |s|
  {
    if |s| > 0 && IsSpace(s[|s| - 1]) {
      StripRightFacts(s[..|s| - 1]);
    }
  }

  /** str.strip(): the longest slice of s with no white space at either end. */
  function Strip(s: string): (r: string)
    ensures |r| <= |s|
    ensures NoSpaceAtEnds(r)
    ensures r == [] <==> forall k | 0 <= k < |s| :: IsSpace(s[k])
  {
    StripSlice(s);
    StripRight(StripLeft(s))
  }

  lemma StripSlice(s: string)
    ensures var r := StripRight(StripLeft(s));
      |r| <= |s| && NoSpaceAtEnds(r) &&
      (r == [] <==> forall k | 0 <= k < |s| :: IsSpace(s[k])) &&
      forall k | 0 <= k < |r| :: r[k] in s
  {
    var l := StripLeft(s);
    var r := StripRight(l);
    StripLeftFacts(s);
    StripRightFacts(l);
    var off := |s| - |l|;
    forall k | 0 <= k < |r| ensures r[k] in s {
      assert r[k] == l[k] == s[off + k];
    }
    assert r == [] ==> l == [];
  }

  /** Every character of Strip(s) is a character of s. */
  lemma StripChars(s: string)
    ensures forall k | 0 <= k < |Strip(s)| :: Strip(s)[k] in s
  {
    StripSlice(s);
  }

  /** Every character of s that is not white space is kept by Strip. */
  lemma StripCovers(s: string)
    ensures forall c | c in s :: IsSpace(c) || c in Strip(s)
  {
    var l := StripLeft(s);
    var r := StripRight(l);
    StripLeftFacts(s);
    StripRightFacts(l);
    var off := |s| - |l|;
    forall c | c in s && !IsSpace(c) ensures c in r {
      var k :| 0 <= k < |s| && s[k] == c;
      assert off <= k;
      assert l[k - off] == c;
      assert k - off < |r|;
      assert r[k - off] == c;
    }
  }

  lemma StripUnchanged(s: string)
    requires NoSpaceAtEnds(s)
    ensures Strip(s) == s
  {
  }

  lemma StripIdempotent(s: string)
    ensures Strip(Strip(s)) == Strip(s)
  {
    StripUnchanged(Strip(s));
  }

  function LowerChar(c: char): (r: char)
    ensures IsAsciiLetter(c) ==> 'a' <= r <= 'z'
    ensures !('A' <= c <= 'Z') ==> r == c
  {
    if 'A' <= c <= 'Z' then (c as int - 'A' as int + 'a' as int) as char else c
  }

  function UpperChar(c: char): (r: char)
    ensures IsAsciiLetter(c) ==> 'A' <= r <= 'Z'
    ensures !('a' <= c <= 'z') ==> r == c
  {
    if 'a' <= c <= 'z' then (c as int - 'a' as int + 'A' as int) as char else c
  }

  /** str.lower() on ASCII letters; every other character is kept. */
  function Lower(s: string): (r: string)
    ensures |r| == |s|
    ensures forall i | 0 <= i < |s| :: r[i] == LowerChar(s[i])
  {
    seq(|s|, i requires 0 <= i < |s| => LowerChar(s[i]))
  }

  lemma LowerIdempotent(s: string)
    ensures Lower(Lower(s)) == Lower(s)
  {
  }

  /** str.title(): a letter that follows a letter is lowered, any other
      letter is raised. */
  function TitleFrom(s: string, afterLetter: bool): (r: string)
    ensures |r| == |s|
    decreases |s|
  {
    if s == [] then []
    else
      var c := if !IsAsciiLetter(s[0]) then s[0]
               else if afterLetter then LowerChar(s[0]) else UpperChar(s[0]);
      [c] + TitleFrom(s[1..], IsAsciiLetter(s[0]))
  }

  function Title(s: string): (r: string)
    ensures |r| == |s|
  {
    TitleFrom(s, false)
  }

  function DigitValue(c: char): (d: nat)
    requires IsDigit(c)
    ensures d < 10
  {
    c as int - '0' as int
  }

  /** The decimal value of a run of digits (0 for the empty run). */
  function DigitsValue(s: string): (v: nat)
    requires forall i | 0 <= i < |s| :: IsDigit(s[i])
  {
    if s == [] then 0 else DigitsValue(s[..|s| - 1]) * 10 + DigitValue(s[|s| - 1])
  }

  function DigitChar(d: nat): (c: char)
    requires d < 10
    ensures IsDigit(c) && DigitValue(c) == d
  {
    ('0' as int + d) as char
  }

  /** str(n) for a natural number: decimal digits, no leading zero. */
  function NatToString(n: nat): (s: string)
    ensures IsDigits(s)
    ensures s[0] == '0' ==> n == 0
    decreases n
  {
    if n < 10 then [DigitChar(n)] else NatToString(n / 10) + [DigitChar(n % 10)]
  }

  lemma {:induction false} NatToStringValue(n: nat)
    ensures DigitsValue(NatToString(n)) == n
    decreases n
  {
    var s := NatToString(n);
    if n >= 10 {
      NatToStringValue(n / 10);
      assert s[..|s| - 1] == NatToString(n / 10);
    }
  }

  lemma NatToStringInjective(m: nat, n: nat)
    requires NatToString(m) == NatToString(n)
    ensures m == n
  {
    NatToStringValue(m);
    NatToStringValue(n);
  }

  /** str(i) for any integer. */
  function IntToString(i: int): (s: string)
    ensures |s| > 0 && NoSpaceAtEnds(s)
  {
    if i < 0 then "-" + NatToString(-i) else NatToString(i)
  }

  /** The digit part int() accepts: digits, where a single underscore may
      stand between two digits ("1_000"). */
  predicate IsGroupedDigits(s: string)
  {
    |s| > 0 && IsDigit(s[0]) && IsDigit(s[|s| - 1]) &&
    (forall k | 0 <= k < |s| :: IsDigit(s[k]) || s[k] == '_') &&
    (forall k | 0 <= k < |s| - 1 :: s[k] == '_' ==> IsDigit(s[k + 1]))
  }

  /** The text with its underscores removed. */
  function Ungrouped(s: string): (d: string)
    ensures |d| <= |s|
    ensures forall k | 0 <= k < |d| :: d[k] != '_'
    ensures (forall k | 0 <= k < |s| :: IsDigit(s[k]) || s[k] == '_') ==>
      forall k | 0 <= k < |d| :: IsDigit(d[k])
    decreases |s|
  {
    if s == [] then [] else (if s[0] == '_' then [] else [s[0]]) + Ungrouped(s[1..])
  }

  lemma {:induction false} UngroupedDigits(s: string)
    requires forall k | 0 <= k < |s| :: IsDigit(s[k])
    ensures Ungrouped(s) == s
    decreases |s|
  {
    if s != [] {
      UngroupedDigits(s[1..]);
    }
  }

  lemma {:induction false} UngroupedAppend(a: string, b: string)
    ensures Ungrouped(a + b) == Ungrouped(a) + Ungrouped(b)
    decreases |a|
  {
    if a != [] {
      assert (a + b)[0] == a[0];
      assert (a + b)[1..] == a[1..] + b;
      UngroupedAppend(a[1..], b);
    } else {
      assert a + b == b;
    }
  }

  /** The value of a grouped digit string. */
  function GroupedValue(s: string): nat
    requires IsGroupedDigits(s)
  {
    DigitsValue(Ungrouped(s))
  }

  /** int() of a text with no surrounding white space: an optional sign
      and grouped digits. */
  function ParseStripped(t: string): Option<int>
  {
    if |t| > 0 && (t[0] == '-' || t[0] == '+') then
      var body := t[1..];
      if IsGroupedDigits(body) then
        var v: int := GroupedValue(body);
        Some(if t[0] == '-' then -v else v)
      else None
    else if IsGroupedDigits(t) then Some(GroupedValue(t))
    else None
  }

  /** Digits joined by one underscore parse to the value of the digits
      without it: int("1_000") is 1000. */
  lemma GroupedDigitsParse(a: string, b: string)
    requires IsDigits(a) && IsDigits(b)
    ensures ParseStripped(a + "_" + b) == Some(DigitsValue(a + b))
  {
    var t := a + "_" + b;
    assert IsGroupedDigits(t) by {
      assert t[0] == a[0] && t[|t| - 1] == b[|b| - 1];
      assert forall k | 0 <= k < |a| :: t[k] == a[k];
      assert forall k | |a| < k < |t| :: t[k] == b[k - |a| - 1];
      assert t[|a|] == '_' && t[|a| + 1] == b[0];
    }
    calc {
      Ungrouped(t);
      { assert t == a + ("_" + b); UngroupedAppend(a, "_" + b); }
      Ungrouped(a) + Ungrouped("_" + b);
      { UngroupedAppend("_", b); assert Ungrouped("_") == []; }
      Ungrouped(a) + Ungrouped(b);
      { UngroupedDigits(a); UngroupedDigits(b); }
      a + b;
    }
  }

  /** A doubled underscore is refused, as int("1__0") raises. */
  lemma DoubleUnderscoreRejected(a: string, b: string)
    requires IsDigits(a) && IsDigits(b)
    ensures ParseStripped(a + "__" + b).None?
  {
    var t := a + "__" + b;
    assert t[0] == a[0];
    assert t[|a|] == '_' && t[|a| + 1] == '_';
  }

  /** int(text): optional surrounding white space, an optional sign and at
      least one digit, with single underscores allowed between digits;
      None where Python raises ValueError. */
  function ParseInt(text: string): Option<int>
  {
    ParseStripped(Strip(text))
  }

  lemma ParseIntOfIntToString(i: int)
    ensures ParseInt(IntToString(i)) == Some(i)
  {
    var s := IntToString(i);
    StripUnchanged(s);
    if i < 0 {
      NatToStringValue(-i);
      assert s[1..] == NatToString(-i);
      UngroupedDigits(NatToString(-i));
    } else {
      NatToStringValue(i);
      UngroupedDigits(NatToString(i));
    }
  }

  lemma ParseIntRejectsEmpty(text: string)
    requires forall k | 0 <= k < |text| :: IsSpace(text[k])
    ensures ParseInt(text).None?
  {
  }

  /** str.split(sep) with an explicit one-character separator: always at
      least one part, and empty parts are kept. */
  function Split(s: string, sep: char): (parts: seq<string>)
    ensures |parts| >= 1
    ensures forall i | 0 <= i < |parts| :: sep !in parts[i]
    decreases |s|
  {
    if s == [] then [""]
    else
      var rest := Split(s[1..], sep);
      if s[0] == sep then [""] + rest else [[s[0]] + rest[0]] + rest[1..]
  }

  predicate InSomePart(c: char, parts: seq<string>)
  {
    exists i | 0 <= i < |parts| :: c in parts[i]
  }

  /** Every character of s is the separator or a character of a part. */
  lemma {:induction false} SplitCovers(s: string, sep: char)
    ensures forall c | c in s :: c == sep || InSomePart(c, Split(s, sep))
    decreases |s|
  {
    if s != [] {
      SplitCovers(s[1..], sep);
      var rest := Split(s[1..], sep);
      var parts := Split(s, sep);
      forall c | c in s ensures c == sep || InSomePart(c, parts) {
        if c != sep {
          if c == s[0] {
            assert parts[0] == [s[0]] + rest[0];
            assert c in parts[0];
          } else {
            assert s == [s[0]] + s[1..];
            assert c in s[1..];
            var i :| 0 <= i < |rest| && c in rest[i];
            if s[0] == sep {
              assert parts[i + 1] == rest[i];
              assert c in parts[i + 1];
            } else if i == 0 {
              assert parts[0] == [s[0]] + rest[0];
              assert c in parts[0];
            } else {
              assert parts[i] == rest[i];
              assert c in parts[i];
            }
          }
        }
      }
    }
  }

  /** sep.join(parts). */
  function Join(parts: seq<string>, sep: string): (s: string)
    decreases |parts|
  {
    if parts == [] then ""
    else if |parts| == 1 then parts[0]
    else parts[0] + sep + Join(parts[1..], sep)
  }

  lemma {:induction false} JoinSplit(s: string, sep: char)
    ensures Join(Split(s, sep), [sep]) == s
    decreases |s|
  {
    if s != [] {
      JoinSplit(s[1..], sep);
      var rest := Split(s[1..], sep);
      if s[0] == sep {
        assert Join([""] + rest, [sep]) == [sep] + Join(rest, [sep]);
      } else {
        var parts := [[s[0]] + rest[0]] + rest[1..];
        assert parts[1..] == rest[1..];
        if |rest| == 1 {
          assert Join(parts, [sep]) == [s[0]] + rest[0];
        } else {
          assert Join(parts, [sep]) == [s[0]] + rest[0] + [sep] + Join(rest[1..], [sep]);
          assert Join(rest, [sep]) == rest[0] + [sep] + Join(rest[1..], [sep]);
        }
      }
    }
  }

  lemma {:induction false} SplitJoin(parts: seq<string>, sep: char)
    requires |parts| >= 1
    requires forall i | 0 <= i < |parts| :: sep !in parts[i]
    ensures Split(Join(parts, [sep]), sep) == parts
    decreases |parts|, |parts[0]|
  {
    var s := Join(parts, [sep]);
    if parts[0] == [] {
      if |parts| > 1 {
        assert s == [sep] + Join(parts[1..], [sep]);
        assert s[1..] == Join(parts[1..], [sep]);
        SplitJoin(parts[1..], sep);
        assert parts == [""] + parts[1..];
      }
    } else {
      var c := parts[0][0];
      assert c != sep by { assert c in parts[0]; }
      var tail := [parts[0][1..]] + parts[1..];
      forall i | 0 <= i < |tail| ensures sep !in tail[i] {
        if i == 0 {
          assert forall x | x in parts[0][1..] :: x in parts[0];
        } else {
          assert tail[i] == parts[i];
        }
      }
      assert tail[1..] == parts[1..];
      if |parts| == 1 {
        assert s == parts[0];
        assert Join(tail, [sep]) == parts[0][1..];
      } else {
        assert s == parts[0] + [sep] + Join(parts[1..], [sep]);
        assert Join(tail, [sep]) == parts[0][1..] + [sep] + Join(parts[1..], [sep]);
      }
      assert s[1..] == Join(tail, [sep]);
      SplitJoin(tail, sep);
      assert [parts[0][0]] + parts[0][1..] == parts[0];
    }
  }

  /** str.split(sep, 1): None when sep does not occur, otherwise the text
      before its first occurrence and the text after it. */
  function SplitOnce(s: string, sep: char): (r: Option<(string, string)>)
    ensures r.None? <==> sep !in s
    ensures r.Some? ==> sep !in r.value.0 && s == r.value.0 + [sep] + r.value.1
  {
    var parts := Split(s, sep);
    JoinSplit(s, sep);
    if |parts| == 1 then
      assert s == parts[0];
      None
    else
      assert s == parts[0] + [sep] + Join(parts[1..], [sep]);
      Some((parts[0], Join(parts[1..], [sep])))
  }

  /** The first occurrence of sep is found wherever the text before it is
      free of sep. */
  lemma SplitOnceAt(a: string, sep: char, b: string)
    requires sep !in a
    ensures SplitOnce(a + [sep] + b, sep) == Some((a, b))
  {
    var s := a + [sep] + b;
    assert s[|a|] == sep;
    var r := SplitOnce(s, sep);
    var x := r.value.0;
    assert forall k | 0 <= k < |a| :: s[k] == a[k] && s[k] != sep;
    assert forall k | 0 <= k < |x| :: s[k] == x[k] && s[k] != sep;
    assert s[|x|] == sep;
    assert |x| == |a|;
    assert x == s[..|a|] == a;
    assert r.value.1 == s[|a| + 1..] == b;
  }

  /** pat in s, for strings. */
  predicate Contains(s: string, pat: string)
  {
    exists i | 0 <= i <= |s| :: pat <= s[i..]
  }

  predicate StartsWith(s: string, prefix: string)
  {
    prefix <= s
  }

  predicate EndsWith(s: string, suffix: string)
  {
    |suffix| <= |s| && s[|s| - |suffix|..] == suffix
  }

  lemma ContainsAppend(a: string, pat: string, b: string)
    ensures Contains(a + pat + b, pat)
  {
    assert pat <= (a + pat + b)[|a|..];
  }

  /** s.replace(pat, rep): a left-to-right scan that replaces
      non-overlapping occurrences of a non-empty pattern. */
  function ReplaceAll(s: string, pat: string, rep: string): (r: string)
    requires pat != []
    ensures rep == [] ==> |r| <= |s| && forall k | 0 <= k < |r| :: r[k] in s
    decreases |s|
  {
    if |s| < |pat| then s
    else if pat <= s then rep + ReplaceAll(s[|pat|..], pat, rep)
    else [s[0]] + ReplaceAll(s[1..], pat, rep)
  }

  lemma {:induction false} ReplaceAllAbsent(s: string, pat: string, rep: string)
    requires pat != [] && !Contains(s, pat)
    ensures ReplaceAll(s, pat, rep) == s
    decreases |s|
  {
    if |s| >= |pat| {
      assert !(pat <= s[0..]);
      assert s[0..] == s;
      assert !Contains(s[1..], pat) by {
        forall i | 0 <= i <= |s[1..]| ensures !(pat <= s[1..][i..]) {
          assert s[1..][i..] == s[i + 1..];
        }
      }
      ReplaceAllAbsent(s[1..], pat, rep);
    }
  }

  /** Replaces every occurrence of one character by another. */
  function ReplaceChar(s: string, from: char, to: char): (r: string)
    ensures |r| == |s|
    ensures from != to ==> from !in r
    ensures forall i | 0 <= i < |s| :: r[i] == (if s[i] == from then to else s[i])
  {
    seq(|s|, i requires 0 <= i < |s| => if s[i] == from then to else s[i])
  }
}
