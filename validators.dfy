/** Input validation for scan targets, port specifications, free-form nmap
    arguments and output file names (nmap_ai/utils/validators.py).
    The standard library's IP-address and IP-network parsers are
    parameters: isIpAddress and isIpNetwork say whether ipaddress accepts
    the text. */
module Validators {
  import opened Text

  /** One label of a host name: [a-zA-Z0-9]([a-zA-Z0-9-]{0,61}[a-zA-Z0-9])? */
  predicate IsLabel(l: string)
  {
    1 <= |l| <= 63
    && (forall i | 0 <= i < |l| :: IsAlnum(l[i]) || l[i] == '-')
    && IsAlnum(l[0]) && IsAlnum(l[|l| - 1])
  }

  /** The host name pattern: labels separated by single dots. */
  predicate IsHostname(s: string)
  {
    var labels := Split(s, '.');
    forall i | 0 <= i < |labels| :: IsLabel(labels[i])
  }

  /** The pattern \d+\.\d+\.\d+\.\d+-\d+ (no check of the octet values). */
  predicate IsIpRange(s: string)
  {
    var halves := Split(s, '-');
    |halves| == 2 && IsDigits(halves[1])
    && var octets := Split(halves[0], '.');
       |octets| == 4 && forall i | 0 <= i < 4 :: IsDigits(octets[i])
  }

  /** validate_target: non-empty, then after stripping an IP address, an
      IP network, a host name or an address range. */
  predicate ValidateTarget(target: string, isIpAddress: string -> bool, isIpNetwork: string -> bool)
    ensures ValidateTarget(target, isIpAddress, isIpNetwork) ==>
      Strip(target) != [] || isIpAddress("") || isIpNetwork("")
  {
    EmptyIsNoName();
    target != []
    && var t := Strip(target);
       isIpAddress(t) || isIpNetwork(t) || IsHostname(t) || IsIpRange(t)
  }

  /** The empty text is neither a host name nor an address range. */
  lemma EmptyIsNoName()
    ensures !IsHostname("") && !IsIpRange("")
  {
    assert Split("", '.') == [""];
    assert !IsLabel(Split("", '.')[0]);
    assert Split("", '-') == [""];
  }

  lemma SplitNoSep(s: string, sep: char)
    requires sep !in s
    ensures Split(s, sep) == [s]
  {
    SplitJoin([s], sep);
  }

  lemma {:induction false} JoinEnds(parts: seq<string>, sep: string)
    requires |parts| >= 1
    requires forall i | 0 <= i < |parts| :: parts[i] != []
    ensures var s := Join(parts, sep);
      |s| > 0 && s[0] == parts[0][0] && s[|s| - 1] == parts[|parts| - 1][|parts[|parts| - 1]| - 1]
    decreases |parts|
  {
    if |parts| > 1 {
      JoinEnds(parts[1..], sep);
    }
  }

  /** A host name label holds no dot and starts and ends with a letter or
      digit. */
  lemma LabelFacts(l: string)
    requires IsLabel(l)
    ensures l != [] && '.' !in l && IsAlnum(l[0]) && IsAlnum(l[|l| - 1])
  {
    forall k | 0 <= k < |l| ensures l[k] != '.' {
      assert IsAlnum(l[k]) || l[k] == '-';
    }
  }

  /** Dot-joined labels form a trimmed host name. */
  lemma JoinedLabels(labels: seq<string>)
    requires |labels| >= 1
    requires forall i | 0 <= i < |labels| :: IsLabel(labels[i])
    ensures var s := Join(labels, "."); s != [] && NoSpaceAtEnds(s) && IsHostname(s)
  {
    JoinedLabelsEnds(labels);
    JoinedLabelsSplit(labels);
  }

  lemma JoinedLabelsEnds(labels: seq<string>)
    requires |labels| >= 1
    requires forall i | 0 <= i < |labels| :: IsLabel(labels[i])
    ensures var s := Join(labels, "."); s != [] && NoSpaceAtEnds(s)
  {
    forall i | 0 <= i < |labels| ensures labels[i] != [] {
      LabelFacts(labels[i]);
    }
    var s := Join(labels, ".");
    JoinEnds(labels, ".");
    LabelFacts(labels[0]);
    LabelFacts(labels[|labels| - 1]);
    assert IsAlnum(s[0]) && IsAlnum(s[|s| - 1]);
  }

  lemma JoinedLabelsSplit(labels: seq<string>)
    requires |labels| >= 1
    requires forall i | 0 <= i < |labels| :: IsLabel(labels[i])
    ensures IsHostname(Join(labels, "."))
  {
    forall i | 0 <= i < |labels| ensures '.' !in labels[i] {
      LabelFacts(labels[i]);
    }
    SplitJoin(labels, '.');
  }

  /** Every well-formed dotted host name is accepted, whatever the IP
      parsers say. */
  lemma HostnameAccepted(labels: seq<string>, isIpAddress: string -> bool, isIpNetwork: string -> bool)
    requires |labels| >= 1
    requires forall i | 0 <= i < |labels| :: IsLabel(labels[i])
    ensures ValidateTarget(Join(labels, "."), isIpAddress, isIpNetwork)
  {
    JoinedLabels(labels);
    StripUnchanged(Join(labels, "."));
  }

  /** A dotted quad of digit runs, a dash and a digit run is accepted even
      when the numbers are not octets (for instance 999.1.1.1-5). */
  lemma RangeFormAccepted(a: string, b: string, c: string, d: string, e: string,
                          isIpAddress: string -> bool, isIpNetwork: string -> bool)
    requires IsDigits(a) && IsDigits(b) && IsDigits(c) && IsDigits(d) && IsDigits(e)
    ensures ValidateTarget(a + "." + b + "." + c + "." + d + "-" + e, isIpAddress, isIpNetwork)
  {
    var left := a + "." + b + "." + c + "." + d;
    var s := left + "-" + e;
    assert s == a + "." + b + "." + c + "." + d + "-" + e;
    assert NoSpaceAtEnds(s) by {
      assert s[0] == a[0];
      assert s[|s| - 1] == e[|e| - 1];
    }
    StripUnchanged(s);
    var octets := [a, b, c, d];
    Join4(a, b, c, d, ".");
    forall i | 0 <= i < 4 ensures '.' !in octets[i] && '-' !in octets[i] {
      DigitsHaveNoSeparators(octets[i]);
    }
    SplitJoin(octets, '.');
    NoDashInQuad(a, b, c, d);
    DigitsHaveNoSeparators(e);
    assert Join([left, e], "-") == s;
    SplitJoin([left, e], '-');
  }

  /** Four digit runs joined by dots hold no dash. */
  lemma NoDashInQuad(a: string, b: string, c: string, d: string)
    requires IsDigits(a) && IsDigits(b) && IsDigits(c) && IsDigits(d)
    ensures '-' !in a + "." + b + "." + c + "." + d
  {
    DigitsHaveNoSeparators(a);
    DigitsHaveNoSeparators(b);
    DigitsHaveNoSeparators(c);
    DigitsHaveNoSeparators(d);
    var left := a + "." + b + "." + c + "." + d;
    forall k | 0 <= k < |left| ensures left[k] != '-' {
      if k < |a| { assert left[k] == a[k]; }
      else if k == |a| { }
      else if k < |a| + 1 + |b| { assert left[k] == b[k - |a| - 1]; }
      else if k == |a| + 1 + |b| { }
      else if k < |a| + 2 + |b| + |c| { assert left[k] == c[k - |a| - 2 - |b|]; }
      else if k == |a| + 2 + |b| + |c| { }
      else { assert left[k] == d[k - |a| - 3 - |b| - |c|]; }
    }
  }

  lemma Join4(a: string, b: string, c: string, d: string, sep: string)
    ensures Join([a, b, c, d], sep) == a + sep + b + sep + c + sep + d
  {
    assert [a, b, c, d][1..] == [b, c, d];
    assert [b, c, d][1..] == [c, d];
    assert [c, d][1..] == [d];
    assert Join([c, d], sep) == c + sep + d;
    assert Join([b, c, d], sep) == b + sep + (c + sep + d);
  }

  /** In the range form every dot-separated label starts and ends with a
      digit. */
  lemma IpRangeLabels(t: string)
    requires IsIpRange(t)
    ensures var labels := Split(t, '.');
      forall i | 0 <= i < |labels| :: labels[i] != [] && IsDigit(labels[i][0]) && IsDigit(labels[i][|labels[i]| - 1])
  {
    var labels, o3, e := IpRangeParts(t);
    RangeLastLabel(o3, e);
    forall i | 0 <= i < 3 ensures '.' !in labels[i] {
      DigitsHaveNoSeparators(labels[i]);
    }
    SplitJoin(labels, '.');
  }

  /** The range form is four dot-separated labels, the last of which is
      the fourth octet, '-' and the end of the range. */
  lemma IpRangeParts(t: string) returns (labels: seq<string>, o3: string, e: string)
    requires IsIpRange(t)
    ensures |labels| == 4 && Join(labels, ".") == t
    ensures forall i | 0 <= i < 3 :: IsDigits(labels[i])
    ensures IsDigits(o3) && IsDigits(e) && labels[3] == o3 + "-" + e
  {
    var halves := Split(t, '-');
    var h0 := halves[0];
    e := halves[1];
    JoinSplit(t, '-');
    assert halves[1..] == [e];
    assert t == h0 + "-" + e;
    var o := Split(h0, '.');
    JoinSplit(h0, '.');
    var o0, o1, o2 := o[0], o[1], o[2];
    o3 := o[3];
    assert o == [o0, o1, o2, o3];
    Join4(o0, o1, o2, o3, ".");
    labels := [o0, o1, o2, o3 + "-" + e];
    Join4(o0, o1, o2, o3 + "-" + e, ".");
  }

  lemma RangeLastLabel(o3: string, e: string)
    requires IsDigits(o3) && IsDigits(e)
    ensures var last := o3 + "-" + e;
      '.' !in last && IsDigit(last[0]) && IsDigit(last[|last| - 1])
  {
    var last := o3 + "-" + e;
    DigitsHaveNoSeparators(e);
    DigitsHaveNoSeparators(o3);
    forall k | 0 <= k < |last| ensures last[k] != '.' {
      if k < |o3| { assert last[k] == o3[k]; }
      else if k > |o3| { assert last[k] == e[k - |o3| - 1]; }
    }
    assert last[|last| - 1] == e[|e| - 1];
  }

  /** A name with a label that starts or ends with '-' is rejected unless
      the IP parsers accept it. */
  lemma HyphenEdgedLabelRejected(target: string, k: nat, isIpAddress: string -> bool, isIpNetwork: string -> bool)
    requires var labels := Split(Strip(target), '.');
      k < |labels| && labels[k] != [] && (labels[k][0] == '-' || labels[k][|labels[k]| - 1] == '-')
    requires !isIpAddress(Strip(target)) && !isIpNetwork(Strip(target))
    ensures !ValidateTarget(target, isIpAddress, isIpNetwork)
  {
    var t := Strip(target);
    var labels := Split(t, '.');
    assert !IsLabel(labels[k]);
    if IsIpRange(t) {
      IpRangeLabels(t);
    }
  }

  const PortKeywords: seq<string> := ["all", "top-ports", "fast"]
  const MaxPort := 65535

  predicate InPortRange(n: int)
  {
    1 <= n <= MaxPort
  }

  /** The check one stripped, non-empty comma-separated part must pass. */
  predicate PortPartOk(part: string)
  {
    if IsDigits(part) then InPortRange(DigitsValue(part))
    else if '-' in part then
      var bounds := Split(part, '-');
      |bounds| == 2 && IsDigits(bounds[0]) && IsDigits(bounds[1])
      && InPortRange(DigitsValue(bounds[0])) && InPortRange(DigitsValue(bounds[1]))
      && DigitsValue(bounds[0]) < DigitsValue(bounds[1])
    else false
  }

  /** The characters a port list can hold. */
  predicate PortSpecChar(c: char)
  {
    IsDigit(c) || c == ',' || c == '-' || IsSpace(c)
  }

  /** A part that passes PortPartOk holds only digits and dashes. */
  lemma PortPartChars(x: string)
    requires PortPartOk(x)
    ensures forall c | c in x :: IsDigit(c) || c == '-'
  {
    if !IsDigits(x) {
      var bounds := Split(x, '-');
      SplitCovers(x, '-');
      forall c | c in x ensures IsDigit(c) || c == '-' {
        if c != '-' {
          assert InSomePart(c, bounds);
          var i :| 0 <= i < |bounds| && c in bounds[i];
          assert IsDigits(bounds[i]);
        }
      }
    }
  }

  /** A list whose non-blank parts all pass holds only port characters. */
  lemma AcceptedListChars(p: string)
    ensures (var parts := Split(p, ',');
             forall i | 0 <= i < |parts| :: Strip(parts[i]) == [] || PortPartOk(Strip(parts[i]))) ==>
      forall c | c in p :: PortSpecChar(c)
  {
    var parts := Split(p, ',');
    if forall i | 0 <= i < |parts| :: Strip(parts[i]) == [] || PortPartOk(Strip(parts[i])) {
      SplitCovers(p, ',');
      forall c | c in p ensures PortSpecChar(c) {
        if c != ',' {
          assert InSomePart(c, parts);
          var i :| 0 <= i < |parts| && c in parts[i];
          StripCovers(parts[i]);
          if !IsSpace(c) {
            PortPartChars(Strip(parts[i]));
          }
        }
      }
    }
  }

  /** validate_ports: a keyword in any letter case, or a comma-separated
      list whose non-empty (stripped) parts each pass PortPartOk. */
  predicate ValidatePorts(ports: string)
    ensures ValidatePorts(ports) && Lower(Strip(ports)) !in PortKeywords ==>
      forall c | c in ports :: PortSpecChar(c)
  {
    AcceptedListChars(Strip(ports));
    StripCovers(ports);
    ports != []
    && var p := Strip(ports);
       Lower(p) in PortKeywords
       || var parts := Split(p, ',');
          forall i | 0 <= i < |parts| :: Strip(parts[i]) == [] || PortPartOk(Strip(parts[i]))
  }

  lemma DigitsNotKeyword(s: string)
    requires |s| > 0 && IsDigit(s[0])
    ensures Lower(s) !in PortKeywords
  {
    assert Lower(s)[0] == s[0];
  }

  lemma DigitsHaveNoSeparators(s: string)
    requires IsDigits(s)
    ensures ',' !in s && '-' !in s && '.' !in s && NoSpaceAtEnds(s)
  {
    forall k | 0 <= k < |s| ensures s[k] != ',' && s[k] != '-' && s[k] != '.' {
      assert IsDigit(s[k]);
    }
  }

  /** The empty text is refused, and each keyword is accepted in any
      letter case. */
  lemma KeywordPortsAccepted(keyword: string, k: nat)
    requires k < |PortKeywords| && Lower(keyword) == PortKeywords[k]
    ensures ValidatePorts(keyword)
    ensures !ValidatePorts("")
  {
    var w := PortKeywords[k];
    assert |w| > 0 && !IsSpace(w[0]) && !IsSpace(w[|w| - 1]);
    assert LowerChar(keyword[0]) == w[0] && LowerChar(keyword[|keyword| - 1]) == w[|w| - 1];
    StripUnchanged(keyword);
  }

  /** A text with no comma and no surrounding white space that is not a
      keyword is judged by PortPartOk alone. */
  lemma OnePartPorts(s: string)
    requires s != [] && ',' !in s && NoSpaceAtEnds(s) && Lower(s) !in PortKeywords
    ensures ValidatePorts(s) == PortPartOk(s)
  {
    StripUnchanged(s);
    SplitNoSep(s, ',');
    var parts := Split(Strip(s), ',');
    assert parts == [s];
    assert Strip(parts[0]) == s;
    if PortPartOk(s) {
      assert forall i | 0 <= i < |parts| :: Strip(parts[i]) == [] || PortPartOk(Strip(parts[i]));
    }
  }

  /** A single port number is valid exactly when it lies in 1..65535. */
  lemma SinglePortValid(n: nat)
    ensures ValidatePorts(NatToString(n)) <==> InPortRange(n)
  {
    var s := NatToString(n);
    NatToStringValue(n);
    DigitsHaveNoSeparators(s);
    DigitsNotKeyword(s);
    OnePartPorts(s);
  }

  /** A range a-b is valid exactly when both ends lie in 1..65535 and
      a < b (so 80-80 is refused). */
  lemma PortRangeValid(a: nat, b: nat)
    ensures ValidatePorts(NatToString(a) + "-" + NatToString(b))
            <==> InPortRange(a) && InPortRange(b) && a < b
  {
    var sa, sb := NatToString(a), NatToString(b);
    var s := sa + "-" + sb;
    NatToStringValue(a);
    NatToStringValue(b);
    DigitsHaveNoSeparators(sa);
    DigitsHaveNoSeparators(sb);
    assert NoSpaceAtEnds(s) by {
      assert s[0] == sa[0];
      assert s[|s| - 1] == sb[|sb| - 1];
    }
    DigitsNotKeyword(s);
    assert ',' !in s;
    OnePartPorts(s);
    assert !IsDigits(s) by { assert s[|sa|] == '-'; }
    assert '-' in s by { assert s[|sa|] == '-'; }
    assert Join([sa, sb], "-") == s;
    SplitJoin([sa, sb], '-');
  }

  /** The decimal text of an in-range port is a trimmed, comma-free part
      that passes the part check. */
  lemma NumberPart(n: nat)
    requires InPortRange(n)
    ensures var t := NatToString(n);
      t != [] && ',' !in t && IsDigit(t[0]) && NoSpaceAtEnds(t) && Strip(t) == t && PortPartOk(t)
  {
    var t := NatToString(n);
    NatToStringValue(n);
    DigitsHaveNoSeparators(t);
    StripUnchanged(t);
  }

  /** A comma-separated list of port numbers is valid when every number
      lies in 1..65535. */
  lemma PortListValid(ns: seq<nat>, parts: seq<string>)
    requires |ns| >= 1 && |parts| == |ns|
    requires forall i | 0 <= i < |ns| :: InPortRange(ns[i]) && parts[i] == NatToString(ns[i])
    ensures ValidatePorts(Join(parts, ","))
  {
    forall i | 0 <= i < |parts|
      ensures parts[i] != [] && ',' !in parts[i] && NoSpaceAtEnds(parts[i])
      ensures Strip(parts[i]) == parts[i] && PortPartOk(parts[i])
    {
      NumberPart(ns[i]);
    }
    var s := Join(parts, ",");
    JoinTrimmed(parts, ",");
    StripUnchanged(s);
    SplitJoin(parts, ',');
    PartsValid(s, parts);
  }

  /** Joining non-empty trimmed parts gives a non-empty trimmed text. */
  lemma JoinTrimmed(parts: seq<string>, sep: string)
    requires |parts| >= 1
    requires forall i | 0 <= i < |parts| :: parts[i] != [] && NoSpaceAtEnds(parts[i])
    ensures Join(parts, sep) != [] && NoSpaceAtEnds(Join(parts, sep))
  {
    JoinEnds(parts, sep);
    var first, last := parts[0], parts[|parts| - 1];
    assert NoSpaceAtEnds(first) && NoSpaceAtEnds(last);
  }

  /** A trimmed text whose comma-separated parts are all accepted is valid. */
  lemma PartsValid(s: string, parts: seq<string>)
    requires s != [] && Strip(s) == s && Split(s, ',') == parts
    requires forall i | 0 <= i < |parts| :: Strip(parts[i]) == parts[i] && PortPartOk(parts[i])
    ensures ValidatePorts(s)
  {
  }

  /** A part with two dashes ('a-b-c') is refused. */
  lemma ThreePiecePartRejected(a: string, b: string, c: string)
    requires '-' !in a && '-' !in b && '-' !in c
    ensures !PortPartOk(a + "-" + b + "-" + c)
  {
    var s := a + "-" + b + "-" + c;
    assert [a, b, c][1..] == [b, c] && [b, c][1..] == [c];
    assert Join([b, c], "-") == b + "-" + c;
    assert Join([a, b, c], "-") == a + "-" + (b + "-" + c);
    assert Join([a, b, c], "-") == s;
    SplitJoin([a, b, c], '-');
    assert !IsDigits(s) by { assert s[|a|] == '-'; }
  }

  /** A part holding a letter and no dash is refused. */
  lemma LetterPartRejected(part: string, k: nat)
    requires k < |part| && IsAsciiLetter(part[k]) && '-' !in part
    ensures !PortPartOk(part)
  {
    assert !IsDigit(part[k]);
  }

  /** One refused part refuses the whole list, whatever the other parts. */
  lemma BadPartRejectsList(ports: string, i: nat)
    requires ports != [] && Lower(Strip(ports)) !in PortKeywords
    requires var parts := Split(Strip(ports), ',');
      i < |parts| && Strip(parts[i]) != [] && !PortPartOk(Strip(parts[i]))
    ensures !ValidatePorts(ports)
  {
  }

  /** A non-empty text of white space only is accepted: it strips to one
      empty part, and empty parts are skipped. */
  lemma BlankPortsAccepted(ports: string)
    requires ports != []
    requires forall k | 0 <= k < |ports| :: IsSpace(ports[k])
    ensures ValidatePorts(ports)
  {
    assert Strip(ports) == "";
    assert Split("", ',') == [""];
  }

  /** re.search with IGNORECASE of a literal flag: the lowered text
      contains it. */
  predicate HasFlag(lowered: string, flag: string)
  {
    Contains(lowered, flag)
  }

  /** The flag at i, white space up to j, then /dev/. */
  predicate DevOutputAt(lowered: string, flag: string, i: int, j: int)
  {
    0 <= i && i + |flag| <= j <= |lowered|
    && lowered[i..i + |flag|] == flag
    && (forall k | i + |flag| <= k < j :: IsSpace(lowered[k]))
    && "/dev/" <= lowered[j..]
  }

  /** '-oN\s*\/dev/' and its -oX, -oG siblings, on lowered text. */
  predicate HasDevOutput(lowered: string, flag: string)
  {
    exists i, j | 0 <= i <= j <= |lowered| :: DevOutputAt(lowered, flag, i, j)
  }

  /** '--script.*\.(lua|nse)$' on lowered text: '.' stops at a newline and
      '$' matches at the end or before a final newline. */
  predicate HasScriptFile(lowered: string)
  {
    exists i, j | 0 <= i <= j <= |lowered| :: ScriptFileAt(lowered, i, j)
  }

  /** "--script" at i, no newline up to j, the extension at j, then the
      end of the text or a final newline. */
  predicate ScriptFileAt(lowered: string, i: int, j: int)
  {
    0 <= i && i + 8 <= j && j + 4 <= |lowered|
    && lowered[i..i + 8] == "--script"
    && (forall k | i + 8 <= k < j :: lowered[k] != '\n')
    && (lowered[j..j + 4] == ".lua" || lowered[j..j + 4] == ".nse")
    && (j + 4 == |lowered| || (j + 5 == |lowered| && lowered[j + 4] == '\n'))
  }

  const PlainDangerousFlags: seq<string> := ["--datadir", "--resume", "--iflist", "--packet-trace", "--open"]
  const DevOutputFlags: seq<string> := ["-on", "-ox", "-og"]

  /** validate_scan_arguments: empty text is safe; otherwise none of the
      dangerous patterns may occur, in any letter case. */
  predicate ValidateScanArguments(arguments: string)
    ensures ValidateScanArguments(arguments) ==>
      forall i | 0 <= i < |PlainDangerousFlags| :: !Contains(Lower(arguments), PlainDangerousFlags[i])
  {
    arguments == []
    || var a := Lower(arguments);
       !HasScriptFile(a)
       && (forall i | 0 <= i < |PlainDangerousFlags| :: !HasFlag(a, PlainDangerousFlags[i]))
       && (forall i | 0 <= i < |DevOutputFlags| :: !HasDevOutput(a, DevOutputFlags[i]))
  }

  lemma LowerAppend(a: string, b: string)
    ensures Lower(a + b) == Lower(a) + Lower(b)
  {
  }

  /** Any argument text that contains one of the plain dangerous flags,
      written in any letter case, is refused. */
  lemma DangerousFlagRejected(before: string, flag: string, after: string, i: nat)
    requires i < |PlainDangerousFlags| && Lower(flag) == PlainDangerousFlags[i]
    ensures !ValidateScanArguments(before + flag + after)
  {
    LowerAppend(before + flag, after);
    LowerAppend(before, flag);
    ContainsAppend(Lower(before), PlainDangerousFlags[i], Lower(after));
  }

  /** Output redirected to a device file is refused, with any amount of
      white space between the flag and the path. */
  lemma DevOutputRejected(before: string, i: nat, spaces: string, after: string)
    requires i < |DevOutputFlags|
    requires forall k | 0 <= k < |spaces| :: spaces[k] == ' '
    ensures !ValidateScanArguments(before + DevOutputFlags[i] + spaces + "/dev/" + after)
  {
    var flag := DevOutputFlags[i];
    var s := before + flag + spaces + "/dev/" + after;
    var a := Lower(s);
    LowerAppend(before + flag + spaces + "/dev/", after);
    LowerAppend(before + flag + spaces, "/dev/");
    LowerAppend(before + flag, spaces);
    LowerAppend(before, flag);
    assert Lower(flag) == flag;
    assert Lower(spaces) == spaces;
    assert Lower("/dev/") == "/dev/";
    assert a == Lower(before) + flag + spaces + "/dev/" + Lower(after);
    var p := |before|;
    var j := p + |flag| + |spaces|;
    assert a[p..p + |flag|] == flag;
    assert a[j..] == "/dev/" + Lower(after);
    assert DevOutputAt(a, flag, p, j);
  }

  /** A script file name at the end of the text is refused, also when a
      single newline follows it. */
  lemma ScriptFileRejected(before: string, middle: string, ext: string, newline: bool)
    requires ext == ".nse" || ext == ".lua"
    requires '\n' !in middle
    ensures !ValidateScanArguments(before + "--script" + middle + ext + (if newline then "\n" else ""))
  {
    var tail := if newline then "\n" else "";
    var s := before + "--script" + middle + ext + tail;
    LowerAppend(before + "--script" + middle + ext, tail);
    LowerAppend(before + "--script" + middle, ext);
    LowerAppend(before + "--script", middle);
    LowerAppend(before, "--script");
    assert Lower(ext) == ext && Lower(tail) == tail && Lower("--script") == "--script";
    LowerNoNewline(middle);
    ScriptFileShape(Lower(before), Lower(middle), ext, tail);
    assert |s| > 0;
  }

  lemma LowerNoNewline(m: string)
    requires '\n' !in m
    ensures '\n' !in Lower(m)
  {
    forall k | 0 <= k < |m| ensures Lower(m)[k] != '\n' {
      assert m[k] != '\n';
    }
  }

  lemma ScriptFileShape(p: string, m: string, ext: string, tail: string)
    requires ext == ".nse" || ext == ".lua"
    requires tail == "" || tail == "\n"
    requires '\n' !in m
    ensures HasScriptFile(p + "--script" + m + ext + tail)
  {
    var a := p + "--script" + m + ext + tail;
    var i := |p|;
    var j := i + 8 + |m|;
    assert a[i..i + 8] == "--script";
    assert a[j..j + 4] == ext;
    forall k | i + 8 <= k < j ensures a[k] != '\n' {
      assert a[k] == m[k - i - 8];
    }
    assert ScriptFileAt(a, i, j);
  }

  const InvalidFilenameChars: string := "<>:\"/\\|?*"
  const MaxFilenameLength := 255

  /** The fold "for char in chars: name = name.replace(char, '_')". */
  function ReplaceEachBy(name: string, chars: string): (r: string)
    ensures |r| == |name|
    ensures forall i | 0 <= i < |name| :: r[i] == (if name[i] in chars then '_' else name[i])
    decreases |chars|
  {
    if chars == [] then name
    else ReplaceEachBy(ReplaceChar(name, chars[0], '_'), chars[1..])
  }

  lemma NotContainsMissingChar(s: string, pat: string, c: char)
    requires c in pat && c !in s
    ensures !Contains(s, pat)
  {
    var k :| 0 <= k < |pat| && pat[k] == c;
    forall i | 0 <= i <= |s| ensures !(pat <= s[i..]) {
      if i + k < |s| {
        assert s[i..][k] != c;
      }
    }
  }

  /** A name with no invalid character holds no traversal sequence, so
      the two removals leave it as it is. */
  lemma TraversalRemovalKeepsCleanName(name: string, chars: string)
    requires '/' in chars && '\\' in chars
    requires forall i | 0 <= i < |name| :: name[i] !in chars
    ensures ReplaceAll(ReplaceAll(name, "../", ""), "..\\", "") == name
  {
    assert '/' !in name && '\\' !in name by {
      forall i | 0 <= i < |name| ensures name[i] != '/' && name[i] != '\\' {
        assert name[i] !in chars;
      }
    }
    NotContainsMissingChar(name, "../", '/');
    ReplaceAllAbsent(name, "../", "");
    NotContainsMissingChar(name, "..\\", '\\');
    ReplaceAllAbsent(name, "..\\", "");
  }

  /** The last steps of sanitize_filename: cut to 255 characters, fall
      back to "unnamed" when only white space is left, and strip. */
  function CutAndStrip(name: string): (r: string)
    ensures r != [] && |r| <= MaxFilenameLength && NoSpaceAtEnds(r)
    ensures forall k | 0 <= k < |r| :: r[k] in name || r[k] in "unnamed"
    ensures name != [] && |name| <= MaxFilenameLength && NoSpaceAtEnds(name) ==> r == name
  {
    var cut := if |name| > MaxFilenameLength then name[..MaxFilenameLength] else name;
    assert forall k | 0 <= k < |cut| :: cut[k] in name;
    var kept := if Strip(cut) == [] then "unnamed" else cut;
    assert Strip("unnamed") == "unnamed" by { StripUnchanged("unnamed"); }
    StripChars(kept);
    if name != [] && |name| <= MaxFilenameLength && NoSpaceAtEnds(name) then
      StripUnchanged(name);
      Strip(kept)
    else
      Strip(kept)
  }

  /** sanitize_filename: the result is never empty, at most 255
      characters, has no invalid character (so no path separator) and no
      white space at either end; a name that is already clean comes back
      unchanged. */
  function SanitizeFilename(filename: string): (r: string)
    ensures r != []
    ensures |r| <= MaxFilenameLength
    ensures forall i | 0 <= i < |r| :: r[i] !in InvalidFilenameChars
    ensures NoSpaceAtEnds(r)
    ensures filename != [] && |filename| <= MaxFilenameLength && NoSpaceAtEnds(filename)
            && (forall i | 0 <= i < |filename| :: filename[i] !in InvalidFilenameChars)
            ==> r == filename
  {
    if filename == [] then "unnamed"
    else
      var f := ReplaceAll(ReplaceAll(filename, "../", ""), "..\\", "");
      var g := ReplaceEachBy(f, InvalidFilenameChars);
      SanitizeSteps(filename, f, g);
      CutAndStrip(g)
  }

  lemma SanitizeSteps(filename: string, f: string, g: string)
    requires f == ReplaceAll(ReplaceAll(filename, "../", ""), "..\\", "")
    requires g == ReplaceEachBy(f, InvalidFilenameChars)
    ensures forall k | 0 <= k < |CutAndStrip(g)| :: CutAndStrip(g)[k] !in InvalidFilenameChars
    ensures (forall i | 0 <= i < |filename| :: filename[i] !in InvalidFilenameChars) ==> g == filename
  {
    CleanStaysClean(filename, f, g, InvalidFilenameChars);
    ReplacedHasNoInvalid(f, g);
    CharsFrom(g, CutAndStrip(g));
  }

  lemma CleanStaysClean(filename: string, f: string, g: string, chars: string)
    requires '/' in chars && '\\' in chars
    requires f == ReplaceAll(ReplaceAll(filename, "../", ""), "..\\", "")
    requires g == ReplaceEachBy(f, chars)
    ensures (forall i | 0 <= i < |filename| :: filename[i] !in chars) ==> g == filename
  {
    if forall i | 0 <= i < |filename| :: filename[i] !in chars {
      TraversalRemovalKeepsCleanName(filename, chars);
      ReplaceEachByNoneOf(filename, chars);
    }
  }

  lemma ReplaceEachByClean(name: string)
    requires forall i | 0 <= i < |name| :: name[i] !in InvalidFilenameChars
    ensures ReplaceEachBy(name, InvalidFilenameChars) == name
  {
    ReplaceEachByNoneOf(name, InvalidFilenameChars);
  }

  /** Replacing characters the name does not hold leaves it unchanged. */
  lemma ReplaceEachByNoneOf(name: string, chars: string)
    requires forall i | 0 <= i < |name| :: name[i] !in chars
    ensures ReplaceEachBy(name, chars) == name
  {
    var g := ReplaceEachBy(name, chars);
    forall i | 0 <= i < |name| ensures g[i] == name[i] {
      assert name[i] !in chars;
    }
  }

  lemma ReplacedHasNoInvalid(f: string, g: string)
    requires |g| == |f|
    requires forall i | 0 <= i < |f| :: g[i] == (if f[i] in InvalidFilenameChars then '_' else f[i])
    ensures forall c | c in g :: c !in InvalidFilenameChars
  {
  }

  lemma CharsFrom(g: string, r: string)
    requires forall c | c in g :: c !in InvalidFilenameChars
    requires forall k | 0 <= k < |r| :: r[k] in g || r[k] in "unnamed"
    ensures forall i | 0 <= i < |r| :: r[i] !in InvalidFilenameChars
  {
  }
}
