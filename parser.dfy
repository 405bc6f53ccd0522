/** ResultParser of nmap_ai/core/parser.py: normalising one host's raw
    result (python-nmap's host object or a plain dictionary) and the fixed
    service-to-issue table. */
module Parser {
  import opened Wrappers
  import opened Text
  import Seqs

  /** A port's attribute dictionary (state, reason, name, product, ...). */
  type PortInfo = map<string, string>

  /** dict.get(key, default) */
  function Get(m: map<string, string>, key: string, default: string): (v: string)
    ensures key in m ==> v == m[key]
    ensures key !in m ==> v == default
  {
    if key in m then m[key] else default
  }

  /** One host's raw result. Each protocol key maps to its port table in
      dictionary order; OS matches, OS classes and the fingerprint are
      copied verbatim, so they are kept as opaque text. otherKeys stands for
      any further keys, which the parser ignores but which make the
      dictionary non-empty. hostObject says that the result has an
      all_protocols method, as python-nmap's per-host object does, rather
      than being a plain dictionary. */
  datatype RawHost = RawHost(
    hostObject: bool,
    state: Option<string>,
    hostnames: Option<seq<map<string, string>>>,
    protocols: map<string, seq<(int, PortInfo)>>,
    osmatch: Option<string>,
    osclass: Option<string>,
    fingerprint: Option<string>,
    otherKeys: set<string>)

  /** `not raw_result`: the dictionary has no key at all. */
  predicate IsEmpty(raw: RawHost)
  {
    raw.state.None? && raw.hostnames.None? && raw.protocols == map[] &&
    raw.osmatch.None? && raw.osclass.None? && raw.fingerprint.None? &&
    raw.otherKeys == {}
  }

  datatype OpenPort = OpenPort(
    port: int, protocol: string, state: string, reason: string, name: string,
    product: string, version: string, extrainfo: string, conf: string)

  datatype Hostname = Hostname(name: string, kind: string)

  datatype Vulnerability = Vulnerability(
    kind: string, service: string, port: int, issue: string,
    severity: string, description: string)

  /** The parsed dictionary. hostnames and scanTime are None in the
      'no_data' shape, which has no such keys. */
  datatype ParsedResult = ParsedResult(
    status: string,
    openPorts: seq<OpenPort>,
    services: seq<string>,
    osMatches: Option<string>,
    osClasses: Option<string>,
    hostnames: Option<seq<Hostname>>,
    vulnerabilities: seq<Vulnerability>,
    scanTime: Option<string>,
    fingerprint: Option<string>)

  const NoData := ParsedResult("no_data", [], [], None, None, None, [], None, None)

  /** The protocols the dictionary path visits, in order. */
  const FallbackProtocols: seq<string> := ["tcp", "udp", "sctp"]

  /** The protocol keys python-nmap's all_protocols() picks out of a host
      object, sorted. It returns only the keys present; a missing key has an
      empty table here, so visiting all four visits the same entries. */
  const HostProtocols: seq<string> := ["ip", "sctp", "tcp", "udp"]

  /** The order parse_scan_result visits the protocol tables in. */
  function ProtocolOrder(raw: RawHost): (order: seq<string>)
    ensures Seqs.NoDups(order)
    ensures raw.hostObject ==> forall p :: p in order <==> p in {"ip", "sctp", "tcp", "udp"}
    ensures !raw.hostObject ==> forall p :: p in order <==> p in {"tcp", "udp", "sctp"}
  {
    if raw.hostObject then HostProtocols else FallbackProtocols
  }

  /** Position of a protocol in a visiting order; |order| when absent. */
  function Rank(order: seq<string>, protocol: string): (n: nat)
    ensures protocol in order ==> n < |order| && order[n] == protocol
    ensures protocol !in order ==> n == |order|
  {
    if order == [] then 0
    else if order[0] == protocol then 0
    else 1 + Rank(order[1..], protocol)
  }

  predicate IsOpen(entry: (int, PortInfo))
  {
    "state" in entry.1 && entry.1["state"] == "open"
  }

  function OpenEntry(protocol: string, entry: (int, PortInfo)): OpenPort
  {
    var info := entry.1;
    OpenPort(entry.0, protocol, "open", Get(info, "reason", ""), Get(info, "name", ""),
             Get(info, "product", ""), Get(info, "version", ""),
             Get(info, "extrainfo", ""), Get(info, "conf", ""))
  }

  /** The service name recorded for an open entry ('unknown' when missing). */
  function ServiceName(entry: (int, PortInfo)): string
  {
    Get(entry.1, "name", "unknown")
  }

  function TableOf(raw: RawHost, protocol: string): seq<(int, PortInfo)>
  {
    if protocol in raw.protocols then raw.protocols[protocol] else []
  }

  /** The open entries of one port table, in table order. */
  function OpenInTable(protocol: string, table: seq<(int, PortInfo)>): seq<OpenPort>
    decreases |table|
  {
    if table == [] then []
    else
      var last := table[|table| - 1];
      OpenInTable(protocol, table[..|table| - 1]) +
        (if IsOpen(last) then [OpenEntry(protocol, last)] else [])
  }

  /** The service names of the open entries of one port table. */
  function NamesInTable(table: seq<(int, PortInfo)>): seq<string>
    decreases |table|
  {
    if table == [] then []
    else
      var last := table[|table| - 1];
      NamesInTable(table[..|table| - 1]) + (if IsOpen(last) then [ServiceName(last)] else [])
  }

  /** Open ports of the first k protocols of the visiting order. */
  function OpenPortsUpTo(raw: RawHost, k: nat): seq<OpenPort>
    requires k <= |ProtocolOrder(raw)|
  {
    if k == 0 then []
    else
      var protocol := ProtocolOrder(raw)[k - 1];
      OpenPortsUpTo(raw, k - 1) + OpenInTable(protocol, TableOf(raw, protocol))
  }

  function NamesUpTo(raw: RawHost, k: nat): seq<string>
    requires k <= |ProtocolOrder(raw)|
  {
    if k == 0 then []
    else NamesUpTo(raw, k - 1) + NamesInTable(TableOf(raw, ProtocolOrder(raw)[k - 1]))
  }

  function OpenPortsOf(raw: RawHost): seq<OpenPort>
  {
    OpenPortsUpTo(raw, |ProtocolOrder(raw)|)
  }

  /** The service name of every open port, in open_ports order. */
  function ServiceNamesOf(raw: RawHost): seq<string>
  {
    NamesUpTo(raw, |ProtocolOrder(raw)|)
  }

  function HostnamesOf(raw: RawHost): seq<Hostname>
  {
    if raw.hostnames.None? then []
    else
      var hs := raw.hostnames.value;
      seq(|hs|, i requires 0 <= i < |hs| => Hostname(Get(hs[i], "name", ""), Get(hs[i], "type", "")))
  }

  /** The parsed dictionary parse_scan_result builds. */
  function ParsedOf(raw: RawHost, now: string): (r: ParsedResult)
    ensures r.scanTime.None? <==> IsEmpty(raw)
    ensures r.vulnerabilities == [] && Seqs.NoDups(r.services)
    ensures forall s | s in r.services :: s in ServiceNamesOf(raw)
  {
    if IsEmpty(raw) then NoData
    else
      Seqs.AddNewNoDups([], ServiceNamesOf(raw));
      Seqs.AddNewMembers([], ServiceNamesOf(raw));
      ParsedResult(raw.state.UnwrapOr("unknown"), OpenPortsOf(raw),
                      Seqs.AddNew([], ServiceNamesOf(raw)), raw.osmatch, raw.osclass,
                      Some(HostnamesOf(raw)), [], Some(now), raw.fingerprint)
  }

  /** parse_scan_result: the protocol tables are visited in all_protocols()
      order for a host object and in the fixed tcp, udp, sctp order
      otherwise. The clock reading is the parameter now. */
  method ParseScanResult(raw: RawHost, now: string) returns (r: ParsedResult)
    ensures r == ParsedOf(raw, now)
    ensures IsEmpty(raw) ==> r == NoData
    ensures !IsEmpty(raw) ==>
      r.status == raw.state.UnwrapOr("unknown") &&
      r.openPorts == OpenPortsOf(raw) &&
      r.services == Seqs.AddNew([], ServiceNamesOf(raw)) &&
      r.hostnames == Some(HostnamesOf(raw)) &&
      r.osMatches == raw.osmatch && r.osClasses == raw.osclass &&
      r.fingerprint == raw.fingerprint &&
      r.vulnerabilities == [] && r.scanTime == Some(now)
  {
    if IsEmpty(raw) {
      return NoData;
    }
    var hostnames := CopyHostnames(raw);
    var openPorts: seq<OpenPort> := [];
    var services: seq<string> := [];
    for k := 0 to |ProtocolOrder(raw)|
      invariant openPorts == OpenPortsUpTo(raw, k)
      invariant services == Seqs.AddNew([], NamesUpTo(raw, k))
    {
      openPorts, services := ScanProtocol(raw, k, openPorts, services);
    }
    r := ParsedResult(raw.state.UnwrapOr("unknown"), openPorts, services,
                      raw.osmatch, raw.osclass, Some(hostnames), [], Some(now), raw.fingerprint);
  }

  /** One pass of the protocol loop: the table of the k-th protocol, when
      the host has one. */
  method ScanProtocol(raw: RawHost, k: nat, openPorts0: seq<OpenPort>, services0: seq<string>)
    returns (openPorts: seq<OpenPort>, services: seq<string>)
    requires k < |ProtocolOrder(raw)|
    requires openPorts0 == OpenPortsUpTo(raw, k)
    requires services0 == Seqs.AddNew([], NamesUpTo(raw, k))
    ensures openPorts == OpenPortsUpTo(raw, k + 1)
    ensures services == Seqs.AddNew([], NamesUpTo(raw, k + 1))
  {
    var protocol := ProtocolOrder(raw)[k];
    ghost var table := TableOf(raw, protocol);
    assert OpenPortsUpTo(raw, k + 1) == OpenPortsUpTo(raw, k) + OpenInTable(protocol, table);
    assert NamesUpTo(raw, k + 1) == NamesUpTo(raw, k) + NamesInTable(table);
    if protocol in raw.protocols {
      openPorts, services := ScanTable(protocol, raw.protocols[protocol], openPorts0, services0, NamesUpTo(raw, k));
    } else {
      openPorts, services := openPorts0, services0;
      assert OpenInTable(protocol, table) == [] && NamesInTable(table) == [];
      assert NamesUpTo(raw, k) + [] == NamesUpTo(raw, k);
      assert OpenPortsUpTo(raw, k) + [] == OpenPortsUpTo(raw, k);
    }
  }

  /** The hostnames loop: one {name, type} entry per input entry. */
  method CopyHostnames(raw: RawHost) returns (hostnames: seq<Hostname>)
    ensures hostnames == HostnamesOf(raw)
  {
    hostnames := [];
    if raw.hostnames.Some? {
      var hs := raw.hostnames.value;
      for i := 0 to |hs|
        invariant |hostnames| == i
        invariant forall j | 0 <= j < i ::
          hostnames[j] == Hostname(Get(hs[j], "name", ""), Get(hs[j], "type", ""))
      {
        hostnames := hostnames + [Hostname(Get(hs[i], "name", ""), Get(hs[i], "type", ""))];
      }
      assert hostnames == HostnamesOf(raw);
    }
  }

  /** The loop over one protocol's port table: each open entry is appended
      to openPorts, and its service name to services unless already there. */
  method ScanTable(protocol: string, table: seq<(int, PortInfo)>, openPorts0: seq<OpenPort>,
                   services0: seq<string>, ghost names0: seq<string>)
    returns (openPorts: seq<OpenPort>, services: seq<string>)
    requires services0 == Seqs.AddNew([], names0)
    ensures openPorts == openPorts0 + OpenInTable(protocol, table)
    ensures services == Seqs.AddNew([], names0 + NamesInTable(table))
  {
    openPorts, services := openPorts0, services0;
    assert table[..0] == [];
    assert names0 + NamesInTable(table[..0]) == names0;
    for i := 0 to |table|
      invariant openPorts == openPorts0 + OpenInTable(protocol, table[..i])
      invariant services == Seqs.AddNew([], names0 + NamesInTable(table[..i]))
    {
      assert table[..i + 1][..i] == table[..i];
      var entry := table[i];
      if IsOpen(entry) {
        openPorts := openPorts + [OpenEntry(protocol, entry)];
        var serviceName := ServiceName(entry);
        ghost var names := names0 + NamesInTable(table[..i]);
        assert names0 + NamesInTable(table[..i + 1]) == names + [serviceName];
        assert (names + [serviceName])[..|names|] == names;
        if serviceName !in services {
          services := services + [serviceName];
        }
      } else {
        assert NamesInTable(table[..i + 1]) == NamesInTable(table[..i]);
      }
    }
    assert table[..|table|] == table;
  }

  /** Every open port of a table carries that table's protocol, and an
      entry appears exactly when it is open. */
  lemma {:induction false} OpenInTableMembers(protocol: string, table: seq<(int, PortInfo)>)
    ensures forall x :: x in OpenInTable(protocol, table) <==>
      exists j :: 0 <= j < |table| && IsOpen(table[j]) && x == OpenEntry(protocol, table[j])
    ensures forall x | x in OpenInTable(protocol, table) :: x.protocol == protocol
    decreases |table|
  {
    if table != [] {
      var init := table[..|table| - 1];
      OpenInTableMembers(protocol, init);
      forall x
        ensures x in OpenInTable(protocol, table) <==>
          exists j :: 0 <= j < |table| && IsOpen(table[j]) && x == OpenEntry(protocol, table[j])
      {
        if x in OpenInTable(protocol, table) {
          if x in OpenInTable(protocol, init) {
            var j :| 0 <= j < |init| && IsOpen(init[j]) && x == OpenEntry(protocol, init[j]);
            assert table[j] == init[j];
          } else {
            assert IsOpen(table[|table| - 1]) && x == OpenEntry(protocol, table[|table| - 1]);
          }
        }
        if exists j :: 0 <= j < |table| && IsOpen(table[j]) && x == OpenEntry(protocol, table[j]) {
          var j :| 0 <= j < |table| && IsOpen(table[j]) && x == OpenEntry(protocol, table[j]);
          if j < |init| {
            assert init[j] == table[j];
          }
        }
      }
    }
  }

  /** A service name is listed for exactly the open entries, position by
      position with the open ports. */
  lemma {:induction false} NamesFollowTable(protocol: string, table: seq<(int, PortInfo)>)
    ensures |NamesInTable(table)| == |OpenInTable(protocol, table)|
    ensures forall i | 0 <= i < |NamesInTable(table)| ::
      var x := OpenInTable(protocol, table)[i];
      NamesInTable(table)[i] == x.name || (x.name == "" && NamesInTable(table)[i] == "unknown")
    decreases |table|
  {
    if table != [] {
      NamesFollowTable(protocol, table[..|table| - 1]);
    }
  }

  /** The protocol tables in visiting order: tcp, udp and sctp for a plain
      dictionary; ip, sctp, tcp and udp for a host object. */
  lemma ProtocolSplit(raw: RawHost)
    ensures !raw.hostObject ==>
      OpenPortsOf(raw) == OpenInTable("tcp", TableOf(raw, "tcp")) +
        OpenInTable("udp", TableOf(raw, "udp")) + OpenInTable("sctp", TableOf(raw, "sctp")) &&
      ServiceNamesOf(raw) == NamesInTable(TableOf(raw, "tcp")) +
        NamesInTable(TableOf(raw, "udp")) + NamesInTable(TableOf(raw, "sctp"))
    ensures raw.hostObject ==>
      OpenPortsOf(raw) == OpenInTable("ip", TableOf(raw, "ip")) +
        OpenInTable("sctp", TableOf(raw, "sctp")) + OpenInTable("tcp", TableOf(raw, "tcp")) +
        OpenInTable("udp", TableOf(raw, "udp")) &&
      ServiceNamesOf(raw) == NamesInTable(TableOf(raw, "ip")) +
        NamesInTable(TableOf(raw, "sctp")) + NamesInTable(TableOf(raw, "tcp")) +
        NamesInTable(TableOf(raw, "udp"))
  {
    var order := ProtocolOrder(raw);
    if raw.hostObject {
      assert order[0] == "ip" && order[1] == "sctp" && order[2] == "tcp" && order[3] == "udp";
      assert OpenPortsUpTo(raw, 1) == OpenInTable("ip", TableOf(raw, "ip"));
      assert NamesUpTo(raw, 1) == NamesInTable(TableOf(raw, "ip"));
      assert OpenPortsUpTo(raw, 2) == OpenPortsUpTo(raw, 1) + OpenInTable("sctp", TableOf(raw, "sctp"));
      assert NamesUpTo(raw, 2) == NamesUpTo(raw, 1) + NamesInTable(TableOf(raw, "sctp"));
      assert OpenPortsUpTo(raw, 3) == OpenPortsUpTo(raw, 2) + OpenInTable("tcp", TableOf(raw, "tcp"));
      assert NamesUpTo(raw, 3) == NamesUpTo(raw, 2) + NamesInTable(TableOf(raw, "tcp"));
    } else {
      assert order[0] == "tcp" && order[1] == "udp" && order[2] == "sctp";
      assert OpenPortsUpTo(raw, 1) == OpenInTable("tcp", TableOf(raw, "tcp"));
      assert NamesUpTo(raw, 1) == NamesInTable(TableOf(raw, "tcp"));
      assert OpenPortsUpTo(raw, 2) == OpenPortsUpTo(raw, 1) + OpenInTable("udp", TableOf(raw, "udp"));
      assert NamesUpTo(raw, 2) == NamesUpTo(raw, 1) + NamesInTable(TableOf(raw, "udp"));
    }
  }

  /** The open ports of the first k visited protocols are exactly the open
      entries of those protocols' tables. */
  lemma {:induction false} OpenPortsUpToMembers(raw: RawHost, k: nat, x: OpenPort)
    requires k <= |ProtocolOrder(raw)|
    ensures x in OpenPortsUpTo(raw, k) <==>
      exists protocol, j :: protocol in ProtocolOrder(raw)[..k] && 0 <= j < |TableOf(raw, protocol)| &&
        IsOpen(TableOf(raw, protocol)[j]) && x == OpenEntry(protocol, TableOf(raw, protocol)[j])
  {
    if k > 0 {
      var order := ProtocolOrder(raw);
      var p := order[k - 1];
      OpenPortsUpToMembers(raw, k - 1, x);
      OpenInTableMembers(p, TableOf(raw, p));
      assert order[..k] == order[..k - 1] + [p];
      if x in OpenPortsUpTo(raw, k) && x in OpenPortsUpTo(raw, k - 1) {
        var protocol, j :| protocol in order[..k - 1] && 0 <= j < |TableOf(raw, protocol)| &&
          IsOpen(TableOf(raw, protocol)[j]) && x == OpenEntry(protocol, TableOf(raw, protocol)[j]);
        assert protocol in order[..k];
      }
      if exists protocol, j :: protocol in order[..k] && 0 <= j < |TableOf(raw, protocol)| &&
          IsOpen(TableOf(raw, protocol)[j]) && x == OpenEntry(protocol, TableOf(raw, protocol)[j]) {
        var protocol, j :| protocol in order[..k] && 0 <= j < |TableOf(raw, protocol)| &&
          IsOpen(TableOf(raw, protocol)[j]) && x == OpenEntry(protocol, TableOf(raw, protocol)[j]);
        if protocol != p {
          assert protocol in order[..k - 1];
        }
      }
    }
  }

  /** open_ports holds exactly the open entries of the visited protocols'
      tables, each tagged with the protocol it was found under. */
  lemma OpenPortsExact(raw: RawHost, x: OpenPort)
    ensures x in OpenPortsOf(raw) <==>
      exists protocol, j :: protocol in ProtocolOrder(raw) && 0 <= j < |TableOf(raw, protocol)| &&
        IsOpen(TableOf(raw, protocol)[j]) && x == OpenEntry(protocol, TableOf(raw, protocol)[j])
  {
    var order := ProtocolOrder(raw);
    OpenPortsUpToMembers(raw, |order|, x);
    assert order[..|order|] == order;
  }

  /** Every open port carries a visited protocol: an ip port is listed only
      for a host object. */
  lemma ProtocolsVisited(raw: RawHost)
    ensures forall x | x in OpenPortsOf(raw) :: x.protocol in ProtocolOrder(raw)
    ensures forall x | x in OpenPortsOf(raw) && x.protocol == "ip" :: raw.hostObject
  {
    forall x | x in OpenPortsOf(raw)
      ensures x.protocol in ProtocolOrder(raw)
    {
      OpenPortsExact(raw, x);
    }
  }

  /** The ports of the first k visited protocols have ranks below k, in
      ascending order. */
  lemma {:induction false} RanksUpTo(raw: RawHost, k: nat)
    requires k <= |ProtocolOrder(raw)|
    ensures forall i | 0 <= i < |OpenPortsUpTo(raw, k)| ::
      Rank(ProtocolOrder(raw), OpenPortsUpTo(raw, k)[i].protocol) < k
    ensures forall i, j | 0 <= i < j < |OpenPortsUpTo(raw, k)| ::
      Rank(ProtocolOrder(raw), OpenPortsUpTo(raw, k)[i].protocol) <=
      Rank(ProtocolOrder(raw), OpenPortsUpTo(raw, k)[j].protocol)
  {
    if k > 0 {
      var order := ProtocolOrder(raw);
      var p := order[k - 1];
      RanksUpTo(raw, k - 1);
      OpenInTableMembers(p, TableOf(raw, p));
      assert Rank(order, p) == k - 1;
      var pre, block := OpenPortsUpTo(raw, k - 1), OpenInTable(p, TableOf(raw, p));
      var ps := pre + block;
      forall i | 0 <= i < |ps|
        ensures Rank(order, ps[i].protocol) == (if i < |pre| then Rank(order, pre[i].protocol) else k - 1)
      {
        if i < |pre| {
          assert ps[i] == pre[i];
        } else {
          assert ps[i] == block[i - |pre|];
          assert block[i - |pre|] in block;
        }
      }
    }
  }

  /** Open ports are grouped by protocol in visiting order: tcp, udp, sctp
      for a plain dictionary; ip, sctp, tcp, udp for a host object. */
  lemma OpenPortsProtocolOrder(raw: RawHost)
    ensures forall i, j | 0 <= i < j < |OpenPortsOf(raw)| ::
      Rank(ProtocolOrder(raw), OpenPortsOf(raw)[i].protocol) <=
      Rank(ProtocolOrder(raw), OpenPortsOf(raw)[j].protocol)
  {
    RanksUpTo(raw, |ProtocolOrder(raw)|);
  }

  /** The service names of the first k visited protocols follow their open
      ports position by position. */
  lemma {:induction false} NamesFollowUpTo(raw: RawHost, k: nat)
    requires k <= |ProtocolOrder(raw)|
    ensures |NamesUpTo(raw, k)| == |OpenPortsUpTo(raw, k)|
    ensures forall i | 0 <= i < |NamesUpTo(raw, k)| ::
      NamesUpTo(raw, k)[i] == OpenPortsUpTo(raw, k)[i].name ||
      (OpenPortsUpTo(raw, k)[i].name == "" && NamesUpTo(raw, k)[i] == "unknown")
  {
    if k > 0 {
      var p := ProtocolOrder(raw)[k - 1];
      NamesFollowUpTo(raw, k - 1);
      NamesFollowTable(p, TableOf(raw, p));
      var ps: seq<OpenPort>, ns: seq<string> := OpenPortsUpTo(raw, k - 1), NamesUpTo(raw, k - 1);
      var t: seq<OpenPort>, nt: seq<string> := OpenInTable(p, TableOf(raw, p)), NamesInTable(TableOf(raw, p));
      forall i | 0 <= i < |ns + nt|
        ensures (ns + nt)[i] == (ps + t)[i].name || ((ps + t)[i].name == "" && (ns + nt)[i] == "unknown")
      {
        if i < |ns| {
          assert (ns + nt)[i] == ns[i] && (ps + t)[i] == ps[i];
        } else {
          assert (ns + nt)[i] == nt[i - |ns|] && (ps + t)[i] == t[i - |ns|];
        }
      }
    }
  }

  /** The i-th service name belongs to the i-th open port: it is that
      port's name, or 'unknown' when the port has no name. */
  lemma ServiceNamesFollowPorts(raw: RawHost)
    ensures |ServiceNamesOf(raw)| == |OpenPortsOf(raw)|
    ensures forall i | 0 <= i < |ServiceNamesOf(raw)| ::
      ServiceNamesOf(raw)[i] == OpenPortsOf(raw)[i].name ||
      (OpenPortsOf(raw)[i].name == "" && ServiceNamesOf(raw)[i] == "unknown")
  {
    NamesFollowUpTo(raw, |ProtocolOrder(raw)|);
  }

  /** A host with no ip or sctp table parses alike on both paths: the host
      object's sorted order and the fixed order both put tcp before udp. */
  lemma HostObjectAgreesOnTcpUdp(raw: RawHost, now: string)
    requires "ip" !in raw.protocols && "sctp" !in raw.protocols
    ensures ParsedOf(raw.(hostObject := true), now) == ParsedOf(raw.(hostObject := false), now)
  {
    var h, d := raw.(hostObject := true), raw.(hostObject := false);
    TcpUdpPorts(raw);
    assert IsEmpty(h) == IsEmpty(d);
    assert HostnamesOf(h) == HostnamesOf(d);
  }

  /** Both paths list a host's tcp then udp open ports when it has no ip or
      sctp table. */
  lemma TcpUdpPorts(raw: RawHost)
    requires "ip" !in raw.protocols && "sctp" !in raw.protocols
    ensures OpenPortsOf(raw.(hostObject := true)) == OpenPortsOf(raw.(hostObject := false))
    ensures ServiceNamesOf(raw.(hostObject := true)) == ServiceNamesOf(raw.(hostObject := false))
  {
    var h, d := raw.(hostObject := true), raw.(hostObject := false);
    var t, u := TableOf(raw, "tcp"), TableOf(raw, "udp");
    assert TableOf(h, "ip") == [] && TableOf(h, "sctp") == [] && TableOf(d, "sctp") == [];
    assert TableOf(h, "tcp") == t == TableOf(d, "tcp") && TableOf(h, "udp") == u == TableOf(d, "udp");
    assert OpenInTable("ip", []) == [] && OpenInTable("sctp", []) == [] && NamesInTable([]) == [];
    ProtocolSplit(h);
    assert OpenPortsOf(h) == OpenInTable("tcp", t) + OpenInTable("udp", u);
    assert ServiceNamesOf(h) == NamesInTable(t) + NamesInTable(u);
    ProtocolSplit(d);
  }

  /** services is duplicate-free, and holds exactly the service names of
      the open ports. */
  lemma ServicesDistinct(raw: RawHost)
    ensures Seqs.NoDups(Seqs.AddNew([], ServiceNamesOf(raw)))
    ensures forall s :: s in Seqs.AddNew([], ServiceNamesOf(raw)) <==> s in ServiceNamesOf(raw)
  {
    Seqs.AddNewNoDups([], ServiceNamesOf(raw));
    Seqs.AddNewMembers([], ServiceNamesOf(raw));
  }

  // ---------------------------------------------------------------------
  // extract_vulnerabilities

  /** The services of the fixed vulnerability table. */
  const VulnerableServices: seq<string> :=
    ["ftp", "ssh", "telnet", "smtp", "http", "pop3", "snmp", "https"]

  /** The table's issues for a service; empty for a service not in the table. */
  function IssuesOf(service: string): (issues: seq<string>)
    ensures service in VulnerableServices <==> |issues| == 2
    ensures service !in VulnerableServices <==> issues == []
  {
    if service == "ftp" then ["Anonymous access", "Weak encryption"]
    else if service == "ssh" then ["Weak keys", "Version vulnerabilities"]
    else if service == "telnet" then ["Unencrypted communication", "Weak authentication"]
    else if service == "smtp" then ["Open relay", "Weak authentication"]
    else if service == "http" then ["Unencrypted web traffic", "Web vulnerabilities"]
    else if service == "pop3" then ["Unencrypted authentication", "Weak passwords"]
    else if service == "snmp" then ["Default community strings", "Information disclosure"]
    else if service == "https" then ["SSL/TLS vulnerabilities", "Certificate issues"]
    else []
  }

  /** A table finding; the description reads back the lowered issue
      between 'Potential ' and the service it is on. */
  function MakeVulnerability(service: string, port: int, issue: string): (v: Vulnerability)
    ensures v.kind == "service_vulnerability" && v.severity == "medium"
    ensures v.service == service && v.port == port && v.issue == issue
    ensures |v.description| == |issue| + |service| + 22
    ensures v.description[..10] == "Potential " && v.description[10..10 + |issue|] == Lower(issue)
    ensures v.description[10 + |issue|..] == " on " + service + " service"
  {
    Vulnerability("service_vulnerability", service, port, issue, "medium",
                  "Potential " + Lower(issue) + " on " + service + " service")
  }

  /** The entries emitted for one open port. */
  function VulnsForPort(p: OpenPort): seq<Vulnerability>
  {
    var service := Lower(p.name);
    var issues := IssuesOf(service);
    seq(|issues|, k requires 0 <= k < |issues| => MakeVulnerability(service, p.port, issues[k]))
  }

  /** The findings of the open ports, port by port: each is a medium
      service_vulnerability of a table service. */
  function VulnsOf(ports: seq<OpenPort>): (r: seq<Vulnerability>)
    ensures forall v | v in r ::
      v.kind == "service_vulnerability" && v.severity == "medium" && v.service in VulnerableServices
    decreases |ports|
  {
    if ports == [] then []
    else VulnsOf(ports[..|ports| - 1]) + VulnsForPort(ports[|ports| - 1])
  }

  method ExtractVulnerabilities(parsed: ParsedResult) returns (vs: seq<Vulnerability>)
    ensures vs == VulnsOf(parsed.openPorts)
  {
    var ports := parsed.openPorts;
    vs := [];
    for i := 0 to |ports|
      invariant vs == VulnsOf(ports[..i])
    {
      assert ports[..i + 1][..i] == ports[..i];
      vs := AppendPortVulns(vs, ports[i]);
    }
    assert ports[..|ports|] == ports;
  }

  /** One pass of the outer loop: the entries for the port's issues, if
      its service is in the table. */
  method AppendPortVulns(vs0: seq<Vulnerability>, p: OpenPort) returns (vs: seq<Vulnerability>)
    ensures vs == vs0 + VulnsForPort(p)
  {
    vs := vs0;
    var service := Lower(p.name);
    var portNumber := p.port;
    var issues := IssuesOf(service);
    if service in VulnerableServices {
      for k := 0 to |issues|
        invariant vs == vs0 + VulnsForPort(p)[..k]
      {
        assert VulnsForPort(p)[..k + 1] == VulnsForPort(p)[..k] + [MakeVulnerability(service, portNumber, issues[k])];
        vs := vs + [MakeVulnerability(service, portNumber, issues[k])];
      }
      assert VulnsForPort(p)[..|issues|] == VulnsForPort(p);
    } else {
      assert VulnsForPort(p) == [];
      assert vs0 + [] == vs0;
    }
  }

  /** The number of open ports whose lower-cased name is a table service. */
  function CountTableServices(ports: seq<OpenPort>): nat
    decreases |ports|
  {
    if ports == [] then 0
    else
      var add := if Lower(ports[|ports| - 1].name) in VulnerableServices then 1 else 0;
      CountTableServices(ports[..|ports| - 1]) + add
  }

  /** Two entries per open port of a table service, none for any other port. */
  lemma {:induction false} VulnCount(ports: seq<OpenPort>)
    ensures |VulnsOf(ports)| == 2 * CountTableServices(ports)
    decreases |ports|
  {
    if ports != [] {
      VulnCount(ports[..|ports| - 1]);
    }
  }

  /** Every entry is a medium 'service_vulnerability' naming a table
      service, and its port is that of an open port with that service name
      (the port numbers in the table are never used). */
  lemma {:induction false} VulnShape(ports: seq<OpenPort>)
    ensures forall v | v in VulnsOf(ports) ::
      v.kind == "service_vulnerability" && v.severity == "medium" &&
      v.service in VulnerableServices &&
      exists i :: 0 <= i < |ports| && ports[i].port == v.port && Lower(ports[i].name) == v.service
    decreases |ports|
  {
    if ports != [] {
      var init := ports[..|ports| - 1];
      var last := ports[|ports| - 1];
      VulnShape(init);
      forall v | v in VulnsOf(ports)
        ensures v.kind == "service_vulnerability" && v.severity == "medium" &&
          v.service in VulnerableServices &&
          exists i :: 0 <= i < |ports| && ports[i].port == v.port && Lower(ports[i].name) == v.service
      {
        if v in VulnsOf(init) {
          var i :| 0 <= i < |init| && init[i].port == v.port && Lower(init[i].name) == v.service;
          assert ports[i] == init[i];
        } else {
          assert v in VulnsForPort(last);
          assert ports[|ports| - 1] == last;
        }
      }
    }
  }

  /** An 'HTTP' service on port 8080 yields the two http issues on port 8080. */
  lemma HttpOnOtherPort()
    ensures VulnsOf([OpenPort(8080, "tcp", "open", "", "HTTP", "", "", "", "")]) ==
      [MakeVulnerability("http", 8080, "Unencrypted web traffic"),
       MakeVulnerability("http", 8080, "Web vulnerabilities")]
  {
    var p := OpenPort(8080, "tcp", "open", "", "HTTP", "", "", "", "");
    assert Lower("HTTP") == "http";
    assert [p][..0] == [];
  }
}
