/** The Surge translator shared by both handlers: keep the protocols Surge knows,
    drop the records it cannot express, build one proxy line per remaining record
    and join the lines with newlines. */
module Surge {
  import opened Wrappers
  import opened Text
  import opened Proxies
  import Seqs

  /** The clause keys a Surge line can carry. */
  datatype Key =
    | EncryptMethod | Password | Obfs | ObfsHost | UdpRelay
    | Username | SkipCertVerify | Sni | Tls | Ws | WsPath

  /** The text of a key, as written before the `=` of its clause. */
  function KeyText(k: Key): string
  {
    match k
    case EncryptMethod => "encrypt-method"
    case Password => "password"
    case Obfs => "obfs"
    case ObfsHost => "obfs-host"
    case UdpRelay => "udp-relay"
    case Username => "username"
    case SkipCertVerify => "skip-cert-verify"
    case Sni => "sni"
    case Tls => "tls"
    case Ws => "ws"
    case WsPath => "ws-path"
  }

  /** One `key=value` clause of a Surge proxy line. */
  datatype Clause = Clause(key: Key, value: string)

  /** One row of a protocol's clause table: the clause, and whether the record's
      fields call for it. */
  datatype Slot = Slot(key: Key, present: bool, value: string)

  /** The `type` values the translator considers; every other type yields no line. */
  const SupportedKinds: seq<string> := ["ss", "vmess", "trojan"]

  /** The clause keys of each protocol, in the order the builders append them. */
  const SsKeys: seq<Key> := [EncryptMethod, Password, Obfs, ObfsHost, UdpRelay]
  const VmessKeys: seq<Key> := [Username, SkipCertVerify, Sni, Tls, Ws, WsPath]
  const TrojanKeys: seq<Key> := [Password, SkipCertVerify, Sni]

  predicate IsSupported(p: Proxy)
  {
    p.kind.Some? && p.kind.value in SupportedKinds
  }

  /** The transports Surge has no syntax for: Shadowsocks over v2ray-plugin, VMess
      over h2, http or grpc, and Trojan over grpc. */
  predicate Unrepresentable(kind: string, plugin: Option<string>, network: Option<string>)
  {
    (kind == "ss" && plugin == Some("v2ray-plugin")) ||
    (kind == "vmess" && network.Some? && network.value in ["h2", "http", "grpc"]) ||
    (kind == "trojan" && network == Some("grpc"))
  }

  /** The `common` part of a line: `${name} = ${type}, ${server}, ${port}`. */
  function Head(p: Proxy): string
  {
    Render(p.name) + " = " + Endpoint(p)
  }

  /** `${type}, ${server}, ${port}`. */
  function Endpoint(p: Proxy): string
  {
    Render(p.kind) + ", " + p.server + ", " + DecimalString(p.port)
  }

  function PluginMode(p: Proxy): Option<string>
  {
    if p.pluginOpts.Some? then p.pluginOpts.value.mode else None
  }

  function PluginHost(p: Proxy): Option<string>
  {
    if p.pluginOpts.Some? then p.pluginOpts.value.host else None
  }

  /** The obfs clauses are appended only for the `obfs` plugin with `plugin-opts` set. */
  predicate UsesObfs(p: Proxy)
  {
    p.plugin == Some("obfs") && p.pluginOpts.Some?
  }

  /** Clause table of a Shadowsocks record. The host clause keeps the literal
      `example.com ` in front of the host, as the handlers write it. */
  function SsSlots(p: Proxy): seq<Slot>
  {
    [ Slot(EncryptMethod, true, Render(p.cipher)),
      Slot(Password, true, Render(p.password)),
      Slot(Obfs, UsesObfs(p), Render(PluginMode(p))),
      Slot(ObfsHost, UsesObfs(p) && NonEmpty(PluginHost(p)), "example.com " + Render(PluginHost(p))),
      Slot(UdpRelay, IsTrue(p.udp), BoolText(true)) ]
  }

  /** Clause table of a VMess record. */
  function VmessSlots(p: Proxy): seq<Slot>
  {
    [ Slot(Username, true, Render(p.uuid)),
      Slot(SkipCertVerify, IsTrue(p.skipCertVerify), BoolText(true)),
      Slot(Sni, NonEmpty(p.servername), Render(p.servername)),
      Slot(Tls, IsTrue(p.tls), BoolText(true)),
      Slot(Ws, p.network == Some("ws"), "true"),
      Slot(WsPath, NonEmpty(p.wsPath), Render(p.wsPath)) ]
  }

  /** Clause table of a Trojan record. */
  function TrojanSlots(p: Proxy): seq<Slot>
  {
    [ Slot(Password, true, Render(p.password)),
      Slot(SkipCertVerify, IsTrue(p.skipCertVerify), BoolText(true)),
      Slot(Sni, NonEmpty(p.sni), Render(p.sni)) ]
  }

  function Slots(p: Proxy): seq<Slot>
  {
    match p.kind
    case Some("ss") => SsSlots(p)
    case Some("vmess") => VmessSlots(p)
    case Some("trojan") => TrojanSlots(p)
    case _ => []
  }

  function KeyOrder(kind: string): seq<Key>
  {
    match kind
    case "ss" => SsKeys
    case "vmess" => VmessKeys
    case "trojan" => TrojanKeys
    case _ => []
  }

  /** The clauses a table calls for, in table order. */
  function Present(slots: seq<Slot>): (cs: seq<Clause>)
  {
    if slots == [] then []
    else (if slots[0].present then [Clause(slots[0].key, slots[0].value)] else []) + Present(slots[1..])
  }

  function SlotKeys(slots: seq<Slot>): seq<Key>
  {
    seq(|slots|, i requires 0 <= i < |slots| => slots[i].key)
  }

  function ClauseKeys(cs: seq<Clause>): seq<Key>
  {
    seq(|cs|, i requires 0 <= i < |cs| => cs[i].key)
  }

  /** One clause as it is appended to a line: `, key=value`. */
  function ClauseText(c: Clause): string
  {
    ", " + KeyText(c.key) + "=" + c.value
  }

  /** Clauses rendered one after another. */
  function RenderClauses(cs: seq<Clause>): string
  {
    Seqs.Concat(cs, ClauseText)
  }

  /** What one table row adds to a line: its clause, or nothing. */
  function SlotText(s: Slot): string
  {
    if s.present then ClauseText(Clause(s.key, s.value)) else ""
  }

  /** A line built the way the handlers build it: start from the head and extend
      `result` by the first `k` rows of the table, one after another. */
  function Line(head: string, slots: seq<Slot>, k: nat): string
    requires k <= |slots|
  {
    if k == 0 then head else Line(head, slots, k - 1) + SlotText(slots[k - 1])
  }

  /** The clauses of a record's line. */
  function Clauses(p: Proxy): seq<Clause>
  {
    Present(Slots(p))
  }

  /** What the `supportedProxies.map` callback returns for one record: a Surge line,
      or `undefined` (None) for a record Surge cannot express. */
  function SurgeLine(p: Proxy): Option<string>
  {
    if !IsSupported(p) || Unrepresentable(p.kind.value, p.plugin, p.network) then None
    else Some(Line(Head(p), Slots(p), |Slots(p)|))
  }

  /** The drop rules, one per protocol; nothing else makes a record yield no line. */
  lemma {:induction false} DropRules(p: Proxy)
    ensures p.kind == Some("ss") ==> (SurgeLine(p).None? <==> p.plugin == Some("v2ray-plugin"))
    ensures p.kind == Some("vmess") ==>
      (SurgeLine(p).None? <==> p.network in {Some("h2"), Some("http"), Some("grpc")})
    ensures p.kind == Some("trojan") ==> (SurgeLine(p).None? <==> p.network == Some("grpc"))
    ensures p.kind !in {Some("ss"), Some("vmess"), Some("trojan")} ==> SurgeLine(p).None?
  {
  }

  /** Whether a record yields a line depends on its type, plugin and network only. */
  lemma {:induction false} DropDecisionDependsOnlyOnTransport(p: Proxy, q: Proxy)
    requires p.kind == q.kind && p.plugin == q.plugin && p.network == q.network
    ensures SurgeLine(p).Some? <==> SurgeLine(q).Some?
  {
  }

  /** A clause is on the line exactly when its table row is present. */
  lemma {:induction false} PresentMembers(slots: seq<Slot>, c: Clause)
    ensures c in Present(slots) <==> Slot(c.key, true, c.value) in slots
  {
    if slots != [] {
      PresentMembers(slots[1..], c);
      assert slots == [slots[0]] + slots[1..];
    }
  }

  /** The clauses keep the order of the table rows they come from. */
  lemma {:induction false} PresentKeysInOrder(slots: seq<Slot>)
    ensures Seqs.IsSubseq(ClauseKeys(Present(slots)), SlotKeys(slots))
  {
    if slots != [] {
      PresentKeysInOrder(slots[1..]);
      var rest := Present(slots[1..]);
      assert SlotKeys(slots)[1..] == SlotKeys(slots[1..]);
      if slots[0].present {
        assert Present(slots) == [Clause(slots[0].key, slots[0].value)] + rest;
        assert ClauseKeys(Present(slots))[1..] == ClauseKeys(rest);
      } else {
        assert Present(slots) == rest;
        Seqs.SkipHead(ClauseKeys(rest), SlotKeys(slots));
      }
    }
  }

  /** Clause order is fixed: the keys on a line are the protocol's keys with some
      left out, never reordered. */
  lemma {:induction false} ClauseOrder(p: Proxy)
    requires IsSupported(p)
    ensures Seqs.IsSubseq(ClauseKeys(Clauses(p)), KeyOrder(p.kind.value))
  {
    PresentKeysInOrder(Slots(p));
    assert SlotKeys(Slots(p)) == KeyOrder(p.kind.value);
  }

  /** Shadowsocks clauses: cipher and password always, and `udp-relay=true` only
      when `udp` is true. */
  lemma {:induction false} SsClauses(p: Proxy, v: string)
    requires p.kind == Some("ss")
    ensures Clause(EncryptMethod, Render(p.cipher)) in Clauses(p)
    ensures Clause(Password, Render(p.password)) in Clauses(p)
    ensures Clause(UdpRelay, v) in Clauses(p) <==> p.udp == Some(true) && v == "true"
  {
    var slots := SsSlots(p);
    assert Clauses(p) == Present(slots);
    assert Clause(EncryptMethod, Render(p.cipher)) in Clauses(p) by {
      PresentMembers(slots, Clause(EncryptMethod, Render(p.cipher)));
    }
    assert Clause(Password, Render(p.password)) in Clauses(p) by {
      PresentMembers(slots, Clause(Password, Render(p.password)));
    }
    PresentMembers(slots, Clause(UdpRelay, v));
  }

  /** Shadowsocks obfs clauses: `obfs=<mode>` only for the obfs plugin with
      options; the host clause, `example.com` and the host, only when the host is
      also set. */
  lemma {:induction false} SsObfsClauses(p: Proxy, v: string)
    requires p.kind == Some("ss")
    ensures Clause(Obfs, v) in Clauses(p) <==>
      p.plugin == Some("obfs") && p.pluginOpts.Some? && v == Render(p.pluginOpts.value.mode)
    ensures Clause(ObfsHost, v) in Clauses(p) <==>
      p.plugin == Some("obfs") && p.pluginOpts.Some? && NonEmpty(p.pluginOpts.value.host) &&
      v == "example.com " + p.pluginOpts.value.host.value
  {
    var slots := SsSlots(p);
    assert Clauses(p) == Present(slots);
    assert Clause(Obfs, v) in Clauses(p) <==>
      p.plugin == Some("obfs") && p.pluginOpts.Some? && v == Render(p.pluginOpts.value.mode) by {
      PresentMembers(slots, Clause(Obfs, v));
    }
    PresentMembers(slots, Clause(ObfsHost, v));
  }

  /** VMess clauses: the uuid always, and `skip-cert-verify=true` exactly when
      that field is true. */
  lemma {:induction false} VmessClauses(p: Proxy, v: string)
    requires p.kind == Some("vmess")
    ensures Clause(Username, Render(p.uuid)) in Clauses(p)
    ensures Clause(SkipCertVerify, v) in Clauses(p) <==> p.skipCertVerify == Some(true) && v == "true"
  {
    var slots := VmessSlots(p);
    assert Clauses(p) == Present(slots);
    assert Clause(Username, Render(p.uuid)) in Clauses(p) by {
      PresentMembers(slots, Clause(Username, Render(p.uuid)));
    }
    PresentMembers(slots, Clause(SkipCertVerify, v));
  }

  /** VMess TLS clauses: the server name exactly when it is set, and `tls=true`
      exactly when `tls` is true. */
  lemma {:induction false} VmessTlsClauses(p: Proxy, v: string)
    requires p.kind == Some("vmess")
    ensures Clause(Sni, v) in Clauses(p) <==> NonEmpty(p.servername) && v == p.servername.value
    ensures Clause(Tls, v) in Clauses(p) <==> p.tls == Some(true) && v == "true"
  {
    var slots := VmessSlots(p);
    assert Clauses(p) == Present(slots);
    assert Clause(Sni, v) in Clauses(p) <==> NonEmpty(p.servername) && v == p.servername.value by {
      PresentMembers(slots, Clause(Sni, v));
    }
    PresentMembers(slots, Clause(Tls, v));
  }

  /** VMess transport clauses: `ws=true` exactly when the network is `ws`, and the
      path exactly when `ws-path` is set. */
  lemma {:induction false} VmessWsClauses(p: Proxy, v: string)
    requires p.kind == Some("vmess")
    ensures Clause(Ws, v) in Clauses(p) <==> p.network == Some("ws") && v == "true"
    ensures Clause(WsPath, v) in Clauses(p) <==> NonEmpty(p.wsPath) && v == p.wsPath.value
  {
    var slots := VmessSlots(p);
    assert Clauses(p) == Present(slots);
    assert Clause(Ws, v) in Clauses(p) <==> p.network == Some("ws") && v == "true" by {
      PresentMembers(slots, Clause(Ws, v));
    }
    assert Clause(WsPath, v) in Clauses(p) <==> NonEmpty(p.wsPath) && v == p.wsPath.value by {
      PresentMembers(slots, Clause(WsPath, v));
    }
  }

  /** Trojan clauses: the password always; the others exactly when truthy. */
  lemma {:induction false} TrojanClauses(p: Proxy, v: string)
    requires p.kind == Some("trojan")
    ensures Clause(Password, Render(p.password)) in Clauses(p)
    ensures Clause(SkipCertVerify, v) in Clauses(p) <==> p.skipCertVerify == Some(true) && v == "true"
    ensures Clause(Sni, v) in Clauses(p) <==> NonEmpty(p.sni) && v == p.sni.value
  {
    var slots := TrojanSlots(p);
    assert Clauses(p) == Present(slots);
    assert Clause(Password, Render(p.password)) in Clauses(p) by {
      PresentMembers(slots, Clause(Password, Render(p.password)));
    }
    assert Clause(SkipCertVerify, v) in Clauses(p) <==> p.skipCertVerify == Some(true) && v == "true" by {
      PresentMembers(slots, Clause(SkipCertVerify, v));
    }
    assert Clause(Sni, v) in Clauses(p) <==> NonEmpty(p.sni) && v == p.sni.value by {
      PresentMembers(slots, Clause(Sni, v));
    }
  }

  /** The line after `k` rows is the head followed by the texts of those rows. */
  lemma {:induction false} LineIsHeadAndRows(head: string, slots: seq<Slot>, k: nat)
    requires k <= |slots|
    ensures Line(head, slots, k) == head + Seqs.Concat(slots[..k], SlotText)
  {
    if k == 0 {
      assert slots[..0] == [];
      assert head + [] == head;
    } else {
      LineIsHeadAndRows(head, slots, k - 1);
      Seqs.ConcatSnoc(slots, k - 1, SlotText);
      AppendAssoc(head, Seqs.Concat(slots[..k], SlotText), Seqs.Concat(slots[..k - 1], SlotText), SlotText(slots[k - 1]));
    }
  }

  /** The rows' texts, one after another, are exactly the clauses the rows call
      for, in row order. */
  lemma {:induction false} RowsRenderClauses(slots: seq<Slot>)
    ensures Seqs.Concat(slots, SlotText) == RenderClauses(Present(slots))
  {
    if slots != [] {
      var s, rest := slots[0], slots[1..];
      RowsRenderClauses(rest);
      var first := if s.present then [Clause(s.key, s.value)] else [];
      assert Present(slots) == first + Present(rest);
      Seqs.ConcatAppend(first, Present(rest), ClauseText);
      if s.present {
        assert first[1..] == [];
        assert Seqs.Concat(first, ClauseText) == ClauseText(first[0]) + Seqs.Concat([], ClauseText);
        assert ClauseText(first[0]) + "" == SlotText(s);
      } else {
        assert Seqs.Concat(first, ClauseText) == "";
        assert "" + RenderClauses(Present(rest)) == RenderClauses(Present(rest));
      }
    }
  }

  /** The line of a whole table is the head followed by all of its present clauses. */
  lemma {:induction false} FullLineRendersClauses(head: string, slots: seq<Slot>)
    ensures Line(head, slots, |slots|) == head + RenderClauses(Present(slots))
  {
    LineIsHeadAndRows(head, slots, |slots|);
    assert slots[..|slots|] == slots;
    RowsRenderClauses(slots);
  }

  /** The line built from the first rows of a table is a prefix of the line built
      from more of them. */
  lemma {:induction false} LinePrefix(head: string, slots: seq<Slot>, j: nat, k: nat)
    requires j <= k <= |slots|
    ensures Line(head, slots, j) <= Line(head, slots, k)
  {
    LineIsHeadAndRows(head, slots, j);
    LineIsHeadAndRows(head, slots, k);
    Seqs.ConcatPrefix(slots, j, k, SlotText);
    PrefixUnderHead(head, Seqs.Concat(slots[..j], SlotText), Seqs.Concat(slots[..k], SlotText));
  }

  /** A Shadowsocks line begins with `name = ss, server, port, encrypt-method=<cipher>,
      password=<password>`. */
  lemma {:induction false} SsLineStart(p: Proxy)
    requires p.kind == Some("ss") && SurgeLine(p).Some?
    ensures Head(p) + ClauseText(Clause(EncryptMethod, Render(p.cipher))) + ClauseText(Clause(Password, Render(p.password)))
      <= SurgeLine(p).value
  {
    var slots := SsSlots(p);
    assert Line(Head(p), slots, 1) == Head(p) + ClauseText(Clause(EncryptMethod, Render(p.cipher)));
    LinePrefix(Head(p), slots, 2, 5);
  }

  /** A VMess line begins with `name = vmess, server, port, username=<uuid>`. */
  lemma {:induction false} VmessLineStart(p: Proxy)
    requires p.kind == Some("vmess") && SurgeLine(p).Some?
    ensures Head(p) + ClauseText(Clause(Username, Render(p.uuid))) <= SurgeLine(p).value
  {
    LinePrefix(Head(p), VmessSlots(p), 1, 6);
  }

  /** A Trojan line begins with `name = trojan, server, port, password=<password>`. */
  lemma {:induction false} TrojanLineStart(p: Proxy)
    requires p.kind == Some("trojan") && SurgeLine(p).Some?
    ensures Head(p) + ClauseText(Clause(Password, Render(p.password))) <= SurgeLine(p).value
  {
    LinePrefix(Head(p), TrojanSlots(p), 1, 3);
  }

  /** The line of a record begins with its name (`undefined` when it has none)
      followed by ` = `: the translator never looks at names. */
  lemma {:induction false} LineStartsWithName(p: Proxy)
    requires SurgeLine(p).Some?
    ensures Render(p.name) + " = " <= SurgeLine(p).value
  {
    var nameEq := Render(p.name) + " = ";
    LinePrefix(Head(p), Slots(p), 0, |Slots(p)|);
    PrefixOf(nameEq, Endpoint(p), Head(p));
    PrefixTransitive(nameEq, Head(p), SurgeLine(p).value);
  }

  /** A builder step that appends a row's clause extends the line by that row. */
  lemma {:induction false} AppendRow(head: string, slots: seq<Slot>, k: nat, before: string)
    requires k < |slots| && slots[k].present && before == Line(head, slots, k)
    ensures before + ClauseText(Clause(slots[k].key, slots[k].value)) == Line(head, slots, k + 1)
  {
  }

  /** A builder step whose condition fails leaves the line as it is. */
  lemma {:induction false} SkipRow(head: string, slots: seq<Slot>, k: nat, before: string)
    requires k < |slots| && !slots[k].present && before == Line(head, slots, k)
    ensures before == Line(head, slots, k + 1)
  {
    assert before + "" == before;
  }

  /** A kept record's line is built from its protocol's table. */
  lemma {:induction false} KeptLine(p: Proxy, slots: seq<Slot>)
    requires IsSupported(p) && !Unrepresentable(p.kind.value, p.plugin, p.network)
    requires slots == Slots(p)
    ensures SurgeLine(p) == Some(Line(Head(p), slots, |slots|))
  {
  }

  /** The Shadowsocks branch of the per-record builder. */
  method BuildSsLine(p: Proxy) returns (line: Option<string>)
    requires p.kind == Some("ss")
    ensures line == SurgeLine(p)
  {
    var common := Head(p);
    if p.plugin == Some("v2ray-plugin") {
      return None;
    }
    ghost var slots := SsSlots(p);
    assert |slots| == 5;
    KeptLine(p, slots);
    AppendRow(common, slots, 0, common);
    var result := common + ClauseText(Clause(EncryptMethod, Render(p.cipher)));
    AppendRow(common, slots, 1, result);
    result := result + ClauseText(Clause(Password, Render(p.password)));
    if p.plugin == Some("obfs") {
      if p.pluginOpts.Some? {
        var mode := p.pluginOpts.value.mode;
        var host := p.pluginOpts.value.host;
        AppendRow(common, slots, 2, result);
        result := result + ClauseText(Clause(Obfs, Render(mode)));
        if NonEmpty(host) {
          AppendRow(common, slots, 3, result);
          result := result + ClauseText(Clause(ObfsHost, "example.com " + host.value));
        } else {
          SkipRow(common, slots, 3, result);
        }
      } else {
        SkipRow(common, slots, 2, result);
        SkipRow(common, slots, 3, result);
      }
    } else {
      SkipRow(common, slots, 2, result);
      SkipRow(common, slots, 3, result);
    }
    if IsTrue(p.udp) {
      AppendRow(common, slots, 4, result);
      result := result + ClauseText(Clause(UdpRelay, BoolText(p.udp.value)));
    } else {
      SkipRow(common, slots, 4, result);
    }
    return Some(result);
  }

  /** The VMess branch of the per-record builder. */
  method BuildVmessLine(p: Proxy) returns (line: Option<string>)
    requires p.kind == Some("vmess")
    ensures line == SurgeLine(p)
  {
    var common := Head(p);
    if p.network.Some? && p.network.value in ["h2", "http", "grpc"] {
      return None;
    }
    ghost var slots := VmessSlots(p);
    assert |slots| == 6;
    KeptLine(p, slots);
    AppendRow(common, slots, 0, common);
    var result := common + ClauseText(Clause(Username, Render(p.uuid)));
    if IsTrue(p.skipCertVerify) {
      AppendRow(common, slots, 1, result);
      result := result + ClauseText(Clause(SkipCertVerify, BoolText(p.skipCertVerify.value)));
    } else {
      SkipRow(common, slots, 1, result);
    }
    if NonEmpty(p.servername) {
      AppendRow(common, slots, 2, result);
      result := result + ClauseText(Clause(Sni, p.servername.value));
    } else {
      SkipRow(common, slots, 2, result);
    }
    if IsTrue(p.tls) {
      AppendRow(common, slots, 3, result);
      result := result + ClauseText(Clause(Tls, BoolText(p.tls.value)));
    } else {
      SkipRow(common, slots, 3, result);
    }
    if p.network == Some("ws") {
      AppendRow(common, slots, 4, result);
      result := result + ClauseText(Clause(Ws, "true"));
    } else {
      SkipRow(common, slots, 4, result);
    }
    if NonEmpty(p.wsPath) {
      AppendRow(common, slots, 5, result);
      result := result + ClauseText(Clause(WsPath, p.wsPath.value));
    } else {
      SkipRow(common, slots, 5, result);
    }
    return Some(result);
  }

  /** The Trojan branch of the per-record builder. */
  method BuildTrojanLine(p: Proxy) returns (line: Option<string>)
    requires p.kind == Some("trojan")
    ensures line == SurgeLine(p)
  {
    var common := Head(p);
    if p.network.Some? && p.network.value in ["grpc"] {
      return None;
    }
    ghost var slots := TrojanSlots(p);
    assert |slots| == 3;
    KeptLine(p, slots);
    AppendRow(common, slots, 0, common);
    var result := common + ClauseText(Clause(Password, Render(p.password)));
    if IsTrue(p.skipCertVerify) {
      AppendRow(common, slots, 1, result);
      result := result + ClauseText(Clause(SkipCertVerify, BoolText(p.skipCertVerify.value)));
    } else {
      SkipRow(common, slots, 1, result);
    }
    if NonEmpty(p.sni) {
      AppendRow(common, slots, 2, result);
      result := result + ClauseText(Clause(Sni, p.sni.value));
    } else {
      SkipRow(common, slots, 2, result);
    }
    return Some(result);
  }

  /** The `supportedProxies.map` callback: it dispatches on the type and yields
      `undefined` (None) for a record Surge cannot express. */
  method BuildSurgeLine(p: Proxy) returns (line: Option<string>)
    ensures line == SurgeLine(p)
  {
    if p.kind == Some("ss") {
      line := BuildSsLine(p);
    } else if p.kind == Some("vmess") {
      line := BuildVmessLine(p);
    } else if p.kind == Some("trojan") {
      line := BuildTrojanLine(p);
    } else {
      line := None;
    }
  }
}
