/** Worked examples: concrete records and the answers the handlers give for them. */
module Scenarios {
  import opened Wrappers
  import opened Text
  import opened Proxies
  import opened NameFilter
  import opened Surge
  import opened SurgeOutput
  import opened Handlers

  /** A record with only its name, type, server and port set. */
  function Bare(name: string, kind: string, server: string, port: nat): Proxy
  {
    Proxy(Some(name), Some(kind), server, port, None, None, None, None, None, None, None, None, None, None, None, None)
  }

  const HongKong: Proxy :=
    Bare("HK-1", "ss", "a.com", 443).(cipher := Some("aes-256-gcm"), password := Some("p1"), udp := Some(true))

  const JapanGrpc: Proxy :=
    Bare("JP-1", "vmess", "b.com", 443).(uuid := Some("u1"), network := Some("grpc"))

  const SingaporeWs: Proxy :=
    Bare("SG-ws", "vmess", "c.com", 443).(uuid := Some("u2"), network := Some("ws"), wsPath := Some("/p"), tls := Some(true))

  lemma {:induction false} Port443()
    ensures DecimalString(443) == "443"
  {
    assert DecimalString(4) == "4";
    assert DecimalString(44) == "44";
  }

  lemma {:induction false} HongKongHead()
    ensures Head(HongKong) == "HK-1 = ss, a.com, 443"
  {
    Port443();
  }

  lemma {:induction false} HongKongClauses()
    ensures Present(SsSlots(HongKong)) ==
      [Clause(EncryptMethod, "aes-256-gcm"), Clause(Password, "p1"), Clause(UdpRelay, "true")]
  {
    var slots := SsSlots(HongKong);
    assert Present(slots[4..]) == [Clause(UdpRelay, "true")] by {
      assert slots[4..][1..] == [];
    }
    assert Present(slots[2..]) == Present(slots[4..]) by {
      assert slots[2..][1..] == slots[3..] && slots[3..][1..] == slots[4..];
    }
    assert slots[1..][1..] == slots[2..];
  }

  /** A Shadowsocks record with `udp: true` gets its cipher, password and
      `udp-relay=true`, and no obfs clause:
      `HK-1 = ss, a.com, 443, encrypt-method=aes-256-gcm, password=p1, udp-relay=true`. */
  lemma {:induction false} HongKongLine()
    ensures Head(HongKong) == "HK-1 = ss, a.com, 443"
    ensures Clauses(HongKong) == [Clause(EncryptMethod, "aes-256-gcm"), Clause(Password, "p1"), Clause(UdpRelay, "true")]
    ensures SurgeLine(HongKong) == Some(Head(HongKong) + RenderClauses(Clauses(HongKong)))
  {
    HongKongHead();
    HongKongClauses();
    var slots := SsSlots(HongKong);
    assert Clauses(HongKong) == Present(slots);
    assert SurgeLine(HongKong) == Some(Line(Head(HongKong), slots, |slots|)) by {
      KeptLine(HongKong, slots);
    }
    FullLineRendersClauses(Head(HongKong), slots);
  }

  /** A lone VMess-over-grpc record yields an empty Surge body, not an error. */
  lemma {:induction false} JapanGrpcDropped()
    ensures Convert(Some("https://sub.example/c.yaml"), Success(Config(Some([JapanGrpc]))), Some("surge")) ==
      Success(SurgeText(""))
  {
    SurgeLinesSingle(JapanGrpc);
  }

  lemma {:induction false} SingaporeWsHead()
    ensures Head(SingaporeWs) == "SG-ws = vmess, c.com, 443"
  {
    Port443();
  }

  lemma {:induction false} SingaporeWsClauses()
    ensures Present(VmessSlots(SingaporeWs)) ==
      [Clause(Username, "u2"), Clause(Tls, "true"), Clause(Ws, "true"), Clause(WsPath, "/p")]
  {
    var slots := VmessSlots(SingaporeWs);
    assert Present(slots[5..]) == [Clause(WsPath, "/p")] by {
      assert slots[5..][1..] == [];
    }
    assert Present(slots[4..]) == [Clause(Ws, "true"), Clause(WsPath, "/p")] by {
      assert slots[4..][1..] == slots[5..];
    }
    assert Present(slots[3..]) == [Clause(Tls, "true"), Clause(Ws, "true"), Clause(WsPath, "/p")] by {
      assert slots[3..][1..] == slots[4..];
    }
    assert Present(slots[1..]) == Present(slots[3..]) by {
      assert slots[1..][1..] == slots[2..] && slots[2..][1..] == slots[3..];
    }
  }

  /** A VMess-over-websocket record with TLS and a path, and neither
      `skip-cert-verify` nor a server name:
      `SG-ws = vmess, c.com, 443, username=u2, tls=true, ws=true, ws-path=/p`. */
  lemma {:induction false} SingaporeWsLine()
    ensures Head(SingaporeWs) == "SG-ws = vmess, c.com, 443"
    ensures Clauses(SingaporeWs) ==
      [Clause(Username, "u2"), Clause(Tls, "true"), Clause(Ws, "true"), Clause(WsPath, "/p")]
    ensures SurgeLine(SingaporeWs) == Some(Head(SingaporeWs) + RenderClauses(Clauses(SingaporeWs)))
  {
    SingaporeWsHead();
    SingaporeWsClauses();
    var slots := VmessSlots(SingaporeWs);
    assert Clauses(SingaporeWs) == Present(slots);
    assert SurgeLine(SingaporeWs) == Some(Line(Head(SingaporeWs), slots, |slots|)) by {
      KeptLine(SingaporeWs, slots);
    }
    FullLineRendersClauses(Head(SingaporeWs), slots);
  }

  /** A name in which the first character of a pattern never occurs does not
      contain the pattern. */
  lemma {:induction false} FirstCharAbsent(s: string, pat: string)
    requires pat != [] && pat[0] !in s
    ensures !Contains(s, pat)
    decreases |s|
  {
    if s != [] {
      FirstCharAbsent(s[1..], pat);
      assert s[0] in s;
    }
  }

  /** With a literal-substring matcher the `include` pattern is case-sensitive:
      `hk` keeps neither `HK-1` nor `jp-1`, while `HK` keeps `HK-1`. */
  lemma {:induction false} IncludeIsCaseSensitive()
    ensures Filtered([HongKong, Bare("jp-1", "ss", "b.com", 443)], FilterRule(Some("hk"), None), Contains) == []
    ensures Filtered([HongKong, Bare("jp-1", "ss", "b.com", 443)], FilterRule(Some("HK"), None), Contains) == [HongKong]
  {
    var jp := Bare("jp-1", "ss", "b.com", 443);
    var lower, upper := FilterRule(Some("hk"), None), FilterRule(Some("HK"), None);
    assert !Keep(HongKong, lower, Contains) by {
      FirstCharAbsent("HK-1", "hk");
    }
    assert !Keep(jp, lower, Contains) by {
      FirstCharAbsent("jp-1", "hk");
    }
    assert Keep(HongKong, upper, Contains) by {
      assert "HK" <= "HK-1";
    }
    assert !Keep(jp, upper, Contains) by {
      FirstCharAbsent("jp-1", "HK");
    }
    assert [HongKong, jp][1..] == [jp] && [jp][1..] == [];
    assert Filtered([jp], lower, Contains) == [] by {
      assert Filtered([], lower, Contains) == [];
    }
    assert Filtered([jp], upper, Contains) == [] by {
      assert Filtered([], upper, Contains) == [];
    }
  }
}
