/**
 The control frames of one user and what handling one does to a hub's routing table and to
 the user's lists (internal/server/server.go), as functions on Reg.
 */
module Routing {
  import opened Prelude
  import opened Sessions

  datatype CtlFrame =
    | OpenPTY(ch: uint16, started: Option<Session>)
    | ClosePTY(ch: uint16)
    | OpenProxy(ch: uint16, hasTarget: bool, dialed: Option<PortProxySession>)
    | CloseProxy(ch: uint16)

  function Effect(r: Reg, h: Hub, f: CtlFrame): Reg
  {
    match f
    case OpenPTY(ch, started) => OpenPtyIn(r, h, ch, started)
    case ClosePTY(ch) => ClosePtyIn(r, h, ch)
    case OpenProxy(ch, hasTarget, dialed) => OpenProxyIn(r, h, ch, hasTarget, dialed)
    case CloseProxy(ch) => CloseProxyIn(r, h, ch)
  }

  function Started(f: CtlFrame): set<Session>
  {
    if f.OpenPTY? && f.started.Some? then {f.started.value} else {}
  }

  function Dialed(f: CtlFrame): set<PortProxySession>
  {
    if f.OpenProxy? && f.dialed.Some? then {f.dialed.value} else {}
  }

  /** An open frame that attaches a session to the hub that handles it. */
  predicate Opens(r: Reg, f: CtlFrame)
  {
    match f
    case OpenPTY(ch, started) => ch != 0 && (ch in r.ptys || started.Some?)
    case OpenProxy(ch, hasTarget, dialed) =>
      ch != 0 && hasTarget && ((ch in r.proxies && r.proxies[ch] !in r.proxyClosed) || dialed.Some?)
    case _ => false
  }

  /** A close frame for a listed channel. */
  predicate Delists(r: Reg, f: CtlFrame)
  {
    match f
    case ClosePTY(ch) => ch in r.ptys
    case CloseProxy(ch) => ch in r.proxies
    case _ => false
  }

  // ---------------------------------------------------------------------
  // The table that agrees with the lists

  /** {0: control} and every PTY and proxy of the user, nothing else. */
  ghost function Expected(ptys: map<uint16, Session>, proxies: map<uint16, PortProxySession>): map<uint16, Handler>
  {
    map[0 := Control] + PtyHandlers(ptys) + ProxyHandlers(proxies)
  }

  ghost predicate Keyed(r: Reg)
  {
    && (forall ch | ch in r.ptys :: ch != 0 && ch !in r.proxies && r.ptys[ch].chanID == ch)
    && (forall ch | ch in r.proxies :: ch != 0 && r.proxies[ch].chanID == ch)
  }

  lemma ExpectedKeys(ptys: map<uint16, Session>, proxies: map<uint16, PortProxySession>)
    ensures Expected(ptys, proxies).Keys == {0} + ptys.Keys + proxies.Keys
  {
  }

  lemma ExpectedAt(ptys: map<uint16, Session>, proxies: map<uint16, PortProxySession>, c: uint16)
    ensures c in Expected(ptys, proxies) ==>
              Expected(ptys, proxies)[c] == if c in proxies then OfProxy(proxies[c])
                                            else if c in ptys then OfPty(ptys[c]) else Control
  {
    hide PtyHandlers, ProxyHandlers, SendAllTo;
  }

  lemma ExpectedRoutes(r: Reg)
    requires Keyed(r)
    ensures var e := Expected(r.ptys, r.proxies);
            && e.Keys == {0} + r.ptys.Keys + r.proxies.Keys
            && e[0] == Control
            && (forall ch | ch in r.ptys :: ch !in r.proxies && e[ch] == OfPty(r.ptys[ch]))
            && (forall ch | ch in r.proxies :: e[ch] == OfProxy(r.proxies[ch]))
  {
    hide PtyHandlers, ProxyHandlers, SendAllTo;
  }

  lemma NoHandler(r: Reg, ch: uint16)
    requires ch != 0 && ch !in r.ptys && ch !in r.proxies
    ensures ch !in Expected(r.ptys, r.proxies)
  {
    hide PtyHandlers, ProxyHandlers, SendAllTo;
  }

  lemma ExpectedPut(ptys: map<uint16, Session>, proxies: map<uint16, PortProxySession>, ch: uint16, x: Session)
    requires ch !in proxies
    ensures Expected(ptys[ch := x], proxies) == Expected(ptys, proxies)[ch := OfPty(x)]
  {
    hide Expected;
    var more, all := Expected(ptys[ch := x], proxies), Expected(ptys, proxies);
    ExpectedKeys(ptys, proxies);
    ExpectedKeys(ptys[ch := x], proxies);
    forall c | c in more
      ensures more[c] == if c == ch then OfPty(x) else all[c]
    {
      ExpectedAt(ptys, proxies, c);
      ExpectedAt(ptys[ch := x], proxies, c);
    }
    assert more == all[ch := OfPty(x)];
  }

  lemma ExpectedDrop(ptys: map<uint16, Session>, proxies: map<uint16, PortProxySession>, ch: uint16)
    requires ch != 0 && ch in ptys && ch !in proxies
    ensures Expected(ptys - {ch}, proxies) == Expected(ptys, proxies) - {ch}
    ensures ch in Expected(ptys, proxies) && Expected(ptys, proxies)[ch] == OfPty(ptys[ch])
  {
    hide Expected;
    var less, all := Expected(ptys - {ch}, proxies), Expected(ptys, proxies);
    ExpectedKeys(ptys, proxies);
    ExpectedKeys(ptys - {ch}, proxies);
    forall c | c in all
      ensures c in less ==> less[c] == all[c]
      ensures c == ch ==> all[c] == OfPty(ptys[ch])
    {
      ExpectedAt(ptys, proxies, c);
      ExpectedAt(ptys - {ch}, proxies, c);
    }
    assert less == all - {ch};
  }

  lemma ExpectedPutProxy(ptys: map<uint16, Session>, proxies: map<uint16, PortProxySession>,
                         ch: uint16, p: PortProxySession)
    ensures Expected(ptys, proxies[ch := p]) == Expected(ptys, proxies)[ch := OfProxy(p)]
  {
    hide PtyHandlers, ProxyHandlers, SendAllTo;
    assert ProxyHandlers(proxies[ch := p]) == ProxyHandlers(proxies)[ch := OfProxy(p)];
  }

  lemma ExpectedDropProxy(ptys: map<uint16, Session>, proxies: map<uint16, PortProxySession>, ch: uint16)
    requires ch != 0 && ch !in ptys && ch in proxies
    ensures Expected(ptys, proxies - {ch}) == Expected(ptys, proxies) - {ch}
    ensures ch in Expected(ptys, proxies) && Expected(ptys, proxies)[ch] == OfProxy(proxies[ch])
  {
    hide Expected;
    var less, all := Expected(ptys, proxies - {ch}), Expected(ptys, proxies);
    ExpectedKeys(ptys, proxies);
    ExpectedKeys(ptys, proxies - {ch});
    forall c | c in all
      ensures c in less ==> less[c] == all[c]
      ensures c == ch ==> all[c] == OfProxy(proxies[ch])
    {
      ExpectedAt(ptys, proxies, c);
      ExpectedAt(ptys, proxies - {ch}, c);
    }
    assert less == all - {ch};
  }

  /** The expected table changes exactly when the lists do. */
  lemma ListChanges(r: Reg, r': Reg, ch: uint16)
    requires 0 !in r.ptys && 0 !in r.proxies && 0 !in r'.ptys && 0 !in r'.proxies
    requires r.ptys.Keys !! r.proxies.Keys && r'.ptys.Keys !! r'.proxies.Keys
    ensures Expected(r'.ptys, r'.proxies) == Expected(r.ptys, r.proxies)
            <==> r'.ptys == r.ptys && r'.proxies == r.proxies
  {
    ExpectedKeys(r.ptys, r.proxies);
    ExpectedKeys(r'.ptys, r'.proxies);
    var e, e' := Expected(r.ptys, r.proxies), Expected(r'.ptys, r'.proxies);
    hide Expected;
    if e == e' {
      forall c | c in e
        ensures c in r.ptys <==> c in r'.ptys
        ensures c in r.proxies <==> c in r'.proxies
        ensures c in r.ptys ==> r.ptys[c] == r'.ptys[c]
        ensures c in r.proxies ==> r.proxies[c] == r'.proxies[c]
      {
        ExpectedAt(r.ptys, r.proxies, c);
        ExpectedAt(r'.ptys, r'.proxies, c);
      }
      assert r'.ptys == r.ptys && r'.proxies == r.proxies;
    }
  }

  // ---------------------------------------------------------------------
  // What the operations do to tables and lists

  lemma ConnectShape(r: Reg, h: Hub)
    requires h !in r.handlers
    ensures var r' := ConnectIn(r, h);
            && r'.handlers == r.handlers[h := Expected(r.ptys, r.proxies)]
            && r' == r.(handlers := r'.handlers, proxyHub := SendAllTo(r.proxyHub, r.proxies.Values, h))
  {
    hide PtyHandlers, ProxyHandlers, SendAllTo;
  }

  lemma UnregisterShape(r: Reg, h: Hub, ch: uint16)
    ensures var r' := UnregisterIn(r, h, ch);
            HandlersOf(r', h) == HandlersOf(r, h) - {ch} && r'.ptys == r.ptys && r'.proxies == r.proxies
  {
    var hs := HandlersOf(r, h);
    if ch !in hs {
      assert hs - {ch} == hs;
    } else {
      assert UnregisterIn(r, h, ch).handlers == r.handlers[h := hs - {ch}];
    }
  }

  /** Whatever kind of channel it is, the frame drops one handler and one entry. */
  lemma ClosePtyShape(r: Reg, h: Hub, ch: uint16)
    ensures var r' := ClosePtyIn(r, h, ch);
            && HandlersOf(r', h) == HandlersOf(r, h) - {ch}
            && r'.ptys == r.ptys - {ch} && r'.proxies == r.proxies
  {
    UnregisterShape(r, h, ch);
    hide UnregisterIn;
    assert ch !in r.ptys ==> r.ptys - {ch} == r.ptys;
  }

  lemma CloseProxyShape(r: Reg, h: Hub, ch: uint16)
    ensures var r' := CloseProxyIn(r, h, ch);
            && HandlersOf(r', h) == HandlersOf(r, h) - {ch}
            && r'.proxies == r.proxies - {ch} && r'.ptys == r.ptys
  {
    UnregisterShape(r, h, ch);
    hide UnregisterIn;
    assert ch !in r.proxies ==> r.proxies - {ch} == r.proxies;
  }

  lemma DetachedAll(r: Reg)
    ensures var r' := DetachIn(r);
            && (forall ch | ch in r.ptys :: r.ptys[ch] !in r'.sender)
            && (forall ch | ch in r.proxies :: r.proxies[ch] !in r'.proxyHub)
            && r' == r.(sender := r'.sender, proxyHub := r'.proxyHub)
  {
    assert forall ch | ch in r.ptys :: r.ptys[ch] in r.ptys.Values;
    assert forall ch | ch in r.proxies :: r.proxies[ch] in r.proxies.Values;
  }

  lemma SameHandlers(r: Reg, r': Reg, g: Hub)
    requires r'.handlers == r.handlers
    ensures HandlersOf(r', g) == HandlersOf(r, g)
  {
  }

  lemma OtherUnregister(r: Reg, h: Hub, ch: uint16, g: Hub)
    requires g != h
    ensures HandlersOf(UnregisterIn(r, h, ch), g) == HandlersOf(r, g)
  {
  }

  lemma OtherRegister(r: Reg, h: Hub, ch: uint16, hd: Handler, g: Hub)
    requires g != h
    ensures HandlersOf(RegisterIn(r, h, ch, hd), g) == HandlersOf(r, g)
  {
  }

  lemma OtherTable(r: Reg, h: Hub, f: CtlFrame, g: Hub)
    requires g != h
    ensures HandlersOf(Effect(r, h, f), g) == HandlersOf(r, g)
  {
    hide UnregisterIn, RegisterIn, HandlersOf;
    match f
    case OpenPTY(ch, started) =>
      var x := if ch in r.ptys then Some(r.ptys[ch]) else started;
      if ch != 0 && x.Some? {
        OtherRegister(r, h, ch, OfPty(x.value), g);
        SameHandlers(RegisterIn(r, h, ch, OfPty(x.value)), Effect(r, h, f), g);
      }
    case OpenProxy(ch, hasTarget, dialed) =>
      var p := if ch in r.proxies && r.proxies[ch] !in r.proxyClosed then Some(r.proxies[ch]) else dialed;
      if ch != 0 && hasTarget && p.Some? {
        OtherRegister(r, h, ch, OfProxy(p.value), g);
        SameHandlers(RegisterIn(r, h, ch, OfProxy(p.value)), Effect(r, h, f), g);
      }
    case ClosePTY(ch) =>
      OtherUnregister(r, h, ch, g);
      SameHandlers(UnregisterIn(r, h, ch), Effect(r, h, f), g);
    case CloseProxy(ch) =>
      OtherUnregister(r, h, ch, g);
      SameHandlers(UnregisterIn(r, h, ch), Effect(r, h, f), g);
  }

  // ---------------------------------------------------------------------
  // Close frames

  /** Closing a PTY keeps an agreeing table in agreement exactly when the frame names a
      nonzero channel that no proxy uses. */
  lemma ClosePtyAgreesExactly(r: Reg, h: Hub, ch: uint16)
    requires HandlersOf(r, h) == Expected(r.ptys, r.proxies)
    requires 0 !in r.ptys && 0 !in r.proxies && r.ptys.Keys !! r.proxies.Keys
    ensures var r' := ClosePtyIn(r, h, ch);
            HandlersOf(r', h) == Expected(r'.ptys, r'.proxies) <==> ch != 0 && ch !in r.proxies
  {
    hide Expected, ClosePtyIn, HandlersOf;
    ClosePtyShape(r, h, ch);
    var r' := ClosePtyIn(r, h, ch);
    ExpectedKeys(r.ptys, r.proxies);
    ExpectedKeys(r'.ptys, r'.proxies);
    if ch != 0 && ch !in r.proxies {
      if ch in r.ptys {
        ExpectedDrop(r.ptys, r.proxies, ch);
      } else {
        assert r.ptys - {ch} == r.ptys;
      }
    }
  }

  /** The same for proxies: a nonzero channel that no PTY uses. */
  lemma CloseProxyAgreesExactly(r: Reg, h: Hub, ch: uint16)
    requires HandlersOf(r, h) == Expected(r.ptys, r.proxies)
    requires 0 !in r.ptys && 0 !in r.proxies && r.ptys.Keys !! r.proxies.Keys
    ensures var r' := CloseProxyIn(r, h, ch);
            HandlersOf(r', h) == Expected(r'.ptys, r'.proxies) <==> ch != 0 && ch !in r.ptys
  {
    hide Expected, CloseProxyIn, HandlersOf;
    CloseProxyShape(r, h, ch);
    var r' := CloseProxyIn(r, h, ch);
    ExpectedKeys(r.ptys, r.proxies);
    ExpectedKeys(r'.ptys, r'.proxies);
    if ch != 0 && ch !in r.ptys {
      if ch in r.proxies {
        ExpectedDropProxy(r.ptys, r.proxies, ch);
      } else {
        assert r.proxies - {ch} == r.proxies;
      }
    }
  }
}
