/**
 One user's maps and the control handler of internal/server/server.go: each
 method changes the objects as the functions on Reg say.
 */
module Control {
  import opened Prelude
  import opened Codec
  import opened HubFifo
  import opened Replay
  import opened Sessions

  /** The senders of the sessions that have one. */
  ghost function SendersOf(all: set<Session>): (m: map<Session, Hub>)
    reads all`sender
    ensures m.Keys <= all
    ensures forall s | s in all :: s in m <==> s.sender != null
    ensures forall s | s in m :: m[s] == s.sender
  {
    if all == {} then map[]
    else
      var s :| s in all;
      var rest := SendersOf(all - {s});
      if s.sender == null then rest else rest[s := s.sender]
  }

  ghost function ProxyHubsOf(all: set<PortProxySession>): (m: map<PortProxySession, Hub>)
    reads all`h
    ensures m.Keys <= all
    ensures forall p | p in all :: p in m <==> p.h != null
    ensures forall p | p in m :: m[p] == p.h
  {
    if all == {} then map[]
    else
      var p :| p in all;
      var rest := ProxyHubsOf(all - {p});
      if p.h == null then rest else rest[p := p.h]
  }

  ghost function HandlersOfAll(all: set<Hub>): (m: map<Hub, map<uint16, Handler>>)
    reads all`handlers
    ensures m.Keys == all
    ensures forall h | h in all :: m[h] == h.handlers
  {
    if all == {} then map[]
    else
      var h :| h in all;
      HandlersOfAll(all - {h})[h := h.handlers]
  }

  lemma PutOne<K, V>(base: map<K, V>, m: map<K, V>, rest: set<K>, k: K)
    requires k in rest && rest <= m.Keys
    ensures (base + (m - rest))[k := m[k]] == base + (m - (rest - {k}))
  {
  }

  class UserSession {
    var ptys: map<uint16, Session>
    var proxies: map<uint16, PortProxySession>
    const kernel: Kernel
    // every session and hub this user ever had
    ghost var started: set<Session>
    ghost var dialed: set<PortProxySession>
    ghost var hubs: set<Hub>

    ghost predicate Valid()
      reads this
    {
      && ptys.Values <= started
      && proxies.Values <= dialed
      && (forall ch | ch in ptys :: ptys[ch].chanID == ch)
      && (forall ch | ch in proxies :: proxies[ch].chanID == ch)
    }

    ghost function Senders(): map<Session, Hub>
      reads this`started, started`sender
    {
      SendersOf(started)
    }

    ghost function ProxyHubs(): map<PortProxySession, Hub>
      reads this`dialed, dialed`h
    {
      ProxyHubsOf(dialed)
    }

    ghost function ClosedPtys(): set<Session>
      reads this`started, started`closed
    {
      set s | s in started && s.closed
    }

    ghost function ClosedProxies(): set<PortProxySession>
      reads this`dialed, dialed`closed
    {
      set p | p in dialed && p.closed
    }

    ghost function HandlerMaps(): map<Hub, map<uint16, Handler>>
      reads this`hubs, hubs`handlers
    {
      HandlersOfAll(hubs)
    }

    ghost function View(): Reg
      reads this, started`sender, started`closed, dialed`h, dialed`closed, hubs`handlers, kernel
    {
      Reg(ptys, proxies, Senders(), ProxyHubs(), ClosedPtys(), ClosedProxies(), HandlerMaps(), kernel.kills)
    }

    constructor ()
      ensures Valid() && fresh(kernel)
      ensures View() == Reg(map[], map[], map[], map[], {}, {}, map[], [])
    {
      ptys, proxies := map[], map[];
      kernel := new Kernel();
      started, dialed, hubs := {}, {}, {};
    }

    method AddPTY(s: Session)
      requires Valid() && s in started
      modifies this`ptys
      ensures Valid()
      ensures View() == old(View()).(ptys := old(ptys)[s.chanID := s])
    {
      hide SendersOf, ProxyHubsOf, HandlersOfAll;
      ptys := ptys[s.chanID := s];
    }

    method RemovePTY(ch: uint16)
      requires Valid()
      modifies this`ptys, started, kernel
      ensures Valid()
      ensures View() == RemovePtyIn(old(View()), ch)
    {
      hide SendersOf, ProxyHubsOf, HandlersOfAll;
      if ch in ptys {
        var s := ptys[ch];
        ptys := ptys - {ch};
        hide View;
        CloseSession(s);
      }
    }

    method CloseSession(s: Session)
      requires Valid() && s in started
      modifies started, kernel
      ensures Valid()
      ensures View() == KillIn(old(View()), s)
    {
      hide SendersOf, ProxyHubsOf, HandlersOfAll;
      s.Close(kernel);
    }

    method AddProxy(p: PortProxySession)
      requires Valid() && p in dialed
      modifies this`proxies
      ensures Valid()
      ensures View() == old(View()).(proxies := old(proxies)[p.chanID := p])
    {
      hide SendersOf, ProxyHubsOf, HandlersOfAll;
      proxies := proxies[p.chanID := p];
    }

    method RemoveProxy(ch: uint16)
      requires Valid()
      modifies this`proxies, dialed
      ensures Valid()
      ensures View() == RemoveProxyIn(old(View()), ch)
    {
      hide SendersOf, ProxyHubsOf, HandlersOfAll;
      if ch in proxies {
        var p := proxies[ch];
        proxies := proxies - {ch};
        p.Close();
      }
    }

    /** Routes input of the running PTYs to h; nothing is replayed yet. */
    method RegisterHandlers(h: Hub)
      requires Valid() && h in hubs
      modifies h`handlers
      ensures View() == RegisterPtysIn(old(View()), h)
    {
      hide SendersOf, ProxyHubsOf, HandlersOfAll, PtyHandlers, ProxyHandlers, SendAllTo;
      var rest := ptys.Keys;
      ghost var m, base, was := PtyHandlers(ptys), h.handlers, View();
      assert m - rest == map[];
      while rest != {}
        invariant rest <= ptys.Keys
        invariant h.handlers == base + (m - rest)
      {
        var ch :| ch in rest;
        PutOne(base, m, rest, ch);
        h.Register(ptys[ch].chanID, OfPty(ptys[ch]));
        rest := rest - {ch};
      }
      assert m - {} == m;
      assert View().handlers == was.handlers[h := base + m];
    }

    /** The same for proxies, which also start sending to h. */
    method RegisterProxyHandlers(h: Hub)
      requires Valid() && h in hubs
      modifies h`handlers, dialed
      ensures View() == RegisterProxiesIn(old(View()), h)
    {
      hide SendersOf, ProxyHubsOf, HandlersOfAll, PtyHandlers, ProxyHandlers, SendAllTo;
      var rest := proxies.Keys;
      ghost var m, base := ProxyHandlers(proxies), h.handlers;
      assert m - rest == map[];
      while rest != {}
        invariant rest <= proxies.Keys
        invariant h.handlers == base + (m - rest)
        invariant forall p | p in dialed :: p.closed == old(p.closed)
        invariant forall p | p in dialed :: p.h == old(p.h) || (p.h == h && p in proxies.Values)
        invariant forall ch | ch in proxies && ch !in rest :: proxies[ch].h == h
      {
        var ch :| ch in rest;
        PutOne(base, m, rest, ch);
        proxies[ch].Attach(h);
        h.Register(proxies[ch].chanID, OfProxy(proxies[ch]));
        rest := rest - {ch};
      }
      assert m - {} == m;
      ProxiesAttached(h);
    }

    twostate lemma ProxiesAttached(h: Hub)
      requires Valid() && old(Valid()) && h in hubs && unchanged(this) && unchanged(started) && unchanged(kernel)
      requires forall p | p in dialed :: p.closed == old(p.closed)
      requires forall p | p in dialed :: p.h == if p in proxies.Values then h else old(p.h)
      requires forall x | x in hubs ::
                 x.handlers == if x == h then old(x.handlers) + ProxyHandlers(proxies) else old(x.handlers)
      ensures View() == RegisterProxiesIn(old(View()), h)
    {
      hide SendersOf, ProxyHubsOf, HandlersOfAll, PtyHandlers, ProxyHandlers, SendAllTo;
      var was := old(View());
      assert View().handlers == was.handlers[h := old(h.handlers) + ProxyHandlers(proxies)];
      assert View().proxyHub == SendAllTo(was.proxyHub, proxies.Values, h);
    }

    method DetachHub()
      requires Valid()
      modifies started
      ensures View() == old(View()).(sender := old(View()).sender - ptys.Values)
    {
      hide SendersOf, ProxyHubsOf, HandlersOfAll;
      var all := ptys.Values;
      var rest := all;
      while rest != {}
        invariant rest <= all
        invariant forall s | s in started :: s.sender == if s in all - rest then null else old(s.sender)
        invariant forall s | s in started :: s.closed == old(s.closed)
      {
        var s :| s in rest;
        s.Detach();
        rest := rest - {s};
      }
    }

    method DetachProxies()
      requires Valid()
      modifies dialed
      ensures View() == old(View()).(proxyHub := old(View()).proxyHub - proxies.Values)
    {
      hide SendersOf, ProxyHubsOf, HandlersOfAll;
      var all := proxies.Values;
      var rest := all;
      while rest != {}
        invariant rest <= all
        invariant forall p | p in dialed :: p.h == if p in all - rest then null else old(p.h)
        invariant forall p | p in dialed :: p.closed == old(p.closed)
      {
        var p :| p in rest;
        p.Detach();
        rest := rest - {p};
      }
    }

    /** The control handler of a hub that has just been made. */
    method RegisterControl(h: Hub)
      requires Valid() && h !in hubs && h.handlers == map[]
      modifies this`hubs, h`handlers
      ensures Valid() && hubs == old(hubs) + {h}
      ensures View() == RegisterIn(old(View()), h, 0, Handler.Control)
    {
      hide SendersOf, ProxyHubsOf, HandlersOfAll, PtyHandlers, ProxyHandlers, SendAllTo;
      ghost var was := View();
      hubs := hubs + {h};
      h.Register(0, Handler.Control);
      assert View().handlers == was.handlers[h := map[0 := Handler.Control]];
    }

    /** handleWS before Run. */
    method Connect(h: Hub)
      requires Valid() && h !in hubs && h.handlers == map[]
      modifies this`hubs, h`handlers, dialed
      ensures Valid() && hubs == old(hubs) + {h}
      ensures View() == ConnectIn(old(View()), h)
    {
      hide View, PtyHandlers, ProxyHandlers, SendAllTo;
      RegisterControl(h);
      RegisterHandlers(h);
      RegisterProxyHandlers(h);
    }

    /** handleWS after Run. */
    method Disconnect()
      requires Valid()
      modifies started, dialed
      ensures Valid()
      ensures View() == DetachIn(old(View()))
    {
      DetachHub();
      DetachProxies();
    }
  }

  /** The goroutine that dispatches frames to the control handler. */
  const CONTROL: nat := 3

  class ControlHandler {
    const us: UserSession
    const h: Hub

    ghost predicate Valid()
      reads this, us, h
    {
      && us.Valid()
      && h in us.hubs
      && h.Valid()
      && forall ch | ch in h.handlers :: Known(h.handlers[ch])
    }

    ghost predicate Known(hd: Handler)
      reads this, us
    {
      match hd
      case Control => true
      case OfPty(s) => s in us.started
      case OfProxy(p) => p in us.dialed
    }

    constructor (us: UserSession, h: Hub)
      ensures this.us == us && this.h == h
    {
      this.us, this.h := us, h;
    }

    method RegisterPty(s: Session)
      requires Valid() && s in us.started
      modifies h`handlers
      ensures Valid()
      ensures us.View() == RegisterIn(old(us.View()), h, s.chanID, OfPty(s))
    {
      hide Conserved, Encode, SendersOf, ProxyHubsOf, HandlersOfAll;
      ghost var was := us.View();
      h.Register(s.chanID, OfPty(s));
      assert us.HandlerMaps() == was.handlers[h := h.handlers];
    }

    method RegisterAndAttach(s: Session)
      requires Valid() && s in us.started && s.Valid()
      modifies h`handlers, h`writeCh, h`out, s`sender
      ensures Valid() && s.Valid()
      ensures us.View() == RegisterIn(old(us.View()), h, s.chanID, OfPty(s)).(sender := old(us.Senders())[s := h])
      ensures h.out == if s.produced == [] then old(h.out)
                       else SendAlone(old(h.out), SESSION, Frame(FRAME_DATA, s.chanID, LastN(s.produced, RING_CAP)))
    {
      hide Conserved, Encode, LastN, SendAlone, HubFifo.Next, SendersOf, ProxyHubsOf, HandlersOfAll, RegisterIn;
      RegisterPty(s);
      AttachTo(s);
    }

    method AttachTo(s: Session)
      requires Valid() && s in us.started && s.Valid()
      modifies h`writeCh, h`out, s`sender
      ensures Valid() && s.Valid()
      ensures us.View() == old(us.View()).(sender := old(us.Senders())[s := h])
      ensures h.out == if s.produced == [] then old(h.out)
                       else SendAlone(old(h.out), SESSION, Frame(FRAME_DATA, s.chanID, LastN(s.produced, RING_CAP)))
    {
      hide Conserved, Encode, LastN, SendAlone, HubFifo.Next, SendersOf, ProxyHubsOf, HandlersOfAll;
      ghost var senders := us.Senders();
      s.Attach(h);
      assert us.Senders() == senders[s := h];
    }

    /** Re-attaches a running PTY, replaying its ring, or starts a new one. */
    method HandleOpenPTY(ch: uint16, spawns: bool, errorText: seq<byte>) returns (started: Option<Session>)
      requires Valid() && (ch in us.ptys ==> us.ptys[ch].Valid())
      modifies h`handlers, h`writeCh, h`out, us`ptys, us`started, us.started`sender
      ensures Valid()
      ensures us.View() == OpenPtyIn(old(us.View()), h, ch, started)
      ensures started.Some? <==> ch != 0 && ch !in old(us.ptys) && spawns
      ensures started.Some? ==> fresh(started.value) && started.value.chanID == ch && started.value.Valid()
      ensures h.out == if ch == 0 || started.Some? then old(h.out)
                       else if ch !in old(us.ptys) then SendAlone(old(h.out), CONTROL, Frame(FRAME_DATA, ch, errorText))
                       else if us.ptys[ch].produced == [] then old(h.out)
                       else SendAlone(old(h.out), SESSION,
                                      Frame(FRAME_DATA, ch, LastN(us.ptys[ch].produced, RING_CAP)))
    {
      hide Conserved, Encode, LastN, SendAlone, HubFifo.Next, SendersOf, ProxyHubsOf, HandlersOfAll;
      if ch == 0 {
        return None;
      }
      if ch in us.ptys {
        RegisterAndAttach(us.ptys[ch]);
        return None;
      }
      if !spawns {
        var _ := h.Send(CONTROL, Frame(FRAME_DATA, ch, errorText));
        return None;
      }
      var s := new Session(ch);
      Start(s);
      started := Some(s);
    }

    method Start(s: Session)
      requires Valid() && s.Valid() && s !in us.started && s.sender == null && !s.closed && s.produced == []
      modifies h`handlers, h`writeCh, h`out, us`ptys, us`started, s`sender
      ensures Valid() && s.Valid()
      ensures us.View() == StartIn(old(us.View()), h, s)
      ensures h.out == old(h.out)
    {
      hide Conserved, Encode, LastN, SendAlone, HubFifo.Next, SendersOf, ProxyHubsOf, HandlersOfAll;
      Track(s);
      us.AddPTY(s);
      RegisterAndAttach(s);
    }

    /** A new session is known but nothing refers to it yet. */
    ghost method Track(s: Session)
      requires Valid() && s.sender == null && !s.closed
      modifies us`started
      ensures Valid() && us.started == old(us.started) + {s}
      ensures us.View() == old(us.View())
    {
      hide SendersOf, ProxyHubsOf, HandlersOfAll;
      us.started := us.started + {s};
      assert us.Senders() == old(us.Senders());
      assert us.ClosedPtys() == old(us.ClosedPtys());
    }

    method RegisterProxy(p: PortProxySession)
      requires Valid() && p in us.dialed && p.h == h
      modifies h`handlers
      ensures Valid()
      ensures us.View() == RegisterIn(old(us.View()), h, p.chanID, OfProxy(p))
    {
      hide Conserved, Encode, SendersOf, ProxyHubsOf, HandlersOfAll;
      ghost var was := us.View();
      h.Register(p.chanID, OfProxy(p));
      assert us.HandlerMaps() == was.handlers[h := h.handlers];
    }

    /** Re-attaches an open proxy or dials a new one, replacing a closed one. */
    method HandleOpenProxy(ch: uint16, hasTarget: bool, dials: bool, notice: seq<byte>)
      returns (dialed: Option<PortProxySession>)
      requires Valid()
      modifies h`handlers, h`writeCh, h`out, us`proxies, us`dialed, us.dialed`h
      ensures Valid()
      ensures us.View() == OpenProxyIn(old(us.View()), h, ch, hasTarget, dialed)
      ensures dialed.Some? <==> ch != 0 && hasTarget && dials
                                && !(ch in old(us.proxies) && !old(us.proxies[ch].closed))
      ensures dialed.Some? ==> fresh(dialed.value) && dialed.value.chanID == ch
      ensures h.out == if ch != 0 && hasTarget && !dials && !(ch in old(us.proxies) && !old(us.proxies[ch].closed))
                       then SendAlone(old(h.out), CONTROL, Frame(FRAME_CLOSE_PROXY, ch, notice))
                       else old(h.out)
    {
      hide Conserved, Encode, SendAlone, HubFifo.Next, SendersOf, ProxyHubsOf, HandlersOfAll;
      if ch == 0 || !hasTarget {
        return None;
      }
      if ch in us.proxies && !us.proxies[ch].closed {
        Reattach(us.proxies[ch]);
        return None;
      }
      if !dials {
        var _ := h.Send(CONTROL, Frame(FRAME_CLOSE_PROXY, ch, notice));
        return None;
      }
      var p := new PortProxySession(ch, h);
      AddDialed(p);
      dialed := Some(p);
    }

    method Reattach(p: PortProxySession)
      requires Valid() && p in us.dialed
      modifies h`handlers, p`h
      ensures Valid()
      ensures us.View() == RegisterIn(old(us.View()), h, p.chanID, OfProxy(p)).(proxyHub := old(us.ProxyHubs())[p := h])
    {
      hide Conserved, Encode, SendersOf, ProxyHubsOf, HandlersOfAll;
      ghost var was := us.ProxyHubs();
      p.Attach(h);
      assert us.ProxyHubs() == was[p := h];
      RegisterProxy(p);
    }

    method AddDialed(p: PortProxySession)
      requires Valid() && p.h == h && !p.closed && p !in us.dialed
      modifies h`handlers, us`proxies, us`dialed
      ensures Valid()
      ensures us.View() == RegisterIn(old(us.View()), h, p.chanID, OfProxy(p))
                           .(proxies := old(us.proxies)[p.chanID := p], proxyHub := old(us.ProxyHubs())[p := h])
    {
      hide Conserved, Encode, SendersOf, ProxyHubsOf, HandlersOfAll;
      ghost var hubs, closed := us.ProxyHubs(), us.ClosedProxies();
      us.dialed := us.dialed + {p};
      assert us.ProxyHubs() == hubs[p := h];
      assert us.ClosedProxies() == closed;
      us.AddProxy(p);
      RegisterProxy(p);
    }

    /** The handler's Close and the map's Close hit the same session; its
        closeOnce makes the second one idle. */
    method HandleClosePTY(ch: uint16)
      requires Valid()
      modifies h`handlers, us`ptys, us.started, us.dialed, us.kernel
      ensures Valid()
      ensures us.View() == ClosePtyIn(old(us.View()), h, ch)
    {
      hide SendersOf, ProxyHubsOf, HandlersOfAll, UnregisterIn, RemovePtyIn;
      UnregisterAndClose(ch);
      us.RemovePTY(ch);
    }

    method HandleCloseProxy(ch: uint16)
      requires Valid()
      modifies h`handlers, us`proxies, us.started, us.dialed, us.kernel
      ensures Valid()
      ensures us.View() == CloseProxyIn(old(us.View()), h, ch)
    {
      hide SendersOf, ProxyHubsOf, HandlersOfAll, UnregisterIn, RemoveProxyIn;
      UnregisterAndClose(ch);
      us.RemoveProxy(ch);
    }

    method UnregisterAndClose(ch: uint16)
      requires Valid()
      modifies h`handlers, us.started, us.dialed, us.kernel
      ensures Valid()
      ensures us.View() == UnregisterIn(old(us.View()), h, ch)
    {
      hide Conserved, Encode, SendersOf, ProxyHubsOf, HandlersOfAll, UnregisterIn, UserSession.View;
      assert ch in h.handlers ==> Known(h.handlers[ch]);
      h.Unregister(ch, us.kernel);
      HandlerClosed(ch);
    }

    twostate lemma HandlersAfter(ch: uint16)
      requires unchanged(us) && h in us.hubs && h.handlers == old(h.handlers) - {ch}
      requires forall x | x in us.hubs && x != h :: x.handlers == old(x.handlers)
      ensures us.HandlerMaps() == old(us.HandlerMaps())[h := old(h.handlers) - {ch}]
      ensures h in old(us.HandlerMaps()) && old(us.HandlerMaps())[h] == old(h.handlers)
    {
      hide SendersOf, ProxyHubsOf, HandlersOfAll;
    }

    twostate lemma ClosedAfter(hd: Option<Handler>)
      requires unchanged(us) && (hd.Some? ==> old(Known(hd.value)))
      requires forall s | s in us.started :: s.closed == (old(s.closed) || hd == Some(OfPty(s)))
      requires forall p | p in us.dialed :: p.closed == (old(p.closed) || hd == Some(OfProxy(p)))
      ensures us.ClosedPtys() == old(us.ClosedPtys()) + PtyOf(hd)
      ensures us.ClosedProxies() == old(us.ClosedProxies()) + ProxyOf(hd)
    {
      hide SendersOf, ProxyHubsOf, HandlersOfAll;
    }

    twostate lemma KillsAfter(hd: Option<Handler>)
      requires unchanged(us) && (hd.Some? ==> old(Known(hd.value)))
      requires if hd.Some? then Closed(hd.value, us.kernel) else us.kernel.kills == old(us.kernel.kills)
      ensures us.kernel.kills
              == old(us.kernel.kills)
                 + if hd.Some? && hd.value.OfPty? && hd.value.pty !in old(us.ClosedPtys()) then [hd.value.pty] else []
    {
    }

    twostate lemma HandlerClosed(ch: uint16)
      requires old(Valid()) && unchanged(us) && h.handlers == old(h.handlers) - {ch}
      requires forall x | x in us.hubs && x != h :: x.handlers == old(x.handlers)
      requires us.Senders() == old(us.Senders()) && us.ProxyHubs() == old(us.ProxyHubs())
      requires forall s | s in us.started ::
                 s.closed == (old(s.closed) || (ch in old(h.handlers) && old(h.handlers)[ch] == OfPty(s)))
      requires forall p | p in us.dialed ::
                 p.closed == (old(p.closed) || (ch in old(h.handlers) && old(h.handlers)[ch] == OfProxy(p)))
      requires if ch in old(h.handlers) then Closed(old(h.handlers)[ch], us.kernel)
               else us.kernel.kills == old(us.kernel.kills)
      ensures us.View() == UnregisterIn(old(us.View()), h, ch)
    {
      hide SendersOf, ProxyHubsOf, HandlersOfAll;
      HandlersAfter(ch);
      var hd := if ch in old(h.handlers) then Some(old(h.handlers)[ch]) else None;
      assert hd.Some? ==> old(Known(hd.value));
      ClosedAfter(hd);
      KillsAfter(hd);
      var was, now := old(us.View()), us.View();
      assert now.handlers == was.handlers[h := old(h.handlers) - {ch}];
      assert now.closed == was.closed + PtyOf(hd);
      assert now.proxyClosed == was.proxyClosed + ProxyOf(hd);
      ClosedOnce(was, now, h, ch);
    }
  }

  lemma ClosedOnce(was: Reg, now: Reg, h: Hub, ch: uint16)
    requires h in was.handlers
    requires var hs: map<uint16, Handler> := was.handlers[h];
             var hd := if ch in hs then Some(hs[ch]) else None;
             && now == was.(handlers := was.handlers[h := hs - {ch}],
                            closed := was.closed + PtyOf(hd),
                            proxyClosed := was.proxyClosed + ProxyOf(hd),
                            kills := now.kills)
             && now.kills == was.kills
                             + if hd.Some? && hd.value.OfPty? && hd.value.pty !in was.closed then [hd.value.pty] else []
    ensures now == UnregisterIn(was, h, ch)
  {
    var hs: map<uint16, Handler> := was.handlers[h];
    if ch !in hs {
      assert hs - {ch} == hs;
      assert was.handlers[h := hs] == was.handlers;
    }
  }

  function PtyOf(hd: Option<Handler>): set<Session>
  {
    if hd.Some? && hd.value.OfPty? then {hd.value.pty} else {}
  }

  function ProxyOf(hd: Option<Handler>): set<PortProxySession>
  {
    if hd.Some? && hd.value.OfProxy? then {hd.value.proxy} else {}
  }
}
