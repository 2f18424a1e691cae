/**
 Whole histories of one user: connecting, dispatching and handling control
 frames, losing the connection, proxies ending on their own. The functions on
 Reg are the ones the methods of Control and Sessions are proved against.

 A frame is looked up (Dispatch) and handled (Handle) in two steps, so the hub
 may close, and handleWS may detach everything, in between.
 */
module Registry {
  import opened Prelude
  import opened Sessions
  import opened Routing

  datatype State = State(
    reg: Reg,
    connected: set<Hub>,         // handleWS has not detached yet
    done: set<Hub>,
    inFlight: map<Hub, CtlFrame>,
    everPtys: set<Session>,      // PTYs ever started
    everProxies: set<PortProxySession>
  )

  datatype Step =
    | Connect(h: Hub)
    | Dispatch(h: Hub, f: CtlFrame)
    | Handle(h: Hub)
    | HubClose(h: Hub)
    | Disconnect(h: Hub)
    | ProxyEnds(p: PortProxySession)

  const EMPTY := State(Reg(map[], map[], map[], map[], {}, {}, map[], []), {}, {}, map[], {}, {})

  /** Spawning and dialing yield sessions never seen before, for the right channel. */
  predicate New(s: State, f: CtlFrame)
  {
    match f
    case OpenPTY(ch, Some(x)) => x.chanID == ch && x !in s.everPtys && ch != 0 && ch !in s.reg.ptys
    case OpenProxy(ch, hasTarget, Some(p)) =>
      && p.chanID == ch && p !in s.everProxies && ch != 0 && hasTarget
      && !(ch in s.reg.proxies && s.reg.proxies[ch] !in s.reg.proxyClosed)
    case _ => true
  }

  ghost function Apply(s: State, step: Step): State
  {
    match step
    case Connect(h) =>
      if h in s.reg.handlers then s
      else s.(reg := ConnectIn(s.reg, h), connected := s.connected + {h})
    case Dispatch(h, f) =>
      var hs := HandlersOf(s.reg, h);
      if h in s.connected && h !in s.inFlight && 0 in hs && hs[0] == Control
      then s.(inFlight := s.inFlight[h := f]) else s
    case Handle(h) =>
      if h !in s.inFlight then s
      else
        var f := s.inFlight[h];
        var s1 := s.(inFlight := s.inFlight - {h});
        if !New(s, f) then s1
        else s1.(reg := Effect(s.reg, h, f),
                 everPtys := s.everPtys + Started(f), everProxies := s.everProxies + Dialed(f))
    case HubClose(h) =>
      if h in s.reg.handlers && h !in s.done
      then s.(reg := CloseHubIn(s.reg, h), done := s.done + {h}) else s
    case Disconnect(h) =>
      if h in s.connected && h in s.done
      then s.(reg := DetachIn(s.reg), connected := s.connected - {h}) else s
    case ProxyEnds(p) =>
      s.(reg := s.reg.(proxyClosed := s.reg.proxyClosed + {p}))
  }

  ghost function Run(steps: seq<Step>): State
  {
    if steps == [] then EMPTY else Apply(Run(steps[..|steps| - 1]), steps[|steps| - 1])
  }

  // ---------------------------------------------------------------------
  // The hypotheses

  /** A frame that a closed hub may still handle: it attaches nothing, and it delists
      nothing while another hub is open. */
  predicate Harmless(r: Reg, done: set<Hub>, f: CtlFrame)
  {
    !Opens(r, f) && (Delists(r, f) ==> r.handlers.Keys <= done)
  }

  /** A frame that an open hub may handle: an open that takes effect finds no session of
      the other kind on its channel, and a close names a nonzero channel of its kind. */
  predicate Fits(r: Reg, f: CtlFrame)
  {
    match f
    case OpenPTY(ch, _) => Opens(r, f) ==> ch !in r.proxies
    case ClosePTY(ch) => ch != 0 && ch !in r.proxies
    case OpenProxy(ch, _, _) => Opens(r, f) ==> ch !in r.ptys
    case CloseProxy(ch) => ch != 0 && ch !in r.ptys
  }

  /** One hub at a time; its frames fit; and nothing but harmless frames is handled after
      it has closed. */
  ghost predicate Orderly(s: State, step: Step)
  {
    match step
    case Connect(h) => h in s.reg.handlers || s.connected == {}
    case Handle(h) =>
      h in s.inFlight && New(s, s.inFlight[h]) ==>
        if h in s.done then Harmless(s.reg, s.done, s.inFlight[h]) else Fits(s.reg, s.inFlight[h])
    case _ => true
  }

  ghost predicate OrderlyRun(steps: seq<Step>)
  {
    steps != [] ==>
      var front := steps[..|steps| - 1];
      OrderlyRun(front) && Orderly(Run(front), steps[|steps| - 1])
  }

  // ---------------------------------------------------------------------
  // The invariant

  /** Opened and not closed is the same as listed; each kill is the first. */
  ghost predicate Lives(r: Reg, everPtys: set<Session>, everProxies: set<PortProxySession>)
  {
    && r.closed <= everPtys
    && r.ptys.Values == everPtys - r.closed
    && (forall x | x in r.kills :: x in r.closed)
    && (forall x | x in r.closed :: x in r.kills)
    && (forall i, j | 0 <= i < j < |r.kills| :: r.kills[i] != r.kills[j])
    && r.proxies.Values <= everProxies
  }

  ghost predicate Attached(r: Reg, connected: set<Hub>)
  {
    && (forall x | x in r.ptys.Values && x in r.sender :: r.sender[x] in connected)
    && (forall p | p in r.proxies.Values && p in r.proxyHub :: r.proxyHub[p] in connected)
  }

  ghost predicate Tables(r: Reg, done: set<Hub>, connected: set<Hub>)
  {
    && (forall h | h in r.handlers ::
          r.handlers[h] == if h in done then map[] else Expected(r.ptys, r.proxies))
    && done <= r.handlers.Keys
    && r.handlers.Keys - done <= connected <= r.handlers.Keys
  }

  ghost predicate Inv(s: State)
  {
    && Keyed(s.reg)
    && Lives(s.reg, s.everPtys, s.everProxies)
    && Attached(s.reg, s.connected)
    && (forall x | x in s.reg.sender :: x in s.everPtys)
    && (forall p | p in s.reg.proxyHub :: p in s.everProxies)
    && Tables(s.reg, s.done, s.connected)
    && (forall h, g | h in s.connected && g in s.connected :: h == g)
    && s.inFlight.Keys <= s.reg.handlers.Keys
  }

  // ---------------------------------------------------------------------
  // Each handler, on an orderly state

  /** What handling does on an agreeing hub, without the detour over its map. */
  ghost function Plain(r: Reg, h: Hub, f: CtlFrame): Reg
  {
    var r1 :=
      match f
      case OpenPTY(ch, started) =>
        if ch == 0 || (ch !in r.ptys && started.None?) then r
        else
          var x := if ch in r.ptys then r.ptys[ch] else started.value;
          r.(ptys := r.ptys[ch := x], sender := r.sender[x := h])
      case ClosePTY(ch) =>
        if ch !in r.ptys then r
        else r.(ptys := r.ptys - {ch}, closed := r.closed + {r.ptys[ch]}, kills := r.kills + [r.ptys[ch]])
      case OpenProxy(ch, hasTarget, dialed) =>
        var keep := ch in r.proxies && r.proxies[ch] !in r.proxyClosed;
        if ch == 0 || !hasTarget || (!keep && dialed.None?) then r
        else
          var p := if keep then r.proxies[ch] else dialed.value;
          r.(proxies := r.proxies[ch := p], proxyHub := r.proxyHub[p := h])
      case CloseProxy(ch) =>
        if ch !in r.proxies then r
        else r.(proxies := r.proxies - {ch}, proxyClosed := r.proxyClosed + {r.proxies[ch]});
    r1.(handlers := r.handlers[h := Expected(r1.ptys, r1.proxies)])
  }

  lemma PtyFramesPlain(r: Reg, h: Hub, f: CtlFrame)
    requires Keyed(r) && Fits(r, f)
    requires h in r.handlers && r.handlers[h] == Expected(r.ptys, r.proxies)
    requires forall ch | ch in r.ptys :: r.ptys[ch] !in r.closed
    requires f.OpenPTY? || f.ClosePTY?
    ensures Effect(r, h, f) == Plain(r, h, f)
  {
    hide Expected, PtyHandlers, ProxyHandlers, SendAllTo;
    var ch := f.ch;
    var e := Expected(r.ptys, r.proxies);
    assert r.handlers[h := e] == r.handlers;
    if ch != 0 {
      if f.OpenPTY? {
        if ch in r.ptys {
          ExpectedPut(r.ptys, r.proxies, ch, r.ptys[ch]);
          assert r.ptys[ch := r.ptys[ch]] == r.ptys;
        } else if f.started.Some? {
          ExpectedPut(r.ptys, r.proxies, ch, f.started.value);
        }
      } else {
        assert ch in r.ptys ==> ch !in r.proxies;
        if ch in r.ptys {
          ExpectedDrop(r.ptys, r.proxies, ch);
        } else {
          NoHandler(r, ch);
        }
      }
    }
  }

  lemma ProxyFramesPlain(r: Reg, h: Hub, f: CtlFrame)
    requires Keyed(r) && Fits(r, f)
    requires h in r.handlers && r.handlers[h] == Expected(r.ptys, r.proxies)
    requires f.OpenProxy? || f.CloseProxy?
    ensures Effect(r, h, f) == Plain(r, h, f)
  {
    hide Expected, PtyHandlers, ProxyHandlers, SendAllTo;
    var ch := f.ch;
    var e := Expected(r.ptys, r.proxies);
    assert r.handlers[h := e] == r.handlers;
    if ch != 0 {
      if ch in r.proxies {
        ExpectedPutProxy(r.ptys, r.proxies, ch, r.proxies[ch]);
        ExpectedDropProxy(r.ptys, r.proxies, ch);
        assert r.proxies[ch := r.proxies[ch]] == r.proxies;
      } else if f.CloseProxy? {
        NoHandler(r, ch);
      }
      if f.OpenProxy? && f.dialed.Some? {
        ExpectedPutProxy(r.ptys, r.proxies, ch, f.dialed.value);
      }
    }
  }

  // ---------------------------------------------------------------------
  // Every orderly step keeps the invariant

  lemma ValuesPut(m: map<uint16, Session>, ch: uint16, x: Session)
    requires ch !in m
    ensures m[ch := x].Values == m.Values + {x}
  {
    var m' := m[ch := x];
    assert m'[ch] == x;
    forall y | y in m.Values
      ensures y in m'.Values
    {
      var c :| c in m && m[c] == y;
      assert m'[c] == y;
    }
  }

  lemma ValuesDrop(m: map<uint16, Session>, ch: uint16)
    requires ch in m && forall c | c in m :: m[c].chanID == c
    ensures (m - {ch}).Values == m.Values - {m[ch]}
  {
    var m' := m - {ch};
    forall y | y in m.Values && y != m[ch]
      ensures y in m'.Values
    {
      var c :| c in m && m[c] == y;
      assert c in m' && m'[c] == y;
    }
  }

  /** Only the acting hub can be open, so only its table changes. */
  lemma HandleTables(r: Reg, done: set<Hub>, connected: set<Hub>, h: Hub, f: CtlFrame)
    requires Tables(r, done, connected) && h in connected && h !in done
    requires forall x, y | x in connected && y in connected :: x == y
    ensures h in r.handlers && r.handlers[h] == Expected(r.ptys, r.proxies)
    ensures Tables(Plain(r, h, f), done, connected)
  {
    hide Expected, PtyHandlers, ProxyHandlers, SendAllTo;
    var r' := Plain(r, h, f);
    assert r'.handlers == r.handlers[h := Expected(r'.ptys, r'.proxies)];
    forall g | g in r'.handlers && g != h
      ensures g in done
    {
      assert g !in connected;
    }
  }

  /** What a handled frame leaves of the invariant, tables aside. */
  ghost predicate Lived(s: State, r: Reg, f: CtlFrame)
  {
    && Keyed(r) && Attached(r, s.connected)
    && Lives(r, s.everPtys + Started(f), s.everProxies + Dialed(f))
    && (forall x | x in r.sender :: x in s.everPtys + Started(f))
    && (forall p | p in r.proxyHub :: p in s.everProxies + Dialed(f))
  }

  lemma OpenPtyLives(s: State, h: Hub, f: CtlFrame)
    requires Inv(s) && h in s.connected
    requires New(s, f) && Fits(s.reg, f) && f.OpenPTY?
    ensures Lived(s, Plain(s.reg, h, f), f)
  {
    hide Expected, Tables, PtyHandlers, ProxyHandlers, SendAllTo, Lived, Lives, Attached;
    var r, ch := s.reg, f.ch;
    var r' := Plain(r, h, f);
    if f.started.Some? {
      assert r' == r.(handlers := r'.handlers, ptys := r.ptys[ch := f.started.value],
                      sender := r.sender[f.started.value := h]);
      NewPtyLives(s, r', h, f, f.started.value);
    } else if ch in r.ptys {
      assert r.ptys[ch := r.ptys[ch]] == r.ptys;
      assert r' == r.(handlers := r'.handlers, sender := r.sender[r.ptys[ch] := h]) || ch == 0;
      OldPtyLives(s, r', h, f);
    } else {
      SameLives(s, r', f);
    }
  }

  lemma NewPtyLives(s: State, r: Reg, h: Hub, f: CtlFrame, x: Session)
    requires Inv(s) && h in s.connected && New(s, f) && Fits(s.reg, f)
    requires f.OpenPTY? && f.started == Some(x)
    requires r == s.reg.(handlers := r.handlers, ptys := s.reg.ptys[f.ch := x], sender := s.reg.sender[x := h])
    ensures Lived(s, r, f)
  {
    hide Tables;
    ValuesPut(s.reg.ptys, f.ch, x);
  }

  lemma OldPtyLives(s: State, r: Reg, h: Hub, f: CtlFrame)
    requires Inv(s) && h in s.connected && f.OpenPTY? && f.started.None? && f.ch in s.reg.ptys
    requires r == s.reg.(handlers := r.handlers, sender := s.reg.sender[s.reg.ptys[f.ch] := h])
    ensures Lived(s, r, f)
  {
    hide Tables;
    assert s.reg.ptys[f.ch] in s.reg.ptys.Values;
  }

  lemma ClosePtyLives(s: State, h: Hub, f: CtlFrame)
    requires Inv(s)
    requires New(s, f) && Fits(s.reg, f) && f.ClosePTY?
    ensures Lived(s, Plain(s.reg, h, f), f)
  {
    hide Expected, Tables, PtyHandlers, ProxyHandlers, SendAllTo;
    var r, ch := s.reg, f.ch;
    if ch in r.ptys {
      ValuesDrop(r.ptys, ch);
      assert r.ptys[ch] in r.ptys.Values;
    }
  }

  lemma OpenProxyLives(s: State, h: Hub, f: CtlFrame)
    requires Inv(s) && h in s.connected
    requires New(s, f) && Fits(s.reg, f) && f.OpenProxy?
    ensures Lived(s, Plain(s.reg, h, f), f)
  {
    hide Expected, Tables, PtyHandlers, ProxyHandlers, SendAllTo, Lived, Attached;
    var r, ch := s.reg, f.ch;
    var r' := Plain(r, h, f);
    assert r' == r.(handlers := r'.handlers, proxies := r'.proxies, proxyHub := r'.proxyHub);
    if r'.proxies == r.proxies && r'.proxyHub == r.proxyHub {
      SameLives(s, r', f);
    } else {
      var p := r'.proxies[ch];
      assert ch in r.proxies ==> r.proxies[ch] in r.proxies.Values;
      assert p in s.everProxies + Dialed(f) && p.chanID == ch && ch != 0 && ch !in r.ptys;
      assert r'.proxies == r.proxies[ch := p] && r'.proxyHub == r.proxyHub[p := h];
      ProxyPutLives(s, r', h, f, p);
    }
  }

  lemma SameLives(s: State, r: Reg, f: CtlFrame)
    requires Inv(s) && Started(f) == {} && r == s.reg.(handlers := r.handlers)
    ensures Lived(s, r, f)
  {
    hide Tables;
  }

  lemma ProxyPutLives(s: State, r: Reg, h: Hub, f: CtlFrame, p: PortProxySession)
    requires Inv(s) && h in s.connected && f.OpenProxy?
    requires p in s.everProxies + Dialed(f) && p.chanID == f.ch && f.ch != 0 && f.ch !in s.reg.ptys
    requires r == s.reg.(handlers := r.handlers, proxies := s.reg.proxies[f.ch := p],
                         proxyHub := s.reg.proxyHub[p := h])
    ensures Lived(s, r, f)
  {
    hide Tables;
    ProxiesPut(s.reg.proxies, f.ch, p);
  }

  lemma ProxiesPut(m: map<uint16, PortProxySession>, ch: uint16, p: PortProxySession)
    ensures m[ch := p].Values <= m.Values + {p}
  {
  }

  lemma CloseProxyLives(s: State, h: Hub, f: CtlFrame)
    requires Inv(s)
    requires New(s, f) && Fits(s.reg, f) && f.CloseProxy?
    ensures Lived(s, Plain(s.reg, h, f), f)
  {
    hide Expected, Tables, PtyHandlers, ProxyHandlers, SendAllTo;
  }

  lemma HandleKeepsInv(s: State, h: Hub)
    requires Inv(s) && h in s.inFlight && New(s, s.inFlight[h]) && h !in s.done && Fits(s.reg, s.inFlight[h])
    ensures Inv(Apply(s, Handle(h)))
    ensures Effect(s.reg, h, s.inFlight[h]) == Plain(s.reg, h, s.inFlight[h])
  {
    var f := s.inFlight[h];
    ListedIsOpen(s);
    assert h in s.connected;
    hide Expected, Effect, Plain, Tables, Lives, Keyed, Attached, Started, Dialed, New;
    HandleTables(s.reg, s.done, s.connected, h, f);
    if f.OpenPTY? || f.ClosePTY? {
      PtyFramesPlain(s.reg, h, f);
      if f.OpenPTY? {
        OpenPtyLives(s, h, f);
      } else {
        ClosePtyLives(s, h, f);
      }
    } else {
      ProxyFramesPlain(s.reg, h, f);
      if f.OpenProxy? {
        OpenProxyLives(s, h, f);
      } else {
        CloseProxyLives(s, h, f);
      }
    }
  }

  // ---------------------------------------------------------------------
  // Frames handled after their hub has closed

  /** What a closed hub, whose table is empty, does with a frame. */
  lemma LateEffect(r: Reg, h: Hub, f: CtlFrame)
    requires h in r.handlers && r.handlers[h] == map[]
    ensures !Opens(r, f) && !Delists(r, f) ==> Effect(r, h, f) == r
    ensures f.ClosePTY? ==> Effect(r, h, f) == RemovePtyIn(r, f.ch)
    ensures f.CloseProxy? ==> Effect(r, h, f) == RemoveProxyIn(r, f.ch)
    ensures Opens(r, f) ==> h in Effect(r, h, f).handlers && f.ch in Effect(r, h, f).handlers[h]
  {
  }

  /** A frame handled when its hub is closed and detached leaves that hub's table empty
      and every sender connected exactly when it is not an open that takes effect. */
  lemma LateOpenExactly(r: Reg, h: Hub, f: CtlFrame, connected: set<Hub>)
    requires h in r.handlers && r.handlers[h] == map[] && h !in connected && Attached(r, connected)
    ensures var r' := Effect(r, h, f);
            HandlersOf(r', h) == map[] && Attached(r', connected) <==> !Opens(r, f)
  {
    hide Effect;
    LateEffect(r, h, f);
    if !Opens(r, f) && Delists(r, f) {
      var r' := Effect(r, h, f);
      assert r'.ptys.Values <= r.ptys.Values && r'.proxies.Values <= r.proxies.Values;
    }
  }

  /** Handling a frame after its hub has closed keeps the invariant exactly when the
      frame is harmless. */
  lemma LateFrameExactly(s: State, h: Hub)
    requires Inv(s) && h in s.inFlight && h in s.done && New(s, s.inFlight[h])
    ensures Inv(Apply(s, Handle(h))) <==> Harmless(s.reg, s.done, s.inFlight[h])
  {
    var f := s.inFlight[h];
    assert s.reg.handlers[h] == map[];
    if Opens(s.reg, f) {
      LateOpenBreaks(s, h);
    } else if Delists(s.reg, f) {
      LateCloseExactly(s, h);
    } else {
      LateEffect(s.reg, h, f);
      hide Expected, Effect;
      assert Started(f) == {} && Dialed(f) == {};
      assert s.everPtys + {} == s.everPtys && s.everProxies + {} == s.everProxies;
    }
  }

  lemma LateOpenBreaks(s: State, h: Hub)
    requires Inv(s) && h in s.inFlight && h in s.done && New(s, s.inFlight[h])
    requires Opens(s.reg, s.inFlight[h])
    ensures !Inv(Apply(s, Handle(h)))
  {
    hide Expected, Effect, Lives, Keyed, Attached;
    assert s.reg.handlers[h] == map[];
    LateEffect(s.reg, h, s.inFlight[h]);
  }

  lemma LateCloseExactly(s: State, h: Hub)
    requires Inv(s) && h in s.inFlight && h in s.done && New(s, s.inFlight[h])
    requires Delists(s.reg, s.inFlight[h])
    ensures Inv(Apply(s, Handle(h))) <==> s.reg.handlers.Keys <= s.done
  {
    var f := s.inFlight[h];
    var r, r' := s.reg, Effect(s.reg, h, f);
    assert r.handlers[h] == map[];
    LateEffect(r, h, f);
    ListedIsOpen(s);
    assert r'.handlers == r.handlers;
    if g :| g in r.handlers && g !in s.done {
      ExpectedKeys(r.ptys, r.proxies);
      ExpectedKeys(r'.ptys, r'.proxies);
      assert f.ch in r.handlers[g] && f.ch !in Expected(r'.ptys, r'.proxies);
      hide Expected, Effect;
      assert !Tables(r', s.done, s.connected);
    } else {
      LateCloseLives(s, h);
    }
  }

  lemma LateCloseLives(s: State, h: Hub)
    requires Inv(s) && h in s.inFlight && h in s.done && New(s, s.inFlight[h])
    requires Delists(s.reg, s.inFlight[h]) && s.reg.handlers.Keys <= s.done
    ensures Inv(Apply(s, Handle(h)))
  {
    hide Expected, Effect, Plain, Lived, Tables, Inv;
    var f := s.inFlight[h];
    LateCloseIsPlain(s, h);
    var r, r' := s.reg, Effect(s.reg, h, f);
    if f.ClosePTY? {
      ClosePtyLives(s, h, f);
    } else {
      CloseProxyLives(s, h, f);
    }
    LivedElsewhere(s, Plain(r, h, f), r', f);
    AllClosed(s, h, r', f);
  }

  lemma LateCloseIsPlain(s: State, h: Hub)
    requires Inv(s) && h in s.inFlight && h in s.done && Delists(s.reg, s.inFlight[h])
    ensures var r := s.reg;
            && Effect(r, h, s.inFlight[h]) == Plain(r, h, s.inFlight[h]).(handlers := r.handlers)
            && Fits(r, s.inFlight[h])
  {
    assert s.reg.handlers[h] == map[];
    LateEffect(s.reg, h, s.inFlight[h]);
    ListedIsOpen(s);
    hide Inv, Expected, Effect;
  }

  lemma LivedElsewhere(s: State, r: Reg, r': Reg, f: CtlFrame)
    requires Lived(s, r, f) && r' == r.(handlers := r'.handlers)
    ensures Lived(s, r', f)
  {
  }

  lemma AllClosed(s: State, h: Hub, r: Reg, f: CtlFrame)
    requires Inv(s) && h in s.inFlight && s.inFlight[h] == f && New(s, f)
    requires s.reg.handlers.Keys <= s.done && r == Effect(s.reg, h, f)
    requires Lived(s, r, f) && r.handlers == s.reg.handlers
    ensures Inv(Apply(s, Handle(h)))
  {
    hide Expected, Effect, Keyed, Lives, Attached, New;
  }

  /** A late close takes a listed channel away and leaves its handler in the table of
      every hub that is open. */
  lemma LateCloseStrandsHandler(r: Reg, h: Hub, g: Hub, f: CtlFrame)
    requires Keyed(r) && Delists(r, f)
    requires h in r.handlers && r.handlers[h] == map[]
    requires g in r.handlers && r.handlers[g] == Expected(r.ptys, r.proxies)
    ensures var r', hs := Effect(r, h, f), r.handlers[g];
            && r'.handlers == r.handlers && f.ch !in r'.ptys && f.ch !in r'.proxies
            && (f.ClosePTY? ==> f.ch in hs && hs[f.ch] == OfPty(r.ptys[f.ch]) && r.ptys[f.ch] in r'.closed)
            && (f.CloseProxy? ==>
                  f.ch in hs && hs[f.ch] == OfProxy(r.proxies[f.ch]) && r.proxies[f.ch] in r'.proxyClosed)
  {
    LateEffect(r, h, f);
    ExpectedRoutes(r);
    hide Expected, Effect;
  }

  lemma ListedIsOpen(s: State)
    requires Inv(s)
    ensures forall ch | ch in s.reg.ptys :: s.reg.ptys[ch] !in s.reg.closed
  {
    assert forall ch | ch in s.reg.ptys :: s.reg.ptys[ch] in s.reg.ptys.Values;
  }

  lemma ConnectTables(r: Reg, done: set<Hub>, h: Hub)
    requires Tables(r, done, {}) && h !in r.handlers
    ensures var r' := ConnectIn(r, h);
            && Tables(r', done, {h})
            && r'.handlers.Keys == r.handlers.Keys + {h}
            && r' == r.(handlers := r'.handlers, proxyHub := r'.proxyHub)
            && r'.proxyHub == SendAllTo(r.proxyHub, r.proxies.Values, h)
  {
    hide ConnectIn, Expected, SendAllTo;
    ConnectShape(r, h);
  }

  lemma ConnectKeepsInv(s: State, h: Hub)
    requires Inv(s) && (h in s.reg.handlers || s.connected == {})
    ensures Inv(Apply(s, Connect(h)))
  {
    hide Tables, ConnectIn, PtyHandlers, ProxyHandlers, SendAllTo;
    if h !in s.reg.handlers {
      ConnectTables(s.reg, s.done, h);
      assert s.connected + {h} == {h};
    }
  }

  lemma HubCloseKeepsInv(s: State, h: Hub)
    requires Inv(s)
    ensures Inv(Apply(s, HubClose(h)))
  {
    hide Expected;
  }

  lemma DisconnectKeepsInv(s: State, h: Hub)
    requires Inv(s)
    ensures Inv(Apply(s, Disconnect(h)))
  {
    hide Expected;
  }

  lemma DispatchKeepsInv(s: State, h: Hub, f: CtlFrame)
    requires Inv(s)
    ensures Inv(Apply(s, Dispatch(h, f)))
  {
    hide Expected, Lives, Keyed, Attached;
    if h in s.done {
      assert HandlersOf(s.reg, h) == map[];
    }
  }

  /** A step keeps the invariant exactly when it is orderly. */
  lemma StepKeepsInvExactly(s: State, step: Step)
    requires Inv(s)
    ensures Inv(Apply(s, step)) <==> Orderly(s, step)
  {
    if Orderly(s, step) {
      StepKeepsInv(s, step);
    } else {
      match step
      case Connect(h) => SecondConnectBreaks(s, h);
      case Handle(h) =>
        if h in s.done {
          LateFrameExactly(s, h);
        } else {
          MisfitBreaks(s, h);
        }
    }
  }

  lemma SecondConnectBreaks(s: State, h: Hub)
    requires Inv(s) && h !in s.reg.handlers && s.connected != {}
    ensures !Inv(Apply(s, Connect(h)))
  {
    hide ConnectIn, Expected, Tables;
    var g :| g in s.connected;
    assert h !in s.connected by { assert s.connected <= s.reg.handlers.Keys by { ConnectedIsKnown(s); } }
    var s' := Apply(s, Connect(h));
    assert g in s'.connected && h in s'.connected && g != h;
  }

  lemma ConnectedIsKnown(s: State)
    requires Inv(s)
    ensures s.connected <= s.reg.handlers.Keys
  {
    hide Expected;
  }

  /** A frame that does not fit leaves an open hub's table or the lists in disorder. */
  lemma MisfitBreaks(s: State, h: Hub)
    requires Inv(s) && h in s.inFlight && New(s, s.inFlight[h]) && h !in s.done && !Fits(s.reg, s.inFlight[h])
    ensures !Inv(Apply(s, Handle(h)))
  {
    var f, r := s.inFlight[h], s.reg;
    var r' := Effect(r, h, f);
    assert Apply(s, Handle(h)).reg == r';
    TableHere(s, h);
    hide Expected, Lives, Attached;
    match f
    case OpenPTY(ch, _) => assert ch in r'.ptys && ch in r'.proxies;
    case OpenProxy(ch, _, _) => assert ch in r'.ptys && ch in r'.proxies;
    case ClosePTY(ch) =>
      ClosePtyAgreesExactly(r, h, ch);
      WrongTable(s, r', h);
    case CloseProxy(ch) =>
      CloseProxyAgreesExactly(r, h, ch);
      WrongTable(s, r', h);
  }

  lemma TableHere(s: State, h: Hub)
    requires Inv(s) && h in s.inFlight && h !in s.done
    ensures h in s.reg.handlers && s.reg.handlers[h] == Expected(s.reg.ptys, s.reg.proxies)
    ensures 0 !in s.reg.ptys && 0 !in s.reg.proxies && s.reg.ptys.Keys !! s.reg.proxies.Keys
    ensures HandlersOf(s.reg, h) == s.reg.handlers[h] && h in s.connected
  {
    hide Expected;
  }

  lemma WrongTable(s: State, r: Reg, h: Hub)
    requires Inv(s) && h in s.connected && h !in s.done
    requires HandlersOf(r, h) != Expected(r.ptys, r.proxies)
    ensures !Tables(r, s.done, s.connected)
  {
    hide Expected;
  }

  /** Every listed session of the hub's user is routed by it. */
  ghost predicate Routed(r: Reg, h: Hub)
  {
    var hs := HandlersOf(r, h);
    && (forall ch | ch in r.ptys :: ch in hs && hs[ch] == OfPty(r.ptys[ch]))
    && (forall ch | ch in r.proxies :: ch in hs && hs[ch] == OfProxy(r.proxies[ch]))
  }

  /** An open leaves every listed session routed exactly when it takes no effect or no
      session of the other kind is on its channel. */
  lemma OpenRoutesExactly(s: State, h: Hub)
    requires Inv(s) && h in s.inFlight && New(s, s.inFlight[h]) && h !in s.done
    requires s.inFlight[h].OpenPTY? || s.inFlight[h].OpenProxy?
    ensures Routed(Effect(s.reg, h, s.inFlight[h]), h)
            <==> !Opens(s.reg, s.inFlight[h])
                 || s.inFlight[h].ch !in (if s.inFlight[h].OpenPTY? then s.reg.proxies.Keys else s.reg.ptys.Keys)
  {
    var f := s.inFlight[h];
    var r' := Effect(s.reg, h, f);
    if Fits(s.reg, f) {
      FitRoutes(s, h);
      hide Inv, Effect, Routed;
    } else {
      TableHere(s, h);
      hide Expected, Inv, Lives, Attached, Tables;
      MisroutedOpen(s, h, f);
    }
  }

  lemma FitRoutes(s: State, h: Hub)
    requires Inv(s) && h in s.inFlight && New(s, s.inFlight[h]) && h !in s.done && Fits(s.reg, s.inFlight[h])
    ensures Routed(Effect(s.reg, h, s.inFlight[h]), h)
  {
    HandleKeepsInv(s, h);
    ConnectedIsKnown(s);
    hide Expected, Effect, Lives, Attached;
    var r' := Effect(s.reg, h, s.inFlight[h]);
    assert Apply(s, Handle(h)).reg == r';
    ExpectedRoutes(r');
    assert HandlersOf(r', h) == Expected(r'.ptys, r'.proxies);
    hide HandlersOf, Inv, Tables, Apply;
  }

  lemma MisroutedOpen(s: State, h: Hub, f: CtlFrame)
    requires Keyed(s.reg) && New(s, f) && !Fits(s.reg, f) && (f.OpenPTY? || f.OpenProxy?)
    ensures !Routed(Effect(s.reg, h, f), h)
  {
    var r' := Effect(s.reg, h, f);
    assert f.ch in r'.ptys && f.ch in r'.proxies;
  }

  lemma StepKeepsInv(s: State, step: Step)
    requires Inv(s) && Orderly(s, step)
    ensures Inv(Apply(s, step))
  {
    match step
    case Connect(h) => ConnectKeepsInv(s, h);
    case Dispatch(h, f) => DispatchKeepsInv(s, h, f);
    case Handle(h) =>
      if h in s.inFlight && New(s, s.inFlight[h]) {
        if h in s.done {
          LateFrameExactly(s, h);
        } else {
          HandleKeepsInv(s, h);
        }
      }
    case HubClose(h) => HubCloseKeepsInv(s, h);
    case Disconnect(h) => DisconnectKeepsInv(s, h);
    case ProxyEnds(p) =>
  }

  lemma {:induction false} RunKeepsInv(steps: seq<Step>)
    requires OrderlyRun(steps)
    ensures Inv(Run(steps))
  {
    if steps != [] {
      RunKeepsInv(steps[..|steps| - 1]);
      StepKeepsInv(Run(steps[..|steps| - 1]), steps[|steps| - 1]);
    }
  }

  // ---------------------------------------------------------------------
  // Main results

  lemma TableOf(r: Reg, done: set<Hub>, connected: set<Hub>, h: Hub)
    requires Tables(r, done, connected) && h in r.handlers
    requires forall x, y | x in connected && y in connected :: x == y
    ensures if h in done then r.handlers[h] == map[]
            else connected == {h} && r.handlers[h] == Expected(r.ptys, r.proxies)
    ensures h in connected ==> connected == {h}
  {
    hide Expected;
    if h in connected {
      forall x | x in connected
        ensures x == h
      {
      }
      assert connected == {h};
    }
  }

  /** In every orderly run: an open hub routes to the control handler and to
      every PTY and proxy of the user, each under its own channel, and to nothing
      else; a hub that closed routes nothing. */
  lemma Agreement(steps: seq<Step>, h: Hub)
    requires OrderlyRun(steps) && h in Run(steps).reg.handlers
    ensures var s := Run(steps);
            var hs := s.reg.handlers[h];
            if h in s.done then hs == map[]
            else
              && s.connected == {h}
              && hs.Keys == {0} + s.reg.ptys.Keys + s.reg.proxies.Keys
              && hs[0] == Control
              && (forall ch | ch in s.reg.ptys :: hs[ch] == OfPty(s.reg.ptys[ch]) && s.reg.ptys[ch].chanID == ch)
              && (forall ch | ch in s.reg.proxies ::
                    hs[ch] == OfProxy(s.reg.proxies[ch]) && s.reg.proxies[ch].chanID == ch)
  {
    RunKeepsInv(steps);
    hide Expected, Run, OrderlyRun, Lives, Attached, Tables;
    var s := Run(steps);
    TableOf(s.reg, s.done, s.connected, h);
    ExpectedRoutes(s.reg);
  }

  /** In every orderly run a listed PTY or proxy sends to the one connected hub or
      to nobody. */
  lemma SendersAreConnected(steps: seq<Step>, ch: uint16)
    requires OrderlyRun(steps)
    ensures var s := Run(steps);
            && (ch in s.reg.ptys && s.reg.ptys[ch] in s.reg.sender ==>
                  s.connected == {s.reg.sender[s.reg.ptys[ch]]})
            && (ch in s.reg.proxies && s.reg.proxies[ch] in s.reg.proxyHub ==>
                  s.connected == {s.reg.proxyHub[s.reg.proxies[ch]]})
  {
    RunKeepsInv(steps);
    hide Expected, Run, OrderlyRun, Lives, Tables, Keyed;
    var s := Run(steps);
    assert ch in s.reg.ptys ==> s.reg.ptys[ch] in s.reg.ptys.Values;
    assert ch in s.reg.proxies ==> s.reg.proxies[ch] in s.reg.proxies.Values;
  }

  /** After the disconnect nothing sends and nothing is routed, but every session
      is still there. */
  lemma DisconnectKeepsSessions(steps: seq<Step>, h: Hub)
    requires OrderlyRun(steps) && h in Run(steps).connected && h in Run(steps).done
    ensures var s, s' := Run(steps), Run(steps + [Disconnect(h)]);
            && s'.reg.ptys == s.reg.ptys && s'.reg.proxies == s.reg.proxies
            && s'.reg.kills == s.reg.kills && s'.reg.closed == s.reg.closed
            && s'.connected == {}
            && (forall g | g in s'.reg.handlers :: s'.reg.handlers[g] == map[])
            && (forall ch | ch in s'.reg.ptys :: s'.reg.ptys[ch] !in s'.reg.sender)
            && (forall ch | ch in s'.reg.proxies :: s'.reg.proxies[ch] !in s'.reg.proxyHub)
  {
    RunKeepsInv(steps);
    RunSnoc(steps, Disconnect(h));
    hide Expected, Run, OrderlyRun, Lives, Keyed, Attached, DetachIn;
    var s := Run(steps);
    assert h in s.reg.handlers;
    TableOf(s.reg, s.done, s.connected, h);
    DetachedAll(s.reg);
    forall g | g in s.reg.handlers
      ensures s.reg.handlers[g] == map[]
    {
      TableOf(s.reg, s.done, s.connected, g);
    }
  }

  lemma RunSnoc(steps: seq<Step>, step: Step)
    ensures Run(steps + [step]) == Apply(Run(steps), step)
  {
    assert (steps + [step])[..|steps|] == steps;
  }

  // ---------------------------------------------------------------------
  // Each hypothesis is needed

  lemma SecondHubTakesOver(h1: Hub, h2: Hub, x: Session)
    requires h1 != h2 && x.chanID == 1
    ensures var s := Run([Connect(h1), Dispatch(h1, OpenPTY(1, Some(x))), Handle(h1),
                          Connect(h2), Dispatch(h2, OpenPTY(1, None)), Handle(h2)]);
            && s.reg.ptys == map[1 := x] && s.reg.sender == map[x := h2]
            && s.connected == {h1, h2} && s.done == {} && h1 in s.reg.handlers
  {
    hide PtyHandlers, ProxyHandlers, SendAllTo;
    var p5 := [Connect(h1), Dispatch(h1, OpenPTY(1, Some(x))), Handle(h1), Connect(h2), Dispatch(h2, OpenPTY(1, None))];
    assert p5 + [Handle(h2)] == [Connect(h1), Dispatch(h1, OpenPTY(1, Some(x))), Handle(h1),
                                 Connect(h2), Dispatch(h2, OpenPTY(1, None)), Handle(h2)];
    SecondAsks(h1, h2, x);
    RunSnoc(p5, Handle(h2));
    hide Run;
  }

  lemma SecondAsks(h1: Hub, h2: Hub, x: Session)
    requires h1 != h2 && x.chanID == 1
    ensures var s := Run([Connect(h1), Dispatch(h1, OpenPTY(1, Some(x))), Handle(h1), Connect(h2),
                          Dispatch(h2, OpenPTY(1, None))]);
            && s.reg.ptys == map[1 := x] && s.reg.sender == map[x := h1]
            && s.connected == {h1, h2} && s.done == {} && s.inFlight == map[h2 := OpenPTY(1, None)]
            && h1 in s.reg.handlers && h2 in s.reg.handlers
  {
    var p4 := [Connect(h1), Dispatch(h1, OpenPTY(1, Some(x))), Handle(h1), Connect(h2)];
    assert p4 + [Dispatch(h2, OpenPTY(1, None))]
           == [Connect(h1), Dispatch(h1, OpenPTY(1, Some(x))), Handle(h1), Connect(h2), Dispatch(h2, OpenPTY(1, None))];
    SecondConnects(h1, h2, x);
    RunSnoc(p4, Dispatch(h2, OpenPTY(1, None)));
    hide Run;
  }

  lemma SecondConnects(h1: Hub, h2: Hub, x: Session)
    requires h1 != h2 && x.chanID == 1
    ensures var s := Run([Connect(h1), Dispatch(h1, OpenPTY(1, Some(x))), Handle(h1), Connect(h2)]);
            && s.reg.ptys == map[1 := x] && s.reg.sender == map[x := h1]
            && s.connected == {h1, h2} && s.done == {} && s.inFlight == map[]
            && h1 in s.reg.handlers && h2 in s.reg.handlers && 0 in s.reg.handlers[h2]
            && s.reg.handlers[h2][0] == Control
  {
    hide PtyHandlers, ProxyHandlers, SendAllTo;
    var p3 := [Connect(h1), Dispatch(h1, OpenPTY(1, Some(x))), Handle(h1)];
    assert p3 + [Connect(h2)] == [Connect(h1), Dispatch(h1, OpenPTY(1, Some(x))), Handle(h1), Connect(h2)];
    OpenedFirst(h1, 1, x);
    RunSnoc(p3, Connect(h2));
    hide Run;
  }

  /** With a second browser: what one hub handles leaves another hub's table in agreement
      exactly when the frame starts, dials and delists nothing. */
  lemma OtherHubAgreesExactly(s: State, h: Hub, g: Hub, f: CtlFrame)
    requires Keyed(s.reg) && New(s, f) && Fits(s.reg, f)
    requires forall ch | ch in s.reg.proxies :: s.reg.proxies[ch] in s.everProxies
    requires g != h && g in s.reg.handlers && s.reg.handlers[g] == Expected(s.reg.ptys, s.reg.proxies)
    ensures var r' := Effect(s.reg, h, f);
            HandlersOf(r', g) == Expected(r'.ptys, r'.proxies)
            <==> Started(f) == {} && Dialed(f) == {} && !Delists(s.reg, f)
  {
    var r, r' := s.reg, Effect(s.reg, h, f);
    OtherTable(r, h, f, g);
    ListsAfter(s, h, f);
    SameListsExactly(s, r', f);
    hide Effect, Opens, Expected, Fits, New, Started, Dialed, Delists;
    ListChanges(r, r', f.ch);
  }

  lemma SameListsExactly(s: State, r: Reg, f: CtlFrame)
    requires New(s, f) && forall ch | ch in s.reg.proxies :: s.reg.proxies[ch] in s.everProxies
    requires r.ptys == (if f.OpenPTY? && f.started.Some? then s.reg.ptys[f.ch := f.started.value]
                        else if f.ClosePTY? then s.reg.ptys - {f.ch} else s.reg.ptys)
    requires r.proxies == if f.OpenProxy? && f.dialed.Some? then s.reg.proxies[f.ch := f.dialed.value]
                          else if f.CloseProxy? then s.reg.proxies - {f.ch} else s.reg.proxies
    ensures r.ptys == s.reg.ptys && r.proxies == s.reg.proxies
            <==> Started(f) == {} && Dialed(f) == {} && !Delists(s.reg, f)
  {
    if f.OpenProxy? && f.dialed.Some? {
      assert r.proxies[f.ch] == f.dialed.value;
    }
  }

  /** What a frame does to the lists. */
  lemma ListsAfter(s: State, h: Hub, f: CtlFrame)
    requires Keyed(s.reg) && New(s, f) && Fits(s.reg, f)
    ensures var r, r', ch := s.reg, Effect(s.reg, h, f), f.ch;
            && Keyed(r')
            && r'.ptys == (if f.OpenPTY? && f.started.Some? then r.ptys[ch := f.started.value]
                           else if f.ClosePTY? then r.ptys - {ch} else r.ptys)
            && r'.proxies == if f.OpenProxy? && f.dialed.Some? then r.proxies[ch := f.dialed.value]
                             else if f.CloseProxy? then r.proxies - {ch} else r.proxies
  {
    var r, ch := s.reg, f.ch;
    match f
    case OpenPTY(_, _) =>
    case ClosePTY(_) =>
      ClosePtyShape(r, h, ch);
      hide ClosePtyIn;
    case OpenProxy(_, _, _) =>
      assert ch in r.proxies ==> r.proxies[ch := r.proxies[ch]] == r.proxies;
    case CloseProxy(_) =>
      CloseProxyShape(r, h, ch);
      hide CloseProxyIn;
  }

  /** Two hubs: detaching is per user, so the first one's disconnect silences the
      PTY that the second one is showing. */
  lemma SecondHubGoesSilent(h1: Hub, h2: Hub, x: Session)
    requires h1 != h2 && x.chanID == 1
    ensures var before := [Connect(h1), Dispatch(h1, OpenPTY(1, Some(x))), Handle(h1),
                           Connect(h2), Dispatch(h2, OpenPTY(1, None)), Handle(h2), HubClose(h1)];
            var s, s' := Run(before), Run(before + [Disconnect(h1)]);
            && s.reg.sender == map[x := h2]
            && s'.connected == {h2} && h2 !in s'.done
            && s'.reg.ptys == map[1 := x] && s'.reg.sender == map[]
  {
    var p6 := [Connect(h1), Dispatch(h1, OpenPTY(1, Some(x))), Handle(h1),
               Connect(h2), Dispatch(h2, OpenPTY(1, None)), Handle(h2)];
    SecondHubTakesOver(h1, h2, x);
    RunSnoc(p6, HubClose(h1));
    RunSnoc(p6 + [HubClose(h1)], Disconnect(h1));
    assert p6 + [HubClose(h1)] == [Connect(h1), Dispatch(h1, OpenPTY(1, Some(x))), Handle(h1),
                                   Connect(h2), Dispatch(h2, OpenPTY(1, None)), Handle(h2), HubClose(h1)];
    hide Run;
    assert (map[1 := x])[1] == x;
    assert (map[1 := x]).Values == {x};
  }

  /** The state after one browser opened its first terminal. */
  lemma OpenedFirst(h: Hub, ch: uint16, x: Session)
    requires x.chanID == ch && ch != 0
    ensures var s := Run([Connect(h), Dispatch(h, OpenPTY(ch, Some(x))), Handle(h)]);
            && s.reg.ptys == map[ch := x] && s.reg.proxies == map[] && s.reg.sender == map[x := h]
            && s.reg.handlers == map[h := map[0 := Control, ch := OfPty(x)]]
            && s.connected == {h} && s.done == {} && s.inFlight == map[] && s.everPtys == {x}
  {
    hide PtyHandlers, ProxyHandlers, SendAllTo;
    var p1 := [Connect(h)];
    var p2 := p1 + [Dispatch(h, OpenPTY(ch, Some(x)))];
    FirstConnect(h);
    RunSnoc(p1, Dispatch(h, OpenPTY(ch, Some(x))));
    RunSnoc(p2, Handle(h));
    assert [Connect(h), Dispatch(h, OpenPTY(ch, Some(x))), Handle(h)] == p2 + [Handle(h)];
    hide Run;
    assert Run(p2).inFlight == map[h := OpenPTY(ch, Some(x))];
  }

  lemma FirstConnect(h: Hub)
    ensures Run([]) == EMPTY
    ensures Run([Connect(h)]) == EMPTY.(reg := EMPTY.reg.(handlers := map[h := map[0 := Control]]), connected := {h})
  {
    hide PtyHandlers, ProxyHandlers, SendAllTo;
    RunSnoc([], Connect(h));
    assert [] + [Connect(h)] == [Connect(h)];
    assert Expected(map[], map[]) == map[0 := Control];
    ConnectTables(EMPTY.reg, {}, h);
    assert SendAllTo(map[], {}, h) == map[];
  }

  /** A close frame for channel 0 removes the control handler: the hub stays open
      and connected, and ignores every frame from then on. */
  lemma ClosingChannelZeroDeafens(h: Hub, f: CtlFrame)
    ensures var s := Run([Connect(h), Dispatch(h, ClosePTY(0)), Handle(h)]);
            && s.connected == {h} && h !in s.done && s.reg.handlers == map[h := map[]]
            && Apply(s, Dispatch(h, f)) == s
  {
    hide PtyHandlers, ProxyHandlers, SendAllTo;
    var p1 := [Connect(h)];
    var p2 := p1 + [Dispatch(h, ClosePTY(0))];
    FirstConnect(h);
    RunSnoc(p1, Dispatch(h, ClosePTY(0)));
    RunSnoc(p2, Handle(h));
    assert [Connect(h), Dispatch(h, ClosePTY(0)), Handle(h)] == p2 + [Handle(h)];
    hide Run;
    assert Run(p2).inFlight == map[h := ClosePTY(0)];
  }

  /** A close frame of the wrong kind: the PTY is killed but stays listed, without
      a handler. */
  lemma WrongKindLeavesACorpse(h: Hub, ch: uint16, x: Session)
    requires x.chanID == ch && ch != 0
    ensures var s := Run([Connect(h), Dispatch(h, OpenPTY(ch, Some(x))), Handle(h),
                          Dispatch(h, CloseProxy(ch)), Handle(h)]);
            && s.reg.ptys == map[ch := x] && s.reg.kills == [x]
            && s.reg.handlers == map[h := map[0 := Control]]
  {
    hide PtyHandlers, ProxyHandlers, SendAllTo;
    var p3 := [Connect(h), Dispatch(h, OpenPTY(ch, Some(x))), Handle(h)];
    var p4 := p3 + [Dispatch(h, CloseProxy(ch))];
    OpenedFirst(h, ch, x);
    NothingKilled(h, ch, x);
    RunSnoc(p3, Dispatch(h, CloseProxy(ch)));
    RunSnoc(p4, Handle(h));
    assert p4 + [Handle(h)] == [Connect(h), Dispatch(h, OpenPTY(ch, Some(x))), Handle(h),
                                Dispatch(h, CloseProxy(ch)), Handle(h)];
    hide Run;
    assert Run(p4).inFlight == map[h := CloseProxy(ch)];
    assert map[0 := Control, ch := OfPty(x)] - {ch} == map[0 := Control];
  }

  lemma NothingKilled(h: Hub, ch: uint16, x: Session)
    requires x.chanID == ch && ch != 0
    ensures var s := Run([Connect(h), Dispatch(h, OpenPTY(ch, Some(x))), Handle(h)]);
            s.reg.kills == [] && s.reg.closed == {}
  {
    hide PtyHandlers, ProxyHandlers, SendAllTo;
    var p1 := [Connect(h)];
    var p2 := p1 + [Dispatch(h, OpenPTY(ch, Some(x)))];
    FirstConnect(h);
    RunSnoc(p1, Dispatch(h, OpenPTY(ch, Some(x))));
    RunSnoc(p2, Handle(h));
    assert [Connect(h), Dispatch(h, OpenPTY(ch, Some(x))), Handle(h)] == p2 + [Handle(h)];
    hide Run;
  }

  /** A frame still being handled while the connection goes away: the terminal is
      left sending to a hub that nobody reads. */
  lemma LateOpenLeavesADeadSender(h: Hub, ch: uint16, x: Session)
    requires x.chanID == ch && ch != 0
    ensures var s := Run([Connect(h), Dispatch(h, OpenPTY(ch, Some(x))), HubClose(h), Disconnect(h), Handle(h)]);
            && s.connected == {} && s.done == {h}
            && s.reg.ptys == map[ch := x] && s.reg.sender == map[x := h]
            && s.reg.handlers == map[h := map[ch := OfPty(x)]]
  {
    hide PtyHandlers, ProxyHandlers, SendAllTo;
    var p1 := [Connect(h)];
    var p2 := p1 + [Dispatch(h, OpenPTY(ch, Some(x)))];
    var p3 := p2 + [HubClose(h)];
    var p4 := p3 + [Disconnect(h)];
    FirstConnect(h);
    RunSnoc(p1, Dispatch(h, OpenPTY(ch, Some(x))));
    RunSnoc(p2, HubClose(h));
    RunSnoc(p3, Disconnect(h));
    RunSnoc(p4, Handle(h));
    assert [Connect(h), Dispatch(h, OpenPTY(ch, Some(x))), HubClose(h), Disconnect(h), Handle(h)]
        == p4 + [Handle(h)];
    hide Run;
    assert Run(p2).inFlight == map[h := OpenPTY(ch, Some(x))];
    assert Run(p3).reg.handlers == map[h := map[]] && Run(p3).done == {h};
    assert Run(p4).connected == {};
  }
}
