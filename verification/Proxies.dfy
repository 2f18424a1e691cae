/**
 What becomes of port proxies, and of closed hubs, while any number of hubs come, handle
 frames and go.
 */
module Proxies {
  import opened Prelude
  import opened Sessions
  import opened Routing
  import opened ManyHubs
  import opened Senders

  // ---------------------------------------------------------------------
  // Which proxies are shut

  /** The step shuts p: its connection ends, or a close frame has reached it. */
  predicate Shuts(s: World, step: Step, p: PortProxySession)
  {
    match step
    case ProxyEnds(q) => q == p
    case Do(h) =>
      h in s.busy && (s.busy[h].f.ClosePTY? || s.busy[h].f.CloseProxy?)
      && (s.busy[h].at == ClosingOwn(OfProxy(p)) || s.busy[h].at == ClosingListed(OfProxy(p)))
    case _ => false
  }

  ghost predicate ShutBy(steps: seq<Step>, p: PortProxySession)
  {
    steps != []
    && (ShutBy(steps[..|steps| - 1], p) || Shuts(Run(steps[..|steps| - 1]), steps[|steps| - 1], p))
  }

  lemma ShutsStep(s: World, step: Step, p: PortProxySession)
    ensures p in Apply(s, step).reg.proxyClosed <==> p in s.reg.proxyClosed || Shuts(s, step, p)
  {
    match step
    case Connect(h) =>
      if h !in s.reg.handlers {
        ConnectShape(s.reg, h);
        hide ConnectIn, SendAllTo, Expected;
      }
    case Do(h) =>
      hide HandlersOf, KillIn, Spawns, Dials;
      if h in s.busy && (s.busy[h].at.ClosingOwn? || s.busy[h].at.ClosingListed?) {
        KillLeavesProxies(s.reg, s.busy[h].at.hd);
      }
    case _ =>
  }

  lemma KillLeavesProxies(r: Reg, hd: Handler)
    ensures hd.OfPty? ==> KillIn(r, hd.pty).proxyClosed == r.proxyClosed
  {
  }

  /** In every run a proxy is shut exactly when its connection ended or a close frame got
      to it. */
  lemma {:induction false} ShutExactly(steps: seq<Step>, p: PortProxySession)
    ensures p in Run(steps).reg.proxyClosed <==> ShutBy(steps, p)
  {
    if steps != [] {
      ShutExactly(steps[..|steps| - 1], p);
      ShutsStep(Run(steps[..|steps| - 1]), steps[|steps| - 1], p);
      hide Apply, Shuts;
    }
  }

  // ---------------------------------------------------------------------
  // Frames handled without interruption

  function Frame(h: Hub, f: CtlFrame): seq<Step>
  {
    [Step.Dispatch(h, f), Do(h), Do(h), Do(h), Do(h)]
  }

  /** The hub reads frames and is not handling one. */
  ghost predicate Ready(s: World, h: Hub)
  {
    h in s.connected && h !in s.busy && 0 in HandlersOf(s.reg, h) && HandlersOf(s.reg, h)[0] == Control
  }

  lemma {:induction false} RunOwnProxies(steps: seq<Step>)
    ensures OwnProxies(Run(steps).reg)
  {
    if steps != [] {
      RunOwnProxies(steps[..|steps| - 1]);
      OwnProxiesStep(Run(steps[..|steps| - 1]), steps[|steps| - 1]);
    }
  }

  lemma OwnProxiesStep(s: World, step: Step)
    requires OwnProxies(s.reg)
    ensures OwnProxies(Apply(s, step).reg)
  {
    match step
    case Connect(h) =>
      if h !in s.reg.handlers {
        ConnectShape(s.reg, h);
        hide ConnectIn, SendAllTo, Expected;
      }
    case Do(h) => hide HandlersOf, KillIn, Spawns, Dials, RegisterIn;
    case _ =>
  }

  lemma DoRun(steps: seq<Step>, h: Hub)
    ensures Run(steps + [Do(h)]) == DoOne(Run(steps), h)
  {
    hide DoOne;
    RunSnoc(steps, Do(h));
  }

  lemma FourTimes(steps: seq<Step>, h: Hub)
    ensures Run(steps + [Do(h), Do(h), Do(h), Do(h)]) == Through(Run(steps), h)
  {
    hide Run, Apply, DoOne;
    var s2 := steps + [Do(h)];
    var s3 := s2 + [Do(h)];
    var s4 := s3 + [Do(h)];
    DoRun(steps, h);
    DoRun(s2, h);
    DoRun(s3, h);
    DoRun(s4, h);
    assert steps + [Do(h), Do(h), Do(h), Do(h)] == s4 + [Do(h)];
  }

  lemma FrameAlone(steps: seq<Step>, h: Hub, f: CtlFrame)
    requires Ready(Run(steps), h) && Apt(Run(steps), f)
    ensures var s, r := Run(steps), Run(steps + Frame(h, f));
            h !in r.busy && r.reg == Effect(s.reg, h, f)
  {
    hide Through, DoOne, Effect, Apt, Once, AllSorted, AllSane, OneStarter, Own, OwnProxies;
    RunSound(steps);
    RunOwnProxies(steps);
    RunSnoc(steps, Step.Dispatch(h, f));
    assert steps + Frame(h, f) == steps + [Step.Dispatch(h, f)] + [Do(h), Do(h), Do(h), Do(h)];
    FourTimes(steps + [Step.Dispatch(h, f)], h);
    Uninterrupted(Run(steps), h, f);
    hide Run;
  }

  /** The listed proxy of an open frame goes on with the hub that opens it. */
  lemma OpenProxyIsReattached(steps: seq<Step>, h: Hub, ch: uint16)
    requires Ready(Run(steps), h) && ch != 0 && ch in Run(steps).reg.proxies
    requires !ShutBy(steps, Run(steps).reg.proxies[ch])
    ensures var r, r' := Run(steps).reg, Run(steps + Frame(h, OpenProxy(ch, true, None))).reg;
            && r'.proxies == r.proxies && r'.proxyClosed == r.proxyClosed
            && (forall q :: SendsTo(r', q) == if q == Proxy(r.proxies[ch]) then Some(h) else SendsTo(r, q))
            && ch in HandlersOf(r', h) && HandlersOf(r', h)[ch] == OfProxy(r.proxies[ch])
  {
    ShutExactly(steps, Run(steps).reg.proxies[ch]);
    FrameAlone(steps, h, OpenProxy(ch, true, None));
    hide Run, ShutBy, Frame;
  }

  /** A proxy whose connection has ended is replaced by the one dialed; without one the
      open frame does nothing. */
  lemma EndedProxyIsReplaced(steps: seq<Step>, h: Hub, ch: uint16, dialed: Option<PortProxySession>)
    requires Ready(Run(steps), h) && ch != 0 && ch in Run(steps).reg.proxies
    requires dialed.Some? ==> dialed.value.chanID == ch && dialed.value !in Run(steps).everProxies
    requires dialed != Some(Run(steps).reg.proxies[ch])
    ensures var r := Run(steps).reg;
            var ended := Run(steps + [Step.ProxyEnds(r.proxies[ch])]).reg;
            var r' := Run(steps + [Step.ProxyEnds(r.proxies[ch])] + Frame(h, OpenProxy(ch, true, dialed))).reg;
            && ended.proxies == r.proxies && ended.proxyHub == r.proxyHub && ended.handlers == r.handlers
            && (dialed.None? ==> r' == ended)
            && (dialed.Some? ==>
                  && r'.proxies == r.proxies[ch := dialed.value]
                  && (forall q :: SendsTo(r', q) == if q == Proxy(dialed.value) then Some(h) else SendsTo(r, q))
                  && ch in HandlersOf(r', h) && HandlersOf(r', h)[ch] == OfProxy(dialed.value))
  {
    var p := Run(steps).reg.proxies[ch];
    RunSnoc(steps, Step.ProxyEnds(p));
    FrameAlone(steps + [Step.ProxyEnds(p)], h, OpenProxy(ch, true, dialed));
    hide Run, Frame;
  }

  /** A CloseProxy for a listed proxy shuts it and leaves it neither listed nor routed;
      every other proxy stays listed. */
  lemma CloseProxyShuts(steps: seq<Step>, h: Hub, ch: uint16)
    requires Ready(Run(steps), h) && ch in Run(steps).reg.proxies
    ensures var r, r' := Run(steps).reg, Run(steps + Frame(h, CloseProxy(ch))).reg;
            && r'.proxies == r.proxies - {ch} && r'.ptys == r.ptys
            && r.proxies[ch] in r'.proxyClosed && ch !in HandlersOf(r', h)
  {
    FrameAlone(steps, h, CloseProxy(ch));
    hide Run, Frame, KillIn;
    KillOnlyKills(Run(steps).reg, h, ch);
  }

  lemma KillOnlyKills(r: Reg, h: Hub, ch: uint16)
    ensures var u := UnregisterIn(r, h, ch);
            u.ptys == r.ptys && u.proxies == r.proxies && ch !in HandlersOf(u, h)
  {
  }

  // ---------------------------------------------------------------------
  // No way back for what is shut or closed

  /** p is shut, and no hub is still about to re-attach it. */
  ghost predicate Quiet(s: World, p: PortProxySession)
  {
    p in s.reg.proxyClosed && p in s.everProxies && forall h | h in s.busy :: s.busy[h].at != Reattaching(p)
  }

  lemma QuietStep(s: World, step: Step, p: PortProxySession)
    requires Quiet(s, p)
    ensures Quiet(Apply(s, step), p)
    ensures forall h :: !Attaches(s, Do(h), Proxy(p))
  {
    ShutsStep(s, step, p);
    match step
    case Connect(h) =>
      if h !in s.reg.handlers {
        ConnectShape(s.reg, h);
        hide ConnectIn, SendAllTo, Expected;
      }
    case Do(h) => QuietDo(s, h, p);
    case _ =>
  }

  lemma QuietDo(s: World, h: Hub, p: PortProxySession)
    requires Quiet(s, p)
    ensures var r := DoOne(s, h);
            p in r.everProxies && forall g | g in r.busy :: r.busy[g].at != Reattaching(p)
  {
    hide HandlersOf, KillIn, RegisterIn, CloseHandlerIn;
  }

  /** A shut proxy is never attached again by any frame, unless a hub was already about to
      re-attach it; only a connecting browser may still be given it while it is listed. */
  lemma {:induction false} ShutIsNotReopened(steps: seq<Step>, later: seq<Step>, p: PortProxySession)
    requires Quiet(Run(steps), p)
    ensures Quiet(Run(steps + later), p) && forall h :: !Attaches(Run(steps + later), Do(h), Proxy(p))
  {
    hide Quiet, Run, Apply, Attaches;
    if later == [] {
      assert steps + later == steps;
      QuietStep(Run(steps), Step.ProxyEnds(p), p);
    } else {
      var front, step := later[..|later| - 1], later[|later| - 1];
      ShutIsNotReopened(steps, front, p);
      assert steps + later == steps + front + [step];
      RunSnoc(steps + front, step);
      QuietStep(Run(steps + front), step, p);
      QuietStep(Run(steps + later), Step.ProxyEnds(p), p);
    }
  }

  /** A closed hub without its control handler. */
  ghost predicate Deaf(s: World, h: Hub)
  {
    h in s.done && h in s.reg.handlers && !(0 in s.reg.handlers[h] && s.reg.handlers[h][0] == Control)
  }

  lemma DeafStep(s: World, step: Step, h: Hub)
    requires h in s.done ==> Deaf(s, h)
    ensures h in Apply(s, step).done ==> Deaf(Apply(s, step), h)
    ensures h in s.done ==> h in Apply(s, step).done
    ensures h in s.done && h !in s.busy ==>
              var r := Apply(s, step);
              h !in r.busy && HandlersOf(r.reg, h) == HandlersOf(s.reg, h)
  {
    match step
    case Connect(g) =>
      if g !in s.reg.handlers {
        ConnectShape(s.reg, g);
        hide ConnectIn, SendAllTo, Expected;
      }
    case Do(g) => DeafDo(s, g, h);
    case _ =>
  }

  lemma DeafDo(s: World, g: Hub, h: Hub)
    ensures h in s.done && Deaf(s, h) ==> Deaf(DoOne(s, g), h)
    ensures DoOne(s, g).done == s.done
    ensures h !in s.busy ==> h !in DoOne(s, g).busy && HandlersOf(DoOne(s, g).reg, h) == HandlersOf(s.reg, h)
  {
    hide DoOpen, DoOpenProxy, DoClose;
    if g in s.busy {
      OpenTables(s, g, h);
      OpenProxyTables(s, g, h);
      CloseTables(s, g, h);
    }
  }

  /** A hub's step changes its own table at most, and enters no control handler. */
  ghost predicate OwnTable(s: World, r: World, g: Hub, h: Hub)
  {
    && r.done == s.done
    && (h != g ==> (h in r.busy <==> h in s.busy) && HandlersOf(r.reg, h) == HandlersOf(s.reg, h))
    && (h in s.reg.handlers ==>
          && h in r.reg.handlers
          && (0 in r.reg.handlers[h] && r.reg.handlers[h][0] == Control ==>
                0 in s.reg.handlers[h] && s.reg.handlers[h][0] == Control))
  }

  lemma OpenTables(s: World, g: Hub, h: Hub)
    requires g in s.busy
    ensures OwnTable(s, DoOpen(s, g), g, h)
  {
  }

  lemma OpenProxyTables(s: World, g: Hub, h: Hub)
    requires g in s.busy
    ensures OwnTable(s, DoOpenProxy(s, g), g, h)
  {
  }

  lemma CloseTables(s: World, g: Hub, h: Hub)
    requires g in s.busy
    ensures OwnTable(s, DoClose(s, g), g, h)
  {
    hide CloseHandlerIn;
    if s.busy[g].at.ClosingOwn? || s.busy[g].at.ClosingListed? {
      ClosingKeepsTables(s.reg, s.busy[g].at.hd);
    }
  }

  lemma ClosingKeepsTables(r: Reg, hd: Handler)
    ensures CloseHandlerIn(r, hd).handlers == r.handlers
  {
  }

  lemma {:induction false} DoneIsDeaf(steps: seq<Step>, h: Hub)
    ensures h in Run(steps).done ==> Deaf(Run(steps), h)
  {
    hide Apply, Deaf;
    if steps != [] {
      DoneIsDeaf(steps[..|steps| - 1], h);
      DeafStep(Run(steps[..|steps| - 1]), steps[|steps| - 1], h);
    }
  }

  lemma {:induction false} StaysClosed(steps: seq<Step>, later: seq<Step>, h: Hub)
    requires h in Run(steps).done && h !in Run(steps).busy
    ensures var s, r := Run(steps), Run(steps + later);
            h in r.done && h !in r.busy && HandlersOf(r.reg, h) == HandlersOf(s.reg, h)
  {
    hide Run, Apply, Deaf, HandlersOf;
    if later == [] {
      assert steps + later == steps;
    } else {
      var front, step := later[..|later| - 1], later[|later| - 1];
      StaysClosed(steps, front, h);
      assert steps + later == steps + front + [step];
      RunSnoc(steps + front, step);
      DoneIsDeaf(steps + front, h);
      DeafStep(Run(steps + front), step, h);
    }
  }

  /** A hub that closes between two frames routes nothing and begins no frame ever again,
      whatever else happens; closing it ends no session. */
  lemma ClosedHubRests(steps: seq<Step>, later: seq<Step>, h: Hub)
    requires h in Run(steps).reg.handlers && h !in Run(steps).done && h !in Run(steps).busy
    ensures var s, c, r := Run(steps), Run(steps + [Step.HubClose(h)]), Run(steps + [Step.HubClose(h)] + later);
            && h in r.done && h !in r.busy && HandlersOf(r.reg, h) == map[]
            && c.reg == s.reg.(handlers := c.reg.handlers) && c.reg.handlers - {h} == s.reg.handlers - {h}
  {
    RunSnoc(steps, Step.HubClose(h));
    StaysClosed(steps + [Step.HubClose(h)], later, h);
    hide Run;
  }
}
