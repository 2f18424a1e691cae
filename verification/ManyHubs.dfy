/**
 Whole histories of one user with any number of browsers at once. Each hub handles its
 frames one by one, but a frame is handled in several steps, one for each locked region of
 internal/server/server.go and internal/hub/hub.go, and the steps of different hubs mix
 freely. Hubs may close, and their browsers leave, in the middle of a frame.
 */
module ManyHubs {
  import opened Prelude
  import opened Sessions
  import opened Routing

  /** How far a hub has come with its frame. */
  datatype Place =
    | LookingUp                           // OpenPTY: is the channel listed?
    | Starting(x: Session)                // spawned, to be listed
    | Registering(x: Session)             // to be entered in the hub's table
    | Attaching(x: Session)
    | LookingUpProxy
    | ListingProxy(p: PortProxySession)   // dialed, to be listed
    | Reattaching(p: PortProxySession)
    | RegisteringProxy(p: PortProxySession)
    | Unregistering                       // a close frame
    | ClosingOwn(hd: Handler)             // taken from the hub's table, to be closed
    | Unlisting
    | ClosingListed(hd: Handler)          // taken from the user's map, to be closed

  datatype Task = Task(f: CtlFrame, at: Place)

  /** ever holds the sessions ever spawned, begun those that were ever listed. */
  datatype World = World(
    reg: Reg,
    connected: set<Hub>,
    done: set<Hub>,
    busy: map<Hub, Task>,
    ever: set<Session>,
    begun: set<Session>,
    everProxies: set<PortProxySession>)

  const START := World(Reg(map[], map[], map[], map[], {}, {}, map[], []), {}, {}, map[], {}, {}, {})

  datatype Step =
    | Connect(h: Hub)
    | Dispatch(h: Hub, f: CtlFrame)
    | Do(h: Hub)
    | HubClose(h: Hub)
    | Disconnect(h: Hub)
    | ProxyEnds(p: PortProxySession)

  function First(f: CtlFrame): Place
  {
    match f
    case OpenPTY(_, _) => LookingUp
    case OpenProxy(_, _, _) => LookingUpProxy
    case ClosePTY(_) => Unregistering
    case CloseProxy(_) => Unregistering
  }

  function Moved(s: World, h: Hub, r: Reg, at: Place): World
    requires h in s.busy
  {
    s.(reg := r, busy := s.busy[h := s.busy[h].(at := at)])
  }

  function Finished(s: World, h: Hub, r: Reg): World
  {
    s.(reg := r, busy := s.busy - {h})
  }

  /** Spawning yields a session never seen before, for the right channel. */
  predicate Spawns(s: World, f: CtlFrame)
  {
    f.OpenPTY? && f.started.Some? && f.started.value.chanID == f.ch && f.started.value !in s.ever
  }

  predicate Dials(s: World, f: CtlFrame)
  {
    f.OpenProxy? && f.dialed.Some? && f.dialed.value.chanID == f.ch && f.dialed.value !in s.everProxies
  }

  /** No open proxy is listed on the channel, and a new one can be dialed. */
  predicate WillDial(s: World, f: CtlFrame)
  {
    && Dials(s, f) && f.ch != 0 && f.hasTarget
    && !(f.ch in s.reg.proxies && s.reg.proxies[f.ch] !in s.reg.proxyClosed)
  }

  /** handleOpenPTY, one locked region at a time. */
  function DoOpen(s: World, h: Hub): World
    requires h in s.busy
  {
    var r, f := s.reg, s.busy[h].f;
    match s.busy[h].at
    case LookingUp =>
      if f.ch == 0 then Finished(s, h, r)
      else if f.ch in r.ptys then Moved(s, h, r, Registering(r.ptys[f.ch]))
      else if Spawns(s, f) then Moved(s.(ever := s.ever + {f.started.value}), h, r, Starting(f.started.value))
      else Finished(s, h, r)
    case Starting(x) =>
      Moved(s.(begun := s.begun + {x}), h, r.(ptys := r.ptys[x.chanID := x]), Registering(x))
    case Registering(x) => Moved(s, h, RegisterIn(r, h, x.chanID, OfPty(x)), Attaching(x))
    case Attaching(x) => Finished(s, h, r.(sender := r.sender[x := h]))
    case _ => s
  }

  /** handleOpenProxy; dialing already gives the proxy its hub. */
  function DoOpenProxy(s: World, h: Hub): World
    requires h in s.busy
  {
    var r, f := s.reg, s.busy[h].f;
    match s.busy[h].at
    case LookingUpProxy =>
      if f.ch == 0 || (f.OpenProxy? && !f.hasTarget) then Finished(s, h, r)
      else if f.ch in r.proxies && r.proxies[f.ch] !in r.proxyClosed
      then Moved(s, h, r, Reattaching(r.proxies[f.ch]))
      else if Dials(s, f)
      then Moved(s.(everProxies := s.everProxies + {f.dialed.value}), h,
                 r.(proxyHub := r.proxyHub[f.dialed.value := h]), ListingProxy(f.dialed.value))
      else Finished(s, h, r)
    case ListingProxy(p) => Moved(s, h, r.(proxies := r.proxies[p.chanID := p]), RegisteringProxy(p))
    case Reattaching(p) => Moved(s, h, r.(proxyHub := r.proxyHub[p := h]), RegisteringProxy(p))
    case RegisteringProxy(p) => Finished(s, h, RegisterIn(r, h, p.chanID, OfProxy(p)))
    case _ => s
  }

  /** handleClosePTY and handleCloseProxy. */
  function DoClose(s: World, h: Hub): World
    requires h in s.busy
  {
    var r, f := s.reg, s.busy[h].f;
    match s.busy[h].at
    case Unregistering =>
      var hs := HandlersOf(r, h);
      if f.ch in hs
      then Moved(s, h, r.(handlers := r.handlers[h := hs - {f.ch}]), ClosingOwn(hs[f.ch]))
      else Moved(s, h, r, Unlisting)
    case ClosingOwn(hd) => Moved(s, h, CloseHandlerIn(r, hd), Unlisting)
    case Unlisting =>
      if f.ClosePTY? && f.ch in r.ptys
      then Moved(s, h, r.(ptys := r.ptys - {f.ch}), ClosingListed(OfPty(r.ptys[f.ch])))
      else if f.CloseProxy? && f.ch in r.proxies
      then Moved(s, h, r.(proxies := r.proxies - {f.ch}), ClosingListed(OfProxy(r.proxies[f.ch])))
      else Finished(s, h, r)
    case ClosingListed(hd) => Finished(s, h, CloseHandlerIn(r, hd))
    case _ => s
  }

  function DoOne(s: World, h: Hub): World
  {
    if h !in s.busy then s
    else
      match s.busy[h].f
      case OpenPTY(_, _) => DoOpen(s, h)
      case OpenProxy(_, _, _) => DoOpenProxy(s, h)
      case ClosePTY(_) => DoClose(s, h)
      case CloseProxy(_) => DoClose(s, h)
  }

  ghost function Apply(s: World, step: Step): World
  {
    match step
    case Connect(h) =>
      if h in s.reg.handlers then s
      else s.(reg := ConnectIn(s.reg, h), connected := s.connected + {h})
    case Dispatch(h, f) =>
      var hs := HandlersOf(s.reg, h);
      if h in s.connected && h !in s.busy && 0 in hs && hs[0] == Control
      then s.(busy := s.busy[h := Task(f, First(f))]) else s
    case Do(h) => DoOne(s, h)
    case HubClose(h) =>
      if h in s.reg.handlers && h !in s.done
      then s.(reg := CloseHubIn(s.reg, h), done := s.done + {h}) else s
    case Disconnect(h) =>
      if Leaves(s, step) then s.(reg := DetachIn(s.reg), connected := s.connected - {h}) else s
    case ProxyEnds(p) =>
      s.(reg := s.reg.(proxyClosed := s.reg.proxyClosed + {p}))
  }

  /** A disconnect that takes effect. */
  predicate Leaves(s: World, step: Step)
  {
    step.Disconnect? && step.h in s.connected && step.h in s.done
  }

  ghost function Run(steps: seq<Step>): World
  {
    if steps == [] then START else Apply(Run(steps[..|steps| - 1]), steps[|steps| - 1])
  }

  // ---------------------------------------------------------------------
  // What every run keeps

  /** Listed sessions have begun and are listed under their own nonzero channels. */
  ghost predicate Own(s: World)
  {
    && (forall ch | ch in s.reg.ptys :: ch != 0 && s.reg.ptys[ch].chanID == ch && s.reg.ptys[ch] in s.begun)
    && s.begun <= s.ever
  }

  /** The killed sessions, each killed once. */
  ghost predicate Once(s: World)
  {
    && s.reg.closed <= s.begun
    && (forall x | x in s.reg.kills :: x in s.reg.closed)
    && (forall x | x in s.reg.closed :: x in s.reg.kills)
    && (forall i, j | 0 <= i < j < |s.reg.kills| :: s.reg.kills[i] != s.reg.kills[j])
  }

  /** Tables may be stale, but a PTY is only ever found under its own channel. */
  ghost predicate Sorted(hs: map<uint16, Handler>, begun: set<Session>)
  {
    forall ch | ch in hs && hs[ch].OfPty? :: ch != 0 && ch == hs[ch].pty.chanID && hs[ch].pty in begun
  }

  ghost predicate AllSorted(s: World)
  {
    forall h | h in s.reg.handlers :: Sorted(s.reg.handlers[h], s.begun)
  }

  /** Where a hub can be with its frame. */
  predicate Sane(s: World, t: Task)
  {
    match t.at
    case LookingUp => t.f.OpenPTY?
    case Starting(x) => t.f.OpenPTY? && x.chanID == t.f.ch != 0 && x in s.ever && x !in s.begun
    case Registering(x) => t.f.OpenPTY? && x.chanID == t.f.ch != 0 && x in s.begun
    case Attaching(x) => t.f.OpenPTY? && x.chanID == t.f.ch != 0 && x in s.begun
    case Unregistering => t.f.ClosePTY? || t.f.CloseProxy?
    case ClosingOwn(hd) =>
      (t.f.ClosePTY? || t.f.CloseProxy?) && (hd.OfPty? ==> hd.pty.chanID == t.f.ch && hd.pty in s.begun)
    case Unlisting => t.f.ClosePTY? || t.f.CloseProxy?
    case ClosingListed(hd) =>
      && (t.f.ClosePTY? || t.f.CloseProxy?)
      && (hd.OfPty? ==> t.f.ClosePTY? && hd.pty.chanID == t.f.ch && hd.pty in s.begun)
    case _ => t.f.OpenProxy?
  }

  ghost predicate IsStarting(s: World, x: Session)
  {
    exists h :: h in s.busy && s.busy[h].at == Starting(x)
  }

  /** Every session that has been spawned and not listed yet is in one hub's hands. */
  ghost predicate OneStarter(s: World)
  {
    && (forall x | x in s.ever && x !in s.begun :: IsStarting(s, x))
    && (forall h, g | h in s.busy && g in s.busy && s.busy[h].at.Starting? && s.busy[h].at == s.busy[g].at :: h == g)
  }

  ghost predicate AllSane(s: World)
  {
    forall h | h in s.busy :: Sane(s, s.busy[h])
  }

  ghost predicate Sound(s: World)
  {
    Own(s) && Once(s) && AllSorted(s) && AllSane(s) && OneStarter(s)
  }

  lemma DoOwn(s: World, h: Hub)
    requires Own(s) && h in s.busy && Sane(s, s.busy[h])
    ensures Own(DoOne(s, h))
  {
  }

  lemma DoOnce(s: World, h: Hub)
    requires Once(s) && h in s.busy && Sane(s, s.busy[h])
    ensures Once(DoOne(s, h))
  {
  }

  lemma DoSorted(s: World, h: Hub)
    requires AllSorted(s) && h in s.busy && Sane(s, s.busy[h])
    ensures AllSorted(DoOne(s, h))
  {
  }

  /** What any step of h leaves to the others. */
  lemma DoOthers(s: World, h: Hub)
    requires h in s.busy
    ensures var r := DoOne(s, h);
            && r.busy - {h} == s.busy - {h}
            && s.ever <= r.ever && s.begun <= r.begun
            && r.connected == s.connected && r.done == s.done
            && r.begun == s.begun + (if s.busy[h].f.OpenPTY? && s.busy[h].at.Starting? then {s.busy[h].at.x} else {})
            && (h in r.busy ==> r.busy[h].f == s.busy[h].f)
  {
  }

  lemma DoSaneOwn(s: World, h: Hub)
    requires Own(s) && AllSorted(s) && h in s.busy && Sane(s, s.busy[h])
    ensures var r := DoOne(s, h); h in r.busy ==> Sane(r, r.busy[h])
  {
  }

  lemma DoSane(s: World, h: Hub)
    requires Sound(s) && h in s.busy
    ensures AllSane(DoOne(s, h))
  {
    DoOthers(s, h);
    DoSaneOwn(s, h);
    hide DoOne, Own, AllSorted, Once;
    var r := DoOne(s, h);
    forall g | g in r.busy && g != h
      ensures Sane(r, r.busy[g])
    {
      assert g in r.busy - {h} && g in s.busy && r.busy[g] == s.busy[g];
      assert Sane(s, s.busy[g]);
    }
  }

  /** A new starter is for a new session, and a starter that moves on has begun it. */
  lemma DoStarters(s: World, h: Hub)
    requires h in s.busy && Sane(s, s.busy[h])
    ensures var r := DoOne(s, h);
            && (h in r.busy && r.busy[h].at.Starting? ==> r.busy[h].at.x in r.ever - s.ever)
            && (forall x | x in r.ever && x !in r.begun ::
                  s.busy[h].at != Starting(x) && (x in s.ever || (h in r.busy && r.busy[h].at == Starting(x))))
  {
  }

  lemma DoOneStarter(s: World, h: Hub)
    requires Sound(s) && h in s.busy
    ensures OneStarter(DoOne(s, h))
  {
    DoOthers(s, h);
    DoStarters(s, h);
    hide DoOne, Own, AllSorted, Once;
    var r := DoOne(s, h);
    forall x | x in r.ever && x !in r.begun
      ensures IsStarting(r, x)
    {
      if x in s.ever {
        assert IsStarting(s, x);
        var g :| g in s.busy && s.busy[g].at == Starting(x);
        assert g in s.busy - {h} && r.busy[g] == s.busy[g];
      }
    }
    forall g, k | g in r.busy && k in r.busy && r.busy[g].at.Starting? && r.busy[g].at == r.busy[k].at
      ensures g == k
    {
      assert g != h ==> g in r.busy - {h} && r.busy[g] == s.busy[g] && Sane(s, s.busy[g]);
      assert k != h ==> k in r.busy - {h} && r.busy[k] == s.busy[k] && Sane(s, s.busy[k]);
    }
  }

  lemma ConnectSound(s: World, h: Hub)
    requires Sound(s)
    ensures Sound(Apply(s, Step.Connect(h)))
  {
    hide AllSane, Own, Once;
    if h !in s.reg.handlers {
      var r := Apply(s, Step.Connect(h));
      ConnectShape(s.reg, h);
      ExpectedSorted(s);
      SameBusy(s, r);
      hide ConnectIn, Expected, OneStarter, Sorted, SendAllTo;
      SameSanity(s, r);
    }
  }

  lemma SameSanity(s: World, r: World)
    requires AllSane(s) && Own(s) && Once(s)
    requires r == s.(reg := s.reg.(handlers := r.reg.handlers, proxyHub := r.reg.proxyHub), connected := r.connected)
    ensures AllSane(r) && Own(r) && Once(r)
  {
    forall h | h in r.busy
      ensures Sane(r, r.busy[h])
    {
      assert Sane(s, s.busy[h]);
    }
  }

  lemma ExpectedSorted(s: World)
    requires Own(s)
    ensures Sorted(Expected(s.reg.ptys, s.reg.proxies), s.begun)
  {
    forall ch | ch in Expected(s.reg.ptys, s.reg.proxies)
      ensures var hd := Expected(s.reg.ptys, s.reg.proxies)[ch];
              hd.OfPty? ==> ch != 0 && ch == hd.pty.chanID && hd.pty in s.begun
    {
      ExpectedAt(s.reg.ptys, s.reg.proxies, ch);
    }
    hide Expected;
  }

  lemma SameBusy(s: World, r: World)
    requires OneStarter(s) && r.busy == s.busy && r.ever == s.ever && r.begun == s.begun
    ensures OneStarter(r)
  {
    forall x | x in r.ever && x !in r.begun
      ensures IsStarting(r, x)
    {
      assert IsStarting(s, x);
    }
  }

  lemma DispatchSound(s: World, h: Hub, f: CtlFrame)
    requires Sound(s)
    ensures Sound(Apply(s, Step.Dispatch(h, f)))
  {
    var r := Apply(s, Step.Dispatch(h, f));
    if r != s {
      forall x | x in r.ever && x !in r.begun
        ensures IsStarting(r, x)
      {
        assert IsStarting(s, x);
        var g :| g in s.busy && s.busy[g].at == Starting(x);
        assert g in r.busy;
      }
    }
  }

  lemma StepSound(s: World, step: Step)
    requires Sound(s)
    ensures Sound(Apply(s, step))
  {
    hide Own, Once, AllSorted, AllSane, OneStarter, DoOne, DetachIn;
    match step
    case Connect(h) => ConnectSound(s, h);
    case Dispatch(h, f) => DispatchSound(s, h, f);
    case Do(h) =>
      if h in s.busy {
        AtHand(s, h);
        DoOwn(s, h);
        DoOnce(s, h);
        DoSorted(s, h);
        DoSane(s, h);
        DoOneStarter(s, h);
      } else {
        DoIdle(s, h);
      }
    case _ => TablesOnly(s, step);
  }

  lemma AtHand(s: World, h: Hub)
    requires Sound(s) && h in s.busy
    ensures Sane(s, s.busy[h])
  {
  }

  lemma DoIdle(s: World, h: Hub)
    requires h !in s.busy
    ensures DoOne(s, h) == s
  {
  }

  lemma TablesOnly(s: World, step: Step)
    requires Sound(s) && (step.HubClose? || step.Disconnect? || step.ProxyEnds?)
    ensures Sound(Apply(s, step))
  {
    SameBusy(s, Apply(s, step));
    hide OneStarter;
  }

  lemma {:induction false} RunSound(steps: seq<Step>)
    ensures Sound(Run(steps))
  {
    if steps != [] {
      RunSound(steps[..|steps| - 1]);
      StepSound(Run(steps[..|steps| - 1]), steps[|steps| - 1]);
    }
  }

  lemma RunSnoc(steps: seq<Step>, step: Step)
    ensures Run(steps + [step]) == Apply(Run(steps), step)
  {
    assert (steps + [step])[..|steps|] == steps;
  }

  lemma RunNext(steps: seq<Step>, n: nat)
    requires n < |steps|
    ensures Run(steps[..n + 1]) == Apply(Run(steps[..n]), steps[n])
  {
    assert steps[..n + 1][..n] == steps[..n];
  }

  // ---------------------------------------------------------------------
  // One close frame

  /** The steps a hub makes for one frame when nothing comes between. */
  function Through(s: World, h: Hub): World
  {
    DoOne(DoOne(DoOne(DoOne(s, h), h), h), h)
  }

  /** The environment's part of a frame fits: what is spawned or dialed is new and needed. */
  predicate Apt(s: World, f: CtlFrame)
  {
    && (f.OpenPTY? && f.started.Some? ==> Spawns(s, f) && f.ch != 0 && f.ch !in s.reg.ptys)
    && (f.OpenProxy? && f.dialed.Some? ==> WillDial(s, f))
  }

  predicate OwnProxies(r: Reg)
  {
    forall ch | ch in r.proxies :: r.proxies[ch].chanID == ch
  }

  /** Handled without interruption, a frame does what the handler's method does. */
  lemma Uninterrupted(s: World, h: Hub, f: CtlFrame)
    requires Own(s) && OwnProxies(s.reg) && h !in s.busy && Apt(s, f)
    ensures var r := Through(s.(busy := s.busy[h := Task(f, First(f))]), h);
            h !in r.busy && r.reg == Effect(s.reg, h, f)
  {
    hide DoOne, Effect, Apt;
    match f
    case OpenPTY(_, _) => OpenThrough(s, h, f);
    case OpenProxy(_, _, _) => OpenProxyThrough(s, h, f);
    case ClosePTY(_) => CloseThrough(s, h, f);
    case CloseProxy(_) => CloseThrough(s, h, f);
  }

  lemma OpenThrough(s: World, h: Hub, f: CtlFrame)
    requires Own(s) && h !in s.busy && Apt(s, f) && f.OpenPTY?
    ensures var r := Through(s.(busy := s.busy[h := Task(f, First(f))]), h);
            h !in r.busy && r.reg == Effect(s.reg, h, f)
  {
    hide RegisterIn;
    var r, s1 := s.reg, s.(busy := s.busy[h := Task(f, LookingUp)]);
    var s2 := DoOne(s1, h);
    if f.ch != 0 && f.ch in r.ptys {
      assert s2 == Moved(s1, h, r, Registering(r.ptys[f.ch]));
      RegisterThrough(s2, h);
      hide DoOne;
    } else if f.ch != 0 && f.started.Some? {
      var x := f.started.value;
      assert s2 == Moved(s1.(ever := s.ever + {x}), h, r, Starting(x));
      var s3 := DoOne(s2, h);
      assert s3.reg == r.(ptys := r.ptys[x.chanID := x]) && s3.busy[h] == Task(f, Registering(x));
      RegisterThrough(s3, h);
      RegisterApart(r, h, x);
      hide DoOne;
    } else {
      assert h !in s2.busy;
    }
  }

  lemma RegisterApart(r: Reg, h: Hub, x: Session)
    ensures RegisterIn(r.(ptys := r.ptys[x.chanID := x]), h, x.chanID, OfPty(x)).(sender := r.sender[x := h])
            == StartIn(r, h, x)
  {
  }

  lemma RegisterThrough(s: World, h: Hub)
    requires h in s.busy && s.busy[h].f.OpenPTY? && s.busy[h].at.Registering?
    ensures var x, r := s.busy[h].at.x, DoOne(DoOne(s, h), h);
            && h !in r.busy && DoOne(r, h) == r
            && r.reg == RegisterIn(s.reg, h, x.chanID, OfPty(x)).(sender := s.reg.sender[x := h])
  {
  }

  lemma OpenProxyThrough(s: World, h: Hub, f: CtlFrame)
    requires OwnProxies(s.reg) && h !in s.busy && Apt(s, f) && f.OpenProxy?
    ensures var r := Through(s.(busy := s.busy[h := Task(f, First(f))]), h);
            h !in r.busy && r.reg == Effect(s.reg, h, f)
  {
    var r, s1 := s.reg, s.(busy := s.busy[h := Task(f, LookingUpProxy)]);
    var s2 := DoOne(s1, h);
    if f.ch == 0 || !f.hasTarget {
      assert h !in s2.busy;
    } else if f.ch in r.proxies && r.proxies[f.ch] !in r.proxyClosed {
      var p := r.proxies[f.ch];
      assert s2 == Moved(s1, h, r, Reattaching(p));
      var s3 := DoOne(s2, h);
      assert s3.reg == r.(proxyHub := r.proxyHub[p := h]) && s3.busy[h] == Task(f, RegisteringProxy(p));
      RegisterProxyThrough(s3, h);
      hide DoOne;
    } else if f.dialed.Some? {
      var p := f.dialed.value;
      assert s2.reg == r.(proxyHub := r.proxyHub[p := h]) && s2.busy[h] == Task(f, ListingProxy(p));
      var s3 := DoOne(s2, h);
      assert s3.reg == s2.reg.(proxies := r.proxies[p.chanID := p]) && s3.busy[h] == Task(f, RegisteringProxy(p));
      RegisterProxyThrough(s3, h);
      hide DoOne;
    } else {
      assert h !in s2.busy;
    }
  }

  lemma RegisterProxyThrough(s: World, h: Hub)
    requires h in s.busy && s.busy[h].f.OpenProxy? && s.busy[h].at.RegisteringProxy?
    ensures var p, r := s.busy[h].at.p, DoOne(s, h);
            && h !in r.busy && DoOne(r, h) == r
            && r.reg == RegisterIn(s.reg, h, p.chanID, OfProxy(p))
  {
  }

  lemma CloseThrough(s: World, h: Hub, f: CtlFrame)
    requires h !in s.busy && (f.ClosePTY? || f.CloseProxy?)
    ensures var r := Through(s.(busy := s.busy[h := Task(f, First(f))]), h);
            h !in r.busy && r.reg == Effect(s.reg, h, f)
  {
    var r, s1 := s.reg, s.(busy := s.busy[h := Task(f, Unregistering)]);
    var hs, s2 := HandlersOf(r, h), DoOne(s1, h);
    if f.ch in hs {
      var s3 := DoOne(s2, h);
      assert s3.reg == UnregisterIn(r, h, f.ch) && s3.busy[h] == Task(f, Unlisting);
      UnlistThrough(s3, h);
    } else {
      assert s2.reg == UnregisterIn(r, h, f.ch) && s2.busy[h] == Task(f, Unlisting);
      UnlistThrough(s2, h);
    }
    hide DoOne, UnregisterIn;
  }

  lemma UnlistThrough(s: World, h: Hub)
    requires h in s.busy && s.busy[h].at.Unlisting?
    ensures var r, ch := DoOne(DoOne(s, h), h), s.busy[h].f.ch;
            && (s.busy[h].f.ClosePTY? ==>
                  h !in r.busy && DoOne(r, h) == r && r.reg == RemovePtyIn(s.reg, ch))
            && (s.busy[h].f.CloseProxy? ==>
                  h !in r.busy && DoOne(r, h) == r && r.reg == RemoveProxyIn(s.reg, ch))
  {
    hide HandlersOf;
  }
}
