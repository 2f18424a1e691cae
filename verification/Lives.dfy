/**
 Life and death of PTY sessions when any number of hubs handle frames at once: who is
 killed, by what, and which sessions are lost.
 */
module Lives {
  import opened Prelude
  import opened Sessions
  import opened Routing
  import opened ManyHubs

  // ---------------------------------------------------------------------
  // Kills

  /** The PTY handler that a hub with task t is about to close. */
  function Doomed(t: Task): Option<Session>
  {
    if t.at.ClosingOwn? && t.at.hd.OfPty? then Some(t.at.hd.pty)
    else if t.at.ClosingListed? && t.at.hd.OfPty? then Some(t.at.hd.pty)
    else None
  }

  /** The session that a step kills. */
  function Victim(s: World, step: Step): seq<Session>
  {
    if step.Do? && step.h in s.busy && Doomed(s.busy[step.h]).Some? && Doomed(s.busy[step.h]).value !in s.reg.closed
    then [Doomed(s.busy[step.h]).value] else []
  }

  lemma DoKills(s: World, h: Hub)
    requires h in s.busy && Sane(s, s.busy[h])
    ensures DoOne(s, h).reg.kills == s.reg.kills + Victim(s, Do(h))
    ensures DoOne(s, h).reg.closed == s.reg.closed + (if Doomed(s.busy[h]).Some? then {Doomed(s.busy[h]).value} else {})
  {
    if Doomed(s.busy[h]).None? {
      DoSpares(s, h);
    }
    hide HandlersOf;
  }

  lemma DoSpares(s: World, h: Hub)
    requires h in s.busy && Doomed(s.busy[h]).None?
    ensures DoOne(s, h).reg.kills == s.reg.kills && DoOne(s, h).reg.closed == s.reg.closed
  {
    hide HandlersOf;
    match s.busy[h].f
    case OpenPTY(_, _) => assert DoOpen(s, h).reg.kills == s.reg.kills && DoOpen(s, h).reg.closed == s.reg.closed;
    case OpenProxy(_, _, _) =>
      assert DoOpenProxy(s, h).reg.kills == s.reg.kills && DoOpenProxy(s, h).reg.closed == s.reg.closed;
    case ClosePTY(_) => CloseSpares(s, h);
    case CloseProxy(_) => CloseSpares(s, h);
  }

  lemma CloseSpares(s: World, h: Hub)
    requires h in s.busy && Doomed(s.busy[h]).None?
    ensures DoClose(s, h).reg.kills == s.reg.kills && DoClose(s, h).reg.closed == s.reg.closed
  {
    hide HandlersOf;
  }

  /** In every run, with any number of hubs, whatever closes when and whatever frames
      come: nothing is killed twice, and a step kills only a session taken from the hub's
      own table or from the list, for a close frame on that session's channel. */
  lemma KillsOnlyOnRequest(steps: seq<Step>, step: Step, x: Session)
    ensures var s, s' := Run(steps), Run(steps + [step]);
            && multiset(s'.reg.kills)[x] <= 1
            && s'.reg.kills == s.reg.kills + Victim(s, step)
            && (x in Victim(s, step) ==>
                  && step.Do? && step.h in s.busy && x in s.begun
                  && var t := s.busy[step.h];
                     t.f.ch == x.chanID && (t.f.ClosePTY? || (t.f.CloseProxy? && t.at == ClosingOwn(OfPty(x)))))
  {
    RunSnoc(steps, step);
    RunSound(steps);
    RunSound(steps + [step]);
    NoRepeats(Run(steps + [step]).reg.kills, x);
    var s := Run(steps);
    KillsStep(s, step);
    hide Run, Apply, Own, AllSorted, OneStarter;
    if x in Victim(s, step) {
      VictimIsAsked(s, step, x);
    }
  }

  lemma VictimIsAsked(s: World, step: Step, x: Session)
    requires AllSane(s) && x in Victim(s, step)
    ensures step.Do? && step.h in s.busy && x in s.begun
    ensures var t := s.busy[step.h];
            t.f.ch == x.chanID && (t.f.ClosePTY? || (t.f.CloseProxy? && t.at == ClosingOwn(OfPty(x))))
  {
    assert Sane(s, s.busy[step.h]);
  }

  lemma KillsStep(s: World, step: Step)
    requires AllSane(s)
    ensures Apply(s, step).reg.kills == s.reg.kills + Victim(s, step)
  {
    hide DoOne, ConnectIn, DetachIn;
    match step
    case Connect(h) => if h !in s.reg.handlers { ConnectShape(s.reg, h); }
    case Disconnect(h) => DetachedAll(s.reg);
    case Do(h) =>
      if h in s.busy {
        DoKills(s, h);
      } else {
        DoIdle(s, h);
      }
    case _ =>
  }

  lemma {:induction false} NoRepeats(k: seq<Session>, x: Session)
    requires forall i, j | 0 <= i < j < |k| :: k[i] != k[j]
    ensures multiset(k)[x] <= 1
  {
    if k != [] {
      var front, last := k[..|k| - 1], k[|k| - 1];
      assert k == front + [last];
      NoRepeats(front, x);
      forall i | 0 <= i < |front|
        ensures front[i] != last
      {
        assert front[i] == k[i];
      }
    }
  }

  // ---------------------------------------------------------------------
  // Strays

  ghost predicate IsDoomed(busy: map<Hub, Task>, x: Session)
  {
    exists h :: h in busy && Doomed(busy[h]) == Some(x)
  }

  /** x is listed. */
  predicate Shows(r: Reg, x: Session)
  {
    x.chanID in r.ptys && r.ptys[x.chanID] == x
  }

  /** Alive, but neither listed nor about to be killed. */
  ghost predicate Stray(s: World, x: Session)
  {
    x in s.begun && x !in s.reg.closed && !Shows(s.reg, x) && !IsDoomed(s.busy, x)
  }

  /** A hub that had found the channel free lists its new session over a live one. */
  ghost predicate Overtakes(s: World, step: Step, x: Session)
  {
    && step.Do? && step.h in s.busy && s.busy[step.h].at.Starting? && s.busy[step.h].f.OpenPTY?
    && s.busy[step.h].at.x.chanID == x.chanID && s.busy[step.h].at.x != x
    && Shows(s.reg, x) && x !in s.reg.closed && !IsDoomed(s.busy, x)
  }

  /** A close frame finds x in the hub's own table. */
  predicate Catches(s: World, step: Step, x: Session)
  {
    && step.Do? && step.h in s.busy && s.busy[step.h].at.Unregistering?
    && (s.busy[step.h].f.ClosePTY? || s.busy[step.h].f.CloseProxy?)
    && s.busy[step.h].f.ch in HandlersOf(s.reg, step.h)
    && HandlersOf(s.reg, step.h)[s.busy[step.h].f.ch] == OfPty(x)
  }

  lemma DoomedAt(busy: map<Hub, Task>, h: Hub, x: Session)
    ensures IsDoomed(busy, x) <==> (h in busy && Doomed(busy[h]) == Some(x)) || IsDoomed(busy - {h}, x)
  {
    var others := busy - {h};
    if IsDoomed(others, x) {
      var g :| g in others && Doomed(others[g]) == Some(x);
      assert g in busy && Doomed(busy[g]) == Some(x);
    }
    if IsDoomed(busy, x) {
      var g :| g in busy && Doomed(busy[g]) == Some(x);
      if g != h {
        assert g in others && Doomed(others[g]) == Some(x);
      }
    }
  }

  /** How a step of h moves one session. */
  lemma DoMoves(s: World, h: Hub, x: Session)
    requires h in s.busy && Sane(s, s.busy[h]) && Own(s)
    ensures var r, t := DoOne(s, h), s.busy[h];
            && (Shows(r.reg, x) <==>
                  t.at == Starting(x)
                  || (Shows(s.reg, x) && !(t.at.Starting? && t.at.x.chanID == x.chanID)
                      && !(t.at.Unlisting? && t.f.ClosePTY? && t.f.ch == x.chanID)))
            && (h in r.busy && Doomed(r.busy[h]) == Some(x) <==>
                  Catches(s, Do(h), x) || (t.at.Unlisting? && t.f.ClosePTY? && t.f.ch == x.chanID && Shows(s.reg, x)))
  {
  }

  lemma StrayDo(s: World, h: Hub, x: Session)
    requires Sound(s) && h in s.busy
    ensures Stray(DoOne(s, h), x) <==> (Stray(s, x) && !Catches(s, Do(h), x)) || Overtakes(s, Do(h), x)
  {
    AtHand(s, h);
    DoOthers(s, h);
    DoKills(s, h);
    DoMoves(s, h, x);
    DoomedAt(s.busy, h, x);
    DoomedAt(DoOne(s, h).busy, h, x);
    hide DoOne, AllSorted, AllSane, OneStarter, IsDoomed, HandlersOf;
  }

  lemma StrayStep(s: World, step: Step, x: Session)
    requires Sound(s)
    ensures Stray(Apply(s, step), x) <==> (Stray(s, x) && !Catches(s, step, x)) || Overtakes(s, step, x)
  {
    hide DoOne, ConnectIn, DetachIn, IsDoomed, Sound;
    match step
    case Connect(h) => if h !in s.reg.handlers { ConnectShape(s.reg, h); }
    case Disconnect(h) => DetachedAll(s.reg);
    case Dispatch(h, f) =>
      var r := Apply(s, step);
      DoomedAt(s.busy, h, x);
      DoomedAt(r.busy, h, x);
      assert r != s ==> r.busy - {h} == s.busy - {h};
    case Do(h) =>
      if h in s.busy {
        StrayDo(s, h, x);
      } else {
        DoIdle(s, h);
      }
    case _ =>
  }

  ghost predicate StrayAt(steps: seq<Step>, n: nat, x: Session)
    requires n <= |steps|
  {
    Stray(Run(steps[..n]), x)
  }

  ghost predicate OvertakenAt(steps: seq<Step>, n: nat, x: Session)
    requires n < |steps|
  {
    Overtakes(Run(steps[..n]), steps[n], x)
  }

  lemma {:induction false} NoStrayYet(steps: seq<Step>, n: nat, x: Session)
    requires n <= |steps| && forall i | 0 <= i < n :: !OvertakenAt(steps, i, x)
    ensures !StrayAt(steps, n, x)
  {
    if n == 0 {
      assert steps[..0] == [];
    } else {
      NoStrayYet(steps, n - 1, x);
      RunNext(steps, n - 1);
      RunSound(steps[..n - 1]);
      StrayStep(Run(steps[..n - 1]), steps[n - 1], x);
      assert !OvertakenAt(steps, n - 1, x);
      hide Run, Stray, Overtakes, Catches;
    }
  }

  /** A session is lost, alive but neither listed nor about to be killed, at some moment
      of a run exactly when a hub that had found its channel free lists another session
      over it. */
  lemma StraysExactly(steps: seq<Step>, x: Session)
    ensures (exists n :: 0 <= n <= |steps| && StrayAt(steps, n, x))
            <==> exists n :: 0 <= n < |steps| && OvertakenAt(steps, n, x)
  {
    if n :| 0 <= n < |steps| && OvertakenAt(steps, n, x) {
      RunNext(steps, n);
      RunSound(steps[..n]);
      StrayStep(Run(steps[..n]), steps[n], x);
      assert StrayAt(steps, n + 1, x);
    }
    if n :| 0 <= n <= |steps| && StrayAt(steps, n, x) {
      if forall i | 0 <= i < n :: !OvertakenAt(steps, i, x) {
        NoStrayYet(steps, n, x);
      }
    }
  }

  // ---------------------------------------------------------------------
  // At rest

  /** A hub with task t is going to take ch off the list. */
  predicate TakesOff(t: Task, ch: uint16)
  {
    t.f.ClosePTY? && t.f.ch == ch && (t.at.ClosingOwn? || t.at.Unlisting?)
  }

  ghost predicate Leaving(busy: map<Hub, Task>, ch: uint16)
  {
    exists h :: h in busy && TakesOff(busy[h], ch)
  }

  lemma LeavingAt(busy: map<Hub, Task>, h: Hub, ch: uint16)
    ensures Leaving(busy, ch) <==> (h in busy && TakesOff(busy[h], ch)) || Leaving(busy - {h}, ch)
  {
    var others := busy - {h};
    if Leaving(others, ch) {
      var g :| g in others && TakesOff(others[g], ch);
      assert g in busy && TakesOff(busy[g], ch);
    }
    if Leaving(busy, ch) {
      var g :| g in busy && TakesOff(busy[g], ch);
      if g != h {
        assert g in others && TakesOff(others[g], ch);
      }
    }
  }

  /** Dead or dying, and listed for good. */
  ghost predicate Corpse(s: World, x: Session)
  {
    Shows(s.reg, x) && (x in s.reg.closed || IsDoomed(s.busy, x)) && !Leaving(s.busy, x.chanID)
  }

  /** A CloseProxy finds a listed PTY in the hub's own table, and no ClosePTY is about to
      take it off the list. */
  ghost predicate Mislays(s: World, step: Step, x: Session)
  {
    Catches(s, step, x) && s.busy[step.h].f.CloseProxy? && Shows(s.reg, x) && !Leaving(s.busy, x.chanID)
  }

  lemma DoLeaves(s: World, h: Hub, x: Session)
    requires h in s.busy && Sane(s, s.busy[h])
    ensures var r, t := DoOne(s, h), s.busy[h];
            && (TakesOff(t, x.chanID) && !t.at.Unlisting? ==> h in r.busy && TakesOff(r.busy[h], x.chanID))
            && (Catches(s, Do(h), x) && t.f.ClosePTY? && t.f.ch == x.chanID ==>
                  h in r.busy && TakesOff(r.busy[h], x.chanID))
            && (Catches(s, Do(h), x) && t.f.CloseProxy? ==> h in r.busy && !TakesOff(r.busy[h], x.chanID))
  {
  }

  lemma CorpseDo(s: World, h: Hub, x: Session)
    requires Sound(s) && h in s.busy && Corpse(DoOne(s, h), x)
    ensures Corpse(s, x) || Mislays(s, Do(h), x)
  {
    AtHand(s, h);
    DoOthers(s, h);
    DoKills(s, h);
    DoMoves(s, h, x);
    DoLeaves(s, h, x);
    var r := DoOne(s, h);
    DoomedAt(s.busy, h, x);
    DoomedAt(r.busy, h, x);
    LeavingAt(s.busy, h, x.chanID);
    LeavingAt(r.busy, h, x.chanID);
    if s.busy[h].at == Starting(x) {
      StarterIsNew(s, h, x);
    }
    if Catches(s, Do(h), x) {
      CaughtIsOwn(s, h, x);
    }
    hide DoOne, AllSorted, AllSane, OneStarter, IsDoomed, HandlersOf, Leaving;
  }

  lemma MislaidIsCorpse(s: World, h: Hub, x: Session)
    requires Sound(s) && Mislays(s, Do(h), x)
    ensures Corpse(DoOne(s, h), x)
  {
    AtHand(s, h);
    DoOthers(s, h);
    DoMoves(s, h, x);
    DoLeaves(s, h, x);
    DoomedAt(DoOne(s, h).busy, h, x);
    LeavingAt(s.busy, h, x.chanID);
    LeavingAt(DoOne(s, h).busy, h, x.chanID);
    hide DoOne, AllSorted, AllSane, OneStarter, IsDoomed, HandlersOf, Leaving;
  }

  lemma StarterIsNew(s: World, h: Hub, x: Session)
    requires Sound(s) && h in s.busy && s.busy[h].at == Starting(x)
    ensures x !in s.reg.closed && !IsDoomed(s.busy, x)
  {
    AtHand(s, h);
    if IsDoomed(s.busy, x) {
      var g :| g in s.busy && Doomed(s.busy[g]) == Some(x);
      AtHand(s, g);
    }
  }

  lemma CaughtIsOwn(s: World, h: Hub, x: Session)
    requires Sound(s) && Catches(s, Do(h), x)
    ensures s.busy[h].f.ch == x.chanID && x in s.begun
  {
    assert Sorted(s.reg.handlers[h], s.begun);
  }

  lemma CorpseStep(s: World, step: Step, x: Session)
    requires Sound(s) && Corpse(Apply(s, step), x)
    ensures Corpse(s, x) || Mislays(s, step, x)
  {
    hide DoOne, ConnectIn, DetachIn, IsDoomed, Leaving, Sound;
    match step
    case Connect(h) => if h !in s.reg.handlers { ConnectShape(s.reg, h); }
    case Disconnect(h) => DetachedAll(s.reg);
    case Dispatch(h, f) =>
      var r := Apply(s, step);
      if r != s {
        assert r.busy - {h} == s.busy - {h};
        DoomedAt(s.busy, h, x);
        DoomedAt(r.busy, h, x);
        LeavingAt(s.busy, h, x.chanID);
        LeavingAt(r.busy, h, x.chanID);
      }
    case Do(h) =>
      if h in s.busy {
        CorpseDo(s, h, x);
      } else {
        DoIdle(s, h);
      }
    case _ =>
  }

  ghost predicate MislaidAt(steps: seq<Step>, n: nat, x: Session)
    requires n < |steps|
  {
    Mislays(Run(steps[..n]), steps[n], x)
  }

  ghost predicate CorpseAt(steps: seq<Step>, n: nat, x: Session)
    requires n <= |steps|
  {
    Corpse(Run(steps[..n]), x)
  }

  lemma {:induction false} NoCorpseYet(steps: seq<Step>, n: nat, x: Session)
    requires n <= |steps| && forall i | 0 <= i < n :: !MislaidAt(steps, i, x)
    ensures !CorpseAt(steps, n, x)
  {
    if n == 0 {
      assert steps[..0] == [];
    } else {
      NoCorpseYet(steps, n - 1, x);
      RunNext(steps, n - 1);
      RunSound(steps[..n - 1]);
      assert !MislaidAt(steps, n - 1, x);
      hide Run, Corpse, Mislays, Sound;
      if CorpseAt(steps, n, x) {
        CorpseStep(Run(steps[..n - 1]), steps[n - 1], x);
      }
    }
  }

  /** A session is dead or dying and listed for good, at some moment of a run, exactly when
      a CloseProxy hits it while it is listed and no ClosePTY is about to unlist it. */
  lemma CorpsesExactly(steps: seq<Step>, x: Session)
    ensures (exists n :: 0 <= n <= |steps| && CorpseAt(steps, n, x))
            <==> exists n :: 0 <= n < |steps| && MislaidAt(steps, n, x)
  {
    if n :| 0 <= n < |steps| && MislaidAt(steps, n, x) {
      RunNext(steps, n);
      RunSound(steps[..n]);
      MislaidIsCorpse(Run(steps[..n]), steps[n].h, x);
      assert CorpseAt(steps, n + 1, x);
    }
    if n :| 0 <= n <= |steps| && CorpseAt(steps, n, x) {
      if forall i | 0 <= i < n :: !MislaidAt(steps, i, x) {
        NoCorpseYet(steps, n, x);
      }
    }
  }

  /** When no hub is handling anything, every session ever spawned is listed, killed or
      lost: lost ones are neither listed nor killed, and corpses are both. */
  lemma AtRest(s: World, x: Session)
    requires Sound(s) && s.busy == map[]
    ensures x in s.reg.ptys.Values <==> Shows(s.reg, x)
    ensures x in s.ever <==> Shows(s.reg, x) || x in s.reg.kills || Stray(s, x)
    ensures !(Stray(s, x) && (Shows(s.reg, x) || x in s.reg.kills))
    ensures Corpse(s, x) <==> Shows(s.reg, x) && x in s.reg.kills
  {
    assert !IsDoomed(s.busy, x) && !IsStarting(s, x) && !Leaving(s.busy, x.chanID);
  }

  /** Sessions die once and only on request: with any number of browsers, when no hub is
      handling anything, a session is listed exactly when it was spawned and not killed,
      if and only if it is neither lost nor a corpse; and it can be that only if another
      session was listed over it, or a CloseProxy hit it. */
  lemma KilledExactlyOnce(steps: seq<Step>, x: Session)
    requires Run(steps).busy == map[]
    ensures var s := Run(steps);
            && multiset(s.reg.kills)[x] <= 1
            && ((x in s.reg.ptys.Values <==> x in s.ever && x !in s.reg.kills) <==> !Stray(s, x) && !Corpse(s, x))
            && (Stray(s, x) ==> exists n :: 0 <= n < |steps| && OvertakenAt(steps, n, x))
            && (Corpse(s, x) ==> exists n :: 0 <= n < |steps| && MislaidAt(steps, n, x))
  {
    RunSound(steps);
    NoRepeats(Run(steps).reg.kills, x);
    AtRest(Run(steps), x);
    assert steps[..|steps|] == steps;
    StraysExactly(steps, x);
    CorpsesExactly(steps, x);
    hide Run, Sound, Stray, Corpse, OvertakenAt, MislaidAt;
    assert StrayAt(steps, |steps|, x) <==> Stray(Run(steps), x);
    assert CorpseAt(steps, |steps|, x) <==> Corpse(Run(steps), x);
  }

  // ---------------------------------------------------------------------
  // What one close kills

  function LiveIn(r: Reg, x: Session): seq<Session>
  {
    if x in r.closed then [] else [x]
  }

  function OwnEntry(r: Reg, h: Hub, ch: uint16): Option<Session>
  {
    var hs := HandlersOf(r, h);
    if ch in hs && hs[ch].OfPty? then Some(hs[ch].pty) else None
  }

  function OnList(r: Reg, ch: uint16): Option<Session>
  {
    if ch in r.ptys then Some(r.ptys[ch]) else None
  }

  /** What a ClosePTY kills: the live PTY in the hub's own table and then the listed one,
      if it is another one and live. */
  function Killed(r: Reg, h: Hub, ch: uint16): seq<Session>
  {
    var own, listed := OwnEntry(r, h, ch), OnList(r, ch);
    (if own.Some? then LiveIn(r, own.value) else [])
    + if listed.Some? && listed != own then LiveIn(r, listed.value) else []
  }

  lemma ClosePtyKills(r: Reg, h: Hub, ch: uint16)
    ensures ClosePtyIn(r, h, ch).kills == r.kills + Killed(r, h, ch)
  {
    var r1 := UnregisterIn(r, h, ch);
    UnregisterKills(r, h, ch);
    UnregisterShape(r, h, ch);
    hide UnregisterIn, OwnEntry;
    var own := OwnEntry(r, h, ch);
    assert ClosePtyIn(r, h, ch).kills == r1.kills + if ch in r.ptys then LiveIn(r1, r.ptys[ch]) else [];
    assert r.kills + (if own.Some? then LiveIn(r, own.value) else []) + [] == r1.kills;
  }

  lemma UnregisterKills(r: Reg, h: Hub, ch: uint16)
    ensures var r1, own := UnregisterIn(r, h, ch), OwnEntry(r, h, ch);
            && r1.kills == r.kills + (if own.Some? then LiveIn(r, own.value) else [])
            && r1.closed == r.closed + (if own.Some? then {own.value} else {})
  {
  }

  lemma SameTail<T>(a: seq<T>, b: seq<T>, c: seq<T>)
    ensures a + b == a + c <==> b == c
  {
    if a + b == a + c {
      assert b == (a + b)[|a|..] && c == (a + c)[|a|..];
    }
  }

  /** At rest, a ClosePTY kills exactly the PTY listed on its channel, if there is one, if
      and only if its hub's table does not hold a lost session there and the listed one
      is alive. */
  lemma OneCloseOneKill(steps: seq<Step>, h: Hub, ch: uint16)
    requires Run(steps).busy == map[]
    ensures var s := Run(steps);
            var r, own, listed := s.reg, OwnEntry(s.reg, h, ch), OnList(s.reg, ch);
            ClosePtyIn(r, h, ch).kills == r.kills + (if listed.Some? then [listed.value] else [])
            <==> !(own.Some? && Stray(s, own.value)) && !(listed.Some? && listed.value in r.closed)
  {
    RunSound(steps);
    hide Run, ClosePtyIn;
    var s := Run(steps);
    var r, own, listed := s.reg, OwnEntry(s.reg, h, ch), OnList(s.reg, ch);
    ClosePtyKills(r, h, ch);
    SameTail(r.kills, Killed(r, h, ch), if listed.Some? then [listed.value] else []);
    if own.Some? {
      OwnEntryIsStray(s, h, ch);
    }
    var a := if own.Some? then LiveIn(r, own.value) else [];
    var b := if listed.Some? && listed != own then LiveIn(r, listed.value) else [];
    assert a + [] == a && [] + b == b && |a + b| == |a| + |b|;
    assert a != [] && b != [] ==> |a + b| == 2;
    hide OwnEntry, AllSorted, AllSane, OneStarter, Once, Stray, OnList;
  }

  lemma OwnEntryIsStray(s: World, h: Hub, ch: uint16)
    requires Sound(s) && s.busy == map[] && OwnEntry(s.reg, h, ch).Some?
    ensures var own := OwnEntry(s.reg, h, ch);
            Stray(s, own.value) <==> own.value !in s.reg.closed && OnList(s.reg, ch) != own
  {
    assert Sorted(s.reg.handlers[h], s.begun);
    assert !IsDoomed(s.busy, OwnEntry(s.reg, h, ch).value);
  }

  // ---------------------------------------------------------------------
  // A race, and what becomes of the loser

  lemma StartThrough(s: World, h: Hub, x: Session)
    requires h in s.busy && s.busy[h].f.OpenPTY? && s.busy[h].at == Starting(x)
    ensures Thrice(s, h)
            == s.(reg := StartIn(s.reg, h, x), busy := s.busy - {h}, begun := s.begun + {x})
  {
    hide RegisterIn;
    var s1 := DoOne(s, h);
    assert s1 == Moved(s.(begun := s.begun + {x}), h, s.reg.(ptys := s.reg.ptys[x.chanID := x]), Registering(x));
    RegisterThrough(s1, h);
    RegisterApart(s.reg, h, x);
    RegisterKeeps(s1, h);
    assert s1.busy - {h} == s.busy - {h};
    hide DoOne;
  }

  lemma RegisterKeeps(s: World, h: Hub)
    requires h in s.busy && s.busy[h].f.OpenPTY? && s.busy[h].at.Registering?
    ensures var r := DoOne(DoOne(s, h), h);
            r == s.(reg := r.reg, busy := s.busy - {h})
  {
    hide RegisterIn;
  }

  /** Two hubs open the same new channel: both look it up before either lists. */
  function Race(h1: Hub, h2: Hub, x: Session, y: Session): seq<Step>
  {
    [Step.Connect(h1), Step.Connect(h2), Step.Dispatch(h1, OpenPTY(1, Some(x))), Step.Dispatch(h2, OpenPTY(1, Some(y))),
     Do(h1), Do(h2), Do(h1), Do(h1), Do(h1), Do(h2), Do(h2), Do(h2)]
  }

  lemma BothConnected(h1: Hub, h2: Hub)
    requires h1 != h2
    ensures Run([Step.Connect(h1), Step.Connect(h2)])
            == START.(reg := START.reg.(handlers := map[h1 := map[0 := Control], h2 := map[0 := Control]]),
                      connected := {h1, h2})
  {
    var run := [Step.Connect(h1), Step.Connect(h2)];
    assert run[..0] == [] && run[..2] == run;
    RunNext(run, 0);
    RunNext(run, 1);
    assert Run(run[..0]) == START;
    hide Run, PtyHandlers, ProxyHandlers, SendAllTo, ConnectIn;
    assert Expected(map[], map[]) == map[0 := Control];
    ConnectShape(START.reg, h1);
    assert SendAllTo(map[], {}, h1) == map[] && SendAllTo(map[], {}, h2) == map[];
    var s1 := START.(reg := START.reg.(handlers := map[h1 := map[0 := Control]]), connected := {h1});
    assert Run(run[..1]) == s1;
    ConnectShape(s1.reg, h2);
    hide Expected;
  }

  lemma DispatchAlone(s: World, h: Hub, f: CtlFrame)
    requires h in s.connected && h !in s.busy && h in s.reg.handlers && s.reg.handlers[h] == map[0 := Control]
    ensures Apply(s, Step.Dispatch(h, f)) == s.(busy := s.busy[h := Task(f, First(f))])
  {
  }

  lemma SpawnAlone(s: World, h: Hub, f: CtlFrame, x: Session)
    requires h in s.busy && s.busy[h] == Task(f, LookingUp) && f == OpenPTY(1, Some(x))
    requires 1 !in s.reg.ptys && x.chanID == 1 && x !in s.ever
    ensures DoOne(s, h) == s.(busy := s.busy[h := Task(f, Starting(x))], ever := s.ever + {x})
  {
  }

  /** The world after both lookups. */
  function Raced(h1: Hub, h2: Hub, x: Session, y: Session): World
  {
    START.(reg := START.reg.(handlers := map[h1 := map[0 := Control], h2 := map[0 := Control]]),
           connected := {h1, h2}, ever := {x, y},
           busy := map[h1 := Task(OpenPTY(1, Some(x)), Starting(x)), h2 := Task(OpenPTY(1, Some(y)), Starting(y))])
  }

  lemma BothSpawn(h1: Hub, h2: Hub, x: Session, y: Session)
    requires h1 != h2 && x != y && x.chanID == y.chanID == 1
    ensures Run(Race(h1, h2, x, y)[..6]) == Raced(h1, h2, x, y)
  {
    var run := Race(h1, h2, x, y);
    assert |run| == 12 && run[4] == Do(h1) && run[5] == Do(h2);
    hide Run, DoOne, Race, Raced, Asked;
    BothAsk(h1, h2, x, y);
    DoBoth(run, 4, h1, h2);
    TwoSpawn(h1, h2, x, y);
  }

  lemma DoBoth(run: seq<Step>, n: nat, h1: Hub, h2: Hub)
    requires n + 2 <= |run| && run[n] == Do(h1) && run[n + 1] == Do(h2)
    ensures Run(run[..n + 2]) == DoOne(DoOne(Run(run[..n]), h1), h2)
  {
    RunNext(run, n);
    RunNext(run, n + 1);
    hide Run, DoOne;
  }

  lemma TwoSpawn(h1: Hub, h2: Hub, x: Session, y: Session)
    requires h1 != h2 && x != y && x.chanID == y.chanID == 1
    ensures DoOne(DoOne(Asked(h1, h2, x, y), h1), h2) == Raced(h1, h2, x, y)
  {
    hide DoOne;
    var fx, fy, s := OpenPTY(1, Some(x)), OpenPTY(1, Some(y)), Asked(h1, h2, x, y);
    SpawnAlone(s, h1, fx, x);
    SpawnAlone(s.(busy := s.busy[h1 := Task(fx, Starting(x))], ever := s.ever + {x}), h2, fy, y);
    assert {} + {x} + {y} == {x, y};
    assert s.busy[h1 := Task(fx, Starting(x))][h2 := Task(fy, Starting(y))] == Raced(h1, h2, x, y).busy;
  }

  /** The world before the lookups. */
  function Asked(h1: Hub, h2: Hub, x: Session, y: Session): World
  {
    Raced(h1, h2, x, y).(ever := {},
      busy := map[h1 := Task(OpenPTY(1, Some(x)), LookingUp), h2 := Task(OpenPTY(1, Some(y)), LookingUp)])
  }

  lemma BothAsk(h1: Hub, h2: Hub, x: Session, y: Session)
    requires h1 != h2
    ensures Run(Race(h1, h2, x, y)[..4]) == Asked(h1, h2, x, y)
  {
    var run := Race(h1, h2, x, y);
    assert run[..2] == [Step.Connect(h1), Step.Connect(h2)];
    assert run[2] == Step.Dispatch(h1, OpenPTY(1, Some(x))) && run[3] == Step.Dispatch(h2, OpenPTY(1, Some(y)));
    assert |run| == 12;
    RunNext(run, 2);
    RunNext(run, 3);
    BothConnected(h1, h2);
    hide Run, Race, Apply;
    TwoAsk(Run(run[..2]), h1, h2, x, y);
  }

  lemma TwoAsk(s: World, h1: Hub, h2: Hub, x: Session, y: Session)
    requires h1 != h2 && s == Asked(h1, h2, x, y).(busy := map[])
    ensures Apply(Apply(s, Step.Dispatch(h1, OpenPTY(1, Some(x)))), Step.Dispatch(h2, OpenPTY(1, Some(y))))
            == Asked(h1, h2, x, y)
  {
    hide Apply;
    var fx, fy := OpenPTY(1, Some(x)), OpenPTY(1, Some(y));
    DispatchAlone(s, h1, fx);
    DispatchAlone(s.(busy := s.busy[h1 := Task(fx, LookingUp)]), h2, fy);
    assert s.busy[h1 := Task(fx, LookingUp)][h2 := Task(fy, LookingUp)] == Asked(h1, h2, x, y).busy;
  }

  function Thrice(s: World, h: Hub): World
  {
    DoOne(DoOne(DoOne(s, h), h), h)
  }

  lemma DoThrice(run: seq<Step>, n: nat, h: Hub)
    requires n + 3 <= |run| && run[n] == run[n + 1] == run[n + 2] == Do(h)
    ensures Run(run[..n + 3]) == Thrice(Run(run[..n]), h)
  {
    RunNext(run, n);
    RunNext(run, n + 1);
    RunNext(run, n + 2);
    hide Run, DoOne;
  }

  lemma RaceRun(h1: Hub, h2: Hub, x: Session, y: Session)
    requires h1 != h2 && x != y && x.chanID == y.chanID == 1
    ensures Run(Race(h1, h2, x, y)) == Thrice(Thrice(Raced(h1, h2, x, y), h1), h2)
  {
    var run := Race(h1, h2, x, y);
    assert run[..12] == run && |run| == 12;
    assert run[6] == run[7] == run[8] == Do(h1) && run[9] == run[10] == run[11] == Do(h2);
    BothSpawn(h1, h2, x, y);
    hide Run, Race, Raced, Thrice;
    DoThrice(run, 6, h1);
    DoThrice(run, 9, h2);
  }

  lemma BothList(h1: Hub, h2: Hub, x: Session, y: Session)
    requires h1 != h2 && x != y && x.chanID == y.chanID == 1
    ensures var s := Run(Race(h1, h2, x, y));
            && s.reg.ptys == map[1 := y] && s.reg.closed == {} && s.reg.kills == []
            && s.reg.handlers == map[h1 := map[0 := Control, 1 := OfPty(x)], h2 := map[0 := Control, 1 := OfPty(y)]]
            && s.busy == map[] && s.begun == {x, y}
  {
    RaceRun(h1, h2, x, y);
    FirstStarts(h1, h2, x, y);
    hide Run, Race, Raced, DoOne;
    StartThrough(Thrice(Raced(h1, h2, x, y), h1), h2, y);
    assert {x} + {y} == {x, y};
  }

  lemma FirstStarts(h1: Hub, h2: Hub, x: Session, y: Session)
    requires h1 != h2 && x != y && x.chanID == y.chanID == 1
    ensures var s := Thrice(Raced(h1, h2, x, y), h1);
            && s.reg.ptys == map[1 := x] && s.reg.closed == {} && s.reg.kills == []
            && s.reg.handlers == map[h1 := map[0 := Control, 1 := OfPty(x)], h2 := map[0 := Control]]
            && s.busy == map[h2 := Task(OpenPTY(1, Some(y)), Starting(y))] && s.begun == {x}
  {
    hide DoOne;
    StartThrough(Raced(h1, h2, x, y), h1, x);
  }

  /** The first one's session is lost: alive, running, and listed nowhere. If the first
      hub then closes the channel both sessions die; if the second one does, the lost one
      lives on. */
  lemma RacingOpensLoseOne(h1: Hub, h2: Hub, x: Session, y: Session)
    requires h1 != h2 && x != y && x.chanID == y.chanID == 1
    ensures var s := Run(Race(h1, h2, x, y));
            && s.busy == map[] && s.reg.ptys == map[1 := y] && Stray(s, x)
            && ClosePtyIn(s.reg, h1, 1).kills == [x, y]
            && ClosePtyIn(s.reg, h2, 1).kills == [y]
  {
    BothList(h1, h2, x, y);
    hide Run, ClosePtyIn;
    var s := Run(Race(h1, h2, x, y));
    ClosePtyKills(s.reg, h1, 1);
    ClosePtyKills(s.reg, h2, 1);
    assert [] + [x, y] == [x, y] && [x] + [y] == [x, y];
  }

  ghost predicate Able(s: World, h: Hub)
  {
    h in s.connected && 0 in HandlersOf(s.reg, h) && HandlersOf(s.reg, h)[0] == Control
  }

  /** No hub can find x in its table any more. */
  ghost predicate Beyond(s: World, x: Session)
  {
    && Stray(s, x)
    && (forall h | h in s.connected && Able(s, h) :: OwnEntry(s.reg, h, x.chanID) != Some(x))
    && (forall h | h in s.busy :: OwnEntry(s.reg, h, x.chanID) != Some(x))
    && (forall h | h in s.busy :: s.busy[h].at != Registering(x))
  }

  lemma BeyondDo(s: World, h: Hub, x: Session)
    requires Sound(s) && Beyond(s, x) && h in s.busy
    ensures Beyond(DoOne(s, h), x)
  {
    AtHand(s, h);
    DoOthers(s, h);
    StrayStep(s, Do(h), x);
    DoTables(s, h, x);
    hide DoOne, Stray, AllSorted, AllSane, OneStarter, Once, Own;
    var r := DoOne(s, h);
    forall g | g in r.busy
      ensures r.busy[g].at != Registering(x)
    {
      assert g != h ==> g in s.busy - {h} && r.busy[g] == s.busy[g];
    }
    forall g | (g in r.connected && Able(r, g)) || g in r.busy
      ensures OwnEntry(r.reg, g, x.chanID) != Some(x)
    {
      assert g != h && g in r.busy ==> g in s.busy - {h};
    }
  }

  lemma DoTables(s: World, h: Hub, x: Session)
    requires h in s.busy && Sane(s, s.busy[h]) && Own(s) && x in s.begun && !Shows(s.reg, x)
    requires s.busy[h].at != Registering(x)
    ensures var r := DoOne(s, h);
            && (h in r.busy ==> r.busy[h].at != Registering(x))
            && (forall g | g != h :: HandlersOf(r.reg, g) == HandlersOf(s.reg, g))
            && (OwnEntry(r.reg, h, x.chanID) == Some(x) ==> OwnEntry(s.reg, h, x.chanID) == Some(x))
  {
  }

  lemma BeyondStep(s: World, step: Step, x: Session)
    requires Sound(s) && Beyond(s, x)
    ensures Beyond(Apply(s, step), x)
  {
    match step
    case Connect(h) => ConnectBeyond(s, h, x);
    case Dispatch(h, f) => DispatchBeyond(s, h, f, x);
    case Do(h) =>
      if h in s.busy {
        BeyondDo(s, h, x);
      } else {
        DoIdle(s, h);
      }
    case _ => OthersBeyond(s, step, x);
  }

  lemma ConnectBeyond(s: World, h: Hub, x: Session)
    requires Sound(s) && Beyond(s, x)
    ensures Beyond(Apply(s, Step.Connect(h)), x)
  {
    hide DoOne, ConnectIn, Sound, Stray, Expected, OwnEntry;
    StrayStep(s, Step.Connect(h), x);
    if h !in s.reg.handlers {
      var r := Apply(s, Step.Connect(h));
      ConnectShape(s.reg, h);
      ConnectHides(s, h, x);
      SameEntry(r.reg, s.reg.(handlers := r.reg.handlers), h, x.chanID);
      forall g | g != h
        ensures OwnEntry(r.reg, g, x.chanID) == OwnEntry(s.reg, g, x.chanID)
        ensures Able(r, g) <==> Able(s, g)
      {
        SameEntry(r.reg, s.reg, g, x.chanID);
      }
      hide Able, HandlersOf;
      assert h !in s.busy || OwnEntry(s.reg, h, x.chanID) != Some(x);
    }
  }

  lemma SameEntry(r: Reg, r': Reg, h: Hub, ch: uint16)
    requires HandlersOf(r, h) == HandlersOf(r', h)
    ensures OwnEntry(r, h, ch) == OwnEntry(r', h, ch)
  {
  }

  lemma DispatchBeyond(s: World, h: Hub, f: CtlFrame, x: Session)
    requires Sound(s) && Beyond(s, x)
    ensures Beyond(Apply(s, Step.Dispatch(h, f)), x)
  {
    hide DoOne, Sound, Stray;
    StrayStep(s, Step.Dispatch(h, f), x);
    hide OwnEntry;
  }

  lemma OthersBeyond(s: World, step: Step, x: Session)
    requires Sound(s) && Beyond(s, x) && (step.HubClose? || step.Disconnect? || step.ProxyEnds?)
    ensures Beyond(Apply(s, step), x)
  {
    hide DoOne, Sound, Stray, OwnEntry, DetachIn;
    StrayStep(s, step, x);
    if step.Disconnect? {
      DetachedAll(s.reg);
    }
    var r := Apply(s, step);
    forall g
      ensures OwnEntry(r.reg, g, x.chanID) == OwnEntry(s.reg, g, x.chanID) || OwnEntry(r.reg, g, x.chanID) == None
      ensures Able(r, g) ==> Able(s, g)
    {
      FewerEntries(s, step, g, x.chanID);
    }
    hide Able, Apply;
  }

  lemma FewerEntries(s: World, step: Step, g: Hub, ch: uint16)
    requires step.HubClose? || step.Disconnect? || step.ProxyEnds?
    ensures var r := Apply(s, step);
            && (OwnEntry(r.reg, g, ch) == OwnEntry(s.reg, g, ch) || OwnEntry(r.reg, g, ch) == None)
            && (Able(r, g) ==> Able(s, g))
            && r.busy == s.busy && r.connected <= s.connected
  {
    DetachedAll(s.reg);
    hide DetachIn;
  }

  lemma ConnectHides(s: World, h: Hub, x: Session)
    requires Stray(s, x)
    ensures var e := Expected(s.reg.ptys, s.reg.proxies);
            OwnEntry(s.reg.(handlers := s.reg.handlers[h := e]), h, x.chanID) != Some(x)
  {
    ExpectedAt(s.reg.ptys, s.reg.proxies, x.chanID);
    hide Expected;
  }

  ghost function RunFrom(s: World, steps: seq<Step>): World
  {
    if steps == [] then s else Apply(RunFrom(s, steps[..|steps| - 1]), steps[|steps| - 1])
  }

  lemma {:induction false} BeyondForEver(s: World, later: seq<Step>, x: Session)
    requires Sound(s) && Beyond(s, x)
    ensures Sound(RunFrom(s, later)) && Beyond(RunFrom(s, later), x)
  {
    if later != [] {
      BeyondForEver(s, later[..|later| - 1], x);
      StepSound(RunFrom(s, later[..|later| - 1]), later[|later| - 1]);
      BeyondStep(RunFrom(s, later[..|later| - 1]), later[|later| - 1], x);
      hide Sound, Beyond, Apply;
    }
  }

  /** At rest, a lost session can still be killed exactly when some connected hub that
      takes frames has it in its table. Otherwise it lives for ever. */
  lemma LostForEverExactly(steps: seq<Step>, x: Session)
    requires Run(steps).busy == map[] && Stray(Run(steps), x)
    ensures var s := Run(steps);
            (exists later :: x in RunFrom(s, later).reg.closed)
            <==> exists h :: Able(s, h) && OwnEntry(s.reg, h, x.chanID) == Some(x)
  {
    RunSound(steps);
    hide Run;
    var s := Run(steps);
    if h :| Able(s, h) && OwnEntry(s.reg, h, x.chanID) == Some(x) {
      CanBeKilled(s, h, x);
    } else {
      assert Beyond(s, x);
      forall later
        ensures x !in RunFrom(s, later).reg.closed
      {
        BeyondForEver(s, later, x);
      }
    }
  }

  lemma CanBeKilled(s: World, h: Hub, x: Session)
    requires s.busy == map[] && Able(s, h) && OwnEntry(s.reg, h, x.chanID) == Some(x)
    ensures exists later :: x in RunFrom(s, later).reg.closed
  {
    var later := [Step.Dispatch(h, ClosePTY(x.chanID)), Do(h), Do(h)];
    ThreeSteps(s, later[0], later[1], later[2]);
    AskedAndDone(s, h, x);
    hide RunFrom, Apply;
    assert x in RunFrom(s, later).reg.closed;
  }

  lemma ThreeSteps(s: World, a: Step, b: Step, c: Step)
    ensures RunFrom(s, [a, b, c]) == Apply(Apply(Apply(s, a), b), c)
  {
    hide Apply;
    assert [a, b, c][..2] == [a, b] && [a, b][..1] == [a] && [a][..0] == [];
    assert RunFrom(s, [a]) == Apply(s, a);
    assert RunFrom(s, [a, b]) == Apply(Apply(s, a), b);
  }

  lemma AskedAndDone(s: World, h: Hub, x: Session)
    requires s.busy == map[] && Able(s, h) && OwnEntry(s.reg, h, x.chanID) == Some(x)
    ensures x in Apply(Apply(Apply(s, Step.Dispatch(h, ClosePTY(x.chanID))), Do(h)), Do(h)).reg.closed
  {
    var f := ClosePTY(x.chanID);
    var s1 := Apply(s, Step.Dispatch(h, f));
    assert s1 == s.(busy := map[h := Task(f, Unregistering)]);
    var s2 := Apply(s1, Do(h));
    assert s2.busy[h] == Task(f, ClosingOwn(OfPty(x)));
  }
}
