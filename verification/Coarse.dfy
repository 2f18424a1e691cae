/**
 Registry's histories are among those of ManyHubs: what it does in one step for a whole
 frame, the hubs do in four steps with nothing in between.
 */
module Coarse {
  import opened Prelude
  import opened Sessions
  import opened Routing
  import R = Registry
  import M = ManyHubs
  import P = Proxies

  /** Whatever is spawned or dialed is new and needed when its frame is handled. */
  ghost predicate Fitting(steps: seq<R.Step>)
  {
    steps != [] ==>
      var front, step := steps[..|steps| - 1], steps[|steps| - 1];
      && Fitting(front)
      && (step.Handle? && step.h in R.Run(front).inFlight ==> R.New(R.Run(front), R.Run(front).inFlight[step.h]))
  }

  /** The same state, told with tasks. */
  ghost predicate Alike(s: R.State, w: M.World)
  {
    && w.reg == s.reg && w.connected == s.connected && w.done == s.done
    && w.busy.Keys == s.inFlight.Keys
    && (forall h | h in s.inFlight :: w.busy[h] == M.Task(s.inFlight[h], M.First(s.inFlight[h])))
    && w.ever <= s.everPtys && w.everProxies <= s.everProxies
  }

  /** The steps of ManyHubs for one of Registry's. */
  function Fine(step: R.Step): seq<M.Step>
  {
    match step
    case Connect(h) => [M.Step.Connect(h)]
    case Dispatch(h, f) => [M.Step.Dispatch(h, f)]
    case Handle(h) => [M.Step.Do(h), M.Step.Do(h), M.Step.Do(h), M.Step.Do(h)]
    case HubClose(h) => [M.Step.HubClose(h)]
    case Disconnect(h) => [M.Step.Disconnect(h)]
    case ProxyEnds(p) => [M.Step.ProxyEnds(p)]
  }

  function FineAll(steps: seq<R.Step>): seq<M.Step>
  {
    if steps == [] then [] else FineAll(steps[..|steps| - 1]) + Fine(steps[|steps| - 1])
  }

  /** One step of a hub leaves the others alone and takes only what its frame brings. */
  lemma OnlyOwn(w: M.World, h: Hub, f: CtlFrame)
    requires h in w.busy ==> w.busy[h].f == f
    ensures var r := M.DoOne(w, h);
            && r.busy - {h} == w.busy - {h} && r.connected == w.connected && r.done == w.done
            && (h in r.busy ==> r.busy[h].f == f)
            && r.ever <= w.ever + Started(f) && r.everProxies <= w.everProxies + Dialed(f)
  {
  }

  lemma ThroughOwn(w: M.World, h: Hub, f: CtlFrame)
    requires h in w.busy ==> w.busy[h].f == f
    ensures var r := M.Through(w, h);
            && r.busy - {h} == w.busy - {h} && r.connected == w.connected && r.done == w.done
            && r.ever <= w.ever + Started(f) && r.everProxies <= w.everProxies + Dialed(f)
  {
    hide M.DoOne;
    var w1 := M.DoOne(w, h);
    var w2 := M.DoOne(w1, h);
    OnlyOwn(w, h, f);
    OnlyOwn(w1, h, f);
    OnlyOwn(w2, h, f);
    OnlyOwn(M.DoOne(w2, h), h, f);
  }

  lemma HandleAlike(s: R.State, w: M.World, h: Hub)
    requires Alike(s, w) && M.Own(w) && M.OwnProxies(w.reg)
    requires h in s.inFlight && R.New(s, s.inFlight[h])
    ensures Alike(R.Apply(s, R.Handle(h)), M.Through(w, h))
  {
    var f := s.inFlight[h];
    var before := w.(busy := w.busy - {h});
    AptAlone(s, before, f);
    M.Uninterrupted(before, h, f);
    assert before.busy[h := M.Task(f, M.First(f))] == w.busy;
    ThroughOwn(w, h, f);
    hide M.Through, M.Own, Effect, M.OwnProxies, M.Apt, R.New;
    var r := M.Through(w, h);
    forall g | g in r.busy
      ensures g != h && g in w.busy && r.busy[g] == w.busy[g]
    {
      assert g in r.busy - {h};
    }
    forall g | g in w.busy && g != h
      ensures g in r.busy
    {
      assert g in w.busy - {h};
    }
    assert r.busy.Keys == w.busy.Keys - {h};
  }

  lemma HandleOrNot(s: R.State, w: M.World, h: Hub)
    requires Alike(s, w) && M.Own(w) && M.OwnProxies(w.reg)
    requires h in s.inFlight ==> R.New(s, s.inFlight[h])
    ensures Alike(R.Apply(s, R.Handle(h)), M.Through(w, h))
  {
    hide M.Own, M.OwnProxies, R.New;
    if h in s.inFlight {
      HandleAlike(s, w, h);
    } else {
      hide M.DoOpen, M.DoOpenProxy, M.DoClose;
      assert h !in w.busy;
    }
  }

  lemma AptAlone(s: R.State, w: M.World, f: CtlFrame)
    requires w.reg == s.reg && w.ever <= s.everPtys && w.everProxies <= s.everProxies && R.New(s, f)
    ensures M.Apt(w, f)
  {
  }

  lemma OtherAlike(s: R.State, w: M.World, step: R.Step)
    requires Alike(s, w) && !step.Handle?
    ensures Alike(R.Apply(s, step), M.Apply(w, Fine(step)[0]))
  {
    hide ConnectIn, HandlersOf, DetachIn;
  }

  /** Every fitting history of Registry is a history of ManyHubs. */
  lemma {:induction false} CoarseIsFine(steps: seq<R.Step>)
    requires Fitting(steps)
    ensures Alike(R.Run(steps), M.Run(FineAll(steps)))
  {
    if steps != [] {
      var front, step := steps[..|steps| - 1], steps[|steps| - 1];
      CoarseIsFine(front);
      var s, fine := R.Run(front), FineAll(front);
      var w := M.Run(fine);
      hide R.Apply, M.Apply, M.Run, M.Through, Alike, R.New, M.Own, M.Once, M.AllSorted, M.AllSane, M.OneStarter,
        M.OwnProxies;
      if step.Handle? {
        P.FourTimes(fine, step.h);
        M.RunSound(fine);
        P.RunOwnProxies(fine);
        HandleOrNot(s, w, step.h);
      } else {
        M.RunSnoc(fine, Fine(step)[0]);
        OtherAlike(s, w, step);
      }
    }
  }
}
