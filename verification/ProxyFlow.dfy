/**
 Where the bytes of one port proxy go: readLoop of internal/server/proxy.go takes the hub
 under a lock and calls Send after releasing it, so Attach and Detach may come between.
 */
module ProxyFlow {
  import opened Prelude

  /** A read on its way to the hub that was attached when it was taken, if any. */
  datatype Held = Held(to: Option<nat>, data: seq<byte>)

  datatype Sent = Sent(to: nat, data: seq<byte>)

  datatype Flow = Flow(h: Option<nat>, held: Option<Held>, sent: seq<Sent>)

  datatype Step =
    | Attach(h: nat)
    | Detach
    | Take(data: seq<byte>)
    | PassOn

  function Apply(f: Flow, step: Step): Flow
  {
    match step
    case Attach(h) => f.(h := Some(h))
    case Detach => f.(h := None)
    case Take(data) => if f.held.Some? || data == [] then f else f.(held := Some(Held(f.h, data)))
    case PassOn =>
      if f.held.None? then f
      else
        var to := f.held.value.to;
        f.(held := None, sent := if to.Some? then f.sent + [Sent(to.value, f.held.value.data)] else f.sent)
  }

  function RunFrom(f: Flow, steps: seq<Step>): Flow
  {
    if steps == [] then f else Apply(RunFrom(f, steps[..|steps| - 1]), steps[|steps| - 1])
  }

  function SentTo(sent: seq<Sent>, k: nat): seq<seq<byte>>
  {
    if sent == [] then []
    else
      var last := sent[|sent| - 1];
      SentTo(sent[..|sent| - 1], k) + if last.to == k then [last.data] else []
  }

  lemma SentToGrows(sent: seq<Sent>, s: Sent, k: nat)
    ensures SentTo(sent + [s], k) == SentTo(sent, k) + if s.to == k then [s.data] else []
  {
    assert (sent + [s])[..|sent|] == sent;
  }

  predicate HeldFor(f: Flow, k: nat)
  {
    f.held.Some? && f.held.value.to == Some(k)
  }

  /** From f on, k was passed at most the read held for it, once that was passed on. */
  ghost predicate MovedOn(f: Flow, r: Flow, k: nat, passed: bool)
  {
    && r.h != Some(k)
    && SentTo(r.sent, k) == SentTo(f.sent, k) + (if HeldFor(f, k) && passed then [f.held.value.data] else [])
    && (HeldFor(r, k) <==> HeldFor(f, k) && !passed)
    && (HeldFor(r, k) ==> r.held == f.held)
  }

  lemma StepMovesOn(f: Flow, m: Flow, k: nat, passed: bool, step: Step)
    requires MovedOn(f, m, k, passed) && step != Attach(k)
    ensures MovedOn(f, Apply(m, step), k, passed || step == PassOn)
  {
    if step == PassOn && m.held.Some? && m.held.value.to.Some? {
      SentToGrows(m.sent, Sent(m.held.value.to.value, m.held.value.data), k);
    }
    hide SentTo;
  }

  /** A detached or replaced hub is passed nothing more, except the one read that was
      taken while it was attached, exactly when that read is passed on. */
  lemma {:induction false} DetachedGetsAtMostOne(f: Flow, later: seq<Step>, k: nat)
    requires f.h != Some(k) && Attach(k) !in later
    ensures MovedOn(f, RunFrom(f, later), k, PassOn in later)
  {
    if later != [] {
      var front, step := later[..|later| - 1], later[|later| - 1];
      assert later == front + [step];
      DetachedGetsAtMostOne(f, front, k);
      StepMovesOn(f, RunFrom(f, front), k, PassOn in front, step);
    }
  }

  lemma {:induction false} RunCons(f: Flow, step: Step, later: seq<Step>)
    ensures RunFrom(f, [step] + later) == RunFrom(Apply(f, step), later)
  {
    var all := [step] + later;
    if later == [] {
      assert all[..0] == [];
    } else {
      RunCons(f, step, later[..|later| - 1]);
      assert all[..|all| - 1] == [step] + later[..|later| - 1];
    }
  }

  /** Detach, and Attach to another hub, leave k just the read already taken for it. */
  lemma LeavingLeavesOneRead(f: Flow, leave: Step, later: seq<Step>, k: nat)
    requires leave == Detach || (leave.Attach? && leave.h != k)
    requires Attach(k) !in later
    ensures MovedOn(f, RunFrom(f, [leave] + later), k, PassOn in later)
  {
    RunCons(f, leave, later);
    DetachedGetsAtMostOne(Apply(f, leave), later, k);
  }

  /** The hub named by the latest Attach, or none after a Detach. */
  function LastHub(h: Option<nat>, steps: seq<Step>): Option<nat>
  {
    if steps == [] then h
    else
      match steps[|steps| - 1]
      case Attach(k) => Some(k)
      case Detach => None
      case _ => LastHub(h, steps[..|steps| - 1])
  }

  lemma {:induction false} HubIsLast(f: Flow, steps: seq<Step>)
    ensures RunFrom(f, steps).h == LastHub(f.h, steps)
  {
    if steps != [] {
      HubIsLast(f, steps[..|steps| - 1]);
    }
  }

  function Fresh(h: Option<nat>, ready: bool, step: Step): seq<Sent>
  {
    if step.Take? && ready && step.data != [] && h.Some? then [Sent(h.value, step.data)] else []
  }

  /** The reads taken while a hub was attached, in order, each with that hub. */
  function Taken(f: Flow, steps: seq<Step>): seq<Sent>
  {
    if steps == [] then []
    else
      var front := steps[..|steps| - 1];
      Taken(f, front) + Fresh(LastHub(f.h, front), RunFrom(f, front).held.None?, steps[|steps| - 1])
  }

  function InHand(f: Flow): seq<Sent>
  {
    if f.held.Some? && f.held.value.to.Some? then [Sent(f.held.value.to.value, f.held.value.data)] else []
  }

  /** Every read goes once and in order to the hub of the latest Attach when it was taken,
      or nowhere after a Detach: what was sent, with what is in hand, is what was taken. */
  lemma {:induction false} ReadsGoWhereTaken(f: Flow, steps: seq<Step>)
    requires f.held.None?
    ensures var r := RunFrom(f, steps);
            r.sent + InHand(r) == f.sent + Taken(f, steps)
  {
    if steps != [] {
      var front, step := steps[..|steps| - 1], steps[|steps| - 1];
      ReadsGoWhereTaken(f, front);
      HubIsLast(f, front);
      var m := RunFrom(f, front);
      var r, taken := Apply(m, step), Fresh(m.h, m.held.None?, step);
      assert r.sent + InHand(r) == m.sent + InHand(m) + taken;
      assert f.sent + (Taken(f, front) + taken) == f.sent + Taken(f, front) + taken;
    }
  }
}
