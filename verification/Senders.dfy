/**
 Which hub a PTY or a proxy sends to when any number of hubs come, handle frames and go.
 */
module Senders {
  import opened Prelude
  import opened Sessions
  import opened Routing
  import opened ManyHubs

  // ---------------------------------------------------------------------
  // Attaching and detaching

  datatype Source = Pty(x: Session) | Proxy(p: PortProxySession)

  function SendsTo(r: Reg, q: Source): Option<Hub>
  {
    match q
    case Pty(x) => if x in r.sender then Some(r.sender[x]) else None
    case Proxy(p) => if p in r.proxyHub then Some(r.proxyHub[p]) else None
  }

  predicate OnAList(r: Reg, q: Source)
  {
    match q
    case Pty(x) => x in r.ptys.Values
    case Proxy(p) => p in r.proxies.Values
  }

  /** The step gives q to its hub: Attach, dialing, or connecting with q listed. */
  predicate Attaches(s: World, step: Step, q: Source)
  {
    match step
    case Connect(h) => h !in s.reg.handlers && q.Proxy? && q.p in s.reg.proxies.Values
    case Do(h) =>
      h in s.busy
      && (match q
          case Pty(x) => s.busy[h].f.OpenPTY? && s.busy[h].at == Attaching(x)
          case Proxy(p) =>
            s.busy[h].f.OpenProxy?
            && (s.busy[h].at == Reattaching(p)
                || (s.busy[h].at.LookingUpProxy? && s.busy[h].f.dialed == Some(p) && WillDial(s, s.busy[h].f))))
    case _ => false
  }

  /** A disconnect, no matter whose, takes the hub from everything listed. */
  predicate Detaches(s: World, step: Step, q: Source)
  {
    Leaves(s, step) && OnAList(s.reg, q)
  }

  lemma SendsStep(s: World, step: Step, q: Source)
    ensures SendsTo(Apply(s, step).reg, q)
            == if Attaches(s, step, q) then Some(step.h) else if Detaches(s, step, q) then None else SendsTo(s.reg, q)
  {
    match step
    case Connect(h) =>
      if h !in s.reg.handlers {
        ConnectShape(s.reg, h);
        hide ConnectIn, SendAllTo, Expected;
      }
    case Do(h) => DoSends(s, h, q);
    case Disconnect(h) =>
    case _ =>
  }

  lemma DoSends(s: World, h: Hub, q: Source)
    ensures SendsTo(DoOne(s, h).reg, q) == if Attaches(s, Do(h), q) then Some(h) else SendsTo(s.reg, q)
  {
    hide DoClose, DoOpen, DoOpenProxy;
    if h in s.busy {
      match s.busy[h].f
      case OpenPTY(_, _) => OpenSends(s, h, q);
      case OpenProxy(_, _, _) => OpenProxySends(s, h, q);
      case ClosePTY(_) => CloseSends(s, h, q);
      case CloseProxy(_) => CloseSends(s, h, q);
    }
  }

  lemma OpenSends(s: World, h: Hub, q: Source)
    requires h in s.busy && s.busy[h].f.OpenPTY?
    ensures SendsTo(DoOpen(s, h).reg, q)
            == if q.Pty? && s.busy[h].at == Attaching(q.x) then Some(h) else SendsTo(s.reg, q)
  {
    hide HandlersOf;
  }

  lemma OpenProxySends(s: World, h: Hub, q: Source)
    requires h in s.busy && s.busy[h].f.OpenProxy?
    ensures SendsTo(DoOpenProxy(s, h).reg, q)
            == if q.Proxy? && (s.busy[h].at == Reattaching(q.p)
                               || (s.busy[h].at.LookingUpProxy? && s.busy[h].f.dialed == Some(q.p)
                                   && WillDial(s, s.busy[h].f)))
               then Some(h) else SendsTo(s.reg, q)
  {
    hide HandlersOf;
  }

  lemma CloseSends(s: World, h: Hub, q: Source)
    requires h in s.busy
    ensures SendsTo(DoClose(s, h).reg, q) == SendsTo(s.reg, q)
  {
    if s.busy[h].at.ClosingOwn? || s.busy[h].at.ClosingListed? {
      ClosedSends(s.reg, s.busy[h].at.hd);
    }
    hide HandlersOf, CloseHandlerIn;
  }

  lemma ClosedSends(r: Reg, hd: Handler)
    ensures CloseHandlerIn(r, hd).sender == r.sender && CloseHandlerIn(r, hd).proxyHub == r.proxyHub
  {
  }

  ghost predicate AttachedAt(steps: seq<Step>, q: Source, i: nat)
  {
    i < |steps| && Attaches(Run(steps[..i]), steps[i], q)
  }

  ghost predicate DetachedAt(steps: seq<Step>, q: Source, i: nat)
  {
    i < |steps| && Detaches(Run(steps[..i]), steps[i], q)
  }

  /** Among the first n steps, step i attaches q to g, none attaches it after that, and no
      hub at all has disconnected since while q was listed. */
  ghost predicate LastAttach(steps: seq<Step>, n: nat, q: Source, g: Hub, i: nat)
  {
    && i < n && AttachedAt(steps, q, i) && steps[i].h == g
    && forall j | i < j < n :: !AttachedAt(steps, q, j) && !DetachedAt(steps, q, j)
  }

  /** g was the last to attach it. */
  ghost predicate LastAttacher(steps: seq<Step>, n: nat, q: Source, g: Hub)
    requires n <= |steps|
  {
    exists i :: LastAttach(steps, n, q, g, i)
  }

  lemma LastAttachStep(steps: seq<Step>, n: nat, q: Source, g: Hub)
    requires 0 < n <= |steps|
    ensures var k := n - 1;
            LastAttacher(steps, n, q, g)
            <==> if AttachedAt(steps, q, k) then (steps[k].Connect? || steps[k].Do?) && steps[k].h == g
                 else !DetachedAt(steps, q, k) && LastAttacher(steps, k, q, g)
  {
    var k := n - 1;
    if AttachedAt(steps, q, k) {
      AttachedJustNow(steps, n, q, g);
    } else {
      forall i: nat
        ensures LastAttach(steps, n, q, g, i) <==> LastAttach(steps, k, q, g, i) && !DetachedAt(steps, q, k)
      {
        StillLast(steps, n, q, g, i);
      }
      hide AttachedAt, DetachedAt, LastAttach;
    }
  }

  lemma AttachedJustNow(steps: seq<Step>, n: nat, q: Source, g: Hub)
    requires 0 < n <= |steps| && AttachedAt(steps, q, n - 1)
    ensures steps[n - 1].Connect? || steps[n - 1].Do?
    ensures LastAttacher(steps, n, q, g) <==> steps[n - 1].h == g
  {
    assert steps[n - 1].Connect? || steps[n - 1].Do?;
    hide AttachedAt, DetachedAt;
    assert steps[n - 1].h == g ==> LastAttach(steps, n, q, g, n - 1);
    if i: nat :| LastAttach(steps, n, q, g, i) {
      assert i == n - 1;
    }
  }

  lemma StillLast(steps: seq<Step>, n: nat, q: Source, g: Hub, i: nat)
    requires 0 < n <= |steps| && !AttachedAt(steps, q, n - 1)
    ensures LastAttach(steps, n, q, g, i) <==> LastAttach(steps, n - 1, q, g, i) && !DetachedAt(steps, q, n - 1)
  {
    hide AttachedAt, DetachedAt;
  }

  /** In every run a PTY or proxy sends to g exactly when g was the last to attach it, with
      no disconnect of any hub since while it was listed. */
  lemma {:induction false} SendsToLastAttacher(steps: seq<Step>, n: nat, q: Source, g: Hub)
    requires n <= |steps|
    ensures SendsTo(Run(steps[..n]).reg, q) == Some(g) <==> LastAttacher(steps, n, q, g)
  {
    if n == 0 {
      assert steps[..0] == [];
    } else {
      var k, s := n - 1, Run(steps[..n - 1]);
      RunNext(steps, k);
      assert AttachedAt(steps, q, k) <==> Attaches(s, steps[k], q);
      assert DetachedAt(steps, q, k) <==> Detaches(s, steps[k], q);
      SendsStep(s, steps[k], q);
      LastAttachStep(steps, n, q, g);
      SendsToLastAttacher(steps, k, q, g);
      hide Run, Apply, LastAttacher, SendsTo, Attaches, Detaches, AttachedAt, DetachedAt;
    }
  }

  /** Whatever sent to g still does. */
  ghost predicate Spared(r: Reg, r': Reg, g: Hub)
  {
    && (forall x | x in r.ptys.Values && SendsTo(r, Pty(x)) == Some(g) :: SendsTo(r', Pty(x)) == Some(g))
    && (forall p | p in r.proxies.Values && SendsTo(r, Proxy(p)) == Some(g) :: SendsTo(r', Proxy(p)) == Some(g))
  }

  /** One browser leaves: nothing that is listed, whatever hub it was shown by, sends to
      anybody any more, and what is not listed goes on sending. So the browser at g keeps
      its terminals and proxies exactly when it was the last to attach none of them. */
  lemma DisconnectSparesExactly(steps: seq<Step>, h: Hub, g: Hub)
    requires Leaves(Run(steps), Step.Disconnect(h))
    ensures var r, r' := Run(steps).reg, Run(steps + [Step.Disconnect(h)]).reg;
            && r'.ptys == r.ptys && r'.proxies == r.proxies
            && (forall q :: SendsTo(r', q) == if OnAList(r, q) then None else SendsTo(r, q))
            && (Spared(r, r', g) <==> !exists q :: OnAList(r, q) && LastAttacher(steps, |steps|, q, g))
  {
    RunSnoc(steps, Step.Disconnect(h));
    assert steps[..|steps|] == steps;
    var r := Run(steps).reg;
    hide Run, DetachIn, LastAttacher, Spared;
    assert Run(steps + [Step.Disconnect(h)]).reg == DetachIn(r);
    hide Apply, Leaves;
    DetachSilences(r);
    if q :| OnAList(r, q) && LastAttacher(steps, |steps|, q, g) {
      SendsToLastAttacher(steps, |steps|, q, g);
      NotSpared(r, DetachIn(r), g, q);
    } else {
      forall q | OnAList(r, q)
        ensures SendsTo(r, q) != Some(g)
      {
        SendsToLastAttacher(steps, |steps|, q, g);
      }
      AllSpared(r, DetachIn(r), g);
    }
  }

  lemma NotSpared(r: Reg, r': Reg, g: Hub, q: Source)
    requires OnAList(r, q) && SendsTo(r, q) == Some(g) && SendsTo(r', q) == None
    ensures !Spared(r, r', g)
  {
  }

  lemma AllSpared(r: Reg, r': Reg, g: Hub)
    requires forall q | OnAList(r, q) :: SendsTo(r, q) != Some(g)
    ensures Spared(r, r', g)
  {
    forall x | x in r.ptys.Values
      ensures SendsTo(r, Pty(x)) != Some(g)
    {
      assert OnAList(r, Pty(x));
    }
    forall p | p in r.proxies.Values
      ensures SendsTo(r, Proxy(p)) != Some(g)
    {
      assert OnAList(r, Proxy(p));
    }
    hide SendsTo, OnAList;
  }

  lemma DetachSilences(r: Reg)
    ensures DetachIn(r).ptys == r.ptys && DetachIn(r).proxies == r.proxies
    ensures forall q :: SendsTo(DetachIn(r), q) == if OnAList(r, q) then None else SendsTo(r, q)
  {
  }
}
