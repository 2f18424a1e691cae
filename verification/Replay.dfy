/**
 One PTY session, every hub it is ever attached to, and the browsers behind
 them: internal/pty/session.go on top of the hub's queue and the frame codec.

 senderMu is the lock: Attach and the reader hold it from the moment they touch
 the ring until their call of Send returns, and that call is two steps of the
 hub's machine. Steps of the hub that belong to other goroutines, the writer or
 Close may come at any point.
 */
module Replay {
  import opened Prelude
  import opened Codec
  import opened Protocol
  import opened HubFifo

  const RING_CAP: nat := 0x10_0000 // DefaultRingCap
  const READ_SIZE: nat := 4096     // the reader's buffer
  const SESSION: nat := 0          // the goroutine that holds senderMu

  datatype Lock =
    | Free
    | InAttach(h: nat, data: seq<byte>) // sending the replay
    | InOutput(h: nat, data: seq<byte>) // forwarding one read

  /** History of the latest Attach to a hub: the length of that hub's call log
      and of the output at that moment, and the output passed on so far. */
  datatype Attachment = Attachment(logBase: nat, at: nat, upTo: nat)

  datatype Sys = Sys(
    chan: uint16,
    produced: seq<byte>, // everything the PTY ever produced
    ring: seq<byte>,
    sender: Option<nat>,
    lock: Lock,
    hubs: map<nat, HubState>,
    att: map<nat, Attachment>
  )

  datatype SysStep =
    | Connect(h: nat)
    | Attach(h: nat)
    | Detach
    | Output(data: seq<byte>)
    | Select(preferDone: bool)
    | OfHub(h: nat, step: HubFifo.Step)

  function Init(chan: uint16): Sys
  {
    Sys(chan, [], [], None, Free, map[], map[])
  }

  predicate IsData(f: Frame, c: uint16)
  {
    f.typ == FRAME_DATA && f.chanID == c
  }

  /** A call of this session's own. */
  predicate Mine(call: Call, c: uint16)
  {
    call.sender == SESSION && IsData(call.frame, c)
  }

  /** Nothing else sent data on the channel. */
  predicate Alone(log: seq<Call>, c: uint16)
  {
    forall i | 0 <= i < |log| :: IsData(log[i].frame, c) ==> Mine(log[i], c)
  }

  /** The oldest byte a replay of the first n bytes still holds. */
  function ReplayStart(n: nat): (k: nat)
    ensures k <= n
  {
    if n <= RING_CAP then 0 else n - RING_CAP
  }

  /** A hub step that is not this session's: any other goroutine's frame, on whatever
      channel, the writer, Close. */
  predicate Foreign(step: HubFifo.Step)
  {
    match step
    case SendCheck(g, _) => g != SESSION
    case SendSelect(g, _) => g != SESSION
    case _ => true
  }

  /** The call of Send returns: Attach installs its sender, senderMu is released. */
  function Release(s: Sys, lock: Lock): Sys
    requires !lock.Free? && lock.h in s.att
  {
    s.(lock := Free,
       sender := if lock.InAttach? then Some(lock.h) else s.sender,
       att := s.att[lock.h := s.att[lock.h].(upTo := |s.produced|)])
  }

  /** The first select of Send; a closed hub ends the call at once. */
  function BeginSend(s: Sys, lock: Lock): Sys
    requires !lock.Free? && lock.h in s.att && lock.h in s.hubs
  {
    var hub := Next(s.hubs[lock.h], SendCheck(SESSION, Frame(FRAME_DATA, s.chan, lock.data)));
    var s1 := s.(hubs := s.hubs[lock.h := hub]);
    if SESSION in hub.sending then s1.(lock := lock) else Release(s1, lock)
  }

  function Apply(s: Sys, step: SysStep): Sys
  {
    match step
    case Connect(h) =>
      if h in s.hubs then s else s.(hubs := s.hubs[h := NEW_HUB])
    case Attach(h) =>
      if !s.lock.Free? || h !in s.hubs then s
      else
        var n := |s.produced|;
        var s1 := s.(att := s.att[h := Attachment(|s.hubs[h].log|, n, ReplayStart(n))]);
        if s.ring == [] then s1.(sender := Some(h)) else BeginSend(s1, InAttach(h, s.ring))
    case Detach =>
      if s.lock.Free? then s.(sender := None) else s
    case Output(data) =>
      if !s.lock.Free? || !(0 < |data| <= READ_SIZE) then s
      else
        var s1 := s.(produced := s.produced + data, ring := LastN(s.ring + data, RING_CAP));
        if s.sender.None? || s.sender.value !in s.att || s.sender.value !in s.hubs then s1
        else BeginSend(s1, InOutput(s.sender.value, data))
    case Select(preferDone) =>
      if s.lock.Free? || s.lock.h !in s.att || s.lock.h !in s.hubs then s
      else
        Release(s.(hubs := s.hubs[s.lock.h := Next(s.hubs[s.lock.h], SendSelect(SESSION, preferDone))]), s.lock)
    case OfHub(h, st) =>
      if h in s.hubs && Foreign(st) then s.(hubs := s.hubs[h := Next(s.hubs[h], st)]) else s
  }

  function RunSys(chan: uint16, steps: seq<SysStep>): Sys
  {
    if steps == [] then Init(chan)
    else Apply(RunSys(chan, steps[..|steps| - 1]), steps[|steps| - 1])
  }

  // ---------------------------------------------------------------------
  // What was sent and what arrives

  /** Payloads this session passed to Send, whatever became of them. */
  function DataSent(log: seq<Call>, c: uint16): seq<seq<byte>>
  {
    if log == [] then []
    else
      var last := log[|log| - 1];
      DataSent(log[..|log| - 1], c) + if Mine(last, c) then [last.frame.payload] else []
  }

  /** Those of them that entered the hub's queue. */
  function DataQueued(log: seq<Call>, c: uint16): seq<seq<byte>>
  {
    if log == [] then []
    else
      var last := log[|log| - 1];
      DataQueued(log[..|log| - 1], c)
      + if Mine(last, c) && last.outcome == Enqueued then [last.frame.payload] else []
  }

  /** The payloads a browser hands to the terminal of channel c. */
  function DataReceived(wire: seq<Msg>, c: uint16): seq<seq<byte>>
  {
    if wire == [] then []
    else
      var r := DecodeFrame(wire[|wire| - 1]);
      DataReceived(wire[..|wire| - 1], c)
      + if r.Success? && IsData(r.value, c) then [r.value.payload] else []
  }

  predicate SmallData(log: seq<Call>, c: uint16)
  {
    forall i | 0 <= i < |log| :: Mine(log[i], c) ==> |log[i].frame.payload| <= RING_CAP
  }

  lemma DataSnoc(log: seq<Call>, last: Call, c: uint16)
    ensures DataSent(log + [last], c)
            == DataSent(log, c) + if Mine(last, c) then [last.frame.payload] else []
    ensures DataQueued(log + [last], c)
            == DataQueued(log, c)
               + if Mine(last, c) && last.outcome == Enqueued then [last.frame.payload] else []
  {
    assert (log + [last])[..|log|] == log;
  }

  lemma {:induction false} DataReceivedAppend(a: seq<Msg>, b: seq<Msg>, c: uint16)
    ensures DataReceived(a + b, c) == DataReceived(a, c) + DataReceived(b, c)
  {
    hide DecodeFrame;
    if b == [] {
      assert a + b == a;
    } else {
      DataReceivedAppend(a, b[..|b| - 1], c);
      assert (a + b)[..|a + b| - 1] == a + b[..|b| - 1];
    }
  }

  /** Queued payloads come out of the browser's decoder unchanged. */
  lemma {:induction false} QueuedIsReceived(log: seq<Call>, c: uint16)
    requires SmallData(log, c) && Alone(log, c)
    ensures DataReceived(EnqueueLog(log), c) == DataQueued(log, c)
  {
    hide DecodeFrame, Encode;
    if log != [] {
      var front, last := log[..|log| - 1], log[|log| - 1];
      QueuedIsReceived(front, c);
      BrowserReadsEveryMessage(last.frame);
      var before, m := EnqueueLog(front), Encode(last.frame);
      assert (before + [m])[..|before|] == before;
      assert before + [] == before;
    }
  }

  lemma {:induction false} QueuedInOrder(log: seq<Call>, c: uint16)
    ensures Subsequence(DataQueued(log, c), DataSent(log, c))
  {
    if log != [] {
      var front, last := log[..|log| - 1], log[|log| - 1];
      QueuedInOrder(front, c);
      SubsequenceSnoc(DataQueued(front, c), DataSent(front, c), last.frame.payload);
      assert DataQueued(front, c) + [] == DataQueued(front, c);
      assert DataSent(front, c) + [] == DataSent(front, c);
    }
  }

  /** No call of this session in the log was dropped or rejected. */
  predicate NothingLost(log: seq<Call>, c: uint16)
  {
    forall i | 0 <= i < |log| :: Mine(log[i], c) ==> log[i].outcome == Enqueued
  }

  lemma {:induction false} QueuedEverything(log: seq<Call>, c: uint16)
    requires NothingLost(log, c)
    ensures DataQueued(log, c) == DataSent(log, c)
  {
    if log != [] {
      assert log[|log| - 1].frame == log[|log| - 1].frame;
      QueuedEverything(log[..|log| - 1], c);
    }
  }

  lemma {:induction false} EnqueueLogAppend(a: seq<Call>, b: seq<Call>)
    ensures EnqueueLog(a + b) == EnqueueLog(a) + EnqueueLog(b)
  {
    hide Encode;
    if b == [] {
      assert a + b == a;
    } else {
      EnqueueLogAppend(a, b[..|b| - 1]);
      assert (a + b)[..|a + b| - 1] == a + b[..|b| - 1];
    }
  }

  // ---------------------------------------------------------------------
  // The invariant

  ghost predicate HubOk(c: uint16, lock: Lock, h: nat, hub: HubState)
  {
    && Conserved(hub)
    && SmallData(hub.log, c)
    && (SESSION in hub.sending <==> !lock.Free? && lock.h == h)
    && (SESSION in hub.sending ==> hub.sending[SESSION] == Frame(FRAME_DATA, c, lock.data))
  }

  /** Passed to hub since its latest Attach: the output from the oldest byte of
      the replay up to a.upTo, once each and in order. */
  ghost predicate Covered(produced: seq<byte>, c: uint16, hub: HubState, a: Attachment)
  {
    && a.logBase <= |hub.log|
    && a.at <= |produced|
    && ReplayStart(a.at) <= a.upTo <= |produced|
    && Concat(DataSent(hub.log[a.logBase..], c)) == produced[ReplayStart(a.at)..a.upTo]
  }

  ghost predicate LockOk(s: Sys)
  {
    && (s.sender.Some? ==> s.sender.value in s.att)
    && (s.lock.Free? && s.sender.Some? ==> s.att[s.sender.value].upTo == |s.produced|)
    && (!s.lock.Free? ==>
          && s.lock.h in s.att
          && |s.lock.data| <= RING_CAP
          && s.att[s.lock.h].upTo <= |s.produced|
          && s.lock.data == s.produced[s.att[s.lock.h].upTo..])
    && (s.lock.InOutput? ==> s.sender == Some(s.lock.h))
  }

  ghost predicate Inv(s: Sys)
  {
    && s.ring == LastN(s.produced, RING_CAP)
    && s.att.Keys <= s.hubs.Keys
    && (forall h | h in s.hubs :: HubOk(s.chan, s.lock, h, s.hubs[h]))
    && (forall h | h in s.att :: Covered(s.produced, s.chan, s.hubs[h], s.att[h]))
    && LockOk(s)
  }

  /** A hub's own steps never add to this session's calls. */
  lemma ForeignStep(c: uint16, lock: Lock, h: nat, hub: HubState, st: HubFifo.Step)
    requires HubOk(c, lock, h, hub) && Foreign(st)
    ensures var hub' := Next(hub, st);
            && HubOk(c, lock, h, hub')
            && (hub'.log == hub.log
                || exists last: Call :: !Mine(last, c) && hub'.log == hub.log + [last])
  {
    hide Encode, Conserved;
    StepConserves(hub, st);
    var hub' := Next(hub, st);
    if hub'.log != hub.log {
      var last := hub'.log[|hub.log|];
      assert !Mine(last, c) && hub'.log == hub.log + [last];
    }
  }

  lemma ForeignKeepsSent(c: uint16, log: seq<Call>, log': seq<Call>, k: nat)
    requires log' == log || exists last: Call :: !Mine(last, c) && log' == log + [last]
    requires k <= |log|
    ensures k <= |log'| && DataSent(log'[k..], c) == DataSent(log[k..], c)
  {
    if log' != log {
      var last: Call :| !Mine(last, c) && log' == log + [last];
      assert log'[k..] == log[k..] + [last];
      DataSnoc(log[k..], last, c);
    }
  }

  /** A finished call of this session covers the bytes it carried. */
  lemma CallCovers(produced: seq<byte>, c: uint16, hub: HubState, hub': HubState, a: Attachment, call: Call)
    requires Covered(produced, c, hub, a)
    requires hub'.log == hub.log + [call]
    requires call.frame == Frame(FRAME_DATA, c, produced[a.upTo..]) && call.sender == SESSION
    ensures Covered(produced, c, hub', a.(upTo := |produced|))
  {
    hide DataSent, DataQueued, Concat, ReplayStart;
    assert hub'.log[a.logBase..] == hub.log[a.logBase..] + [call];
    DataSnoc(hub.log[a.logBase..], call, c);
    ConcatSnoc(DataSent(hub.log[a.logBase..], c), call.frame.payload);
    var k := ReplayStart(a.at);
    assert produced[k..a.upTo] + produced[a.upTo..] == produced[k..];
  }

  lemma BeginSendKeepsInv(s: Sys, lock: Lock)
    requires s.lock.Free? && !lock.Free? && lock.h in s.att && lock.h in s.hubs
    requires |lock.data| <= RING_CAP
    requires s.att[lock.h].upTo <= |s.produced| && lock.data == s.produced[s.att[lock.h].upTo..]
    requires lock.InOutput? ==> s.sender == Some(lock.h)
    requires Inv(s.(sender := None))
    requires s.sender.Some? ==> s.sender.value in s.att
    requires lock.InAttach? && s.sender.Some? && s.sender.value != lock.h ==>
               s.att[s.sender.value].upTo == |s.produced|
    ensures Inv(BeginSend(s, lock))
  {
    hide Encode, EnqueueLog, Count, DataSent, Concat, Conserved, Covered;
    var f := Frame(FRAME_DATA, s.chan, lock.data);
    var hub := s.hubs[lock.h];
    var hub' := Next(hub, SendCheck(SESSION, f));
    assert HubOk(s.chan, Free, lock.h, hub);
    StepConserves(hub, SendCheck(SESSION, f));
    if hub.done {
      RejectedCovers(s.produced, s.chan, hub, s.att[lock.h], lock.data);
      assert HubOk(s.chan, Free, lock.h, hub');
    } else {
      assert HubOk(s.chan, lock, lock.h, hub');
      assert forall a | Covered(s.produced, s.chan, hub, a) :: Covered(s.produced, s.chan, hub', a) by {
        SameLogCovers(s.produced, s.chan, hub, hub');
      }
      forall h | h in s.hubs && h != lock.h
        ensures HubOk(s.chan, lock, h, s.hubs[h])
      {
        assert HubOk(s.chan, Free, h, s.hubs[h]);
      }
    }
  }

  lemma SameLogCovers(produced: seq<byte>, c: uint16, hub: HubState, hub': HubState)
    requires hub'.log == hub.log
    ensures forall a | Covered(produced, c, hub, a) :: Covered(produced, c, hub', a)
  {
  }

  lemma RejectedCovers(produced: seq<byte>, c: uint16, hub: HubState, a: Attachment, data: seq<byte>)
    requires hub.done && Covered(produced, c, hub, a) && a.upTo <= |produced| && data == produced[a.upTo..]
    requires SESSION !in hub.sending
    ensures var hub' := Next(hub, SendCheck(SESSION, Frame(FRAME_DATA, c, data)));
            Covered(produced, c, hub', a.(upTo := |produced|))
  {
    hide Encode, DataSent, Concat, Covered;
    var f := Frame(FRAME_DATA, c, data);
    CallCovers(produced, c, hub, Next(hub, SendCheck(SESSION, f)), a, Call(SESSION, f, Rejected));
  }

  /** A fresh attachment covers nothing: nothing was passed on yet. */
  lemma FreshCovers(produced: seq<byte>, c: uint16, hub: HubState)
    ensures var n := |produced|;
            Covered(produced, c, hub, Attachment(|hub.log|, n, ReplayStart(n)))
  {
    assert hub.log[|hub.log|..] == [];
    var k := ReplayStart(|produced|);
    assert produced[k..k] == [];
  }

  lemma AttachKeepsInv(s: Sys, h: nat)
    requires Inv(s)
    ensures Inv(Apply(s, Attach(h)))
  {
    hide Encode, EnqueueLog, Count, Conserved, HubOk, Covered;
    if s.lock.Free? && h in s.hubs {
      var n := |s.produced|;
      var s1 := s.(att := s.att[h := Attachment(|s.hubs[h].log|, n, ReplayStart(n))]);
      FreshCovers(s.produced, s.chan, s.hubs[h]);
      assert s.ring == s.produced[ReplayStart(n)..];
      if s.ring != [] {
        BeginSendKeepsInv(s1, InAttach(h, s.ring));
      }
    }
  }

  lemma OutputKeepsInv(s: Sys, data: seq<byte>)
    requires Inv(s)
    ensures Inv(Apply(s, Output(data)))
  {
    hide Encode, EnqueueLog, Count, DataSent, Concat, Conserved;
    if s.lock.Free? && 0 < |data| <= READ_SIZE {
      var s1 := s.(produced := s.produced + data, ring := LastN(s.ring + data, RING_CAP));
      LastNAppend(s.produced, data, RING_CAP);
      forall h | h in s.att
        ensures Covered(s1.produced, s.chan, s.hubs[h], s.att[h])
      {
        var k, n := ReplayStart(s.att[h].at), s.att[h].upTo;
        assert s1.produced[k..n] == s.produced[k..n];
      }
      if s.sender.Some? {
        BeginSendKeepsInv(s1, InOutput(s.sender.value, data));
      }
    }
  }

  lemma SelectKeepsInv(s: Sys, preferDone: bool)
    requires Inv(s)
    ensures Inv(Apply(s, Select(preferDone)))
  {
    hide Encode, EnqueueLog, Count, DataSent, Concat, Conserved, Covered;
    if !s.lock.Free? {
      var h := s.lock.h;
      var hub := s.hubs[h];
      var st := SendSelect(SESSION, preferDone);
      assert HubOk(s.chan, s.lock, h, hub);
      StepConserves(hub, st);
      var call := Call(SESSION, hub.sending[SESSION], SelectOutcome(hub, preferDone));
      CallCovers(s.produced, s.chan, hub, Next(hub, st), s.att[h], call);
      assert HubOk(s.chan, Free, h, Next(hub, st));
      forall g | g in s.hubs && g != h
        ensures HubOk(s.chan, Free, g, s.hubs[g])
      {
        assert HubOk(s.chan, s.lock, g, s.hubs[g]);
      }
    }
  }

  lemma StepKeepsInv(s: Sys, step: SysStep)
    requires Inv(s)
    ensures Inv(Apply(s, step))
  {
    hide Encode, EnqueueLog, Count, DataSent, Concat, Conserved;
    match step
    case Connect(h) =>
      if h !in s.hubs {
        assert HubOk(s.chan, s.lock, h, NEW_HUB) by {
          RunConserves([]);
        }
      }
    case Attach(h) => AttachKeepsInv(s, h);
    case Detach =>
    case Output(data) => OutputKeepsInv(s, data);
    case Select(preferDone) => SelectKeepsInv(s, preferDone);
    case OfHub(h, st) =>
      if h in s.hubs && Foreign(st) {
        ForeignStep(s.chan, s.lock, h, s.hubs[h], st);
        if h in s.att {
          assert Covered(s.produced, s.chan, s.hubs[h], s.att[h]);
          ForeignKeepsSent(s.chan, s.hubs[h].log, Next(s.hubs[h], st).log, s.att[h].logBase);
        }
      }
  }

  lemma {:induction false} RunKeepsInv(chan: uint16, steps: seq<SysStep>)
    ensures Inv(RunSys(chan, steps))
  {
    if steps != [] {
      RunKeepsInv(chan, steps[..|steps| - 1]);
      StepKeepsInv(RunSys(chan, steps[..|steps| - 1]), steps[|steps| - 1]);
    }
  }

  lemma RunSnoc(chan: uint16, steps: seq<SysStep>, step: SysStep)
    ensures RunSys(chan, steps + [step]) == Apply(RunSys(chan, steps), step)
  {
    assert (steps + [step])[..|steps|] == steps;
  }

  // ---------------------------------------------------------------------
  // Main results

  /** No gap, no duplicate. In every run, what was passed to a hub since its
      latest Attach is the replay (the last 2^20 bytes at that moment) followed
      by every byte produced until now, or until that hub stopped being the
      sender. */
  lemma Handover(chan: uint16, steps: seq<SysStep>, h: nat)
    requires h in RunSys(chan, steps).att
    ensures var s := RunSys(chan, steps);
            var a := s.att[h];
            && h in s.hubs && a.logBase <= |s.hubs[h].log| && a.at <= |s.produced|
            && ReplayStart(a.at) <= a.upTo <= |s.produced|
            && Concat(DataSent(s.hubs[h].log[a.logBase..], chan))
               == s.produced[ReplayStart(a.at)..a.upTo]
            && (s.lock.Free? && s.sender == Some(h) ==>
                  Concat(DataSent(s.hubs[h].log[a.logBase..], chan))
                  == LastN(s.produced[..a.at], RING_CAP) + s.produced[a.at..])
  {
    hide Encode, EnqueueLog, Count, DataSent, Concat, Conserved, HubOk, LastN, ReplayStart, RunSys;
    RunKeepsInv(chan, steps);
    ChanFixed(chan, steps);
    var s := RunSys(chan, steps);
    var a := s.att[h];
    assert Covered(s.produced, s.chan, s.hubs[h], a);
    ReplayThenLive(s.produced, a.at);
  }

  lemma ReplayThenLive(produced: seq<byte>, at: nat)
    requires at <= |produced|
    ensures produced[ReplayStart(at)..|produced|] == LastN(produced[..at], RING_CAP) + produced[at..]
  {
    var k := ReplayStart(at);
    assert LastN(produced[..at], RING_CAP) == produced[k..at];
    assert produced[k..at] + produced[at..] == produced[k..];
  }

  lemma {:induction false} ChanFixed(chan: uint16, steps: seq<SysStep>)
    ensures RunSys(chan, steps).chan == chan
  {
    if steps != [] {
      ChanFixed(chan, steps[..|steps| - 1]);
    }
  }

  /** The session is done with h: it neither sends to it nor is about to. */
  predicate Past(s: Sys, h: nat)
  {
    h in s.hubs && if s.lock.Free? then s.sender != Some(h) else s.lock.h != h
  }

  lemma PastStep(s: Sys, h: nat, step: SysStep)
    requires Inv(s) && Past(s, h) && step != Attach(h)
    ensures var s' := Apply(s, step);
            Past(s', h) && DataSent(s'.hubs[h].log, s.chan) == DataSent(s.hubs[h].log, s.chan)
  {
    hide Encode, EnqueueLog, Count, DataSent, Concat, Conserved, Covered;
    match step
    case OfHub(g, st) =>
      if g == h && Foreign(st) {
        ForeignStep(s.chan, s.lock, h, s.hubs[h], st);
        ForeignKeepsSent(s.chan, s.hubs[h].log, Next(s.hubs[h], st).log, 0);
        assert s.hubs[h].log[0..] == s.hubs[h].log;
        assert Next(s.hubs[h], st).log[0..] == Next(s.hubs[h], st).log;
      }
    case _ =>
  }

  /** Once past, h is passed nothing more in any run that does not attach it again. */
  lemma {:induction false} DetachedGetsNothing(chan: uint16, steps: seq<SysStep>, later: seq<SysStep>, h: nat)
    requires Past(RunSys(chan, steps), h) && Attach(h) !in later
    ensures var s, s' := RunSys(chan, steps), RunSys(chan, steps + later);
            Past(s', h) && DataSent(s'.hubs[h].log, chan) == DataSent(s.hubs[h].log, chan)
  {
    hide Past, DataSent, RunSys, Apply, Inv;
    if later == [] {
      assert steps + later == steps;
    } else {
      var n := |later| - 1;
      assert later[n] in later && forall x | x in later[..n] :: x in later;
      DetachedGetsNothing(chan, steps, later[..n], h);
      assert steps + later == steps + later[..n] + [later[n]];
      RunSnoc(chan, steps + later[..n], later[n]);
      RunKeepsInv(chan, steps + later[..n]);
      ChanFixed(chan, steps + later[..n]);
      PastStep(RunSys(chan, steps + later[..n]), h, later[n]);
    }
  }

  /** One read of one byte reaches the hub the session sends to. */
  lemma SenderGetsMore(s: Sys, h: nat)
    requires Inv(s) && h in s.hubs && !Past(s, h)
    ensures var more := if s.lock.Free? then Apply(Apply(s, Output([0])), Select(false)) else Apply(s, Select(false));
            h in more.hubs && |DataSent(more.hubs[h].log, s.chan)| > |DataSent(s.hubs[h].log, s.chan)|
  {
    hide Encode, EnqueueLog, Count, DataSent, Concat, Conserved, Covered, LastN;
    var hub := s.hubs[h];
    assert HubOk(s.chan, s.lock, h, hub);
    var data := if s.lock.Free? then [0] else s.lock.data;
    var f := Frame(FRAME_DATA, s.chan, data);
    forall o
      ensures |DataSent(hub.log + [Call(SESSION, f, o)], s.chan)| > |DataSent(hub.log, s.chan)|
    {
      DataSnoc(hub.log, Call(SESSION, f, o), s.chan);
    }
  }

  /** Nothing more is ever passed to h without another Attach to it. */
  ghost predicate Silent(chan: uint16, steps: seq<SysStep>, h: nat)
    requires h in RunSys(chan, steps).hubs
  {
    forall later: seq<SysStep> | Attach(h) !in later ::
      var s, s' := RunSys(chan, steps), RunSys(chan, steps + later);
      h in s'.hubs && DataSent(s'.hubs[h].log, chan) == DataSent(s.hubs[h].log, chan)
  }

  /** That holds exactly when the lock is free and h is not the sender, or the lock is
      held for another hub. */
  lemma SilentExactly(chan: uint16, steps: seq<SysStep>, h: nat)
    requires h in RunSys(chan, steps).hubs
    ensures Silent(chan, steps, h) <==> Past(RunSys(chan, steps), h)
  {
    hide DataSent, RunSys, Apply, Inv;
    var s := RunSys(chan, steps);
    if Past(s, h) {
      forall later: seq<SysStep> | Attach(h) !in later
        ensures var s' := RunSys(chan, steps + later);
                h in s'.hubs && DataSent(s'.hubs[h].log, chan) == DataSent(s.hubs[h].log, chan)
      {
        DetachedGetsNothing(chan, steps, later, h);
      }
    } else {
      RunKeepsInv(chan, steps);
      ChanFixed(chan, steps);
      SenderGetsMore(s, h);
      RunSnoc(chan, steps, Select(false));
      RunSnoc(chan, steps, Output([0]));
      RunSnoc(chan, steps + [Output([0])], Select(false));
      assert steps + [Output([0])] + [Select(false)] == steps + [Output([0]), Select(false)];
      var later := if s.lock.Free? then [Output([0]), Select(false)] else [Select(false)];
      assert Attach(h) !in later;
    }
  }

  /** Detach, and Attach to another hub, end the output of the hub that had it: in every
      continuation that does not attach it again it is passed nothing more. */
  lemma DetachEndsOutput(chan: uint16, steps: seq<SysStep>, leave: SysStep, later: seq<SysStep>, h: nat)
    requires RunSys(chan, steps).lock.Free? && h in RunSys(chan, steps).hubs
    requires leave == Detach || (leave.Attach? && leave.h != h && leave.h in RunSys(chan, steps).hubs)
    requires Attach(h) !in later
    ensures var s, s' := RunSys(chan, steps), RunSys(chan, steps + [leave] + later);
            h in s'.hubs && DataSent(s'.hubs[h].log, chan) == DataSent(s.hubs[h].log, chan)
  {
    hide Encode, DataSent, RunSys;
    RunSnoc(chan, steps, leave);
    DetachedGetsNothing(chan, steps + [leave], later, h);
  }

  /** The call of Attach to h that began in s, as other goroutines run. */
  ghost predicate Attaching(s: Sys, s': Sys, h: nat)
    requires h in s.hubs
  {
    && h in s'.att && s'.produced == s.produced
    && s'.att[h].logBase == |s.hubs[h].log| && s'.att[h].at == |s.produced|
    && if s'.lock.Free? then s'.sender == Some(h) else s'.lock.InAttach? && s'.lock.h == h
  }

  /** Connections being made and hubs at work: what does not wait for the session's lock. */
  predicate Bystander(step: SysStep)
  {
    step.OfHub? || step.Connect?
  }

  lemma {:induction false} AttachUnderWay(chan: uint16, steps: seq<SysStep>, h: nat, others: seq<SysStep>)
    requires RunSys(chan, steps).lock.Free? && h in RunSys(chan, steps).hubs
    requires forall x | x in others :: Bystander(x)
    ensures Attaching(RunSys(chan, steps), RunSys(chan, steps + [Attach(h)] + others), h)
  {
    hide Encode, RunSys, Next, Inv;
    if others == [] {
      RunSnoc(chan, steps, Attach(h));
      assert steps + [Attach(h)] + others == steps + [Attach(h)];
    } else {
      var n := |others| - 1;
      assert others[n] in others && forall x | x in others[..n] :: x in others;
      AttachUnderWay(chan, steps, h, others[..n]);
      assert steps + [Attach(h)] + others == steps + [Attach(h)] + others[..n] + [others[n]];
      RunSnoc(chan, steps + [Attach(h)] + others[..n], others[n]);
    }
  }

  /** A call of Attach that completes has passed the hub the last 2^20 bytes and made it
      the sender, whatever hubs and connections did meanwhile. */
  lemma AttachGoesLive(chan: uint16, steps: seq<SysStep>, h: nat, others: seq<SysStep>, preferDone: bool)
    requires RunSys(chan, steps).lock.Free? && h in RunSys(chan, steps).hubs
    requires forall x | x in others :: Bystander(x)
    ensures var s, s' := RunSys(chan, steps), RunSys(chan, steps + [Attach(h)] + others + [Select(preferDone)]);
            && s'.lock.Free? && s'.sender == Some(h) && s'.produced == s.produced
            && h in s'.hubs && |s.hubs[h].log| <= |s'.hubs[h].log|
            && Concat(DataSent(s'.hubs[h].log[|s.hubs[h].log|..], chan)) == LastN(s.produced, RING_CAP)
  {
    hide Encode, RunSys, Next, Inv, LastN, Concat, DataSent;
    AttachUnderWay(chan, steps, h, others);
    var before := steps + [Attach(h)] + others;
    RunSnoc(chan, before, Select(preferDone));
    RunKeepsInv(chan, before);
    HeldHubExists(RunSys(chan, before));
    Handover(chan, before + [Select(preferDone)], h);
    var p := RunSys(chan, steps).produced;
    assert p[..|p|] == p && LastN(p, RING_CAP) + p[|p|..] == LastN(p, RING_CAP);
  }

  lemma HeldHubExists(s: Sys)
    requires Inv(s)
    ensures !s.lock.Free? ==> s.lock.h in s.att && s.lock.h in s.hubs
  {
  }

  /** A read is kept whoever is attached, for the next replay. */
  lemma OutputKept(chan: uint16, steps: seq<SysStep>, d: seq<byte>)
    requires RunSys(chan, steps).lock.Free? && 0 < |d| <= READ_SIZE
    ensures var s, s' := RunSys(chan, steps), RunSys(chan, steps + [Output(d)]);
            s'.produced == s.produced + d && s'.ring == LastN(s.produced + d, RING_CAP)
  {
    hide Encode, RunSys, Next, LastN;
    RunSnoc(chan, steps, Output(d));
    RunKeepsInv(chan, steps);
    LastNAppend(RunSys(chan, steps).produced, d, RING_CAP);
  }

  /** The messages of hub h that were queued before its latest Attach. */
  function BaseOf(s: Sys, h: nat): nat
    requires h in s.att && h in s.hubs && s.att[h].logBase <= |s.hubs[h].log|
  {
    |EnqueueLog(s.hubs[h].log[..s.att[h].logBase])|
  }

  lemma WireSinceAttach(hub: HubState, logBase: nat, c: uint16, wire: seq<Msg>)
    requires Conserved(hub) && SmallData(hub.log, c) && logBase <= |hub.log| && Alone(hub.log[logBase..], c)
    requires wire <= hub.written
    requires |EnqueueLog(hub.log[..logBase])| <= |wire|
    ensures DataReceived(wire[|EnqueueLog(hub.log[..logBase])|..], c) <= DataQueued(hub.log[logBase..], c)
  {
    hide Encode, DecodeFrame, EnqueueLog, DataReceived, DataQueued, Count;
    var before, since := hub.log[..logBase], hub.log[logBase..];
    var base := |EnqueueLog(before)|;
    assert before + since == hub.log;
    EnqueueLogAppend(before, since);
    QueuedIsReceived(since, c);
    var all := EnqueueLog(hub.log);
    assert wire <= all;
    assert all[base..] == EnqueueLog(since);
    var rest := all[|wire|..];
    assert all[base..] == wire[base..] + rest;
    DataReceivedAppend(wire[base..], rest, c);
  }

  /** End to end. In every run, for every hub to which nothing else sent data on the
      session's channel since the latest Attach, and every prefix of its wire the
      browser has read: the payloads decoded for the session's channel since the
      latest Attach are, frame by frame, an in-order subsequence of pieces that
      make up produced[ReplayStart(at)..upTo]; and if no frame was lost they
      join up to a prefix of the output from the replay's first byte on. */
  lemma EndToEnd(chan: uint16, steps: seq<SysStep>, h: nat, wire: seq<Msg>)
    requires var s := RunSys(chan, steps);
             && h in s.att && h in s.hubs && s.att[h].logBase <= |s.hubs[h].log|
             && wire <= s.hubs[h].written
             && BaseOf(s, h) <= |wire|
             && Alone(s.hubs[h].log[s.att[h].logBase..], chan)
    ensures var s := RunSys(chan, steps);
            var a := s.att[h];
            var since := s.hubs[h].log[a.logBase..];
            var received := DataReceived(wire[BaseOf(s, h)..], chan);
            && Subsequence(received, DataSent(since, chan))
            && ReplayStart(a.at) <= a.upTo <= |s.produced|
            && Concat(DataSent(since, chan)) == s.produced[ReplayStart(a.at)..a.upTo]
            && (NothingLost(since, chan) ==>
                  Concat(received) <= s.produced[ReplayStart(a.at)..])
  {
    hide Encode, DecodeFrame, EnqueueLog, Count, DataSent, DataQueued, DataReceived, Concat, Conserved, RunSys,
      Subsequence;
    RunKeepsInv(chan, steps);
    ChanFixed(chan, steps);
    Handover(chan, steps, h);
    var s := RunSys(chan, steps);
    var a, hub := s.att[h], s.hubs[h];
    var since := hub.log[a.logBase..];
    var received := DataReceived(wire[BaseOf(s, h)..], chan);
    assert HubOk(s.chan, s.lock, h, hub);
    WireSinceAttach(hub, a.logBase, chan, wire);
    var queued, sent := DataQueued(since, chan), DataSent(since, chan);
    QueuedInOrder(since, chan);
    SubsequencePrefix(queued, sent, |received|);
    assert queued[..|received|] == received;
    if NothingLost(since, chan) {
      QueuedEverything(since, chan);
      ConcatAppend(received, sent[|received|..]);
      assert received + sent[|received|..] == sent;
      var k := ReplayStart(a.at);
      assert s.produced[k..a.upTo] <= s.produced[k..];
    }
  }

  /** Every replay and every live frame of a session is within the hub's payload limit,
      so all three decoders read the same frame from it. */
  lemma SessionFramesFit(chan: uint16, steps: seq<SysStep>, h: nat, i: nat)
    requires h in RunSys(chan, steps).hubs && i < |RunSys(chan, steps).hubs[h].log|
    requires Mine(RunSys(chan, steps).hubs[h].log[i], chan)
    ensures var f := RunSys(chan, steps).hubs[h].log[i].frame;
            && |f.payload| <= RING_CAP
            && DecodeFromBytes(Encode(f)) == Success(f)
            && DecodeFrame(Encode(f)) == Success(f)
            && Decode(Encode(f)) == Decoded(Success(f), [])
  {
    hide Encode, DecodeFromBytes, DecodeFrame, Decode, RunSys;
    RunKeepsInv(chan, steps);
    ChanFixed(chan, steps);
    var s := RunSys(chan, steps);
    assert HubOk(s.chan, s.lock, h, s.hubs[h]);
    var f := s.hubs[h].log[i].frame;
    MessageAcceptsExactly(Encode(f), f);
    DecodersAgree(Encode(f), f);
  }

  // ---------------------------------------------------------------------
  // What a full queue does

  const TICK := Frame(0x03, 0, [])

  function Flood(h: nat, n: nat): seq<SysStep>
  {
    if n == 0 then []
    else Flood(h, n - 1) + [OfHub(h, SendCheck(1, TICK)), OfHub(h, SendSelect(1, false))]
  }

  ghost predicate Streaming(s: Sys, h: nat, queued: nat)
  {
    && s.lock.Free? && s.sender == Some(h) && h in s.hubs && h in s.att
    && !s.hubs[h].done && s.hubs[h].sending == map[]
    && |s.hubs[h].queue| == queued
  }

  /** Every fill level of the queue is reachable while a browser is attached. */
  lemma {:induction false} QueueFills(chan: uint16, n: nat)
    requires n <= WRITE_CHAN_SIZE
    ensures var s := RunSys(chan, [Connect(0), Attach(0)] + Flood(0, n));
            Streaming(s, 0, n) && s.hubs[0].writer.Ready?
  {
    var start := [Connect(0), Attach(0)];
    if n == 0 {
      assert start == [] + [Connect(0)] + [Attach(0)];
      RunSnoc(chan, [], Connect(0));
      RunSnoc(chan, [Connect(0)], Attach(0));
      assert start + Flood(0, 0) == start;
    } else {
      QueueFills(chan, n - 1);
      var before := start + Flood(0, n - 1);
      var check, select := OfHub(0, SendCheck(1, TICK)), OfHub(0, SendSelect(1, false));
      assert start + Flood(0, n) == before + [check] + [select];
      RunSnoc(chan, before, check);
      RunSnoc(chan, before + [check], select);
      hide RunSys, Flood, Streaming, Apply;
      FloodOne(RunSys(chan, before), n - 1);
    }
  }

  /** Another goroutine's frame takes one more slot. */
  lemma FloodOne(s: Sys, n: nat)
    requires Streaming(s, 0, n) && s.hubs[0].writer.Ready? && n < WRITE_CHAN_SIZE
    ensures var s' := Apply(Apply(s, OfHub(0, SendCheck(1, TICK))), OfHub(0, SendSelect(1, false)));
            Streaming(s', 0, n + 1) && s'.hubs[0].writer.Ready?
  {
    hide Encode;
  }

  /** One read forwarded: the frame is queued, or dropped when there is no room,
      and the session carries on either way. */
  lemma PassOne(s: Sys, h: nat, n: nat, d: seq<byte>)
    requires Streaming(s, h, n) && n <= WRITE_CHAN_SIZE && 0 < |d| <= READ_SIZE
    ensures var s' := Apply(Apply(s, Output(d)), Select(false));
            var o := if n < WRITE_CHAN_SIZE then Enqueued else Dropped;
            && Streaming(s', h, if n < WRITE_CHAN_SIZE then n + 1 else n)
            && s'.produced == s.produced + d
            && s'.hubs[h].writer == s.hubs[h].writer
            && s'.hubs[h].log == s.hubs[h].log + [Call(SESSION, Frame(FRAME_DATA, s.chan, d), o)]
            && s'.chan == s.chan
  {
    hide Encode, LastN;
  }

  /** The no-loss hypothesis of EndToEnd is needed: with the queue full, a read
      vanishes, nobody is told, and the next one goes through behind it. */
  lemma DropIsSilent(chan: uint16, steps: seq<SysStep>, h: nat, d1: seq<byte>, d2: seq<byte>)
    requires Streaming(RunSys(chan, steps), h, WRITE_CHAN_SIZE)
    requires RunSys(chan, steps).hubs[h].writer.Ready?
    requires 0 < |d1| <= READ_SIZE && 0 < |d2| <= READ_SIZE
    ensures var s := RunSys(chan, steps);
            var later := [Output(d1), Select(false), OfHub(h, WriterTake), Output(d2), Select(false)];
            var s' := RunSys(chan, steps + later);
            && Streaming(s', h, WRITE_CHAN_SIZE)
            && s'.produced == s.produced + d1 + d2
            && DataSent(s'.hubs[h].log, chan) == DataSent(s.hubs[h].log, chan) + [d1, d2]
            && DataQueued(s'.hubs[h].log, chan) == DataQueued(s.hubs[h].log, chan) + [d2]
  {
    hide Encode, RunSys, DataSent, DataQueued, LastN;
    ChanFixed(chan, steps);
    var s0 := RunSys(chan, steps);
    var p1 := steps + [Output(d1)];
    var p2 := p1 + [Select(false)];
    var p3 := p2 + [OfHub(h, WriterTake)];
    var p4 := p3 + [Output(d2)];
    RunSnoc(chan, steps, Output(d1));
    RunSnoc(chan, p1, Select(false));
    RunSnoc(chan, p2, OfHub(h, WriterTake));
    RunSnoc(chan, p3, Output(d2));
    RunSnoc(chan, p4, Select(false));
    assert steps + [Output(d1), Select(false), OfHub(h, WriterTake), Output(d2), Select(false)]
        == p4 + [Select(false)];
    hide Apply, Next;
    PassOne(s0, h, WRITE_CHAN_SIZE, d1);
    var s2 := RunSys(chan, p2);
    TakeOne(s2, h);
    PassOne(Apply(s2, OfHub(h, WriterTake)), h, WRITE_CHAN_SIZE - 1, d2);
    var log := s0.hubs[h].log;
    var c1 := Call(SESSION, Frame(FRAME_DATA, chan, d1), Dropped);
    var c2 := Call(SESSION, Frame(FRAME_DATA, chan, d2), Enqueued);
    DataSnoc(log, c1, chan);
    DataSnoc(log + [c1], c2, chan);
    assert DataSent(log, chan) + [d1] + [d2] == DataSent(log, chan) + [d1, d2];
  }

  lemma TakeOne(s: Sys, h: nat)
    requires Streaming(s, h, WRITE_CHAN_SIZE) && s.hubs[h].writer.Ready?
    ensures var s' := Apply(s, OfHub(h, WriterTake));
            && Streaming(s', h, WRITE_CHAN_SIZE - 1)
            && s'.produced == s.produced && s'.chan == s.chan
            && s'.hubs[h].log == s.hubs[h].log
  {
  }
}
