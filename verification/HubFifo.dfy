/**
 The outgoing side of internal/hub/hub.go as a state machine. A call of Send is
 two steps, one per select, so other goroutines, the writer and Close may run in
 between. A step that is not enabled leaves the state alone.
 */
module HubFifo {
  import opened Prelude
  import opened Codec
  import opened Protocol

  const WRITE_CHAN_SIZE: nat := 256

  type Msg = seq<byte>

  datatype Outcome = Enqueued | Dropped | Rejected

  /** A finished call of Send. Dropped calls return nil, as enqueued ones do. */
  datatype Call = Call(sender: nat, frame: Frame, outcome: Outcome)

  datatype Writer = Ready | Writing(msg: Msg) | Exited(lost: seq<Msg>)

  datatype HubState = HubState(
    done: bool,               // the done channel is closed
    queue: seq<Msg>,          // writeCh
    writer: Writer,
    written: seq<Msg>,        // messages on the wire
    sending: map<nat, Frame>, // goroutines between the two selects of Send
    started: nat,             // calls of Send so far
    log: seq<Call>            // finished calls, oldest first
  )

  datatype Step =
    | SendCheck(g: nat, f: Frame)
    | SendSelect(g: nat, preferDone: bool)
    | WriterTake
    | WriterWrite(ok: bool)
    | WriterStop
    | PingFailed
    | Close

  const NEW_HUB := HubState(false, [], Ready, [], map[], 0, [])

  /** The second select: with room and a closed hub both cases are ready and the
      runtime picks one. */
  function SelectOutcome(h: HubState, preferDone: bool): Outcome
  {
    if |h.queue| < WRITE_CHAN_SIZE then
      if h.done && preferDone then Rejected else Enqueued
    else if h.done then Rejected
    else Dropped
  }

  function Next(h: HubState, s: Step): HubState
  {
    match s
    case SendCheck(g, f) =>
      if g in h.sending then h
      else if h.done then h.(started := h.started + 1, log := h.log + [Call(g, f, Rejected)])
      else h.(started := h.started + 1, sending := h.sending[g := f])
    case SendSelect(g, preferDone) =>
      if g !in h.sending then h
      else
        var f, o := h.sending[g], SelectOutcome(h, preferDone);
        h.(sending := h.sending - {g},
           log := h.log + [Call(g, f, o)],
           queue := if o == Enqueued then h.queue + [Encode(f)] else h.queue)
    case WriterTake =>
      if h.writer.Ready? && h.queue != []
      then h.(writer := Writing(h.queue[0]), queue := h.queue[1..])
      else h
    case WriterWrite(ok) =>
      if !h.writer.Writing? then h
      else if ok then h.(writer := Ready, written := h.written + [h.writer.msg])
      else h.(writer := Exited([h.writer.msg]), done := true)
    case WriterStop =>
      if h.writer.Ready? && h.done then h.(writer := Exited([])) else h
    case PingFailed =>
      if h.writer.Ready? then h.(writer := Exited([]), done := true) else h
    case Close =>
      h.(done := true)
  }

  function Run(steps: seq<Step>): HubState
  {
    if steps == [] then NEW_HUB else Next(Run(steps[..|steps| - 1]), steps[|steps| - 1])
  }

  // ---------------------------------------------------------------------
  // Conservation

  /** The messages ever put into writeCh. */
  function EnqueueLog(log: seq<Call>): seq<Msg>
  {
    if log == [] then []
    else
      var last := log[|log| - 1];
      EnqueueLog(log[..|log| - 1]) + if last.outcome == Enqueued then [Encode(last.frame)] else []
  }

  function InFlight(w: Writer): seq<Msg>
  {
    match w
    case Ready => []
    case Writing(m) => [m]
    case Exited(lost) => lost
  }

  function Count(log: seq<Call>, o: Outcome): nat
  {
    if log == [] then 0
    else Count(log[..|log| - 1], o) + if log[|log| - 1].outcome == o then 1 else 0
  }

  ghost predicate Conserved(h: HubState)
  {
    && EnqueueLog(h.log) == h.written + InFlight(h.writer) + h.queue
    && |h.queue| <= WRITE_CHAN_SIZE
    && h.started == |h.sending| + |h.log|
    && |h.log| == Count(h.log, Enqueued) + Count(h.log, Dropped) + Count(h.log, Rejected)
    && (Count(h.log, Rejected) > 0 ==> h.done)
    && (h.writer.Exited? ==> h.done)
  }

  lemma LogSnoc(log: seq<Call>, c: Call)
    ensures EnqueueLog(log + [c]) == EnqueueLog(log) + if c.outcome == Enqueued then [Encode(c.frame)] else []
    ensures forall o :: Count(log + [c], o) == Count(log, o) + if c.outcome == o then 1 else 0
  {
    assert (log + [c])[..|log|] == log;
  }

  lemma OneFewer(m: map<nat, Frame>, g: nat)
    requires g in m
    ensures |m - {g}| == |m| - 1
  {
    assert (m - {g}).Keys == m.Keys - {g};
  }

  lemma SendConserves(h: HubState, g: nat, preferDone: bool)
    requires Conserved(h) && g in h.sending
    ensures Conserved(Next(h, SendSelect(g, preferDone)))
  {
    hide Encode, EnqueueLog, Count, InFlight;
    var c := Call(g, h.sending[g], SelectOutcome(h, preferDone));
    LogSnoc(h.log, c);
    OneFewer(h.sending, g);
    var flight, m := h.written + InFlight(h.writer), Encode(c.frame);
    assert flight + h.queue + [m] == flight + (h.queue + [m]);
  }

  lemma WriterConserves(h: HubState, s: Step)
    requires Conserved(h) && (s.WriterTake? || s.WriterWrite?)
    ensures Conserved(Next(h, s))
  {
    hide Encode, EnqueueLog, Count;
    var w, q := h.written, h.queue;
    if s.WriterTake? && h.writer.Ready? && q != [] {
      assert w + [] + q == w + [q[0]] + q[1..];
    }
    if s.WriterWrite? && h.writer.Writing? {
      assert w + [h.writer.msg] + q == w + [h.writer.msg] + [] + q;
    }
  }

  lemma StepConserves(h: HubState, s: Step)
    requires Conserved(h)
    ensures Conserved(Next(h, s))
  {
    hide Encode, EnqueueLog, Count;
    match s
    case SendCheck(g, f) =>
      if g !in h.sending {
        LogSnoc(h.log, Call(g, f, Rejected));
        assert h.sending[g := f].Keys == h.sending.Keys + {g};
      }
    case SendSelect(g, preferDone) =>
      if g in h.sending {
        SendConserves(h, g, preferDone);
      }
    case WriterTake => WriterConserves(h, s);
    case WriterWrite(_) => WriterConserves(h, s);
    case WriterStop =>
    case PingFailed =>
    case Close =>
  }

  /** In every run: what was enqueued is on the wire, in the writer's hands (or
      lost by it), or still queued, in that order; the queue never exceeds 256;
      every call is unfinished, enqueued, dropped or rejected. */
  lemma {:induction false} RunConserves(steps: seq<Step>)
    ensures Conserved(Run(steps))
  {
    if steps != [] {
      RunConserves(steps[..|steps| - 1]);
      StepConserves(Run(steps[..|steps| - 1]), steps[|steps| - 1]);
    } else {
      assert NEW_HUB.written + InFlight(NEW_HUB.writer) + NEW_HUB.queue == [];
    }
  }

  /** A call is dropped, silently, exactly when it finds the queue full and the
      hub open; a frame enters the queue only through an Enqueued call. */
  lemma DropsExactly(h: HubState, g: nat, preferDone: bool)
    requires Conserved(h) && g in h.sending
    ensures var h' := Next(h, SendSelect(g, preferDone));
            && (Count(h'.log, Dropped) > Count(h.log, Dropped) <==> !h.done && |h.queue| == WRITE_CHAN_SIZE)
            && (h'.queue != h.queue <==> Count(h'.log, Enqueued) > Count(h.log, Enqueued))
            && (Count(h'.log, Rejected) > Count(h.log, Rejected) ==> h.done)
  {
    LogSnoc(h.log, Call(g, h.sending[g], SelectOutcome(h, preferDone)));
  }

  // ---------------------------------------------------------------------
  // Order per channel

  function OnChannel(m: Msg, c: uint16): bool
  {
    var r := DecodeFrame(m);
    r.Success? && r.value.chanID == c
  }

  /** The messages a browser reads as frames of channel c. */
  function Received(wire: seq<Msg>, c: uint16): seq<Msg>
  {
    if wire == [] then []
    else Received(wire[..|wire| - 1], c)
         + if OnChannel(wire[|wire| - 1], c) then [wire[|wire| - 1]] else []
  }

  /** Everything passed to Send on channel c, whatever became of it. */
  function SentOn(log: seq<Call>, c: uint16): seq<Msg>
  {
    if log == [] then []
    else SentOn(log[..|log| - 1], c)
         + if log[|log| - 1].frame.chanID == c then [Encode(log[|log| - 1].frame)] else []
  }

  lemma ReceivedSnoc(wire: seq<Msg>, m: Msg, c: uint16)
    ensures Received(wire + [m], c) == Received(wire, c) + if OnChannel(m, c) then [m] else []
  {
    assert (wire + [m])[..|wire|] == wire;
  }

  lemma {:induction false} ReceivedAppend(a: seq<Msg>, b: seq<Msg>, c: uint16)
    ensures Received(a + b, c) == Received(a, c) + Received(b, c)
  {
    if b == [] {
      assert a + b == a;
    } else {
      var front, last := b[..|b| - 1], b[|b| - 1];
      ReceivedAppend(a, front, c);
      assert (a + b)[..|a + b| - 1] == a + front;
    }
  }

  lemma {:induction false} EnqueuedInOrder(log: seq<Call>, c: uint16)
    ensures Subsequence(Received(EnqueueLog(log), c), SentOn(log, c))
  {
    hide Encode, DecodeFrame;
    if log != [] {
      var front, last := log[..|log| - 1], log[|log| - 1];
      EnqueuedInOrder(front, c);
      BrowserReadsEveryMessage(last.frame);
      ReceivedSnoc(EnqueueLog(front), Encode(last.frame), c);
      SubsequenceSnoc(Received(EnqueueLog(front), c), SentOn(front, c), Encode(last.frame));
      assert EnqueueLog(front) + [] == EnqueueLog(front);
      assert Received(EnqueueLog(front), c) + [] == Received(EnqueueLog(front), c);
      assert SentOn(front, c) + [] == SentOn(front, c);
    }
  }

  /** In every run, what the browser reads on a channel is an in-order
      subsequence of what was sent on it. */
  lemma WireOrder(steps: seq<Step>, c: uint16)
    ensures var h := Run(steps); Subsequence(Received(h.written, c), SentOn(h.log, c))
  {
    var h := Run(steps);
    RunConserves(steps);
    EnqueuedInOrder(h.log, c);
    var later := InFlight(h.writer) + h.queue;
    assert EnqueueLog(h.log) == h.written + later;
    ReceivedAppend(h.written, later, c);
    var all := Received(EnqueueLog(h.log), c);
    SubsequencePrefix(all, SentOn(h.log, c), |Received(h.written, c)|);
    assert all[..|Received(h.written, c)|] == Received(h.written, c);
  }

  // ---------------------------------------------------------------------
  // Closing, and the writer's end

  lemma RunSnoc(steps: seq<Step>, s: Step)
    ensures Run(steps + [s]) == Next(Run(steps), s)
  {
    assert (steps + [s])[..|steps|] == steps;
  }

  /** Close was called, or a write or a ping failed. */
  predicate EverClosed(steps: seq<Step>)
  {
    steps != []
    && var front, s := steps[..|steps| - 1], steps[|steps| - 1];
       || EverClosed(front)
       || s == Close
       || (s == WriterWrite(false) && Run(front).writer.Writing?)
       || (s == PingFailed && Run(front).writer.Ready?)
  }

  lemma {:induction false} ClosedExactly(steps: seq<Step>)
    ensures Run(steps).done <==> EverClosed(steps)
  {
    hide Encode;
    if steps != [] {
      ClosedExactly(steps[..|steps| - 1]);
    }
  }

  /** Of h's calls under way some may have ended since; all others were rejected. */
  ghost predicate OnlyInFlight(h: HubState, r: HubState)
  {
    && r.done && h.log <= r.log
    && (forall g | g in r.sending :: g in h.sending && r.sending[g] == h.sending[g])
    && (forall i | |h.log| <= i < |r.log| ::
          r.log[i].outcome == Rejected
          || (r.log[i].sender in h.sending && r.log[i].frame == h.sending[r.log[i].sender]))
    && Count(r.log, Enqueued) + |r.sending| <= Count(h.log, Enqueued) + |h.sending|
  }

  lemma InFlightEnds(h: HubState, r: HubState, r': HubState, c: Call)
    requires OnlyInFlight(h, r) && r'.done && r'.log == r.log + [c]
    requires r'.sending == if c.sender in r.sending then r.sending - {c.sender} else r.sending
    requires if c.sender in r.sending then c.frame == r.sending[c.sender] else c.outcome == Rejected
    ensures OnlyInFlight(h, r')
  {
    hide Encode, Count, EnqueueLog;
    LogSnoc(r.log, c);
    if c.sender in r.sending {
      OneFewer(r.sending, c.sender);
    }
    forall i | |h.log| <= i < |r'.log|
      ensures r'.log[i].outcome == Rejected
              || (r'.log[i].sender in h.sending && r'.log[i].frame == h.sending[r'.log[i].sender])
    {
      assert i < |r.log| ==> r'.log[i] == r.log[i];
    }
  }

  lemma SameCalls(h: HubState, r: HubState, r': HubState)
    requires OnlyInFlight(h, r) && r'.done && r'.log == r.log && r'.sending == r.sending
    ensures OnlyInFlight(h, r')
  {
  }

  lemma InFlightStep(h: HubState, r: HubState, s: Step)
    requires OnlyInFlight(h, r)
    ensures OnlyInFlight(h, Next(r, s))
  {
    assert r.done;
    hide Encode, OnlyInFlight;
    match s
    case SendCheck(g, f) =>
      if g !in r.sending {
        InFlightEnds(h, r, Next(r, s), Call(g, f, Rejected));
      }
    case SendSelect(g, preferDone) =>
      if g in r.sending {
        InFlightEnds(h, r, Next(r, s), Call(g, r.sending[g], SelectOutcome(r, preferDone)));
      }
    case _ => SameCalls(h, r, Next(r, s));
  }

  /** A closed hub stays closed and rejects every call that begins from then on; a call
      that was under way may still enqueue its one frame. */
  lemma {:induction false} ClosedRejects(steps: seq<Step>, later: seq<Step>)
    requires Run(steps).done
    ensures OnlyInFlight(Run(steps), Run(steps + later))
  {
    hide Run, Next;
    if later == [] {
      assert steps + later == steps;
    } else {
      var front, s := later[..|later| - 1], later[|later| - 1];
      ClosedRejects(steps, front);
      assert steps + later == steps + front + [s];
      RunSnoc(steps + front, s);
      InFlightStep(Run(steps), Run(steps + front), s);
    }
  }

  /** A write or a ping failed, or the writer found the hub closed. */
  predicate EverEnded(steps: seq<Step>)
  {
    steps != []
    && var front, s := steps[..|steps| - 1], steps[|steps| - 1];
       || EverEnded(front)
       || (s == WriterWrite(false) && Run(front).writer.Writing?)
       || (s == PingFailed && Run(front).writer.Ready?)
       || (s == WriterStop && Run(front).writer.Ready? && EverClosed(front))
  }

  lemma {:induction false} EndedExactly(steps: seq<Step>)
    ensures Run(steps).writer.Exited? <==> EverEnded(steps)
  {
    hide Encode;
    if steps != [] {
      EndedExactly(steps[..|steps| - 1]);
      ClosedExactly(steps[..|steps| - 1]);
      hide EverClosed;
    }
  }

  /** A writer that has ended writes nothing more. */
  lemma {:induction false} EndedWritesNothing(steps: seq<Step>, later: seq<Step>)
    requires Run(steps).writer.Exited?
    ensures Run(steps + later).writer == Run(steps).writer && Run(steps + later).written == Run(steps).written
  {
    hide Run, Encode;
    if later == [] {
      assert steps + later == steps;
    } else {
      var front, s := later[..|later| - 1], later[|later| - 1];
      EndedWritesNothing(steps, front);
      assert steps + later == steps + front + [s];
      RunSnoc(steps + front, s);
    }
  }

  /** Some continuation puts everything that was enqueued on the wire. */
  ghost predicate CanDeliver(steps: seq<Step>)
  {
    exists later :: Run(steps + later).written == EnqueueLog(Run(steps).log)
  }

  /** That is so exactly while the writer has not ended, or when it left nothing behind:
      even a closed hub may still send its queue. */
  lemma DeliversExactly(steps: seq<Step>)
    ensures var h := Run(steps);
            CanDeliver(steps) <==> !h.writer.Exited? || h.writer.lost + h.queue == []
  {
    hide Run, Encode, EnqueueLog, Count;
    RunConserves(steps);
    var h := Run(steps);
    if h.writer.Exited? {
      forall later
        ensures Run(steps + later).written == h.written
      {
        EndedWritesNothing(steps, later);
      }
      if h.writer.lost + h.queue == [] {
        assert h.written + [] + [] == h.written;
        assert steps + [] == steps;
        assert Run(steps + []).written == EnqueueLog(h.log);
      } else {
        assert |EnqueueLog(h.log)| > |h.written|;
      }
    } else if h.writer.Writing? {
      RunSnoc(steps, WriterWrite(true));
      RunConserves(steps + [WriterWrite(true)]);
      var later := Drain(steps + [WriterWrite(true)]);
      assert steps + [WriterWrite(true)] + later == steps + ([WriterWrite(true)] + later);
    } else {
      var later := Drain(steps);
    }
  }

  lemma {:induction false} Drain(steps: seq<Step>) returns (later: seq<Step>)
    requires Run(steps).writer.Ready?
    ensures Run(steps + later).written == EnqueueLog(Run(steps).log)
    decreases |Run(steps).queue|
  {
    hide Run, Encode, EnqueueLog, Count;
    RunConserves(steps);
    var h := Run(steps);
    if h.queue == [] {
      assert h.written + [] + [] == h.written;
      assert steps + [] == steps;
      return [];
    }
    var s1 := steps + [WriterTake];
    RunSnoc(steps, WriterTake);
    RunSnoc(s1, WriterWrite(true));
    var rest := Drain(s1 + [WriterWrite(true)]);
    later := [WriterTake, WriterWrite(true)] + rest;
    assert steps + later == s1 + [WriterWrite(true)] + rest;
  }
}
