/**
 The stats collector of internal/stats/collector.go and the merging browsers of
 frontend/src/lib/components/StatsDock.svelte.

 A tick of a loop is two critical sections, Sample and Broadcast; Add, Remove and
 other loops may run in between. A cancelled loop may still tick, because its
 select picks freely between the ticker and the cancelled context.
 */
module Stats {
  import opened Prelude

  datatype Snapshot = Snapshot(
    cpu: real, ramUsed: nat, ramTotal: nat, diskUsed: nat, diskTotal: nat,
    netRxRate: nat, netTxRate: nat, uptime: real, loadAvg: seq<real>,
    kernel: string, hostname: string)

  /** A JSON object with some of the fields: a delta, or what a browser knows. */
  datatype Partial = Partial(
    cpu: Option<real>, ramUsed: Option<nat>, ramTotal: Option<nat>, diskUsed: Option<nat>, diskTotal: Option<nat>,
    netRxRate: Option<nat>, netTxRate: Option<nat>, uptime: Option<real>, loadAvg: Option<seq<real>>,
    kernel: Option<string>, hostname: Option<string>)

  const ZERO := Snapshot(0.0, 0, 0, 0, 0, 0, 0, 0.0, [], "", "")
  const NOTHING := Partial(None, None, None, None, None, None, None, None, None, None, None)

  /** snapshotToDelta after json.Marshal: numbers always, an empty slice never,
      strings only when they changed. */
  function ToDelta(cur: Snapshot, prev: Snapshot): Partial
  {
    Partial(
      Some(cur.cpu), Some(cur.ramUsed), Some(cur.ramTotal), Some(cur.diskUsed), Some(cur.diskTotal),
      Some(cur.netRxRate), Some(cur.netTxRate), Some(cur.uptime),
      if cur.loadAvg == [] then None else Some(cur.loadAvg),
      if cur.kernel != prev.kernel then Some(cur.kernel) else None,
      if cur.hostname != prev.hostname then Some(cur.hostname) else None)
  }

  function Over<T>(old': Option<T>, new': Option<T>): Option<T>
  {
    if new'.Some? then new' else old'
  }

  /** { ...stats, ...delta } */
  function Merge(shown: Partial, d: Partial): Partial
  {
    Partial(
      Over(shown.cpu, d.cpu), Over(shown.ramUsed, d.ramUsed), Over(shown.ramTotal, d.ramTotal),
      Over(shown.diskUsed, d.diskUsed), Over(shown.diskTotal, d.diskTotal),
      Over(shown.netRxRate, d.netRxRate), Over(shown.netTxRate, d.netTxRate), Over(shown.uptime, d.uptime),
      Over(shown.loadAvg, d.loadAvg), Over(shown.kernel, d.kernel), Over(shown.hostname, d.hostname))
  }

  /** A browser that knows exactly the snapshot. */
  function Exactly(s: Snapshot): Partial
  {
    Partial(Some(s.cpu), Some(s.ramUsed), Some(s.ramTotal), Some(s.diskUsed), Some(s.diskTotal),
            Some(s.netRxRate), Some(s.netTxRate), Some(s.uptime), Some(s.loadAvg), Some(s.kernel), Some(s.hostname))
  }

  // ---------------------------------------------------------------------
  // The machine

  datatype Tick = Tick(snap: Snapshot, delta: Partial)

  /** A running goroutine; tick is set between its two critical sections. */
  datatype Loop = Loop(cancelled: bool, tick: Option<Tick>)

  datatype Collector = Collector(
    kernel: string, hostname: string, // read once at startup
    senders: map<nat, Partial>,       // what the browser behind each sender shows
    refs: int,
    cancel: Option<nat>,              // the loop that cancel() would stop
    last: Snapshot,
    loops: map<nat, Loop>,
    nextId: nat,
    nextLoop: nat,
    // history
    drains: nat,                      // broadcasts whose failed sends emptied the map
    restarters: set<nat>,             // senders whose Add restarted a collector with a snapshot
    missed: set<nat>,                 // senders that lost a frame
    lastBy: nat                       // the loop that took the last snapshot
  )

  datatype Step =
    | Add(arrives: bool)              // arrives: whether the first full frame does
    | Remove(id: nat)
    | Sample(l: nat, snap: Snapshot)
    | Broadcast(l: nat, failed: set<nat>, lost: set<nat>)
    | LoopExits(l: nat)

  function New(kernel: string, hostname: string): Collector
  {
    Collector(kernel, hostname, map[], 0, None, ZERO, map[], 0, 0, 0, {}, {}, 0)
  }

  /** One frame to every sender: a failed one is removed, a lost frame is not
      noticed, everyone else merges the delta. */
  ghost function Deliver(senders: map<nat, Partial>, d: Partial, failed: set<nat>, lost: set<nat>)
    : (r: map<nat, Partial>)
    ensures r.Keys == senders.Keys - failed
    ensures forall id | id in r :: r[id] == if id in lost then senders[id] else Merge(senders[id], d)
    decreases |senders|
  {
    if senders == map[] then map[]
    else
      var id: nat :| id in senders;
      assert (senders - {id}).Keys == senders.Keys - {id};
      var rest := Deliver(senders - {id}, d, failed, lost);
      if id in failed then rest
      else rest[id := if id in lost then senders[id] else Merge(senders[id], d)]
  }

  /** What collect may return. */
  predicate Collected(c: Collector, snap: Snapshot)
  {
    snap.kernel == c.kernel && snap.hostname == c.hostname && |snap.loadAvg| == 3 && snap.ramTotal > 0
  }

  function AddTo(c: Collector, arrives: bool): Collector
  {
    var id := c.nextId + 1;
    var c1 := c.(nextId := id, refs := c.refs + 1);
    if c.refs + 1 == 1 then
      c1.(senders := c.senders[id := NOTHING],
          loops := c.loops[c.nextLoop := Loop(false, None)], cancel := Some(c.nextLoop), nextLoop := c.nextLoop + 1,
          restarters := if c.last.ramTotal > 0 then c.restarters + {id} else c.restarters)
    else if c.last.ramTotal > 0 then
      c1.(senders := c.senders[id := if arrives then ToDelta(c.last, ZERO) else NOTHING],
          missed := if arrives then c.missed else c.missed + {id})
    else c1.(senders := c.senders[id := NOTHING])
  }

  function RemoveFrom(c: Collector, id: nat): Collector
  {
    if id !in c.senders then c
    else
      var c1 := c.(senders := c.senders - {id}, refs := c.refs - 1);
      if c1.refs == 0 && c.cancel.Some? then Stop(c1) else c1
  }

  function SampleBy(c: Collector, l: nat, snap: Snapshot): Collector
    requires l in c.loops
  {
    c.(loops := c.loops[l := c.loops[l].(tick := Some(Tick(snap, ToDelta(snap, c.last))))],
       last := snap, lastBy := l)
  }

  ghost function BroadcastBy(c: Collector, l: nat, failed: set<nat>, lost: set<nat>): Collector
    requires l in c.loops && c.loops[l].tick.Some?
  {
    var gone := failed * c.senders.Keys;
    c.(senders := Deliver(c.senders, c.loops[l].tick.value.delta, gone, lost),
       refs := c.refs - |gone|,
       loops := c.loops[l := c.loops[l].(tick := None)],
       drains := if gone != {} && gone == c.senders.Keys then c.drains + 1 else c.drains,
       missed := c.missed + lost)
  }

  ghost function Apply(c: Collector, s: Step): Collector
  {
    match s
    case Add(arrives) => AddTo(c, arrives)
    case Remove(id) => RemoveFrom(c, id)
    case Sample(l, snap) =>
      if l !in c.loops || c.loops[l].tick.Some? || !Collected(c, snap) then c else SampleBy(c, l, snap)
    case Broadcast(l, failed, lost) =>
      if l !in c.loops || c.loops[l].tick.None? then c else BroadcastBy(c, l, failed, lost)
    case LoopExits(l) =>
      if l in c.loops && c.loops[l].cancelled && c.loops[l].tick.None? then c.(loops := c.loops - {l}) else c
  }

  function Stop(c: Collector): Collector
    requires c.cancel.Some?
  {
    var l := c.cancel.value;
    c.(cancel := None,
       loops := if l in c.loops then c.loops[l := c.loops[l].(cancelled := true)] else c.loops)
  }

  ghost function RunFrom(c: Collector, steps: seq<Step>): Collector
  {
    if steps == [] then c else Apply(RunFrom(c, steps[..|steps| - 1]), steps[|steps| - 1])
  }

  // ---------------------------------------------------------------------
  // References and loops

  /** The loops that were never told to stop. */
  function Uncancelled(loops: map<nat, Loop>): set<nat>
  {
    set l | l in loops && !loops[l].cancelled
  }

  ghost predicate Counted(c: Collector)
  {
    && c.refs == |c.senders|
    && (forall l | l in c.loops :: l < c.nextLoop)
    && (forall id | id in c.senders :: id <= c.nextId)
    && (c.refs > 0 ==> c.cancel.Some?)
    && (c.cancel.Some? ==> c.cancel.value in Uncancelled(c.loops))
    && |Uncancelled(c.loops)| == (if c.refs > 0 then 1 else 0) + c.drains
  }

  lemma AddCounts(c: Collector, arrives: bool)
    requires Counted(c)
    ensures Counted(Apply(c, Add(arrives)))
  {
    assert c.refs >= 0;
    hide ToDelta, Uncancelled, Counted;
    var id, c' := c.nextId + 1, AddTo(c, arrives);
    if c.refs == 0 {
      FirstCounts(c, c', id);
    } else {
      OtherCounts(c, c', id);
    }
  }

  lemma FirstCounts(c: Collector, c': Collector, id: nat)
    requires Counted(c) && c.refs == 0 && id == c.nextId + 1 && id in c'.senders
    requires c'.senders == c.senders[id := c'.senders[id]] && c'.nextId == id && c'.refs == 1 && c'.drains == c.drains
    requires c'.loops == c.loops[c.nextLoop := Loop(false, None)] && c'.cancel == Some(c.nextLoop)
    requires c'.nextLoop == c.nextLoop + 1
    ensures Counted(c')
  {
    hide Uncancelled;
    SizeOfPut(c.senders, id, c'.senders[id]);
    LoopStarts(c.loops, c.nextLoop);
  }

  lemma OtherCounts(c: Collector, c': Collector, id: nat)
    requires Counted(c) && c.refs > 0 && id == c.nextId + 1 && id in c'.senders
    requires c'.senders == c.senders[id := c'.senders[id]] && c'.nextId == id && c'.refs == c.refs + 1
    requires c' == c.(senders := c'.senders, nextId := c'.nextId, refs := c'.refs, missed := c'.missed)
    ensures Counted(c')
  {
    hide Uncancelled;
    SizeOfPut(c.senders, id, c'.senders[id]);
  }

  lemma SizeOfPut(m: map<nat, Partial>, k: nat, v: Partial)
    requires k !in m
    ensures |m[k := v]| == |m| + 1
    ensures m[k := v].Keys == m.Keys + {k}
  {
    assert m[k := v].Keys == m.Keys + {k};
  }

  lemma LoopStarts(loops: map<nat, Loop>, l: nat)
    requires l !in loops
    ensures Uncancelled(loops[l := Loop(false, None)]) == Uncancelled(loops) + {l}
    ensures l !in Uncancelled(loops)
  {
  }

  lemma RemoveCounts(c: Collector, id: nat)
    requires Counted(c)
    ensures Counted(Apply(c, Remove(id)))
  {
    var c' := Apply(c, Remove(id));
    if id in c.senders {
      assert (c.senders - {id}).Keys == c.senders.Keys - {id};
      if c.refs == 1 {
        assert Uncancelled(c'.loops) == Uncancelled(c.loops) - {c.cancel.value};
      } else {
        assert Uncancelled(c'.loops) == Uncancelled(c.loops);
      }
    }
  }

  lemma BroadcastCounts(c: Collector, l: nat, failed: set<nat>, lost: set<nat>)
    requires Counted(c)
    ensures Counted(Apply(c, Broadcast(l, failed, lost)))
  {
    hide Deliver, Merge, Uncancelled;
    if l in c.loops && c.loops[l].tick.Some? {
      var c' := BroadcastBy(c, l, failed, lost);
      Removed(c.senders.Keys, failed * c.senders.Keys);
      assert |c'.senders| == |c'.senders.Keys| == c'.refs;
      TickTaken(c.loops, l);
    }
  }

  lemma TickTaken(loops: map<nat, Loop>, l: nat)
    requires l in loops
    ensures Uncancelled(loops[l := loops[l].(tick := None)]) == Uncancelled(loops)
  {
  }

  lemma Removed(all: set<nat>, gone: set<nat>)
    requires gone <= all
    ensures |all - gone| == |all| - |gone|
    ensures |all| == |gone| <==> gone == all
  {
    if gone != all {
      Proper(gone, all);
    }
  }

  lemma Proper(a: set<nat>, b: set<nat>)
    requires a <= b && a != b
    ensures |a| < |b|
  {
    var x :| x in b && x !in a;
    assert |b - a| + |a| == |b|;
    assert x in b - a;
  }

  lemma StepCounts(c: Collector, s: Step)
    requires Counted(c)
    ensures Counted(Apply(c, s))
  {
    hide Counted, Apply;
    match s
    case Add(arrives) => AddCounts(c, arrives);
    case Remove(id) => RemoveCounts(c, id);
    case Sample(l, snap) => SampleCounts(c, l, snap);
    case Broadcast(l, failed, lost) => BroadcastCounts(c, l, failed, lost);
    case LoopExits(l) => ExitCounts(c, l);
  }

  lemma SampleCounts(c: Collector, l: nat, snap: Snapshot)
    requires Counted(c)
    ensures Counted(Apply(c, Sample(l, snap)))
  {
    hide ToDelta;
    assert Uncancelled(Apply(c, Sample(l, snap)).loops) == Uncancelled(c.loops);
  }

  lemma ExitCounts(c: Collector, l: nat)
    requires Counted(c)
    ensures Counted(Apply(c, LoopExits(l)))
  {
    assert Uncancelled(Apply(c, LoopExits(l)).loops) == Uncancelled(c.loops);
  }

  /** In every run refs counts the senders, a loop runs whenever there is one, and
      each drain leaks exactly one loop that nothing will ever cancel. */
  lemma {:induction false} LoopsConserved(kernel: string, hostname: string, steps: seq<Step>)
    ensures Counted(RunFrom(New(kernel, hostname), steps))
  {
    if steps == [] {
      assert Uncancelled(New(kernel, hostname).loops) == {};
    } else {
      LoopsConserved(kernel, hostname, steps[..|steps| - 1]);
      StepCounts(RunFrom(New(kernel, hostname), steps[..|steps| - 1]), steps[|steps| - 1]);
    }
  }

  /** At most one loop that has not been told to stop, and none when idle: exactly
      as long as failed sends never emptied the map. */
  lemma OneLoopWithoutDrains(kernel: string, hostname: string, steps: seq<Step>)
    ensures var c := RunFrom(New(kernel, hostname), steps);
            && (|Uncancelled(c.loops)| <= 1 && (c.refs == 0 ==> Uncancelled(c.loops) == {})
                <==> c.drains == 0)
  {
    LoopsConserved(kernel, hostname, steps);
  }

  // ---------------------------------------------------------------------
  // Who is a sender, and when the last loop ends

  function Adds(steps: seq<Step>): nat
  {
    if steps == [] then 0
    else Adds(steps[..|steps| - 1]) + if steps[|steps| - 1].Add? then 1 else 0
  }

  /** The id came with an Add, and neither a Remove nor a failed send came after it. */
  ghost predicate Joined(c: Collector, steps: seq<Step>, id: nat)
  {
    steps != []
    && var front := steps[..|steps| - 1];
       match steps[|steps| - 1]
       case Add(_) => id == Adds(steps) || Joined(c, front, id)
       case Remove(i) => i != id && Joined(c, front, id)
       case Broadcast(l, failed, _) =>
         Joined(c, front, id)
         && !(id in failed && l in RunFrom(c, front).loops && RunFrom(c, front).loops[l].tick.Some?)
       case _ => Joined(c, front, id)
  }

  /** In every run the senders are exactly those that joined and did not leave. */
  lemma {:induction false} SendersExactly(kernel: string, hostname: string, steps: seq<Step>, id: nat)
    ensures var c := RunFrom(New(kernel, hostname), steps);
            c.nextId == Adds(steps) && (id in c.senders <==> Joined(New(kernel, hostname), steps, id))
  {
    hide ToDelta, Merge, Deliver;
    if steps != [] {
      SendersExactly(kernel, hostname, steps[..|steps| - 1], id);
      SendersAfter(RunFrom(New(kernel, hostname), steps[..|steps| - 1]), steps[|steps| - 1], id);
      hide Apply;
    }
  }

  lemma SendersAfter(c: Collector, s: Step, id: nat)
    ensures var r := Apply(c, s);
            && r.nextId == c.nextId + (if s.Add? then 1 else 0)
            && (id in r.senders <==>
                  match s
                  case Add(_) => id == c.nextId + 1 || id in c.senders
                  case Remove(i) => id != i && id in c.senders
                  case Broadcast(l, failed, _) =>
                    id in c.senders && !(id in failed && l in c.loops && c.loops[l].tick.Some?)
                  case _ => id in c.senders)
  {
    hide ToDelta, Merge, Deliver;
  }

  ghost predicate NoAdd(steps: seq<Step>)
  {
    forall s | s in steps :: !s.Add?
  }

  /** The goroutines can all end without anybody joining. */
  ghost predicate WindsDown(c: Collector)
  {
    exists later :: NoAdd(later) && RunFrom(c, later).loops == map[]
  }

  /** Once the last sender has left, every loop can end exactly if failed sends never
      emptied the map: a loop leaked by a drain runs for ever. */
  lemma IdleWindsDownExactly(kernel: string, hostname: string, steps: seq<Step>)
    requires RunFrom(New(kernel, hostname), steps).refs == 0
    ensures WindsDown(RunFrom(New(kernel, hostname), steps))
            <==> RunFrom(New(kernel, hostname), steps).drains == 0
  {
    LoopsConserved(kernel, hostname, steps);
    hide RunFrom, Uncancelled, Apply;
    var c := RunFrom(New(kernel, hostname), steps);
    if c.drains == 0 {
      var later := WindDown(c);
    } else {
      forall later | NoAdd(later)
        ensures RunFrom(c, later).loops != map[]
      {
        LeakStays(c, later);
        LeakedLoop(RunFrom(c, later));
      }
    }
  }

  lemma LeakedLoop(c: Collector)
    requires Counted(c) && c.drains > 0
    ensures c.loops != map[]
  {
  }

  lemma {:induction false} LeakStays(c: Collector, later: seq<Step>)
    requires Counted(c) && c.refs == 0 && NoAdd(later)
    ensures var r := RunFrom(c, later); Counted(r) && r.refs == 0 && r.drains >= c.drains
  {
    hide Apply, Counted;
    if later != [] {
      var front, s := later[..|later| - 1], later[|later| - 1];
      assert s in later && forall x | x in front :: x in later;
      LeakStays(c, front);
      StepCounts(RunFrom(c, front), s);
      IdleStep(RunFrom(c, front), s);
    }
  }

  lemma IdleStep(c: Collector, s: Step)
    requires Counted(c) && c.refs == 0 && !s.Add?
    ensures Apply(c, s).refs == 0 && Apply(c, s).drains >= c.drains
  {
    hide ToDelta, Merge, Deliver, Uncancelled;
    assert c.senders == map[];
    if s.Broadcast? {
      assert s.failed * c.senders.Keys == {};
    }
  }

  lemma {:induction false} WindDown(c: Collector) returns (later: seq<Step>)
    requires Counted(c) && c.refs == 0 && c.drains == 0
    ensures NoAdd(later) && RunFrom(c, later).loops == map[]
    decreases |c.loops|
  {
    hide Counted, Apply, RunFrom;
    if c.loops == map[] {
      assert RunFrom(c, []) == c by { RunNone(c); }
      return [];
    }
    var l: nat :| l in c.loops;
    var c1, c2 := Apply(c, Broadcast(l, {}, {})), Apply(Apply(c, Broadcast(l, {}, {})), LoopExits(l));
    StepCounts(c, Broadcast(l, {}, {}));
    StepCounts(c1, LoopExits(l));
    LoopEnds(c, l);
    var rest := WindDown(c2);
    RunCons(c1, LoopExits(l), rest);
    RunCons(c, Broadcast(l, {}, {}), [LoopExits(l)] + rest);
    later := [Broadcast(l, {}, {})] + ([LoopExits(l)] + rest);
  }

  lemma RunNone(c: Collector)
    ensures RunFrom(c, []) == c
  {
  }

  /** An idle loop finishes its tick, if it is in one, and exits. */
  lemma LoopEnds(c: Collector, l: nat)
    requires Counted(c) && c.refs == 0 && c.drains == 0 && l in c.loops
    ensures var r := Apply(Apply(c, Broadcast(l, {}, {})), LoopExits(l));
            r.loops == c.loops - {l} && r.refs == 0 && r.drains == 0 && |r.loops| < |c.loops|
  {
    hide ToDelta, Merge, Deliver;
    assert Uncancelled(c.loops) == {};
    assert l !in Uncancelled(c.loops);
    assert {} * c.senders.Keys == {};
    assert (c.loops - {l}).Keys == c.loops.Keys - {l};
  }

  lemma {:induction false} RunCons(c: Collector, s: Step, later: seq<Step>)
    ensures RunFrom(c, [s] + later) == RunFrom(Apply(c, s), later)
  {
    hide Apply;
    var all := [s] + later;
    if later == [] {
      assert all[..0] == [];
    } else {
      RunCons(c, s, later[..|later| - 1]);
      assert all[..|all| - 1] == [s] + later[..|later| - 1];
    }
  }

  // ---------------------------------------------------------------------
  // What browsers show

  /** A tick carries the strings, or finds them unchanged. */
  predicate GoodTick(c: Collector, t: Tick)
  {
    Collected(c, t.snap) && (t.delta == ToDelta(t.snap, ZERO) || t.delta == ToDelta(t.snap, t.snap))
  }

  predicate CarriesStrings(l: Loop)
  {
    l.tick.Some? && l.tick.value.delta.kernel.Some?
  }

  predicate KnowsStrings(c: Collector, shown: Partial)
  {
    shown.kernel == Some(c.kernel) && shown.hostname == Some(c.hostname)
  }

  ghost predicate Ticks(c: Collector)
  {
    && (c.last == ZERO || Collected(c, c.last))
    && (forall l | l in c.loops && c.loops[l].tick.Some? :: GoodTick(c, c.loops[l].tick.value) && c.last != ZERO)
    && (c.lastBy in c.loops && c.loops[c.lastBy].tick.Some? ==> c.loops[c.lastBy].tick.value.snap == c.last)
    && (forall l | l in c.loops :: l < c.nextLoop)
  }

  /** The strings reached this sender, or are on their way, or it is one of the
      senders that may never get them. */
  ghost predicate Informed(c: Collector, id: nat)
    requires id in c.senders
  {
    || KnowsStrings(c, c.senders[id])
    || id in c.restarters
    || id in c.missed
    || c.last == ZERO
    || exists l | l in c.loops :: CarriesStrings(c.loops[l])
  }

  ghost predicate AllInformed(c: Collector)
  {
    c.kernel != "" && c.hostname != "" && Ticks(c) && forall id | id in c.senders :: Informed(c, id)
  }

  lemma SampleInforms(c: Collector, l: nat, snap: Snapshot)
    requires AllInformed(c)
    ensures AllInformed(Apply(c, Sample(l, snap)))
  {
    var c' := Apply(c, Sample(l, snap));
    if l in c.loops && c.loops[l].tick.None? && Collected(c, snap) {
      if c.last == ZERO {
        assert CarriesStrings(c'.loops[l]);
      } else {
        assert ToDelta(snap, c.last) == ToDelta(snap, snap);
        forall id | id in c.senders
          ensures Informed(c', id)
        {
          assert Informed(c, id);
          if k :| k in c.loops && CarriesStrings(c.loops[k]) {
            assert CarriesStrings(c'.loops[k]);
          }
        }
      }
    }
  }

  lemma BroadcastInforms(c: Collector, l: nat, failed: set<nat>, lost: set<nat>)
    requires AllInformed(c)
    ensures AllInformed(Apply(c, Broadcast(l, failed, lost)))
  {
    hide Deliver, ToDelta;
    var c' := Apply(c, Broadcast(l, failed, lost));
    if l in c.loops && c.loops[l].tick.Some? {
      var t := c.loops[l].tick.value;
      forall id | id in c'.senders
        ensures Informed(c', id)
      {
        assert Informed(c, id);
        MergeStrings(c, c.senders[id], t);
        if k :| k in c.loops && CarriesStrings(c.loops[k]) {
          if k != l {
            assert CarriesStrings(c'.loops[k]);
          }
        }
      }
    }
  }

  /** Merging a tick: numbers become the tick's; strings arrive or stay. */
  lemma MergeStrings(c: Collector, shown: Partial, t: Tick)
    requires GoodTick(c, t)
    ensures var m := Merge(shown, t.delta);
            && m == Exactly(t.snap).(kernel := m.kernel, hostname := m.hostname)
            && (KnowsStrings(c, shown) || (t.delta.kernel.Some? && c.hostname != "") ==> m == Exactly(t.snap))
            && (t.delta.kernel.None? ==> m.kernel == shown.kernel)
  {
  }

  lemma StepInforms(c: Collector, s: Step)
    requires AllInformed(c)
    ensures AllInformed(Apply(c, s))
  {
    match s
    case Add(arrives) => AddInforms(c, arrives);
    case Remove(id) => RemoveInforms(c, id);
    case Sample(l, snap) => SampleInforms(c, l, snap);
    case Broadcast(l, failed, lost) => BroadcastInforms(c, l, failed, lost);
    case LoopExits(l) => ExitInforms(c, l);
  }

  lemma AddInforms(c: Collector, arrives: bool)
    requires AllInformed(c)
    ensures AllInformed(Apply(c, Add(arrives)))
  {
    var c' := Apply(c, Add(arrives));
    forall id | id in c'.senders
      ensures Informed(c', id)
    {
      if id != c.nextId + 1 {
        assert Informed(c, id);
        if k :| k in c.loops && CarriesStrings(c.loops[k]) {
          assert CarriesStrings(c'.loops[k]);
        }
      }
    }
  }

  lemma RemoveInforms(c: Collector, id: nat)
    requires AllInformed(c)
    ensures AllInformed(Apply(c, Remove(id)))
  {
    hide ToDelta;
    var c' := Apply(c, Remove(id));
    forall x | x in c'.senders
      ensures Informed(c', x)
    {
      assert Informed(c, x);
      if k :| k in c.loops && CarriesStrings(c.loops[k]) {
        assert CarriesStrings(c'.loops[k]);
      }
    }
  }

  lemma ExitInforms(c: Collector, l: nat)
    requires AllInformed(c)
    ensures AllInformed(Apply(c, LoopExits(l)))
  {
    hide ToDelta;
    var c' := Apply(c, LoopExits(l));
    forall x | x in c'.senders
      ensures Informed(c', x)
    {
      assert Informed(c, x);
      if k :| k in c.loops && CarriesStrings(c.loops[k]) {
        assert k in c'.loops && CarriesStrings(c'.loops[k]);
      }
    }
  }

  lemma {:induction false} RunInforms(kernel: string, hostname: string, steps: seq<Step>)
    requires kernel != "" && hostname != ""
    ensures AllInformed(RunFrom(New(kernel, hostname), steps))
  {
    if steps != [] {
      RunInforms(kernel, hostname, steps[..|steps| - 1]);
      StepInforms(RunFrom(New(kernel, hostname), steps[..|steps| - 1]), steps[|steps| - 1]);
    }
  }

  /** After a broadcast of the newest snapshot, in every run and whatever happened
      between its two critical sections: every sender that got the frame shows
      exactly the snapshot's numbers; and it shows exactly the snapshot, strings
      included, unless it restarted the collector, ever lost a frame, or the
      strings are still in another loop's hands. */
  lemma BroadcastReconstructs(kernel: string, hostname: string, steps: seq<Step>,
                              l: nat, failed: set<nat>, lost: set<nat>, id: nat)
    requires kernel != "" && hostname != ""
    requires var c := RunFrom(New(kernel, hostname), steps);
             && l in c.loops && c.loops[l].tick.Some? && l == c.lastBy
             && id in c.senders && id !in failed && id !in lost
    ensures var c := RunFrom(New(kernel, hostname), steps);
            var c' := RunFrom(New(kernel, hostname), steps + [Broadcast(l, failed, lost)]);
            && c'.last == c.last && id in c'.senders
            && c'.senders[id] == Exactly(c.last).(kernel := c'.senders[id].kernel, hostname := c'.senders[id].hostname)
            && (id !in c.restarters && id !in c.missed
                && (forall k | k in c.loops && k != l :: !CarriesStrings(c.loops[k]))
                ==> c'.senders[id] == Exactly(c.last))
  {
    assert (steps + [Broadcast(l, failed, lost)])[..|steps|] == steps;
    RunInforms(kernel, hostname, steps);
    KernelFixed(kernel, hostname, steps);
    hide Deliver, ToDelta, RunFrom, Merge;
    var c := RunFrom(New(kernel, hostname), steps);
    assert Informed(c, id);
    MergeStrings(c, c.senders[id], c.loops[l].tick.value);
    StringsOfTick(c, l);
  }

  lemma StringsOfTick(c: Collector, l: nat)
    requires Ticks(c) && l in c.loops && c.loops[l].tick.Some?
    ensures c.last != ZERO && GoodTick(c, c.loops[l].tick.value)
  {
  }

  lemma {:induction false} KernelFixed(kernel: string, hostname: string, steps: seq<Step>)
    ensures var c := RunFrom(New(kernel, hostname), steps); c.kernel == kernel && c.hostname == hostname
  {
    if steps != [] {
      KernelFixed(kernel, hostname, steps[..|steps| - 1]);
    }
  }

  /** No two loops ever coexist: each one has exited before the next starts. */
  ghost predicate OneAtATime(c: Collector, steps: seq<Step>)
  {
    && Alone(RunFrom(c, steps))
    && (steps != [] ==> OneAtATime(c, steps[..|steps| - 1]))
  }

  ghost predicate Alone(c: Collector)
  {
    forall l, k | l in c.loops && k in c.loops :: l == k
  }

  ghost predicate TickIsNewest(c: Collector)
  {
    forall l | l in c.loops && c.loops[l].tick.Some? :: l == c.lastBy
  }

  lemma LoneStep(c: Collector, s: Step)
    requires Counted(c) && TickIsNewest(c) && Alone(Apply(c, s))
    ensures TickIsNewest(Apply(c, s))
  {
    hide ToDelta, Deliver, Merge, Uncancelled;
    match s
    case Add(arrives) =>
      assert c.refs + 1 == 1 ==> c.nextLoop in AddTo(c, arrives).loops;
    case Remove(id) =>
      assert RemoveFrom(c, id).loops.Keys == c.loops.Keys;
    case Sample(l, snap) =>
      assert l in c.loops ==> l in Apply(c, s).loops;
    case Broadcast(l, failed, lost) =>
      if l in c.loops && c.loops[l].tick.Some? {
        TickEnds(c, BroadcastBy(c, l, failed, lost), l);
        hide BroadcastBy, Counted;
      }
    case LoopExits(l) =>
  }

  lemma TickEnds(c: Collector, r: Collector, l: nat)
    requires TickIsNewest(c) && l in c.loops
    requires r.loops == c.loops[l := c.loops[l].(tick := None)] && r.lastBy == c.lastBy
    ensures TickIsNewest(r)
  {
  }

  lemma {:induction false} LoneTickIsNewest(kernel: string, hostname: string, steps: seq<Step>)
    requires OneAtATime(New(kernel, hostname), steps)
    ensures TickIsNewest(RunFrom(New(kernel, hostname), steps))
  {
    hide ToDelta, Deliver, Merge, Apply, Alone, TickIsNewest, Counted;
    if steps != [] {
      LoneTickIsNewest(kernel, hostname, steps[..|steps| - 1]);
      LoopsConserved(kernel, hostname, steps[..|steps| - 1]);
      LoneStep(RunFrom(New(kernel, hostname), steps[..|steps| - 1]), steps[|steps| - 1]);
    } else {
      NoTicksYet(kernel, hostname);
    }
  }

  lemma NoTicksYet(kernel: string, hostname: string)
    ensures TickIsNewest(New(kernel, hostname))
  {
  }

  /** With one loop at a time, every broadcast leaves every sender that has lost
      nothing, and did not restart the collector, showing exactly the last snapshot. */
  lemma OneLoopReconstructs(kernel: string, hostname: string, steps: seq<Step>,
                            l: nat, failed: set<nat>, lost: set<nat>, id: nat)
    requires kernel != "" && hostname != "" && OneAtATime(New(kernel, hostname), steps)
    requires var c := RunFrom(New(kernel, hostname), steps);
             && l in c.loops && c.loops[l].tick.Some?
             && id in c.senders && id !in failed && id !in lost && id !in c.missed && id !in c.restarters
    ensures var c := RunFrom(New(kernel, hostname), steps);
            var c' := RunFrom(New(kernel, hostname), steps + [Broadcast(l, failed, lost)]);
            id in c'.senders && c'.senders[id] == Exactly(c.last) && c'.last == c.last
  {
    hide RunFrom;
    LoneTickIsNewest(kernel, hostname, steps);
    BroadcastReconstructs(kernel, hostname, steps, l, failed, lost, id);
  }

  /** Whoever joins a collector that has a snapshot and is in use, and gets the first
      frame, shows exactly the last snapshot at once; nobody else changes. */
  lemma JoinerShowsLast(kernel: string, hostname: string, steps: seq<Step>)
    requires kernel != "" && hostname != ""
    requires var c := RunFrom(New(kernel, hostname), steps); c.refs > 0 && c.last != ZERO
    ensures var c := RunFrom(New(kernel, hostname), steps);
            var c' := RunFrom(New(kernel, hostname), steps + [Add(true)]);
            && c'.senders == c.senders[c.nextId + 1 := Exactly(c.last)]
            && c'.last == c.last && c'.loops == c.loops && c'.missed == c.missed && c'.restarters == c.restarters
  {
    RunSnoc(New(kernel, hostname), steps, Add(true));
    TicksInRun(kernel, hostname, steps);
    KernelFixed(kernel, hostname, steps);
    hide RunFrom, New, ToDelta, Exactly, Ticks, Apply;
    JoinerGets(RunFrom(New(kernel, hostname), steps));
  }

  lemma JoinerGets(c: Collector)
    requires Ticks(c) && c.refs > 0 && c.last != ZERO && c.kernel != "" && c.hostname != ""
    ensures var r := Apply(c, Add(true));
            && r.senders == c.senders[c.nextId + 1 := Exactly(c.last)]
            && r.last == c.last && r.loops == c.loops && r.missed == c.missed && r.restarters == c.restarters
  {
    FullDelta(c);
    FirstFrame(c);
    hide ToDelta, Exactly, Ticks, AddTo;
  }

  lemma FirstFrame(c: Collector)
    requires c.refs > 0 && c.last.ramTotal > 0
    ensures AddTo(c, true)
            == c.(senders := c.senders[c.nextId + 1 := ToDelta(c.last, ZERO)], nextId := c.nextId + 1,
                  refs := c.refs + 1)
  {
    hide ToDelta;
  }

  /** A delta against nothing is the whole snapshot. */
  lemma FullDelta(c: Collector)
    requires Ticks(c) && c.last != ZERO && c.kernel != "" && c.hostname != ""
    ensures ToDelta(c.last, ZERO) == Exactly(c.last) && c.last.ramTotal > 0
  {
  }

  /** A broadcast changes nothing for a sender whose frame is lost, and everything it does
      to a sender it does through its frame. */
  lemma LostFrameChangesNothing(kernel: string, hostname: string, steps: seq<Step>,
                                l: nat, failed: set<nat>, lost: set<nat>, id: nat)
    requires id in RunFrom(New(kernel, hostname), steps).senders && id in lost && id !in failed
    ensures var c := RunFrom(New(kernel, hostname), steps);
            var c' := RunFrom(New(kernel, hostname), steps + [Broadcast(l, failed, lost)]);
            id in c'.senders && c'.senders[id] == c.senders[id]
  {
    hide Deliver, ToDelta, Merge;
    assert (steps + [Broadcast(l, failed, lost)])[..|steps|] == steps;
  }

  // ---------------------------------------------------------------------
  // The sender that restarts the collector

  ghost predicate Blank(c: Collector, id: nat)
  {
    && Ticks(c) && c.last != ZERO && c.kernel != "" && id <= c.nextId
    && (forall l | l in c.loops :: !CarriesStrings(c.loops[l]))
    && (id in c.senders ==> c.senders[id].kernel == None && c.senders[id].hostname == None)
  }

  lemma SampleStaysBlank(c: Collector, l: nat, snap: Snapshot, id: nat)
    requires Blank(c, id)
    ensures Blank(Apply(c, Sample(l, snap)), id)
  {
    if l in c.loops && c.loops[l].tick.None? && Collected(c, snap) {
      assert ToDelta(snap, c.last) == ToDelta(snap, snap);
      assert ToDelta(snap, snap).kernel == None;
    }
  }

  /** A tick without the kernel has no hostname either. */
  lemma QuietTick(c: Collector, l: nat)
    requires Ticks(c) && c.kernel != "" && l in c.loops && c.loops[l].tick.Some? && !CarriesStrings(c.loops[l])
    ensures c.loops[l].tick.value.delta.kernel == None && c.loops[l].tick.value.delta.hostname == None
  {
    assert GoodTick(c, c.loops[l].tick.value);
  }

  lemma BroadcastStaysBlank(c: Collector, l: nat, failed: set<nat>, lost: set<nat>, id: nat)
    requires Blank(c, id)
    ensures Blank(Apply(c, Broadcast(l, failed, lost)), id)
  {
    if l in c.loops && c.loops[l].tick.Some? {
      QuietTick(c, l);
      hide Deliver, ToDelta, GoodTick, Collected;
      var r := BroadcastBy(c, l, failed, lost);
      TickGone(c, r, l);
      assert id in r.senders ==> id in c.senders;
      hide BroadcastBy, Ticks, CarriesStrings;
    }
  }

  lemma TickGone(c: Collector, r: Collector, l: nat)
    requires Ticks(c) && l in c.loops
    requires r == c.(senders := r.senders, refs := r.refs, loops := c.loops[l := c.loops[l].(tick := None)],
                     drains := r.drains, missed := r.missed)
    ensures Ticks(r)
    ensures (forall k | k in c.loops :: !CarriesStrings(c.loops[k])) ==>
              forall k | k in r.loops :: !CarriesStrings(r.loops[k])
  {
    hide ToDelta;
  }

  lemma StaysBlank(c: Collector, s: Step, id: nat)
    requires Blank(c, id)
    ensures Blank(Apply(c, s), id)
  {
    hide Deliver, ToDelta;
    match s
    case Broadcast(l, failed, lost) => BroadcastStaysBlank(c, l, failed, lost, id);
    case Sample(l, snap) => SampleStaysBlank(c, l, snap, id);
    case _ =>
  }

  lemma {:induction false} StaysBlankForever(c: Collector, steps: seq<Step>, id: nat)
    requires Blank(c, id)
    ensures Blank(RunFrom(c, steps), id)
  {
    if steps != [] {
      StaysBlankForever(c, steps[..|steps| - 1], id);
      StaysBlank(RunFrom(c, steps[..|steps| - 1]), steps[|steps| - 1], id);
    }
  }

  /** However long the sender stays, it shows neither kernel nor hostname. */
  ghost predicate NeverLearns(c: Collector, id: nat)
  {
    forall after :: Uninformed(RunFrom(c, after), id)
  }

  ghost predicate Uninformed(c: Collector, id: nat)
  {
    id in c.senders ==> c.senders[id].kernel == None && c.senders[id].hostname == None
  }

  /** The other side of BroadcastReconstructs: a sender that restarts an idle collector
      is never told kernel or hostname, however long it stays, exactly when the
      collector already has a snapshot and no loop is about to broadcast the strings. */
  lemma RestarterNeverLearns(kernel: string, hostname: string, before: seq<Step>, arrives: bool)
    requires kernel != "" && hostname != ""
    requires RunFrom(New(kernel, hostname), before).refs == 0
    ensures var c := RunFrom(New(kernel, hostname), before);
            var id := c.nextId + 1;
            var c1 := Apply(c, Add(arrives));
            && id in c1.senders && (c.last != ZERO ==> id in c1.restarters)
            && (NeverLearns(c1, id) <==> c.last != ZERO && forall l | l in c.loops :: !CarriesStrings(c.loops[l]))
  {
    TicksInRun(kernel, hostname, before);
    hide ToDelta, Deliver, RunFrom, Blank, Apply, New, Ticks, CarriesStrings, Uninformed, NeverLearns;
    var c := RunFrom(New(kernel, hostname), before);
    var id, c1 := c.nextId + 1, Apply(c, Add(arrives));
    Restarts(c, arrives);
    if c.last == ZERO {
      FirstSampleTells(c, arrives);
    } else if l :| l in c.loops && CarriesStrings(c.loops[l]) {
      OldLoopTells(c, arrives, l);
    } else {
      RestartsBlank(c, arrives);
      BlankNeverLearns(c1, id);
    }
  }

  lemma BlankNeverLearns(c: Collector, id: nat)
    requires Blank(c, id)
    ensures NeverLearns(c, id)
  {
    hide Blank, Uninformed, RunFrom;
    forall after
      ensures Uninformed(RunFrom(c, after), id)
    {
      StaysBlankForever(c, after, id);
      BlankMeans(RunFrom(c, after), id);
    }
  }

  lemma Restarts(c: Collector, arrives: bool)
    requires Ticks(c) && c.refs == 0
    ensures c.nextId + 1 in Apply(c, Add(arrives)).senders
    ensures c.last != ZERO ==> c.nextId + 1 in Apply(c, Add(arrives)).restarters
  {
  }

  /** A loop that was sampled before the collector stopped still broadcasts. */
  lemma OldLoopTells(c: Collector, arrives: bool, l: nat)
    requires Ticks(c) && c.refs == 0 && l in c.loops && CarriesStrings(c.loops[l])
    ensures !NeverLearns(Apply(c, Add(arrives)), c.nextId + 1)
  {
    hide ToDelta, Merge;
    var c1, id := Apply(c, Add(arrives)), c.nextId + 1;
    Tells(c1, id, l);
    RunOne(c1, Broadcast(l, {}, {}));
    assert !Uninformed(RunFrom(c1, [Broadcast(l, {}, {})]), id);
  }

  /** A broadcast of the strings that reaches everybody. */
  lemma Tells(c: Collector, id: nat, l: nat)
    requires id in c.senders && l in c.loops && CarriesStrings(c.loops[l])
    ensures !Uninformed(Apply(c, Broadcast(l, {}, {})), id)
  {
    hide ToDelta;
    var r := Apply(c, Broadcast(l, {}, {}));
    assert {} * c.senders.Keys == {};
    assert id in r.senders && r.senders[id] == Merge(c.senders[id], c.loops[l].tick.value.delta);
  }

  /** A collector without a snapshot sends all of the next one. */
  lemma FirstSampleTells(c: Collector, arrives: bool)
    requires Ticks(c) && c.refs == 0 && c.last == ZERO && c.kernel != ""
    ensures !NeverLearns(Apply(c, Add(arrives)), c.nextId + 1)
  {
    var c1, id, l := Apply(c, Add(arrives)), c.nextId + 1, c.nextLoop;
    var snap := ZERO.(kernel := c.kernel, hostname := c.hostname, loadAvg := [0.0, 0.0, 0.0], ramTotal := 1);
    var c2 := Apply(c1, Sample(l, snap));
    assert l in c2.loops && CarriesStrings(c2.loops[l]) && id in c2.senders;
    hide Apply, ToDelta, Uninformed;
    Tells(c2, id, l);
    RunOne(c1, Sample(l, snap));
    RunSnoc(c1, [Sample(l, snap)], Broadcast(l, {}, {}));
    assert !Uninformed(RunFrom(c1, [Sample(l, snap)] + [Broadcast(l, {}, {})]), id);
  }

  lemma RunOne(c: Collector, s: Step)
    ensures RunFrom(c, [s]) == Apply(c, s)
  {
    assert [s][..0] == [];
    assert RunFrom(c, []) == c;
  }

  lemma TicksInRun(kernel: string, hostname: string, steps: seq<Step>)
    requires kernel != "" && hostname != ""
    ensures Ticks(RunFrom(New(kernel, hostname), steps)) && RunFrom(New(kernel, hostname), steps).kernel == kernel
  {
    hide RunFrom, Ticks, Informed;
    RunInforms(kernel, hostname, steps);
    KernelFixed(kernel, hostname, steps);
  }

  lemma BlankMeans(c: Collector, id: nat)
    requires Blank(c, id)
    ensures Uninformed(c, id)
  {
  }

  lemma RestartsBlank(c: Collector, arrives: bool)
    requires Ticks(c) && c.refs == 0 && c.last != ZERO && c.kernel != ""
    requires forall l | l in c.loops :: !CarriesStrings(c.loops[l])
    ensures var c1 := Apply(c, Add(arrives));
            Blank(c1, c.nextId + 1) && c.nextId + 1 in c1.senders && c.nextId + 1 in c1.restarters
  {
    hide ToDelta;
  }

  /** Such a state exists: one browser came, saw a full tick, and left. */
  lemma RestartHappens(kernel: string, hostname: string, snap: Snapshot)
    requires kernel != "" && hostname != "" && Collected(New(kernel, hostname), snap)
    ensures var c := RunFrom(New(kernel, hostname), [Add(true), Sample(0, snap), Broadcast(0, {}, {}), Remove(1)]);
            c.refs == 0 && c.last == snap && (forall l | l in c.loops :: !CarriesStrings(c.loops[l]))
  {
    var c0 := New(kernel, hostname);
    var p1 := [Add(true)];
    var p2 := p1 + [Sample(0, snap)];
    var p3 := p2 + [Broadcast(0, {}, {})];
    assert RunFrom(c0, []) == c0;
    RunSnoc(c0, [], Add(true));
    RunSnoc(c0, p1, Sample(0, snap));
    RunSnoc(c0, p2, Broadcast(0, {}, {}));
    RunSnoc(c0, p3, Remove(1));
    assert [] + [Add(true)] == p1;
    assert [Add(true), Sample(0, snap), Broadcast(0, {}, {}), Remove(1)] == p3 + [Remove(1)];
    hide ToDelta, Merge, Deliver, RunFrom;
    var c3 := RunFrom(c0, p3);
    assert c3.senders.Keys == {1};
    assert c3.loops == map[0 := Loop(false, None)];
  }

  lemma RunSnoc(c: Collector, steps: seq<Step>, s: Step)
    ensures RunFrom(c, steps + [s]) == Apply(RunFrom(c, steps), s)
  {
    assert (steps + [s])[..|steps|] == steps;
  }

  // ---------------------------------------------------------------------
  // The objects

  /** What the hub of one browser and the browser behind it do with a frame. */
  datatype Delivery = Arrives | Vanishes | Fails

  class Browser {
    var shown: Partial

    constructor ()
      ensures shown == NOTHING
    {
      shown := NOTHING;
    }

    /** Send reports an error only when the hub is closed; a full queue is silent. */
    method Send(d: Partial, outcome: Delivery) returns (ok: bool)
      modifies this
      ensures ok <==> outcome != Fails
      ensures shown == if outcome == Arrives then Merge(old(shown), d) else old(shown)
    {
      if outcome == Arrives {
        shown := Merge(shown, d);
      }
      ok := outcome != Fails;
    }
  }

  class StatsCollector {
    const kernel: string
    const hostname: string
    var senders: map<nat, Browser>
    var refs: int
    var cancel: Option<nat>
    var last: Snapshot
    var idGen: nat
    // the goroutines
    var loops: map<nat, Loop>
    var nextLoop: nat
    ghost var drains: nat
    ghost var restarters: set<nat>
    ghost var missed: set<nat>
    ghost var lastBy: nat

    ghost predicate Valid()
      reads this
    {
      && Distinct(senders)
      && (forall id | id in senders :: id <= idGen)
    }

    ghost function View(): Collector
      reads this, senders.Values
    {
      Collector(kernel, hostname, Shown(senders), refs, cancel, last, loops, idGen, nextLoop,
                drains, restarters, missed, lastBy)
    }

    constructor (kernel: string, hostname: string)
      ensures Valid() && View() == New(kernel, hostname)
    {
      this.kernel, this.hostname := kernel, hostname;
      senders, refs, cancel, last, idGen, loops, nextLoop := map[], 0, None, ZERO, 0, map[], 0;
      drains, restarters, missed, lastBy := 0, {}, {}, 0;
    }

    method Add(b: Browser, arrives: bool) returns (id: nat)
      requires Valid() && b !in senders.Values && b.shown == NOTHING
      modifies this, b
      ensures Valid() && id == old(idGen) + 1
      ensures View() == AddTo(old(View()), arrives)
    {
      hide View, Shown, ToDelta, Merge, Distinct;
      id := Enter(b);
      if refs == 1 {
        StartLoop(id);
      } else if last.ramTotal > 0 {
        SendFirst(id, b, arrives);
      }
    }

    method StartLoop(id: nat)
      requires Valid()
      modifies this`loops, this`cancel, this`nextLoop, this`restarters
      ensures Valid()
      ensures View() == var c := old(View());
                        c.(loops := c.loops[c.nextLoop := Loop(false, None)],
                           cancel := Some(c.nextLoop), nextLoop := c.nextLoop + 1,
                           restarters := if c.last.ramTotal > 0 then c.restarters + {id} else c.restarters)
    {
      hide Shown;
      loops := loops[nextLoop := Loop(false, None)];
      cancel := Some(nextLoop);
      nextLoop := nextLoop + 1;
      restarters := if last.ramTotal > 0 then restarters + {id} else restarters;
    }

    method Enter(b: Browser) returns (id: nat)
      requires Valid() && b !in senders.Values && b.shown == NOTHING
      modifies this`senders, this`refs, this`idGen
      ensures Valid() && id == old(idGen) + 1 && id in senders && senders[id] == b
      ensures View() == old(View()).(nextId := id, refs := refs, senders := old(Shown(senders))[id := NOTHING])
      ensures old(View()).refs + 1 == refs && old(View()).last == last && old(View()).nextId == old(idGen)
      ensures old(View()).senders == old(Shown(senders))
    {
      hide Shown;
      assert forall k | k in senders :: senders[k] in senders.Values;
      ghost var was := Shown(senders);
      id := idGen + 1;
      idGen := id;
      senders := senders[id := b];
      refs := refs + 1;
      assert Shown(senders) == was[id := NOTHING];
    }

    method SendFirst(id: nat, b: Browser, arrives: bool)
      requires Valid() && id in senders && senders[id] == b && b.shown == NOTHING
      modifies this`missed, b
      ensures Valid()
      ensures View() == var c := old(View());
                        c.(senders := c.senders[id := if arrives then ToDelta(c.last, ZERO) else NOTHING],
                           missed := if arrives then c.missed else c.missed + {id})
    {
      hide Shown;
      ghost var was := Shown(senders);
      var _ := b.Send(ToDelta(last, ZERO), if arrives then Arrives else Vanishes);
      missed := if arrives then missed else missed + {id};
      assert Merge(NOTHING, ToDelta(last, ZERO)) == ToDelta(last, ZERO);
      assert Shown(senders) == was[id := b.shown];
    }

    method Remove(id: nat)
      requires Valid()
      modifies this
      ensures Valid()
      ensures View() == RemoveFrom(old(View()), id)
    {
      hide Shown, Distinct;
      if id !in senders {
        return;
      }
      Forget(id);
      if refs == 0 && cancel.Some? {
        CancelLoop();
      }
    }

    method Forget(id: nat)
      requires Valid() && id in senders
      modifies this`senders, this`refs
      ensures Valid()
      ensures View() == old(View()).(senders := old(View()).senders - {id}, refs := old(refs) - 1)
    {
      hide Shown, Distinct;
      ghost var all := senders;
      OneLess(all, id);
      ghost var less := Shown(all - {id});
      senders := senders - {id};
      refs := refs - 1;
      assert Shown(senders) == less;
    }

    method CancelLoop()
      requires cancel.Some?
      modifies this`loops, this`cancel
      ensures View() == Stop(old(View()))
    {
      hide Shown;
      var l := cancel.value;
      if l in loops {
        loops := loops[l := loops[l].(cancelled := true)];
      }
      cancel := None;
    }

    /** The first critical section of a tick. */
    method Sample(l: nat, snap: Snapshot)
      requires Valid() && l in loops && loops[l].tick.None? && Collected(View(), snap)
      modifies this
      ensures Valid()
      ensures View() == SampleBy(old(View()), l, snap)
    {
      hide Shown, ToDelta, Distinct;
      var delta := ToDelta(snap, last);
      last := snap;
      loops := loops[l := loops[l].(tick := Some(Tick(snap, delta)))];
      lastBy := l;
    }

    /** The second critical section: the environment decides whose Send fails and
        whose frame is lost. */
    method Broadcast(l: nat, failed: set<nat>, lost: set<nat>)
      requires Valid() && refs == |senders| && l in loops && loops[l].tick.Some?
      modifies this, senders.Values
      ensures Valid()
      ensures View() == BroadcastBy(old(View()), l, failed, lost)
    {
      hide Shown, Deliver, Merge, Distinct;
      ghost var was, gone := View(), failed * senders.Keys;
      assert was.senders.Keys == senders.Keys;
      var d := loops[l].tick.value.delta;
      SendToAll(d, failed, lost);
      EndTick(l, gone, gone != {} && gone == was.senders.Keys, lost);
    }

    method EndTick(l: nat, ghost gone: set<nat>, ghost drained: bool, ghost lost: set<nat>)
      requires Valid() && l in loops
      modifies this`loops, this`drains, this`missed
      ensures Valid()
      ensures View() == var c := old(View());
                        c.(loops := c.loops[l := c.loops[l].(tick := None)],
                           drains := if drained then c.drains + 1 else c.drains,
                           missed := c.missed + lost)
    {
      hide Shown;
      loops := loops[l := loops[l].(tick := None)];
      drains := if drained then drains + 1 else drains;
      missed := missed + lost;
    }

    method SendToAll(d: Partial, failed: set<nat>, lost: set<nat>)
      requires Valid() && refs == |senders|
      modifies this`senders, this`refs, senders.Values
      ensures Valid()
      ensures View() == var c := old(View());
                        var gone := failed * c.senders.Keys;
                        c.(senders := Deliver(c.senders, d, gone, lost), refs := c.refs - |gone|)
    {
      hide Merge, Shown, Deliver, Distinct, Underway;
      ghost var was := Shown(senders);
      SendLoop(d, failed, lost);
      AllDone(Shown(senders), was, d, failed, lost);
    }

    method SendLoop(d: Partial, failed: set<nat>, lost: set<nat>)
      requires Valid() && refs == |senders|
      modifies this`senders, this`refs, senders.Values
      ensures Valid() && refs == |senders|
      ensures Underway(Shown(senders), old(Shown(senders)), {}, d, failed, lost)
    {
      hide Merge, Shown, Deliver, Distinct, Underway;
      ghost var all, was := senders, Shown(senders);
      var rest := senders.Keys;
      AboutToStart(was, d, failed, lost);
      while rest != {}
        invariant rest <= senders.Keys && Valid() && refs == |senders|
        invariant forall id | id in senders :: id in all && senders[id] == all[id]
        invariant Underway(Shown(senders), was, rest, d, failed, lost)
      {
        var id :| id in rest;
        var outcome := if id in failed then Fails else if id in lost then Vanishes else Arrives;
        OneMore(Shown(senders), was, rest, d, failed, lost, id);
        SendOne(id, d, outcome);
        rest := rest - {id};
      }
    }

    /** One iteration of the broadcast loop. */
    method SendOne(id: nat, d: Partial, outcome: Delivery)
      requires Valid() && refs == |senders| && id in senders
      modifies this`senders, this`refs, senders[id]
      ensures Valid() && refs == |senders|
      ensures senders == if outcome == Fails then old(senders) - {id} else old(senders)
      ensures Shown(senders) == match outcome
                                case Arrives => old(Shown(senders))[id := Merge(old(Shown(senders))[id], d)]
                                case Vanishes => old(Shown(senders))
                                case Fails => old(Shown(senders)) - {id}
    {
      hide Merge, Shown;
      ghost var all, was := senders, Shown(senders);
      var ok := senders[id].Send(d, outcome);
      assert forall k | k in all && k != id :: all[k] != all[id];
      assert Shown(senders) == if outcome == Arrives then was[id := Merge(was[id], d)] else was;
      if !ok {
        DropSender(id);
      }
    }

    method DropSender(id: nat)
      requires Valid() && refs == |senders| && id in senders
      modifies this`senders, this`refs
      ensures Valid() && refs == |senders|
      ensures senders == old(senders) - {id} && Shown(senders) == old(Shown(senders)) - {id}
    {
      hide Shown, Distinct;
      OneLess(senders, id);
      senders := senders - {id};
      refs := refs - 1;
    }
  }

  /** The broadcast loop with rest still to come. */
  ghost predicate Underway(m: map<nat, Partial>, was: map<nat, Partial>, rest: set<nat>,
                           d: Partial, failed: set<nat>, lost: set<nat>)
  {
    && m.Keys == was.Keys - (failed - rest)
    && forall id | id in m :: m[id] == if id in rest || id in lost then was[id] else Merge(was[id], d)
  }

  lemma AboutToStart(was: map<nat, Partial>, d: Partial, failed: set<nat>, lost: set<nat>)
    ensures Underway(was, was, was.Keys, d, failed, lost)
  {
  }

  lemma OneMore(m: map<nat, Partial>, was: map<nat, Partial>, rest: set<nat>,
                d: Partial, failed: set<nat>, lost: set<nat>, id: nat)
    requires Underway(m, was, rest, d, failed, lost) && id in rest && id in m
    ensures Underway(if id in failed then m - {id} else if id in lost then m else m[id := Merge(m[id], d)],
                     was, rest - {id}, d, failed, lost)
  {
    hide Merge;
  }

  lemma AllDone(m: map<nat, Partial>, was: map<nat, Partial>, d: Partial, failed: set<nat>, lost: set<nat>)
    requires Underway(m, was, {}, d, failed, lost)
    ensures m == Deliver(was, d, failed * was.Keys, lost)
    ensures |m| == |was| - |failed * was.Keys|
  {
    hide Merge, Deliver;
    var gone := failed * was.Keys;
    assert m.Keys == was.Keys - gone;
    assert |was.Keys - gone| == |was.Keys| - |gone|;
  }

  ghost predicate Distinct(senders: map<nat, Browser>)
  {
    forall i, j | i in senders && j in senders && senders[i] == senders[j] :: i == j
  }

  lemma OneLess(senders: map<nat, Browser>, id: nat)
    requires id in senders
    ensures |senders - {id}| == |senders| - 1
    ensures Distinct(senders) ==> Distinct(senders - {id})
    ensures Shown(senders - {id}) == Shown(senders) - {id}
  {
    hide Shown;
    assert (senders - {id}).Keys == senders.Keys - {id};
  }

  ghost function Shown(senders: map<nat, Browser>): (m: map<nat, Partial>)
    reads senders.Values
    ensures m.Keys == senders.Keys
    ensures forall id | id in senders :: m[id] == senders[id].shown
    decreases |senders|
  {
    if senders == map[] then map[]
    else
      var id: nat :| id in senders;
      assert (senders - {id}).Keys == senders.Keys - {id};
      assert senders[id] in senders.Values;
      assert (senders - {id}).Values <= senders.Values;
      Shown(senders - {id})[id := senders[id].shown]
  }
}
