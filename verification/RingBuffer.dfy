/**
 The circular byte buffer of internal/ringbuf/ringbuf.go, proved to hold the
 last cap bytes written since the last reset.
 */
module RingBuf {
  import opened Prelude

  /** x reduced into 0..cap when it overshoots by less than one turn. */
  function Wrap(x: nat, cap: nat): (w: nat)
    requires x < 2 * cap
  {
    if x < cap then x else x - cap
  }

  /** The next slot of a circular buffer. */
  function Advance(i: nat, cap: nat): (next: nat)
    requires i < cap
    ensures next == Wrap(i + 1, cap)
  {
    assert i + 1 == cap || (i + 1) / cap == 0;
    (i + 1) % cap
  }

  /** The size elements of a circular buffer from head on. */
  function Ring(buf: seq<byte>, head: nat, size: nat): (r: seq<byte>)
    requires head < |buf| && size <= |buf|
    ensures |r| == size
  {
    if head + size <= |buf| then buf[head..head + size]
    else buf[head..] + buf[..head + size - |buf|]
  }

  lemma PutRoom(buf: seq<byte>, head: nat, size: nat, b: byte)
    requires head < |buf| && size < |buf|
    ensures Ring(buf[Wrap(head + size, |buf|) := b], head, size + 1) == Ring(buf, head, size) + [b]
  {
  }

  lemma PutFull(buf: seq<byte>, head: nat, b: byte)
    requires head < |buf|
    ensures Ring(buf[head := b], Wrap(head + 1, |buf|), |buf|) == Ring(buf, head, |buf|)[1..] + [b]
  {
    var r := buf[head := b];
    assert r[head..] == [b] + buf[head + 1..] && r[..head] == buf[..head];
    assert Ring(buf, head, |buf|)[1..] == buf[head + 1..] + buf[..head];
    assert r[head + 1..] == buf[head + 1..] && r[..head + 1] == buf[..head] + [b];
  }

  lemma StepOfWrite(was: seq<byte>, p: seq<byte>, i: nat, cap: nat)
    requires i < |p|
    ensures LastN(LastN(was + p[..i], cap) + [p[i]], cap) == LastN(was + p[..i + 1], cap)
  {
    LastNAppend(was + p[..i], [p[i]], cap);
    assert was + p[..i + 1] == was + p[..i] + [p[i]];
  }

  lemma Unchanged(s: seq<byte>, cap: nat)
    requires |s| <= cap
    ensures LastN(s, cap) == s
  {
  }

  lemma Replaced(s: seq<byte>, p: seq<byte>, cap: nat)
    requires |p| >= cap
    ensures LastN(s + p, cap) == LastN(p, cap)
  {
  }

  class RingBuffer {
    const cap: nat
    const buf: array<byte>
    var head: nat // index of the oldest byte
    var tail: nat // index where the next byte goes
    var size: nat // number of bytes stored

    ghost predicate Valid()
      reads this
    {
      && cap > 0
      && buf.Length == cap
      && head < cap
      && size <= cap
      && tail == Wrap(head + size, cap)
    }

    /** The stored bytes, oldest first. */
    ghost function Contents(): (s: seq<byte>)
      reads this, buf
      requires Valid()
      ensures |s| == size
    {
      Ring(buf[..], head, size)
    }

    constructor (capacity: nat)
      requires capacity > 0
      ensures Valid() && fresh(buf)
      ensures cap == capacity && Contents() == []
    {
      cap := capacity;
      buf := new byte[capacity](_ => 0);
      head, tail, size := 0, 0, 0;
    }

    /** One iteration of the loop of Write. */
    method Put(b: byte)
      requires Valid()
      modifies this, buf
      ensures Valid()
      ensures Contents() == LastN(old(Contents()) + [b], cap)
    {
      hide Ring, Advance;
      ghost var was, contents := buf[..], Contents();
      var full := size == cap;
      buf[tail] := b;
      tail := Advance(tail, cap);
      assert buf[..] == was[Wrap(head + size, cap) := b];
      if full {
        PutFull(was, head, b);
        head := Advance(head, cap);
        assert Contents() == contents[1..] + [b];
        assert LastN(contents + [b], cap) == contents[1..] + [b];
      } else {
        PutRoom(was, head, size, b);
        size := size + 1;
        assert Contents() == contents + [b];
      }
    }

    /** The path of Write for inputs that fill the buffer on their own. */
    method Refill(p: seq<byte>)
      requires Valid() && |p| >= cap
      modifies this, buf
      ensures Valid()
      ensures Contents() == LastN(p, cap)
    {
      var kept := p[|p| - cap..];
      forall i | 0 <= i < cap {
        buf[i] := kept[i];
      }
      head, tail, size := 0, 0, cap;
      assert buf[..] == kept;
    }

    method Write(p: seq<byte>)
      requires Valid()
      modifies this, buf
      ensures Valid()
      ensures Contents() == LastN(old(Contents()) + p, cap)
    {
      hide Ring, LastN;
      ghost var was := Contents();
      Unchanged(was, cap);
      if |p| == 0 {
        assert was + p == was;
        return;
      }
      if |p| >= cap {
        Refill(p);
        Replaced(was, p, cap);
        return;
      }
      var i := 0;
      assert was + p[..0] == was;
      while i < |p|
        invariant 0 <= i <= |p|
        invariant Valid()
        invariant Contents() == LastN(was + p[..i], cap)
      {
        Put(p[i]);
        StepOfWrite(was, p, i, cap);
        i := i + 1;
      }
      assert p[..i] == p;
    }

    method Bytes() returns (out: seq<byte>)
      requires Valid()
      ensures out == Contents()
    {
      if size == 0 {
        return [];
      }
      if head + size <= cap {
        out := buf[head..head + size];
      } else {
        out := buf[head..];
        var n := |out|;
        out := out + buf[..size - n];
      }
    }

    method Reset()
      requires Valid()
      modifies this
      ensures Valid()
      ensures Contents() == []
    {
      head, tail, size := 0, 0, 0;
    }
  }

  // ---------------------------------------------------------------------
  // Whole histories

  datatype RingOp = Write(p: seq<byte>) | Reset

  /** Every byte written since the last Reset. */
  function SinceReset(ops: seq<RingOp>): seq<byte>
  {
    if ops == [] then []
    else
      match ops[|ops| - 1]
      case Write(p) => SinceReset(ops[..|ops| - 1]) + p
      case Reset => []
  }

  /** What a buffer holds is a function of the bytes alone: any history leaves
      the last cap bytes since its last Reset. */
  method Replay(ops: seq<RingOp>, cap: nat) returns (rb: RingBuffer)
    requires cap > 0
    ensures fresh(rb) && rb.Valid() && rb.cap == cap
    ensures rb.Contents() == LastN(SinceReset(ops), cap)
  {
    rb := new RingBuffer(cap);
    var i := 0;
    while i < |ops|
      invariant 0 <= i <= |ops|
      invariant fresh(rb) && fresh(rb.buf) && rb.Valid() && rb.cap == cap
      invariant rb.Contents() == LastN(SinceReset(ops[..i]), cap)
    {
      assert ops[..i + 1][..i] == ops[..i];
      match ops[i] {
        case Write(p) =>
          rb.Write(p);
          LastNAppend(SinceReset(ops[..i]), p, cap);
        case Reset =>
          rb.Reset();
      }
      i := i + 1;
    }
    assert ops[..i] == ops;
  }

  /** Cutting one write in two (across the bulk path and the loop) is not observable. */
  lemma WriteSplits(before: seq<byte>, a: seq<byte>, b: seq<byte>, cap: nat)
    ensures LastN(LastN(before + a, cap) + b, cap) == LastN(before + (a + b), cap)
  {
    LastNAppend(before + a, b, cap);
    assert before + (a + b) == before + a + b;
  }
}
