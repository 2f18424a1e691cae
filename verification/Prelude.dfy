/**
 Bytes, big-endian integers and the few sequence operations that the other
 modules share.
 */
module Prelude {

  type byte = x: int | 0 <= x < 256
  type uint16 = x: int | 0 <= x < 0x1_0000

  /** The length of an upload or download id on the wire. */
  const ID_SIZE: nat := 36

  datatype Option<+T> = None | Some(value: T)

  datatype Result<+T, +E> = Success(value: T) | Failure(error: E)

  /** The last n elements of s, or all of s when it is shorter. */
  function LastN<T>(s: seq<T>, n: nat): (r: seq<T>)
    ensures |r| == if |s| <= n then |s| else n
  {
    if |s| <= n then s else s[|s| - n..]
  }

  /** Forgetting early never changes what is remembered at the end. */
  lemma LastNAppend<T>(a: seq<T>, b: seq<T>, n: nat)
    ensures LastN(LastN(a, n) + b, n) == LastN(a + b, n)
  {
    if |a| > n {
      assert (a + b)[|a| - n..] == LastN(a, n) + b;
    }
  }

  /** All the parts, one after the other. */
  function Concat<T>(parts: seq<seq<T>>): seq<T>
  {
    if parts == [] then [] else Concat(parts[..|parts| - 1]) + parts[|parts| - 1]
  }

  lemma ConcatSnoc<T>(parts: seq<seq<T>>, last: seq<T>)
    ensures Concat(parts + [last]) == Concat(parts) + last
  {
    assert (parts + [last])[..|parts|] == parts;
  }

  lemma {:induction false} ConcatAppend<T>(a: seq<seq<T>>, b: seq<seq<T>>)
    ensures Concat(a + b) == Concat(a) + Concat(b)
  {
    if b == [] {
      assert a + b == a;
    } else {
      var front := b[..|b| - 1];
      ConcatAppend(a, front);
      assert (a + b)[..|a + b| - 1] == a + front;
      assert Concat(a + b) == Concat(a + front) + b[|b| - 1];
      assert Concat(a) + Concat(front) + b[|b| - 1] == Concat(a) + (Concat(front) + b[|b| - 1]);
    }
  }

  /** sub arises from s by deleting elements, order kept. */
  ghost predicate Subsequence<T(!new)>(sub: seq<T>, s: seq<T>)
  {
    if sub == [] then true
    else if s == [] then false
    else Subsequence(sub, s[..|s| - 1])
         || (sub[|sub| - 1] == s[|s| - 1] && Subsequence(sub[..|sub| - 1], s[..|s| - 1]))
  }

  lemma {:induction false} SubsequencePrefix<T(!new)>(sub: seq<T>, s: seq<T>, k: nat)
    requires Subsequence(sub, s) && k <= |sub|
    ensures Subsequence(sub[..k], s)
    decreases |s|
  {
    if k > 0 && s != [] {
      var front := s[..|s| - 1];
      if Subsequence(sub, front) {
        SubsequencePrefix(sub, front, k);
      } else if k < |sub| {
        SubsequencePrefix(sub[..|sub| - 1], front, k);
        assert sub[..|sub| - 1][..k] == sub[..k];
      } else {
        assert sub[..k] == sub;
      }
    }
  }

  lemma SubsequenceSnoc<T(!new)>(sub: seq<T>, s: seq<T>, last: T)
    requires Subsequence(sub, s)
    ensures Subsequence(sub, s + [last])
    ensures Subsequence(sub + [last], s + [last])
  {
    assert (s + [last])[..|s|] == s;
    assert (sub + [last])[..|sub|] == sub;
  }

  // ---------------------------------------------------------------------
  // Big-endian integers

  function BE16(v: int): (s: seq<byte>)
    ensures |s| == 2
  {
    [v / 0x100 % 0x100, v % 0x100]
  }

  function BE32(v: int): (s: seq<byte>)
    ensures |s| == 4
  {
    BE16(v / 0x1_0000) + BE16(v)
  }

  function U16(b0: byte, b1: byte): (v: int)
    ensures 0 <= v < 0x1_0000
  {
    b0 * 0x100 + b1
  }

  function U32(b0: byte, b1: byte, b2: byte, b3: byte): (v: int)
    ensures 0 <= v < 0x1_0000_0000
  {
    U16(b0, b1) * 0x1_0000 + U16(b2, b3)
  }

  lemma U16OfBE16(v: int)
    ensures var s := BE16(v); U16(s[0], s[1]) == v % 0x1_0000
  {
  }

  lemma U32OfBE32(v: int)
    ensures var s := BE32(v); U32(s[0], s[1], s[2], s[3]) == v % 0x1_0000_0000
  {
    U16OfBE16(v);
    U16OfBE16(v / 0x1_0000);
  }

  lemma BE16OfU16(b0: byte, b1: byte)
    ensures BE16(U16(b0, b1)) == [b0, b1]
  {
  }

  lemma BE32OfU32(b0: byte, b1: byte, b2: byte, b3: byte)
    ensures BE32(U32(b0, b1, b2, b3)) == [b0, b1, b2, b3]
  {
    var v := U32(b0, b1, b2, b3);
    assert v / 0x1_0000 == U16(b0, b1);
    assert v / 0x100 == U16(b0, b1) * 0x100 + b2;
    BE16OfU16(b0, b1);
  }
}
