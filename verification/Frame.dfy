/**
 The multiplexing envelope: type (1 byte), channel (2 bytes, big-endian),
 length (4 bytes, big-endian), payload. internal/hub/frame.go and
 internal/hub/hub.go hold the server's codec, frontend/src/lib/protocol.ts the
 browser's.
 */
module Codec {
  import opened Prelude

  const FRAME_DATA: byte := 0x01
  const MAX_PAYLOAD: nat := 32 * 1024 * 1024
  const HEADER_SIZE: nat := 7
  const TWO32: nat := 0x1_0000_0000

  datatype Frame = Frame(typ: byte, chanID: uint16, payload: seq<byte>)

  datatype DecodeError =
    | EndOfInput                              // nothing left to read
    | UnexpectedEnd                           // input ends inside a frame
    | TooLarge(declared: nat)
    | TooShort
    | LengthMismatch(declared: nat, actual: int)

  // ---------------------------------------------------------------------
  // Encoding

  function Header(f: Frame): (h: seq<byte>)
    ensures |h| == HEADER_SIZE
  {
    [f.typ] + BE16(f.chanID) + BE32(|f.payload| % TWO32)
  }

  function Encode(f: Frame): (data: seq<byte>)
    ensures |data| == HEADER_SIZE + |f.payload|
  {
    Header(f) + f.payload
  }

  /** Encode as the source does it: one buffer, filled field by field. */
  method EncodeBuffer(f: Frame) returns (buf: array<byte>)
    ensures fresh(buf)
    ensures buf[..] == Encode(f)
  {
    buf := new byte[HEADER_SIZE + |f.payload|](_ => 0);
    buf[0] := f.typ;
    PutUint16(buf, 1, f.chanID);
    PutUint32(buf, 3, |f.payload| % TWO32);
    forall i | 0 <= i < |f.payload| {
      buf[HEADER_SIZE + i] := f.payload[i];
    }
    assert buf[..] == Encode(f);
  }

  method PutUint16(buf: array<byte>, at: nat, v: int)
    requires at + 2 <= buf.Length
    modifies buf
    ensures buf[..] == old(buf[..at]) + BE16(v) + old(buf[at + 2..])
  {
    buf[at] := v / 0x100 % 0x100;
    buf[at + 1] := v % 0x100;
  }

  method PutUint32(buf: array<byte>, at: nat, v: int)
    requires at + 4 <= buf.Length
    modifies buf
    ensures buf[..] == old(buf[..at]) + BE32(v) + old(buf[at + 4..])
  {
    PutUint16(buf, at, v / 0x1_0000);
    PutUint16(buf, at + 2, v);
  }

  // ---------------------------------------------------------------------
  // Reading a header back

  function DeclaredLen(d: seq<byte>): (n: nat)
    requires |d| >= HEADER_SIZE
    ensures n < TWO32
  {
    U32(d[3], d[4], d[5], d[6])
  }

  /** The frame a header and the n bytes after it stand for. */
  function FrameAt(d: seq<byte>, n: nat): Frame
    requires |d| >= HEADER_SIZE + n
  {
    Frame(d[0], U16(d[1], d[2]), d[HEADER_SIZE..HEADER_SIZE + n])
  }

  lemma HeaderReadsBack(f: Frame, tail: seq<byte>)
    ensures var d := Encode(f) + tail;
            && d[0] == f.typ
            && U16(d[1], d[2]) == f.chanID
            && DeclaredLen(d) == |f.payload| % TWO32
            && d[HEADER_SIZE..HEADER_SIZE + |f.payload|] == f.payload
            && d[HEADER_SIZE + |f.payload|..] == tail
  {
    hide BE16, BE32, U16, U32;
    var d := Encode(f) + tail;
    var h := Header(f);
    assert d == h + (f.payload + tail);
    assert d[..HEADER_SIZE] == h;
    assert d[1] == h[1] && d[2] == h[2];
    assert d[3] == h[3] && d[4] == h[4] && d[5] == h[5] && d[6] == h[6];
    U16OfBE16(f.chanID);
    assert f.chanID % 0x1_0000 == f.chanID;
    U32OfBE32(|f.payload| % TWO32);
    assert d[HEADER_SIZE..] == f.payload + tail;
  }

  lemma HeaderDeterminesBytes(d: seq<byte>, n: nat)
    requires |d| >= HEADER_SIZE + n
    requires DeclaredLen(d) == n
    ensures d[..HEADER_SIZE + n] == Encode(FrameAt(d, n))
  {
    hide BE16, BE32, U16, U32;
    BE16OfU16(d[1], d[2]);
    BE32OfU32(d[3], d[4], d[5], d[6]);
    assert n % TWO32 == n;
    var h := Header(FrameAt(d, n));
    assert h == [d[0]] + [d[1], d[2]] + [d[3], d[4], d[5], d[6]];
    assert d[..HEADER_SIZE] == h;
    assert d[..HEADER_SIZE + n] == d[..HEADER_SIZE] + d[HEADER_SIZE..HEADER_SIZE + n];
  }

  // ---------------------------------------------------------------------
  // The server's stream decoder

  /** What one call returns and what it leaves unread. */
  datatype Decoded = Decoded(frame: Result<Frame, DecodeError>, rest: seq<byte>)

  function Decode(s: seq<byte>): (r: Decoded)
    ensures r.frame.Success? ==> |r.rest| < |s|
  {
    if |s| == 0 then Decoded(Failure(EndOfInput), [])
    else if |s| < HEADER_SIZE then Decoded(Failure(UnexpectedEnd), [])
    else
      var n := DeclaredLen(s);
      if n > MAX_PAYLOAD then Decoded(Failure(TooLarge(n)), s[HEADER_SIZE..])
      else if 0 < n && |s| == HEADER_SIZE then Decoded(Failure(EndOfInput), [])
      else if |s| < HEADER_SIZE + n then Decoded(Failure(UnexpectedEnd), [])
      else Decoded(Success(FrameAt(s, n)), s[HEADER_SIZE + n..])
  }

  /** An io.Reader over a finite input. */
  class Reader {
    const data: seq<byte>
    var pos: nat

    ghost predicate Valid()
      reads this
    {
      pos <= |data|
    }

    ghost function Rest(): seq<byte>
      reads this
      requires Valid()
    {
      data[pos..]
    }

    constructor (input: seq<byte>)
      ensures Valid() && Rest() == input
    {
      data, pos := input, 0;
    }

    /** io.ReadFull: n bytes, or an error and everything that was left. */
    method ReadFull(n: nat) returns (r: Result<seq<byte>, DecodeError>)
      requires Valid()
      modifies this
      ensures Valid()
      ensures if n <= |old(Rest())|
              then r == Success(old(Rest())[..n]) && Rest() == old(Rest())[n..]
              else r == Failure(if old(Rest()) == [] then EndOfInput else UnexpectedEnd) && Rest() == []
    {
      if n <= |data| - pos {
        assert Rest()[n..] == data[pos + n..] && Rest()[..n] == data[pos..pos + n];
        r := Success(data[pos..pos + n]);
        pos := pos + n;
      } else {
        r := Failure(if pos == |data| then EndOfInput else UnexpectedEnd);
        pos := |data|;
      }
    }
  }

  method DecodeFrom(r: Reader) returns (result: Result<Frame, DecodeError>)
    requires r.Valid()
    modifies r
    ensures r.Valid()
    ensures Decoded(result, r.Rest()) == Decode(old(r.Rest()))
  {
    hide BE16, BE32, Encode, U16, U32;
    ghost var s := r.Rest();
    var header := r.ReadFull(HEADER_SIZE);
    if header.Failure? {
      return Failure(header.error);
    }
    var h := header.value;
    assert forall i | 0 <= i < HEADER_SIZE :: h[i] == s[i];
    var payloadLen := U32(h[3], h[4], h[5], h[6]);
    assert payloadLen == DeclaredLen(s);
    if payloadLen > MAX_PAYLOAD {
      return Failure(TooLarge(payloadLen));
    }
    var payload: seq<byte> := [];
    if payloadLen > 0 {
      var body := r.ReadFull(payloadLen);
      if body.Failure? {
        return Failure(body.error);
      }
      payload := body.value;
    }
    assert payload == s[HEADER_SIZE..HEADER_SIZE + payloadLen];
    assert r.Rest() == s[HEADER_SIZE + payloadLen..];
    result := Success(Frame(h[0], U16(h[1], h[2]), payload));
    assert result == Success(FrameAt(s, payloadLen));
  }

  /** Decode consumes a frame exactly when its encoding with a payload of at
      most 32 MiB comes next, and it leaves exactly what follows. */
  lemma DecodeAcceptsExactly(s: seq<byte>, f: Frame, rest: seq<byte>)
    ensures Decode(s) == Decoded(Success(f), rest)
            <==> s == Encode(f) + rest && |f.payload| <= MAX_PAYLOAD
  {
    hide BE16, BE32, U16, U32, Header, DeclaredLen;
    if Decode(s) == Decoded(Success(f), rest) {
      var n := DeclaredLen(s);
      HeaderDeterminesBytes(s, n);
      assert s == s[..HEADER_SIZE + n] + rest;
    }
    if s == Encode(f) + rest && |f.payload| <= MAX_PAYLOAD {
      HeaderReadsBack(f, rest);
      assert |f.payload| % TWO32 == |f.payload|;
      assert s[HEADER_SIZE + |f.payload|..] == rest;
    }
  }

  function EncodeAll(fs: seq<Frame>): seq<byte>
  {
    if fs == [] then [] else Encode(fs[0]) + EncodeAll(fs[1..])
  }

  /** Decode until the first error. */
  function DecodeAll(s: seq<byte>): (seq<Frame>, DecodeError)
    decreases |s|
  {
    var d := Decode(s);
    match d.frame
    case Failure(e) => ([], e)
    case Success(f) =>
      var (fs, e) := DecodeAll(d.rest);
      ([f] + fs, e)
  }

  /** Frames survive the trip through one byte stream, boundaries included, and
      then the input ends cleanly. */
  lemma {:induction false} StreamRoundTrip(fs: seq<Frame>)
    requires forall f | f in fs :: |f.payload| <= MAX_PAYLOAD
    ensures DecodeAll(EncodeAll(fs)) == (fs, EndOfInput)
  {
    if fs != [] {
      DecodeAcceptsExactly(EncodeAll(fs), fs[0], EncodeAll(fs[1..]));
      StreamRoundTrip(fs[1..]);
      assert [fs[0]] + fs[1..] == fs;
    }
  }

  /** A whole header whose announced payload is missing entirely. */
  predicate BareHeader(h: seq<byte>)
  {
    |h| == HEADER_SIZE && 0 < DeclaredLen(h) <= MAX_PAYLOAD
  }

  lemma FirstFailure(s: seq<byte>)
    requires Decode(s).frame.Failure?
    ensures Decode(s).frame.error == EndOfInput <==> s == [] || BareHeader(s)
  {
  }

  lemma PeelOne(f: Frame, fs: seq<Frame>, rest: seq<byte>)
    requires EncodeAll(fs) <= rest
    ensures var (all, s) := (EncodeAll([f] + fs), Encode(f) + rest);
            && all <= s
            && s[|all|..] == rest[|EncodeAll(fs)|..]
            && (s == all <==> rest == EncodeAll(fs))
  {
    assert ([f] + fs)[1..] == fs;
    var tail := rest[|EncodeAll(fs)|..];
    assert rest == EncodeAll(fs) + tail;
    assert Encode(f) + rest == EncodeAll([f] + fs) + tail;
  }

  /** End-of-input is reported exactly after whole frames, or after whole frames
      and one bare header: the reader cannot tell those two apart. */
  lemma {:induction false} EndOfInputExactly(s: seq<byte>)
    ensures var (fs, e) := DecodeAll(s);
            && EncodeAll(fs) <= s
            && (e == EndOfInput <==> s == EncodeAll(fs) || BareHeader(s[|EncodeAll(fs)|..]))
    decreases |s|
  {
    var d := Decode(s);
    if d.frame.Success? {
      var (fs, e) := DecodeAll(d.rest);
      DecodeAcceptsExactly(s, d.frame.value, d.rest);
      EndOfInputExactly(d.rest);
      PeelOne(d.frame.value, fs, d.rest);
    } else {
      FirstFailure(s);
      assert s[0..] == s;
    }
  }

  // ---------------------------------------------------------------------
  // The server's message decoder

  function DecodeFromBytes(d: seq<byte>): Result<Frame, DecodeError>
  {
    if |d| < HEADER_SIZE then Failure(TooShort)
    else
      var n := DeclaredLen(d);
      if n > MAX_PAYLOAD then Failure(TooLarge(n))
      else if n != |d| - HEADER_SIZE then Failure(LengthMismatch(n, |d| - HEADER_SIZE))
      else Success(FrameAt(d, n))
  }

  /** A message is accepted exactly when it is the encoding of one frame. */
  lemma MessageAcceptsExactly(d: seq<byte>, f: Frame)
    ensures DecodeFromBytes(d) == Success(f) <==> d == Encode(f) && |f.payload| <= MAX_PAYLOAD
  {
    hide BE16, BE32, U16, U32, Header, DeclaredLen;
    if DecodeFromBytes(d) == Success(f) {
      HeaderDeterminesBytes(d, DeclaredLen(d));
      assert d[..|d|] == d;
    }
    if d == Encode(f) && |f.payload| <= MAX_PAYLOAD {
      HeaderReadsBack(f, []);
      assert Encode(f) + [] == d;
      assert |f.payload| % TWO32 == |f.payload|;
      assert d[HEADER_SIZE..HEADER_SIZE + |f.payload|] == f.payload;
    }
  }
}

/** frontend/src/lib/protocol.ts: the browser's side of the envelope. */
module Protocol {
  import opened Prelude
  import opened Codec

  /** encodeFrame: DataView setters keep the low bits of any number. */
  method EncodeFrame(typ: nat, chanID: nat, payload: seq<byte>) returns (buf: array<byte>)
    ensures fresh(buf)
    ensures buf[..] == Encode(Frame(typ % 0x100, chanID % 0x1_0000, payload))
  {
    buf := new byte[HEADER_SIZE + |payload|](_ => 0);
    buf[0] := typ % 0x100;
    PutUint16(buf, 1, chanID);
    PutUint32(buf, 3, |payload|);
    forall i | 0 <= i < |payload| {
      buf[HEADER_SIZE + i] := payload[i];
    }
    LowBits16(chanID);
    LowBits32(|payload|);
    assert buf[..] == Encode(Frame(typ % 0x100, chanID % 0x1_0000, payload));
  }

  lemma LowBits16(v: nat)
    ensures BE16(v) == BE16(v % 0x1_0000)
  {
    var q := v / 0x1_0000;
    assert v == q * 0x1_0000 + v % 0x1_0000;
    var hi, lo := v % 0x1_0000 / 0x100, v % 0x100;
    assert v / 0x100 == q * 0x100 + hi;
    assert (q * 0x100 + hi) % 0x100 == hi;
  }

  lemma LowBits32(v: nat)
    ensures BE32(v) == BE32(v % TWO32)
  {
    var q, r := v / TWO32, v % TWO32;
    var hi, lo := r / 0x1_0000, r % 0x1_0000;
    assert v == (q * 0x1_0000 + hi) * 0x1_0000 + lo;
    assert v / 0x1_0000 == q * 0x1_0000 + hi;
    assert v % 0x1_0000 == lo;
    assert (q * 0x1_0000 + hi) % 0x1_0000 == hi;
    LowBits16(v);
    LowBits16(r);
    LowBits16(v / 0x1_0000);
  }

  function DecodeFrame(d: seq<byte>): Result<Frame, DecodeError>
  {
    if |d| < HEADER_SIZE then Failure(TooShort)
    else
      var n := DeclaredLen(d);
      if |d| < HEADER_SIZE + n then Failure(UnexpectedEnd)
      else Success(FrameAt(d, n))
  }

  /** A buffer is accepted exactly when some encoding is a prefix of it. */
  lemma BrowserAcceptsExactly(d: seq<byte>, f: Frame)
    ensures DecodeFrame(d) == Success(f) <==> Encode(f) <= d && |f.payload| < TWO32
  {
    hide BE16, BE32, U16, U32, Header, DeclaredLen;
    if DecodeFrame(d) == Success(f) {
      HeaderDeterminesBytes(d, DeclaredLen(d));
    }
    if Encode(f) <= d && |f.payload| < TWO32 {
      HeaderReadsBack(f, d[|Encode(f)|..]);
      assert Encode(f) + d[|Encode(f)|..] == d;
      assert |f.payload| % TWO32 == |f.payload|;
    }
  }

  /** Whatever the server accepts as a message, its stream decoder and the
      browser read as the same frame; the browser also takes trailing bytes and
      payloads above the server's limit. */
  lemma DecodersAgree(d: seq<byte>, f: Frame)
    ensures DecodeFromBytes(d) == Success(f)
            <==> DecodeFrame(d) == Success(f) && |f.payload| <= MAX_PAYLOAD && |d| == HEADER_SIZE + |f.payload|
    ensures DecodeFromBytes(d) == Success(f) <==> Decode(d) == Decoded(Success(f), [])
  {
    hide BE16, BE32, U16, U32, Header, DeclaredLen, FrameAt, DecodeFrame, DecodeFromBytes, Decode;
    MessageAcceptsExactly(d, f);
    BrowserAcceptsExactly(d, f);
    DecodeAcceptsExactly(d, f, []);
    assert Encode(f) + [] == Encode(f);
    if Encode(f) <= d && |d| == HEADER_SIZE + |f.payload| {
      assert d == Encode(f);
    }
  }

  /** Every message the hub can write is readable, even one whose length field
      wrapped; type and channel always survive. */
  lemma BrowserReadsEveryMessage(f: Frame)
    ensures DecodeFrame(Encode(f)).Success?
    ensures DecodeFrame(Encode(f)).value.typ == f.typ
    ensures DecodeFrame(Encode(f)).value.chanID == f.chanID
    ensures DecodeFrame(Encode(f)) == Success(f) <==> |f.payload| < TWO32
  {
    hide BE16, BE32, U16, U32, Header;
    HeaderReadsBack(f, []);
    assert Encode(f) + [] == Encode(f);
    BrowserAcceptsExactly(Encode(f), f);
  }

  lemma DeclaredBy(f: Frame, tail: seq<byte>)
    requires |f.payload| < TWO32
    ensures DeclaredLen(Encode(f) + tail) == |f.payload|
  {
    hide BE16, BE32, U16, U32, Encode, DeclaredLen;
    HeaderReadsBack(f, tail);
    assert |f.payload| % TWO32 == |f.payload|;
  }

  /** The start of a message, cut anywhere: which error each of the three decoders gives. */
  lemma CutShort(f: Frame, k: nat)
    requires |f.payload| <= MAX_PAYLOAD && k < 7 + |f.payload|
    ensures var d := Encode(f)[..k];
            && DecodeFromBytes(d) == Failure(if k < 7 then TooShort else LengthMismatch(|f.payload|, k - 7))
            && DecodeFrame(d) == Failure(if k < 7 then TooShort else UnexpectedEnd)
            && Decode(d) == Decoded(Failure(if k == 0 || k == 7 then EndOfInput else UnexpectedEnd), [])
  {
    hide BE16, BE32, U16, U32, Encode;
    DeclaredBy(f, []);
    assert Encode(f) + [] == Encode(f);
    var d := Encode(f)[..k];
    assert k >= 7 ==> DeclaredLen(d) == DeclaredLen(Encode(f));
  }

  /** A message that is too long for the limit, or longer than its header says. */
  lemma TooMuch(f: Frame, tail: seq<byte>)
    requires |f.payload| < TWO32 && (|f.payload| > MAX_PAYLOAD || tail != [])
    ensures var d := Encode(f) + tail;
            && DecodeFromBytes(d) == Failure(if |f.payload| > 33554432 then TooLarge(|f.payload|)
                                             else LengthMismatch(|f.payload|, |f.payload| + |tail|))
            && (|f.payload| > 33554432 ==> Decode(d) == Decoded(Failure(TooLarge(|f.payload|)), d[7..]))
            && DecodeFrame(d) == Success(f)
  {
    hide BE16, BE32, U16, U32, Encode;
    DeclaredBy(f, tail);
    BrowserAcceptsExactly(Encode(f) + tail, f);
  }
}
