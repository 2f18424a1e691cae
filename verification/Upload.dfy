/**
 Chunked uploads: the browser's chunking (FileManager.svelte), the server's parser
 (internal/server/server.go) and its random-access writes
 (internal/server/fileops.go).
 */
module Upload {
  import opened Prelude
  import opened Codec

  const CHUNK: nat := 0x1_0000 // 64 KiB
  const TWO31: nat := 0x8000_0000

  type Path = seq<byte>
  type Files = map<Path, seq<byte>>

  // ---------------------------------------------------------------------
  // 64-bit offsets

  function BE64(v: int): (s: seq<byte>)
    ensures |s| == 8
  {
    BE32(v / TWO32) + BE32(v)
  }

  function U64(s: seq<byte>): nat
    requires |s| == 8
  {
    U32(s[0], s[1], s[2], s[3]) * TWO32 + U32(s[4], s[5], s[6], s[7])
  }

  /** The eight bytes as a signed 64-bit integer. */
  function I64(s: seq<byte>): int
    requires |s| == 8
  {
    if U64(s) < TWO31 * TWO32 then U64(s) else U64(s) - TWO32 * TWO32
  }

  lemma U64OfBE64(v: int)
    ensures U64(BE64(v)) == v / TWO32 % TWO32 * TWO32 + v % TWO32
    ensures 0 <= v < TWO32 * TWO32 ==> U64(BE64(v)) == v
  {
    hide BE32, U32;
    var hi := v / TWO32;
    U32OfBE32(hi);
    U32OfBE32(v);
    var s := BE64(v);
    assert s[..4] == BE32(hi) && s[4..] == BE32(v);
    assert s[0] == BE32(hi)[0] && s[1] == BE32(hi)[1] && s[2] == BE32(hi)[2] && s[3] == BE32(hi)[3];
    assert s[4] == BE32(v)[0] && s[5] == BE32(v)[1] && s[6] == BE32(v)[2] && s[7] == BE32(v)[3];
    assert v == hi * TWO32 + v % TWO32;
    if 0 <= v < TWO32 * TWO32 {
      assert hi < TWO32;
      assert hi % TWO32 == hi;
    }
  }

  predicate Fits64(v: int)
  {
    -0x8000_0000_0000_0000 <= v < 0x8000_0000_0000_0000
  }

  /** An offset survives exactly when it fits a signed 64-bit integer. */
  lemma OffsetSurvives(v: int)
    ensures I64(BE64(v)) == v <==> Fits64(v)
  {
    hide BE64, U64;
    U64OfBE64(v);
    var hi := v / TWO32;
    assert v == hi * TWO32 + v % TWO32 && 0 <= hi % TWO32 < TWO32;
    if Fits64(v) && v < 0 {
      assert hi % TWO32 == hi + TWO32;
    }
  }

  lemma BE32OfRest(v: int)
    ensures BE32(v) == BE32(v % TWO32)
  {
    hide BE32, U32;
    var s := BE32(v);
    U32OfBE32(v);
    BE32OfU32(s[0], s[1], s[2], s[3]);
  }

  /** Every eight bytes are the encoding of the integer they are read as. */
  lemma BE64OfI64(s: seq<byte>)
    requires |s| == 8
    ensures BE64(I64(s)) == s
  {
    hide BE32, U32;
    var v, hi, lo := I64(s), U32(s[0], s[1], s[2], s[3]), U32(s[4], s[5], s[6], s[7]);
    assert v == hi * TWO32 + lo || v == (hi - TWO32) * TWO32 + lo;
    assert v % TWO32 == lo && (v / TWO32 == hi || v / TWO32 == hi - TWO32);
    BE32OfRest(v);
    BE32OfRest(v / TWO32);
    assert v / TWO32 % TWO32 == hi;
    BE32OfU32(s[0], s[1], s[2], s[3]);
    BE32OfU32(s[4], s[5], s[6], s[7]);
  }

  // ---------------------------------------------------------------------
  // The browser

  datatype Piece = Piece(offset: nat, bytes: seq<byte>)

  /** The pieces of data from offset on. */
  function Pieces(data: seq<byte>, offset: nat): (ps: seq<Piece>)
    requires offset <= |data|
    decreases |data| - offset
  {
    if offset == |data| then []
    else if |data| - offset <= CHUNK then [Piece(offset, data[offset..])]
    else [Piece(offset, data[offset..offset + CHUNK])] + Pieces(data, offset + CHUNK)
  }

  /** What one upload sends; an empty file still sends one empty piece. */
  function UploadPieces(data: seq<byte>): seq<Piece>
  {
    if data == [] then [Piece(0, [])] else Pieces(data, 0)
  }

  /** uploadID(36) | pathLen(2) | path | offset(8) | data */
  function Payload(id: seq<byte>, path: Path, p: Piece): seq<byte>
  {
    id + BE16(|path|) + path + BE64(p.offset) + p.bytes
  }

  function Payloads(id: seq<byte>, path: Path, ps: seq<Piece>): (out: seq<seq<byte>>)
    ensures |out| == |ps|
    ensures forall i | 0 <= i < |ps| :: out[i] == Payload(id, path, ps[i])
  {
    if ps == [] then [] else Payloads(id, path, ps[..|ps| - 1]) + [Payload(id, path, ps[|ps| - 1])]
  }

  lemma PiecesSplit(data: seq<byte>, offset: nat)
    requires offset < |data|
    ensures var n := if |data| - offset <= CHUNK then |data| - offset else CHUNK;
            Pieces(data, offset) == [Piece(offset, data[offset..offset + n])] + Pieces(data, offset + n)
  {
    if |data| - offset <= CHUNK {
      assert data[offset..offset + (|data| - offset)] == data[offset..];
    }
  }

  /** uploadSingleFile: the do/while loop, run once even for an empty file. */
  method UploadSingleFile(id: seq<byte>, path: Path, data: seq<byte>) returns (sent: seq<seq<byte>>)
    ensures sent == Payloads(id, path, UploadPieces(data))
  {
    hide Payload, Payloads, Pieces;
    var offset := 0;
    sent := [];
    ghost var done: seq<Piece> := [];
    var again := true;
    NoPieces(id, path, data);
    while again
      invariant 0 <= offset <= |data|
      invariant again ==> offset < |data| || (offset == 0 && done == [])
      invariant !again ==> offset == |data| && done != []
      invariant sent == Payloads(id, path, done)
      invariant data != [] ==> done + Pieces(data, offset) == Pieces(data, 0)
      invariant data == [] && !again ==> done == [Piece(0, [])]
      decreases |data| - offset, again
    {
      var end := if offset + CHUNK <= |data| then offset + CHUNK else |data|;
      var chunk := data[offset..end];
      if data != [] {
        PiecesSplit(data, offset);
        assert done + Pieces(data, offset) == done + [Piece(offset, chunk)] + Pieces(data, end);
      }
      PayloadsGrow(id, path, done, Piece(offset, chunk));
      sent := sent + [Payload(id, path, Piece(offset, chunk))];
      done := done + [Piece(offset, chunk)];
      offset := offset + |chunk|;
      again := offset < |data|;
    }
    assert done + [] == done;
  }

  lemma NoPieces(id: seq<byte>, path: Path, data: seq<byte>)
    ensures Payloads(id, path, []) == [] && Pieces(data, |data|) == []
    ensures [] + Pieces(data, 0) == Pieces(data, 0)
  {
  }

  lemma PayloadsGrow(id: seq<byte>, path: Path, ps: seq<Piece>, p: Piece)
    ensures Payloads(id, path, ps + [p]) == Payloads(id, path, ps) + [Payload(id, path, p)]
  {
    assert (ps + [p])[..|ps|] == ps;
  }

  // ---------------------------------------------------------------------
  // The server's parser

  datatype Chunk = Chunk(id: seq<byte>, path: Path, offset: int, data: seq<byte>)

  datatype ParseError = FrameTooShort | FrameTruncated

  function Parse(payload: seq<byte>): Result<Chunk, ParseError>
  {
    if |payload| < ID_SIZE + 2 then Failure(FrameTooShort)
    else
      var pathLen := U16(payload[ID_SIZE], payload[ID_SIZE + 1]);
      if |payload| < ID_SIZE + 2 + pathLen + 8 then Failure(FrameTruncated)
      else
        var at := ID_SIZE + 2 + pathLen;
        Success(Chunk(payload[..ID_SIZE], payload[ID_SIZE + 2..at], I64(payload[at..at + 8]), payload[at + 8..]))
  }

  /** A chunk as it is on the wire. */
  function Wire(c: Chunk): seq<byte>
  {
    c.id + BE16(|c.path|) + c.path + BE64(c.offset) + c.data
  }

  /** The parser accepts exactly the encodings of chunks whose fields fit. */
  lemma ParseExactly(s: seq<byte>, c: Chunk)
    ensures Parse(s) == Success(c) <==>
              && s == Wire(c) && |c.id| == ID_SIZE && |c.path| < 0x1_0000
              && Fits64(c.offset)
  {
    hide BE16, U16, BE64, I64, U64;
    if |c.id| == ID_SIZE && |c.path| < 0x1_0000 && s == Wire(c) {
      ReadsWire(c);
    }
    if Parse(s) == Success(c) {
      var at := ID_SIZE + 2 + |c.path|;
      LengthField(s);
      assert |c.path| == U16(s[ID_SIZE], s[ID_SIZE + 1]);
      BE64OfI64(s[at..at + 8]);
      OffsetSurvives(c.offset);
      assert s == s[..ID_SIZE] + s[ID_SIZE..ID_SIZE + 2] + s[ID_SIZE + 2..at] + s[at..at + 8] + s[at + 8..];
    }
  }

  lemma LengthField(s: seq<byte>)
    requires |s| >= ID_SIZE + 2
    ensures s[ID_SIZE..ID_SIZE + 2] == BE16(U16(s[ID_SIZE], s[ID_SIZE + 1]))
  {
    hide BE16, U16;
    BE16OfU16(s[ID_SIZE], s[ID_SIZE + 1]);
    assert s[ID_SIZE..ID_SIZE + 2] == [s[ID_SIZE], s[ID_SIZE + 1]];
  }

  lemma ReadsWire(c: Chunk)
    requires |c.id| == ID_SIZE && |c.path| < 0x1_0000
    ensures Parse(Wire(c)) == Success(c) <==> Fits64(c.offset)
  {
    hide BE16, U16, BE64, I64;
    var s, at := Wire(c), ID_SIZE + 2 + |c.path|;
    U16OfBE16(|c.path|);
    OffsetSurvives(c.offset);
    assert s == c.id + (BE16(|c.path|) + c.path + BE64(c.offset) + c.data);
    assert s[..ID_SIZE] == c.id;
    assert s[ID_SIZE..] == BE16(|c.path|) + (c.path + BE64(c.offset) + c.data);
    assert s[ID_SIZE] == BE16(|c.path|)[0] && s[ID_SIZE + 1] == BE16(|c.path|)[1];
    assert |c.path| % 0x1_0000 == |c.path|;
    assert s[ID_SIZE + 2..at] == c.path;
    assert s[at..at + 8] == BE64(c.offset);
    assert s[at + 8..] == c.data;
  }

  /** It refuses exactly what ends before the path's length, or before the offset's end. */
  lemma ParseFailsExactly(s: seq<byte>)
    ensures Parse(s) == Failure(FrameTooShort) <==> |s| < 38
    ensures Parse(s) == Failure(FrameTruncated) <==> |s| >= 38 && |s| < 46 + U16(s[36], s[37])
  {
    hide I64;
  }

  /** The parser reads back what the browser wrote exactly when the path fits its
      length field and the offset fits a signed 64-bit integer. */
  lemma ParseReadsBack(id: seq<byte>, path: Path, p: Piece)
    requires |id| == ID_SIZE
    ensures Parse(Payload(id, path, p)) == Success(Chunk(id, path, p.offset, p.bytes))
            <==> |path| < 0x1_0000 && p.offset < TWO31 * TWO32
  {
    hide Parse, BE16, BE64;
    ParseExactly(Payload(id, path, p), Chunk(id, path, p.offset, p.bytes));
  }

  /** Every upload frame is far below the hub's payload limit. */
  lemma UploadFramesFit(id: seq<byte>, path: Path, data: seq<byte>, i: nat)
    requires |id| == ID_SIZE && |path| < 0x1_0000 && i < |UploadPieces(data)|
    ensures |Payload(id, path, UploadPieces(data)[i])| <= MAX_PAYLOAD
  {
    if data != [] {
      PieceAt(data, 0, i);
    }
  }

  lemma {:induction false} PieceAt(data: seq<byte>, offset: nat, i: nat)
    requires offset <= |data| && i < |Pieces(data, offset)|
    ensures var o := offset + i * CHUNK;
            var e := if o + CHUNK <= |data| then o + CHUNK else |data|;
            o < |data| && Pieces(data, offset)[i] == Piece(o, data[o..e])
    decreases i
  {
    assert Pieces(data, |data|) == [];
    PiecesSplit(data, offset);
    hide Pieces;
    if i > 0 {
      assert |data| - offset > CHUNK;
      assert Pieces(data, offset)[i] == Pieces(data, offset + CHUNK)[i - 1];
      PieceAt(data, offset + CHUNK, i - 1);
      assert offset + CHUNK + (i - 1) * CHUNK == offset + i * CHUNK;
    }
  }

  lemma {:induction false} PieceCount(data: seq<byte>, offset: nat)
    requires offset <= |data|
    ensures var k := |Pieces(data, offset)|;
            && offset + k * CHUNK >= |data|
            && (k > 0 ==> offset + (k - 1) * CHUNK < |data|)
    decreases |data| - offset
  {
    if offset < |data| {
      PiecesSplit(data, offset);
      if |data| - offset > CHUNK {
        PieceCount(data, offset + CHUNK);
      }
    }
  }

  /** The progress reported for the pieces of an upload counts the bytes so far, and reaches
      the size of the file with the last piece only. */
  lemma ProgressCounts(data: seq<byte>, i: nat)
    requires i < |UploadPieces(data)| && |data| < TWO31 * TWO32
    ensures var p := UploadPieces(data)[i];
            var progress := Wrap64(p.offset + |p.bytes|);
            && progress == (if (i + 1) * 0x1_0000 < |data| then (i + 1) * 0x1_0000 else |data|)
            && (progress == |data| <==> i == |UploadPieces(data)| - 1)
  {
    hide Pieces;
    if data != [] {
      PieceAt(data, 0, i);
      PieceCount(data, 0);
    }
    var p := UploadPieces(data)[i];
    Wrap64Exactly(p.offset + |p.bytes|);
    hide Wrap64;
  }

  // ---------------------------------------------------------------------
  // Random-access writes

  function Zeros(n: nat): (z: seq<byte>)
    ensures |z| == n && forall i | 0 <= i < n :: z[i] == 0
  {
    seq(n, _ => 0)
  }

  /** pwrite: overwrite, grow, and fill a hole with zeros; no bytes, no growth. */
  function WriteAt(old': seq<byte>, at: nat, data: seq<byte>): (r: seq<byte>)
  {
    if data == [] then old'
    else if |old'| <= at then old' + Zeros(at - |old'|) + data
    else if |old'| <= at + |data| then old'[..at] + data
    else old'[..at] + data + old'[at + |data|..]
  }

  function ContentsOf(fs: Files, path: Path): seq<byte>
  {
    if path in fs then fs[path] else []
  }

  /** writeFileChunk on success: offset 0 truncates; a negative offset neither
      truncates nor seeks. */
  function WriteChunk(fs: Files, path: Path, offset: int, data: seq<byte>): Files
  {
    var opened' := if offset == 0 then [] else ContentsOf(fs, path);
    fs[path := WriteAt(opened', if offset > 0 then offset else 0, data)]
  }

  /** What the file system does with one call: all of it, nothing (a directory or the
      file cannot be opened), or the first n bytes of a longer write. */
  datatype Luck = Works | OpenFails | WriteStops(n: nat)

  predicate Fails(luck: Luck, data: seq<byte>)
  {
    luck.OpenFails? || (luck.WriteStops? && luck.n < |data|)
  }

  function WriteWithLuck(fs: Files, path: Path, offset: int, data: seq<byte>, luck: Luck): Files
  {
    if luck.OpenFails? then fs
    else WriteChunk(fs, path, offset, if Fails(luck, data) then data[..luck.n] else data)
  }

  /** r is was with out at position at, and zeros where there was nothing. */
  ghost predicate WrittenOver(was: seq<byte>, r: seq<byte>, at: nat, out: seq<byte>)
  {
    && |r| == (if out == [] || at + |out| < |was| then |was| else at + |out|)
    && forall j | 0 <= j < |r| :: r[j] == if at <= j < at + |out| then out[j - at] else if j < |was| then was[j] else 0
  }

  /** A call that could open the file leaves every other file alone and changes this one by
      the bytes it wrote, and no others: all of them, or the first ones when it fails. */
  lemma WritesExactly(fs: Files, path: Path, offset: int, data: seq<byte>, luck: Luck)
    requires !luck.OpenFails?
    ensures var r := WriteWithLuck(fs, path, offset, data, luck);
            var was, at := if offset == 0 then [] else ContentsOf(fs, path), if offset > 0 then offset else 0;
            var n := if Fails(luck, data) then luck.n else |data|;
            && r.Keys == fs.Keys + {path} && (forall p | p in fs && p != path :: r[p] == fs[p])
            && n <= |data| && WrittenOver(was, r[path], at, data[..n])
  {
    hide WrittenOver, WriteAt, ContentsOf;
    var was, at := if offset == 0 then [] else ContentsOf(fs, path), if offset > 0 then offset else 0;
    var out := if Fails(luck, data) then data[..luck.n] else data;
    assert out == data[..|out|];
    WriteAtByte(was, at, out);
  }

  lemma WriteAtByte(was: seq<byte>, at: nat, out: seq<byte>)
    ensures WrittenOver(was, WriteAt(was, at, out), at, out)
  {
  }

  /** The low 64 bits as a signed integer. */
  function Wrap64(v: int): int
  {
    (v + TWO31 * TWO32) % (TWO32 * TWO32) - TWO31 * TWO32
  }

  /** Wrapping keeps the value modulo 2^64 and, exactly when it fits, the value itself. */
  lemma Wrap64Exactly(v: int)
    ensures Fits64(Wrap64(v))
    ensures (v - Wrap64(v)) % 0x1_0000_0000_0000_0000 == 0
    ensures Wrap64(v) == v <==> Fits64(v)
  {
    var m := TWO32 * TWO32;
    var x := v + TWO31 * TWO32;
    assert x == x / m * m + x % m;
    assert v - Wrap64(v) == x / m * m;
    assert x / m * m % m == 0;
  }

  class FileSystem {
    var files: Files

    constructor ()
      ensures files == map[]
    {
      files := map[];
    }

    /** open(O_CREATE | O_WRONLY) */
    method Open(path: Path, truncate: bool)
      modifies this
      ensures files == old(files)[path := if truncate then [] else ContentsOf(old(files), path)]
    {
      files := files[path := if truncate || path !in files then [] else files[path]];
    }

    method WriteFileChunk(path: Path, offset: int, data: seq<byte>, luck: Luck) returns (ok: bool)
      modifies this
      ensures ok <==> !Fails(luck, data)
      ensures files == WriteWithLuck(old(files), path, offset, data, luck)
    {
      if luck.OpenFails? {
        return false;
      }
      Open(path, offset == 0);
      var pos := 0;
      if offset > 0 {
        pos := offset;
      }
      ok := !Fails(luck, data);
      files := files[path := WriteAt(files[path], pos, if ok then data else data[..luck.n])];
    }

    /** handleFileUpload: the new offset, or None where the source sends no progress frame. */
    method HandleFileUpload(payload: seq<byte>, clean: Path -> Path, luck: Luck)
      returns (progress: Result<Option<int>, ParseError>)
      modifies this
      ensures match Parse(payload)
              case Failure(e) => files == old(files) && progress == Failure(e)
              case Success(c) =>
                && files == WriteWithLuck(old(files), clean(c.path), c.offset, c.data, luck)
                && progress == Success(if Fails(luck, c.data) then None else Some(Wrap64(c.offset + |c.data|)))
      ensures luck.Works? ==> files == Handle(old(files), payload, clean)
    {
      hide Parse, WriteChunk, Wrap64;
      match Parse(payload) {
        case Failure(e) => return Failure(e);
        case Success(c) =>
          var ok := WriteFileChunk(clean(c.path), c.offset, c.data, luck);
          progress := Success(if ok then Some(Wrap64(c.offset + |c.data|)) else None);
      }
    }
  }

  function Handle(fs: Files, payload: seq<byte>, clean: Path -> Path): Files
  {
    match Parse(payload)
    case Success(c) => WriteChunk(fs, clean(c.path), c.offset, c.data)
    case Failure(_) => fs
  }

  function HandleAll(fs: Files, frames: seq<seq<byte>>, clean: Path -> Path): Files
  {
    if frames == [] then fs
    else Handle(HandleAll(fs, frames[..|frames| - 1], clean), frames[|frames| - 1], clean)
  }

  lemma HandleAllGrows(fs: Files, frames: seq<seq<byte>>, frame: seq<byte>, clean: Path -> Path)
    ensures HandleAll(fs, frames + [frame], clean) == Handle(HandleAll(fs, frames, clean), frame, clean)
  {
    hide Handle;
    assert (frames + [frame])[..|frames|] == frames;
  }

  // ---------------------------------------------------------------------
  // Concurrent uploads

  datatype Job = Job(id: seq<byte>, path: Path, data: seq<byte>)

  /** Jobs the wire format can carry, with pairwise distinct cleaned paths. */
  predicate Separate(jobs: seq<Job>, clean: Path -> Path)
  {
    && (forall i | 0 <= i < |jobs| ::
          |jobs[i].id| == ID_SIZE && |jobs[i].path| < 0x1_0000 && |jobs[i].data| <= TWO31 * TWO32)
    && (forall i, j | 0 <= i < j < |jobs| :: clean(jobs[i].path) != clean(jobs[j].path))
  }

  function Count(sched: seq<nat>, k: nat): nat
  {
    if sched == [] then 0
    else Count(sched[..|sched| - 1], k) + if sched[|sched| - 1] == k then 1 else 0
  }

  /** The merged stream: sched says whose next piece comes next. */
  function Merged(jobs: seq<Job>, sched: seq<nat>): seq<seq<byte>>
  {
    if sched == [] then []
    else
      var front, k := sched[..|sched| - 1], sched[|sched| - 1];
      Merged(jobs, front)
      + if k < |jobs| && Count(front, k) < |UploadPieces(jobs[k].data)|
        then [Payload(jobs[k].id, jobs[k].path, UploadPieces(jobs[k].data)[Count(front, k)])] else []
  }

  /** What n pieces of data amount to. */
  function Sofar(data: seq<byte>, n: nat): seq<byte>
  {
    if n * CHUNK <= |data| then data[..n * CHUNK] else data
  }

  lemma HandlePiece(fs: Files, job: Job, n: nat, clean: Path -> Path)
    requires |job.id| == ID_SIZE && |job.path| < 0x1_0000 && |job.data| <= TWO31 * TWO32
    requires n < |UploadPieces(job.data)|
    requires n > 0 ==> clean(job.path) in fs && fs[clean(job.path)] == Sofar(job.data, n)
    ensures Handle(fs, Payload(job.id, job.path, UploadPieces(job.data)[n]), clean)
            == fs[clean(job.path) := Sofar(job.data, n + 1)]
  {
    hide Parse, Payload, WriteAt, WriteChunk;
    var p := UploadPieces(job.data)[n];
    ParseReadsBack(job.id, job.path, p);
    NextPiece(job.data, n);
    WriteNextPiece(fs, clean(job.path), job.data, n);
  }

  lemma SofarIs(data: seq<byte>, n: nat, o: nat, e: nat)
    requires o == n * CHUNK <= |data| && e == if o + CHUNK <= |data| then o + CHUNK else |data|
    ensures Sofar(data, n) == data[..o] && Sofar(data, n + 1) == data[..e]
  {
    assert (n + 1) * CHUNK == o + CHUNK;
    assert data[..|data|] == data;
  }

  lemma NextPiece(data: seq<byte>, n: nat)
    requires n < |UploadPieces(data)|
    ensures var p := UploadPieces(data)[n];
            && p.offset == n * CHUNK == |Sofar(data, n)|
            && Sofar(data, n) + p.bytes == Sofar(data, n + 1)
            && (n > 0 ==> p.bytes != [])
            && p.offset <= |data|
            && (n > 0 ==> p.offset < |data|)
  {
    if data == [] {
      assert UploadPieces(data) == [Piece(0, [])];
    } else {
      hide Pieces;
      PieceAt(data, 0, n);
      var o := n * CHUNK;
      var e := if o + CHUNK <= |data| then o + CHUNK else |data|;
      SofarIs(data, n, o, e);
      assert UploadPieces(data)[n] == Piece(o, data[o..e]);
      hide UploadPieces, Sofar;
      assert data[..o] + data[o..e] == data[..e];
    }
  }

  lemma WriteNextPiece(fs: Files, path: Path, data: seq<byte>, n: nat)
    requires n < |UploadPieces(data)|
    requires n > 0 ==> path in fs && fs[path] == Sofar(data, n)
    ensures var p := UploadPieces(data)[n];
            WriteChunk(fs, path, p.offset, p.bytes) == fs[path := Sofar(data, n + 1)]
  {
    hide UploadPieces, Pieces, Sofar;
    NextPiece(data, n);
    var p, was := UploadPieces(data)[n], Sofar(data, n);
    assert n == 0 ==> was == [];
    assert was + Zeros(0) + p.bytes == was + p.bytes;
    assert was[..|was|] == was;
    assert WriteAt(was, p.offset, p.bytes) == Sofar(data, n + 1);
  }

  /** After any part of the merged stream every file holds exactly what came for it. */
  lemma {:induction false} MergedSofar(fs: Files, jobs: seq<Job>, sched: seq<nat>, clean: Path -> Path)
    requires Separate(jobs, clean)
    requires forall i | 0 <= i < |jobs| :: Count(sched, i) <= |UploadPieces(jobs[i].data)|
    ensures var r := HandleAll(fs, Merged(jobs, sched), clean);
            && (forall i | 0 <= i < |jobs| && Count(sched, i) > 0 ::
                  clean(jobs[i].path) in r && r[clean(jobs[i].path)] == Sofar(jobs[i].data, Count(sched, i)))
            && (forall p: Path | (forall i | 0 <= i < |jobs| && Count(sched, i) > 0 :: p != clean(jobs[i].path)) ::
                  (p in r <==> p in fs) && (p in fs ==> r[p] == fs[p]))
  {
    hide Payload, UploadPieces, Handle;
    if sched != [] {
      var front, k := sched[..|sched| - 1], sched[|sched| - 1];
      MergedSofar(fs, jobs, front, clean);
      var frames := Merged(jobs, front);
      if k < |jobs| {
        var n := Count(front, k);
        var r := HandleAll(fs, frames, clean);
        var frame := Payload(jobs[k].id, jobs[k].path, UploadPieces(jobs[k].data)[n]);
        HandlePiece(r, jobs[k], n, clean);
        HandleAllGrows(fs, frames, frame, clean);
        assert HandleAll(fs, Merged(jobs, sched), clean) == r[clean(jobs[k].path) := Sofar(jobs[k].data, n + 1)];
      } else {
        assert frames + [] == frames;
      }
    }
  }

  /** Uploads do not interfere: whatever the interleaving, once every piece has
      come each path holds exactly its file, whatever was there before, and every
      other path is as it was. */
  lemma UploadsDoNotInterfere(fs: Files, jobs: seq<Job>, sched: seq<nat>, clean: Path -> Path)
    requires Separate(jobs, clean)
    requires forall i | 0 <= i < |jobs| :: Count(sched, i) == |UploadPieces(jobs[i].data)|
    ensures var r := HandleAll(fs, Merged(jobs, sched), clean);
            && (forall i | 0 <= i < |jobs| :: clean(jobs[i].path) in r && r[clean(jobs[i].path)] == jobs[i].data)
            && (forall p: Path | (forall i | 0 <= i < |jobs| :: p != clean(jobs[i].path)) ::
                  (p in r <==> p in fs) && (p in fs ==> r[p] == fs[p]))
  {
    MergedSofar(fs, jobs, sched, clean);
    forall i | 0 <= i < |jobs|
      ensures Count(sched, i) > 0 && Sofar(jobs[i].data, Count(sched, i)) == jobs[i].data
    {
      PieceCount(jobs[i].data, 0);
    }
  }

  // ---------------------------------------------------------------------
  // Any order at all

  function End(data: seq<byte>, k: nat): nat
  {
    if (k + 1) * CHUNK <= |data| then (k + 1) * CHUNK else |data|
  }

  /** content is base with the pieces got of data over it, holes zero, and no longer than
      base and those pieces make it. */
  ghost predicate Over(content: seq<byte>, base: seq<byte>, data: seq<byte>, got: set<nat>)
  {
    && |base| <= |content|
    && (forall k | k in got :: End(data, k) <= |content|)
    && (|content| == |base| || exists k :: k in got && |content| == End(data, k))
    && (forall j | 0 <= j < |content| :: content[j] == ByteOver(base, data, got, j))
  }

  ghost function ByteOver(base: seq<byte>, data: seq<byte>, got: set<nat>, j: nat): byte
  {
    if j / CHUNK in got && j < |data| then data[j] else if j < |base| then base[j] else 0
  }

  lemma WriteGoesOver(content: seq<byte>, base: seq<byte>, data: seq<byte>, got: set<nat>, k: nat)
    requires Over(content, base, data, got) && k * CHUNK < |data|
    ensures Over(WriteAt(content, k * CHUNK, data[k * CHUNK..End(data, k)]), base, data, got + {k})
  {
    var at, end := k * CHUNK, End(data, k);
    var r := WriteAt(content, at, data[at..end]);
    assert |r| == if |content| <= end then end else |content|;
    forall j | 0 <= j < |r|
      ensures r[j] == ByteOver(base, data, got + {k}, j)
    {
      InPiece(data, k, j);
      if at <= j < end {
        assert r[j] == data[j];
      } else if j < |content| {
        assert r[j] == content[j];
      } else {
        HoleIsEmpty(content, base, data, got, j);
        assert r[j] == 0;
      }
    }
    if |content| > end && |content| != |base| {
      var m :| m in got && |content| == End(data, m);
      assert m in got + {k};
    }
    assert k in got + {k};
  }

  lemma InPiece(data: seq<byte>, k: nat, j: nat)
    ensures j < |data| ==> (k * CHUNK <= j < End(data, k) <==> j / CHUNK == k)
    ensures j >= |data| ==> !(j < End(data, k))
  {
  }

  /** No piece got reaches past the end. */
  lemma HoleIsEmpty(content: seq<byte>, base: seq<byte>, data: seq<byte>, got: set<nat>, j: nat)
    requires Over(content, base, data, got) && |content| <= j < |data|
    ensures j / CHUNK !in got
  {
    InPiece(data, j / CHUNK, j);
  }

  /** The frames of job that carry the pieces of order. */
  function InOrder(job: Job, order: seq<nat>): seq<seq<byte>>
  {
    Payloads(job.id, job.path, Picked(UploadPieces(job.data), order))
  }

  function Picked(ps: seq<Piece>, order: seq<nat>): seq<Piece>
  {
    if order == [] then []
    else
      var k := order[|order| - 1];
      Picked(ps, order[..|order| - 1]) + if k < |ps| then [ps[k]] else []
  }

  lemma InOrderStep(job: Job, order: seq<nat>)
    requires order != [] && order[|order| - 1] < |UploadPieces(job.data)|
    ensures InOrder(job, order) == InOrder(job, order[..|order| - 1])
            + [Payload(job.id, job.path, UploadPieces(job.data)[order[|order| - 1]])]
  {
    hide Payload, UploadPieces;
    var picked := Picked(UploadPieces(job.data), order);
    assert picked[..|picked| - 1] == Picked(UploadPieces(job.data), order[..|order| - 1]);
  }

  /** The pieces of order that no later first piece has truncated away. */
  ghost function Standing(order: seq<nat>): set<nat>
  {
    set i | 0 <= i < |order| && 0 !in order[i + 1..] :: order[i]
  }

  lemma StandingStep(front: seq<nat>, k: nat)
    ensures Standing(front + [k]) == if k == 0 then {0} else Standing(front) + {k}
  {
    hide Standing;
    forall x
      ensures x in Standing(front + [k]) <==> x == k || (k != 0 && x in Standing(front))
    {
      StandsStill(front, k, x);
    }
  }

  lemma StandsStill(front: seq<nat>, k: nat, x: nat)
    ensures x in Standing(front + [k]) <==> x == k || (k != 0 && x in Standing(front))
  {
    var order := front + [k];
    if x == k {
      assert order[|front|] == k && 0 !in order[|front| + 1..];
    } else if x in Standing(order) {
      var i :| 0 <= i < |order| && 0 !in order[i + 1..] && order[i] == x;
      assert order[i + 1..] == front[i + 1..] + [k];
      assert k in order[i + 1..] && 0 !in front[i + 1..];
    }
    if k != 0 && x in Standing(front) {
      StandsOn(front, k, x);
    }
  }

  lemma StandsOn(front: seq<nat>, k: nat, x: nat)
    requires k != 0 && x in Standing(front)
    ensures x in Standing(front + [k])
  {
    var order := front + [k];
    var i :| 0 <= i < |front| && 0 !in front[i + 1..] && front[i] == x;
    assert order[i + 1..] == front[i + 1..] + [k];
    assert 0 !in order[i + 1..] && order[i] == x;
  }

  /** What the pieces are laid over: nothing once a first piece has come. */
  function Base(fs: Files, path: Path, order: seq<nat>): seq<byte>
  {
    if 0 in order then [] else ContentsOf(fs, path)
  }

  /** base with the pieces got over it is all of data. */
  predicate Complete(base: seq<byte>, data: seq<byte>, got: set<nat>)
  {
    && |base| <= |data|
    && (|base| == |data| || |UploadPieces(data)| - 1 in got)
    && forall j | 0 <= j < |data| && j / CHUNK !in got :: data[j] == if j < |base| then base[j] else 0
  }

  /**
   The pieces of a file in any order, with repeats and omissions, over any earlier
   contents: the file ends up as what was there, or nothing once a first piece has come,
   with the pieces since the latest first piece over it; no other file changes. So it
   holds the data exactly when these pieces make it complete.
   */
  lemma AnyOrder(fs: Files, job: Job, order: seq<nat>, clean: Path -> Path)
    requires |job.id| == ID_SIZE && |job.path| < 0x1_0000 && |job.data| <= TWO31 * TWO32
    requires forall k | k in order :: k < |UploadPieces(job.data)|
    ensures var path, r := clean(job.path), HandleAll(fs, InOrder(job, order), clean);
            var content, base, got := ContentsOf(r, path), Base(fs, path, order), Standing(order);
            && (forall p: Path | p != path :: (p in r <==> p in fs) && (p in fs ==> r[p] == fs[p]))
            && Over(content, base, job.data, got)
            && (content == job.data <==> Complete(base, job.data, got))
  {
    hide Over, HandleAll, UploadPieces, InOrder, Complete, Standing;
    Lays(fs, job, order, clean);
    StandingInRange(order, |UploadPieces(job.data)|);
    CompleteExactly(ContentsOf(HandleAll(fs, InOrder(job, order), clean), clean(job.path)),
                    Base(fs, clean(job.path), order), job.data, Standing(order));
  }

  lemma StandingInRange(order: seq<nat>, n: nat)
    requires forall k | k in order :: k < n
    ensures forall k | k in Standing(order) :: k < n
  {
    assert forall i | 0 <= i < |order| :: order[i] in order;
  }

  /** How a file system stands after the pieces of order. */
  ghost predicate Laid(fs: Files, r: Files, path: Path, data: seq<byte>, order: seq<nat>)
  {
    && (forall p: Path | p != path :: (p in r <==> p in fs) && (p in fs ==> r[p] == fs[p]))
    && Over(ContentsOf(r, path), Base(fs, path, order), data, Standing(order))
  }

  lemma {:induction false} Lays(fs: Files, job: Job, order: seq<nat>, clean: Path -> Path)
    requires |job.id| == ID_SIZE && |job.path| < 0x1_0000 && |job.data| <= TWO31 * TWO32
    requires forall k | k in order :: k < |UploadPieces(job.data)|
    ensures Laid(fs, HandleAll(fs, InOrder(job, order), clean), clean(job.path), job.data, order)
  {
    hide Laid, Handle, UploadPieces, Payload, InOrder;
    if order == [] {
      LaysNothing(fs, job, clean);
    } else {
      var front, k := order[..|order| - 1], order[|order| - 1];
      assert k in order && forall x | x in front :: x in order;
      hide HandleAll;
      Lays(fs, job, front, clean);
      HandleInOrder(fs, job, order, clean);
      LaysOne(fs, HandleAll(fs, InOrder(job, front), clean), job, front, k, clean);
      assert order == front + [k];
    }
  }

  lemma LaysNothing(fs: Files, job: Job, clean: Path -> Path)
    ensures Laid(fs, HandleAll(fs, InOrder(job, []), clean), clean(job.path), job.data, [])
  {
    NothingOver(ContentsOf(fs, clean(job.path)), job.data);
  }

  lemma HandleInOrder(fs: Files, job: Job, order: seq<nat>, clean: Path -> Path)
    requires order != [] && order[|order| - 1] < |UploadPieces(job.data)|
    ensures HandleAll(fs, InOrder(job, order), clean)
            == Handle(HandleAll(fs, InOrder(job, order[..|order| - 1]), clean),
                      Payload(job.id, job.path, UploadPieces(job.data)[order[|order| - 1]]), clean)
  {
    hide InOrder, HandleAll, Handle, Payload, UploadPieces;
    InOrderStep(job, order);
    HandleAllGrows(fs, InOrder(job, order[..|order| - 1]),
                   Payload(job.id, job.path, UploadPieces(job.data)[order[|order| - 1]]), clean);
  }

  lemma LaysOne(fs: Files, before: Files, job: Job, front: seq<nat>, k: nat, clean: Path -> Path)
    requires |job.id| == ID_SIZE && |job.path| < 0x1_0000 && |job.data| <= TWO31 * TWO32
    requires k < |UploadPieces(job.data)| && Laid(fs, before, clean(job.path), job.data, front)
    ensures Laid(fs, Handle(before, Payload(job.id, job.path, UploadPieces(job.data)[k]), clean),
                 clean(job.path), job.data, front + [k])
  {
    hide Over, Handle, UploadPieces, Payload, Standing;
    StandingStep(front, k);
    if k == 0 {
      HandlePiece(before, job, 0, clean);
      FirstPieceOver(job.data);
    } else {
      HandleLaterPiece(before, job, k, Base(fs, clean(job.path), front), Standing(front), clean);
    }
  }

  lemma NothingOver(base: seq<byte>, data: seq<byte>)
    ensures Over(base, base, data, Standing([]))
  {
    assert Standing([]) == {};
  }

  /** The server's handling of one later piece, whatever the file holds. */
  lemma HandleLaterPiece(fs: Files, job: Job, k: nat, base: seq<byte>, got: set<nat>, clean: Path -> Path)
    requires |job.id| == ID_SIZE && |job.path| < 0x1_0000 && |job.data| <= TWO31 * TWO32
    requires 0 < k < |UploadPieces(job.data)|
    requires Over(ContentsOf(fs, clean(job.path)), base, job.data, got)
    ensures var path := clean(job.path);
            var r := Handle(fs, Payload(job.id, job.path, UploadPieces(job.data)[k]), clean);
            && path in r && r == fs[path := r[path]]
            && Over(r[path], base, job.data, got + {k})
  {
    LaterPiece(job.data, k);
    var p := UploadPieces(job.data)[k];
    hide Over, WriteAt, Parse, Payload, UploadPieces, End;
    ParseReadsBack(job.id, job.path, p);
    WriteGoesOver(ContentsOf(fs, clean(job.path)), base, job.data, got, k);
  }

  lemma LaterPiece(data: seq<byte>, k: nat)
    requires 0 < k < |UploadPieces(data)|
    ensures 0 < k * CHUNK < |data| && k * CHUNK <= End(data, k)
    ensures UploadPieces(data)[k] == Piece(k * CHUNK, data[k * CHUNK..End(data, k)])
  {
    PieceAt(data, 0, k);
  }

  lemma FirstPieceOver(data: seq<byte>)
    ensures Over(Sofar(data, 1), [], data, {0})
  {
    assert 0 in {0} && |Sofar(data, 1)| == End(data, 0);
    forall j | 0 <= j < |Sofar(data, 1)|
      ensures j / CHUNK == 0
    {
    }
  }

  lemma LastEnds(data: seq<byte>, k: nat)
    requires k < |UploadPieces(data)|
    ensures End(data, k) == |data| <==> k == |UploadPieces(data)| - 1
  {
    PieceCount(data, 0);
    if data != [] {
      var n := |UploadPieces(data)|;
      assert k < n - 1 ==> (k + 1) * CHUNK <= (n - 1) * CHUNK;
    }
  }

  lemma CompleteExactly(content: seq<byte>, base: seq<byte>, data: seq<byte>, got: set<nat>)
    requires Over(content, base, data, got) && forall k | k in got :: k < |UploadPieces(data)|
    ensures content == data <==> Complete(base, data, got)
  {
    SomePieces(data);
    hide UploadPieces;
    var n := |UploadPieces(data)|;
    forall k | k in got
      ensures End(data, k) <= |data| && (End(data, k) == |data| <==> k == n - 1)
    {
      LastEnds(data, k);
    }
  }

  lemma SomePieces(data: seq<byte>)
    ensures |UploadPieces(data)| > 0
  {
    PieceCount(data, 0);
  }

  /** All pieces since the latest first one make the file complete, in whatever order. */
  lemma AllPiecesComplete(data: seq<byte>, order: seq<nat>)
    requires forall k | 0 <= k < |UploadPieces(data)| :: k in Standing(order)
    ensures Complete([], data, Standing(order))
  {
    SomePieces(data);
    PieceCount(data, 0);
    forall j | 0 <= j < |data|
      ensures j / CHUNK in Standing(order)
    {
      assert j / CHUNK < |UploadPieces(data)|;
    }
  }

  /** The first piece erases: handled last, it leaves itself and nothing else, whatever
      pieces came before. */
  lemma FirstPieceErases(fs: Files, job: Job, order: seq<nat>, clean: Path -> Path)
    requires |job.id| == ID_SIZE && |job.path| < 0x1_0000 && |job.data| <= TWO31 * TWO32
    requires forall k | k in order :: k < |UploadPieces(job.data)|
    ensures |UploadPieces(job.data)| > 0
    ensures var path, r := clean(job.path), HandleAll(fs, InOrder(job, order + [0]), clean);
            && path in r && r[path] == UploadPieces(job.data)[0].bytes
            && (r[path] == job.data <==> |UploadPieces(job.data)| == 1)
  {
    SomePieces(job.data);
    var all := order + [0];
    HandleInOrder(fs, job, all, clean);
    assert all[..|order|] == order;
    hide HandleAll;
    HandlePiece(HandleAll(fs, InOrder(job, order), clean), job, 0, clean);
    NextPiece(job.data, 0);
    LastEnds(job.data, 0);
    hide InOrder, Payload, UploadPieces, Handle;
  }

  /** A negative offset, which only a foreign client can send, overwrites the head
      of the file in place. */
  lemma NegativeOffsetOverwritesHead(fs: Files, path: Path, offset: int, data: seq<byte>)
    requires offset < 0 && path in fs && 0 < |data| <= |fs[path]|
    ensures WriteChunk(fs, path, offset, data)[path] == data + fs[path][|data|..]
  {
    assert fs[path][..0] + data == data;
  }
}
