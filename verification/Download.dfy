/**
 Chunked downloads: internal/server/fileops.go cuts a file wherever its reads stop,
 and FileManager.svelte puts the chunks back together by offset.
 */
module Download {
  import opened Prelude
  import opened Codec
  import Upload

  const DOWNLOAD_CHUNK: nat := 0x1_0000 // 64 KiB
  const SPACE: byte := 0x20

  /** What the server passes to its hub; progress messages are already parsed. */
  datatype Event =
    | ChunkFrame(payload: seq<byte>)
    | ProgressFrame(id: seq<byte>, bytesSent: nat, total: nat, error: bool)

  // ---------------------------------------------------------------------
  // The wire format

  /** The id cut or padded to 36 bytes. */
  function PadId(id: seq<byte>): (r: seq<byte>)
    ensures |r| == ID_SIZE
  {
    if |id| > ID_SIZE then id[..ID_SIZE] else id + seq(ID_SIZE - |id|, _ => SPACE)
  }

  /** The white space of ASCII. */
  predicate White(b: byte)
  {
    b == SPACE || 0x09 <= b <= 0x0d
  }

  function TrimEnd(s: seq<byte>): seq<byte>
  {
    if s == [] || !White(s[|s| - 1]) then s else TrimEnd(s[..|s| - 1])
  }

  /** downloadID(36) | offset(8) | data */
  function Payload(id: seq<byte>, offset: nat, data: seq<byte>): seq<byte>
  {
    PadId(id) + Upload.BE64(offset) + data
  }

  predicate PlainId(id: seq<byte>)
  {
    |id| <= ID_SIZE && (id == [] || !White(id[|id| - 1]))
  }

  /** An id comes back exactly when it fits and does not end in white space. */
  lemma IdSurvives(id: seq<byte>)
    ensures TrimEnd(PadId(id)) == id <==> PlainId(id)
  {
    if |id| <= ID_SIZE {
      TrimPadding(id, ID_SIZE - |id|);
    }
    TrimShortens(PadId(id));
  }

  lemma {:induction false} TrimPadding(id: seq<byte>, n: nat)
    ensures TrimEnd(id + seq(n, _ => SPACE)) == TrimEnd(id)
  {
    var s := id + seq(n, _ => SPACE);
    if n == 0 {
      assert s == id;
    } else {
      assert s[..|s| - 1] == id + seq(n - 1, _ => SPACE);
      TrimPadding(id, n - 1);
    }
  }

  lemma {:induction false} TrimShortens(s: seq<byte>)
    ensures TrimEnd(s) <= s
    ensures TrimEnd(s) == [] || !White(TrimEnd(s)[|TrimEnd(s)| - 1])
    ensures TrimEnd(s) == s <==> s == [] || !White(s[|s| - 1])
  {
    if s != [] && White(s[|s| - 1]) {
      TrimShortens(s[..|s| - 1]);
    }
  }

  lemma PayloadReadsBack(id: seq<byte>, offset: nat, data: seq<byte>)
    requires PlainId(id) && offset < TWO32 * TWO32
    ensures var p := Payload(id, offset, data);
            && |p| >= ID_SIZE + 8
            && TrimEnd(p[..ID_SIZE]) == id
            && Upload.U64(p[ID_SIZE..ID_SIZE + 8]) == offset
            && p[ID_SIZE + 8..] == data
  {
    hide PadId, TrimEnd, Upload.BE64, Upload.U64;
    var p := Payload(id, offset, data);
    IdSurvives(id);
    Upload.U64OfBE64(offset);
    assert p[..ID_SIZE] == PadId(id);
    assert p[ID_SIZE..ID_SIZE + 8] == Upload.BE64(offset);
  }

  /** putInt64BE, byte by byte. */
  method PutInt64BE(dst: array<byte>, at: nat, v: nat)
    requires at + 8 <= dst.Length
    modifies dst
    ensures dst[..] == old(dst[..at]) + Upload.BE64(v) + old(dst[at + 8..])
  {
    dst[at] := v / 0x100_0000_0000_0000 % 0x100;
    dst[at + 1] := v / 0x1_0000_0000_0000 % 0x100;
    dst[at + 2] := v / 0x100_0000_0000 % 0x100;
    dst[at + 3] := v / 0x1_0000_0000 % 0x100;
    dst[at + 4] := v / 0x100_0000 % 0x100;
    dst[at + 5] := v / 0x1_0000 % 0x100;
    dst[at + 6] := v / 0x100 % 0x100;
    dst[at + 7] := v % 0x100;
    hide Upload.BE64;
    Shifts(v);
    ghost var bytes := Upload.BE64(v);
    assert dst[at..at + 8] == bytes;
    assert dst[..at] == old(dst[..at]) && dst[at + 8..] == old(dst[at + 8..]);
    assert dst[..] == dst[..at] + dst[at..at + 8] + dst[at + 8..];
  }

  lemma Shifts(v: nat)
    ensures Upload.BE64(v)
            == [v / 0x100_0000_0000_0000 % 0x100, v / 0x1_0000_0000_0000 % 0x100, v / 0x100_0000_0000 % 0x100,
                v / 0x1_0000_0000 % 0x100, v / 0x100_0000 % 0x100, v / 0x1_0000 % 0x100, v / 0x100 % 0x100, v % 0x100]
  {
    var hi := v / TWO32;
    assert hi / 0x1_0000 == v / 0x1_0000_0000_0000;
    assert hi / 0x1_0000 / 0x100 == v / 0x100_0000_0000_0000;
    assert hi / 0x100 == v / 0x100_0000_0000;
    assert v / 0x1_0000 / 0x100 == v / 0x100_0000;
  }

  // ---------------------------------------------------------------------
  // The server

  function Sum(cuts: seq<nat>): nat
  {
    if cuts == [] then 0 else Sum(cuts[..|cuts| - 1]) + cuts[|cuts| - 1]
  }

  /** Sizes of consecutive non-empty pieces of a file of n bytes. */
  ghost predicate Cut(cuts: seq<nat>, n: nat)
  {
    (forall i | 0 <= i < |cuts| :: 0 < cuts[i] <= DOWNLOAD_CHUNK) && Sum(cuts) <= n
  }

  function LastPiece(content: seq<byte>, cuts: seq<nat>): seq<byte>
    requires cuts != [] && Sum(cuts) <= |content|
  {
    content[Sum(cuts[..|cuts| - 1])..Sum(cuts)]
  }

  /** One chunk and one progress message per piece. */
  function Calls(id: seq<byte>, content: seq<byte>, total: nat, cuts: seq<nat>): (r: seq<Event>)
    requires Sum(cuts) <= |content|
  {
    if cuts == [] then []
    else
      var front := cuts[..|cuts| - 1];
      Calls(id, content, total, front)
      + [ChunkFrame(Payload(id, Sum(front), LastPiece(content, cuts))), ProgressFrame(id, Sum(cuts), total, false)]
  }

  lemma CallsGrow(id: seq<byte>, content: seq<byte>, total: nat, cuts: seq<nat>, n: nat)
    requires Cut(cuts, |content|) && 0 < n <= DOWNLOAD_CHUNK && Sum(cuts) + n <= |content|
    ensures Cut(cuts + [n], |content|) && Sum(cuts + [n]) == Sum(cuts) + n
    ensures Calls(id, content, total, cuts + [n])
            == (Calls(id, content, total, cuts)
                + [ChunkFrame(Payload(id, Sum(cuts), content[Sum(cuts)..Sum(cuts) + n]))])
               + [ProgressFrame(id, Sum(cuts) + n, total, false)]
  {
    hide Payload, Calls, Sum, Cut;
    SumGrows(cuts, n);
    CutGrows(cuts, n, |content|);
    CallsUnfold(id, content, total, cuts + [n]);
    assert (cuts + [n])[..|cuts|] == cuts;
  }

  lemma SumGrows(cuts: seq<nat>, n: nat)
    ensures Sum(cuts + [n]) == Sum(cuts) + n
  {
    assert (cuts + [n])[..|cuts|] == cuts;
  }

  lemma CutGrows(cuts: seq<nat>, n: nat, size: nat)
    requires Cut(cuts, size) && 0 < n <= DOWNLOAD_CHUNK && Sum(cuts + [n]) <= size
    ensures Cut(cuts + [n], size)
  {
    hide Sum;
  }

  lemma CallsUnfold(id: seq<byte>, content: seq<byte>, total: nat, cuts: seq<nat>)
    requires cuts != [] && Sum(cuts[..|cuts| - 1]) <= Sum(cuts) <= |content|
    ensures var front := cuts[..|cuts| - 1];
            Calls(id, content, total, cuts)
            == (Calls(id, content, total, front)
                + [ChunkFrame(Payload(id, Sum(front), content[Sum(front)..Sum(cuts)]))])
               + [ProgressFrame(id, Sum(cuts), total, false)]
  {
    hide Payload, Sum;
  }

  /** What the environment does in one round: the context may be cancelled, a read
      gives at most n bytes and may fail, and the hub may be closed. */
  datatype Round = Round(cancelled: bool, n: nat, readFails: bool, hubOpen: bool)

  datatype Outcome = OpenFailed | Cancelled | ReadFailed | HubClosed | Finished | Running

  function Min(a: nat, b: nat): nat
  {
    if a < b then a else b
  }

  method ReadInto(buf: array<byte>, content: seq<byte>, offset: nat, most: nat) returns (n: nat)
    requires offset <= |content|
    modifies buf
    ensures n == Min(Min(most, buf.Length), |content| - offset)
    ensures buf[..n] == content[offset..offset + n]
  {
    n := most;
    if n > buf.Length {
      n := buf.Length;
    }
    if n > |content| - offset {
      n := |content| - offset;
    }
    for i := 0 to n
      modifies buf
      invariant buf[..i] == content[offset..offset + i]
    {
      buf[i] := content[offset + i];
    }
  }

  method BuildChunk(id: seq<byte>, offset: nat, buf: array<byte>, n: nat) returns (chunk: array<byte>)
    requires n <= buf.Length
    ensures fresh(chunk) && chunk[..] == Payload(id, offset, buf[..n])
  {
    hide PadId, Upload.BE64;
    var idBytes := PadId(id);
    chunk := new byte[ID_SIZE + 8 + n](i => 0);
    forall i | 0 <= i < ID_SIZE {
      chunk[i] := idBytes[i];
    }
    assert chunk[..ID_SIZE] == idBytes;
    PutInt64BE(chunk, ID_SIZE, offset);
    assert chunk[..ID_SIZE + 8] == idBytes + Upload.BE64(offset);
    forall i | 0 <= i < n {
      chunk[ID_SIZE + 8 + i] := buf[i];
    }
    assert chunk[..ID_SIZE + 8] == idBytes + Upload.BE64(offset);
    assert chunk[ID_SIZE + 8..] == buf[..n];
    assert chunk[..] == chunk[..ID_SIZE + 8] + chunk[ID_SIZE + 8..];
  }

  /** The two Send calls for one read; on a closed hub the first one fails. */
  method SendPiece(id: seq<byte>, content: seq<byte>, total: nat, offset: nat, buf: array<byte>, n: nat, hubOpen: bool,
                   calls: seq<Event>, ghost cuts: seq<nat>)
    returns (calls': seq<Event>)
    requires Cut(cuts, |content|) && Sum(cuts) == offset && calls == Calls(id, content, total, cuts)
    requires 0 < n <= DOWNLOAD_CHUNK && n <= buf.Length && offset + n <= |content|
    requires buf[..n] == content[offset..offset + n]
    ensures Cut(cuts + [n], |content|) && Sum(cuts + [n]) == offset + n
    ensures hubOpen ==> calls' == Calls(id, content, total, cuts + [n])
    ensures !hubOpen ==> calls' + [ProgressFrame(id, offset + n, total, false)] == Calls(id, content, total, cuts + [n])
  {
    hide Payload, Sum, Cut, Calls;
    CallsGrow(id, content, total, cuts, n);
    var chunk := BuildChunk(id, offset, buf, n);
    calls' := calls + [ChunkFrame(chunk[..])];
    if hubOpen {
      calls' := calls' + [ProgressFrame(id, offset + n, total, false)];
    }
  }

  /** What the first k rounds could have read from an endless file. */
  function Asked(env: seq<Round>, k: nat): nat
    requires k <= |env|
  {
    if k == 0 then 0 else Asked(env, k - 1) + Min(env[k - 1].n, DOWNLOAD_CHUNK)
  }

  /** What is left of a file of size bytes before round k. */
  function Left(env: seq<Round>, size: nat, k: nat): nat
    requires k <= |env|
  {
    size - Min(size, Asked(env, k))
  }

  /** The non-empty reads of the first k rounds. */
  function Reads(env: seq<Round>, size: nat, k: nat): seq<nat>
    requires k <= |env|
  {
    if k == 0 then []
    else
      var n := Min(Min(env[k - 1].n, DOWNLOAD_CHUNK), Left(env, size, k - 1));
      Reads(env, size, k - 1) + if n > 0 then [n] else []
  }

  /** No matter how the reads fall, k rounds deliver what they asked for or all there is. */
  lemma {:induction false} ReadsDeliver(env: seq<Round>, size: nat, k: nat)
    requires k <= |env|
    ensures Sum(Reads(env, size, k)) == Min(size, Asked(env, k))
    ensures Cut(Reads(env, size, k), size)
  {
    if k > 0 {
      ReadsDeliver(env, size, k - 1);
      var n := Min(Min(env[k - 1].n, DOWNLOAD_CHUNK), Left(env, size, k - 1));
      var front := Reads(env, size, k - 1);
      if n > 0 {
        SumGrows(front, n);
        CutGrows(front, n, size);
      } else {
        assert front + [] == front;
      }
    }
  }

  lemma OneRead(env: seq<Round>, size: nat, k: nat)
    requires k < |env|
    ensures Left(env, size, k) == size - Sum(Reads(env, size, k))
    ensures var n := Min(Min(env[k].n, DOWNLOAD_CHUNK), Left(env, size, k));
            Reads(env, size, k + 1) == if n > 0 then Reads(env, size, k) + [n] else Reads(env, size, k)
  {
    hide Sum, Asked;
    ReadsDeliver(env, size, k);
    assert Reads(env, size, k) + [] == Reads(env, size, k);
  }

  /** Neither cancelled, nor failing, nor stopped by a closed hub, nor at the end. */
  predicate GoesOn(env: seq<Round>, size: nat, k: nat)
    requires k < |env|
  {
    && !env[k].cancelled && !env[k].readFails
    && (env[k].n > 0 ==> Left(env, size, k) > 0 && env[k].hubOpen)
  }

  ghost predicate AllGo(env: seq<Round>, size: nat, k: nat)
    requires k <= |env|
  {
    forall i | 0 <= i < k :: GoesOn(env, size, i)
  }

  /** Rounds that read something reach the end of the file. */
  lemma {:induction false} AskedGrows(env: seq<Round>, k: nat)
    requires k <= |env| && forall i | 0 <= i < k :: env[i].n > 0
    ensures Asked(env, k) >= k
  {
    if k > 0 {
      AskedGrows(env, k - 1);
    }
  }

  /** Why a round ended the stream with left bytes unread: the reason that comes first in
      the loop. */
  predicate EndsFor(r: Round, left: nat, outcome: Outcome)
  {
    && (outcome == Cancelled <==> r.cancelled)
    && (outcome == HubClosed <==> !r.cancelled && r.n > 0 && left > 0 && !r.hubOpen)
    && (outcome == ReadFailed <==> !r.cancelled && (r.n == 0 || left == 0 || r.hubOpen) && r.readFails)
    && (outcome == Finished <==> !r.cancelled && !r.readFails && r.n > 0 && left == 0)
  }

  /** The stream read cuts and stopped in the first round that does not go on, or ran out
      of rounds. */
  ghost predicate Stopped(env: seq<Round>, size: nat, outcome: Outcome, cuts: seq<nat>, rounds: nat)
  {
    && rounds <= |env| && outcome != OpenFailed
    && AllGo(env, size, rounds)
    && (outcome == Running <==> rounds == |env|)
    && (rounds < |env| ==>
          !GoesOn(env, size, rounds) && EndsFor(env[rounds], Left(env, size, rounds), outcome))
    && cuts == Reads(env, size, if outcome == HubClosed || outcome == ReadFailed then rounds + 1 else rounds)
  }

  /** What was delivered is what the rounds that read asked for, or the whole file. */
  lemma DeliversWhatWasRead(env: seq<Round>, size: nat, outcome: Outcome, cuts: seq<nat>, rounds: nat)
    requires Stopped(env, size, outcome, cuts, rounds)
    ensures Sum(cuts)
            == Min(size, Asked(env, if outcome == HubClosed || outcome == ReadFailed then rounds + 1 else rounds))
  {
    hide Reads, Asked, Sum, GoesOn;
    ReadsDeliver(env, size, if outcome == HubClosed || outcome == ReadFailed then rounds + 1 else rounds);
  }

  /** With more good rounds than the file has bytes, the stream finishes. */
  lemma GoodRoundsFinish(env: seq<Round>, size: nat, outcome: Outcome, cuts: seq<nat>, rounds: nat)
    requires Stopped(env, size, outcome, cuts, rounds) && |env| > size
    requires forall k | 0 <= k < |env| ::
               env[k].n > 0 && env[k].hubOpen && !env[k].cancelled && !env[k].readFails
    ensures outcome == Finished && Sum(cuts) == size
  {
    hide Reads, Sum, Cut, Calls;
    AskedGrows(env, size);
    assert !GoesOn(env, size, size);
    DeliversWhatWasRead(env, size, outcome, cuts, rounds);
    assert Left(env, size, rounds) == 0;
  }

  /** The tests of one round of the loop, in its order. */
  function RoundEnds(r: Round, n: nat): Outcome
  {
    if r.cancelled then Cancelled
    else if n > 0 && !r.hubOpen then HubClosed
    else if r.readFails then ReadFailed
    else if r.n > 0 && n == 0 then Finished
    else Running
  }

  /** calls are the frames for cuts, short of the last one when the hub was found closed. */
  ghost predicate Sent(id: seq<byte>, content: seq<byte>, total: nat, cuts: seq<nat>, calls: seq<Event>,
                       outcome: Outcome)
  {
    && Cut(cuts, |content|)
    && if outcome == HubClosed
       then cuts != [] && calls + [ProgressFrame(id, Sum(cuts), total, false)] == Calls(id, content, total, cuts)
       else calls == Calls(id, content, total, cuts)
  }

  lemma RoundEndsFor(r: Round, left: nat, n: nat)
    requires n == if r.cancelled then 0 else Min(Min(r.n, DOWNLOAD_CHUNK), left)
    ensures var o := RoundEnds(r, n);
            && (o == Running <==> !r.cancelled && !r.readFails && (r.n > 0 ==> left > 0 && r.hubOpen))
            && (o != Running ==> EndsFor(r, left, o) && o != OpenFailed)
            && (o == Cancelled || o == Finished ==> n == 0)
            && (o == Finished ==> left == 0)
  {
  }

  /** What round k reads and how it ends the stream, if it does. */
  lemma OneRound(env: seq<Round>, size: nat, k: nat, n: nat, outcome: Outcome, cuts: seq<nat>)
    requires k < |env| && AllGo(env, size, k)
    requires n == if env[k].cancelled then 0 else Min(Min(env[k].n, DOWNLOAD_CHUNK), Left(env, size, k))
    requires outcome == RoundEnds(env[k], n)
    requires cuts == if n > 0 then Reads(env, size, k) + [n] else Reads(env, size, k)
    ensures outcome == Running ==> AllGo(env, size, k + 1) && cuts == Reads(env, size, k + 1)
    ensures outcome != Running ==> Stopped(env, size, outcome, cuts, k)
    ensures outcome == Finished ==> Left(env, size, k) == 0
  {
    OneRead(env, size, k);
    RoundEndsFor(env[k], Left(env, size, k), n);
    hide Reads, Left, Asked, Sum, AllGo, Min, RoundEnds, EndsFor;
    if outcome == Running {
      OneMoreGoes(env, size, k);
    }
  }

  lemma OneMoreGoes(env: seq<Round>, size: nat, k: nat)
    requires k < |env| && AllGo(env, size, k) && GoesOn(env, size, k)
    ensures AllGo(env, size, k + 1)
  {
    hide GoesOn;
  }

  lemma StartStream(id: seq<byte>, content: seq<byte>, total: nat, env: seq<Round>)
    ensures Sum([]) == 0 && Sent(id, content, total, [], [], Running)
    ensures Reads(env, |content|, 0) == [] && AllGo(env, |content|, 0)
  {
  }

  lemma OutOfRounds(env: seq<Round>, size: nat)
    requires AllGo(env, size, |env|)
    ensures Stopped(env, size, Running, Reads(env, size, |env|), |env|)
  {
    hide Reads, Left, Asked, AllGo;
  }

  /** Round k of the loop: a cancelled context, the read and what is sent for it. */
  method StreamRound(id: seq<byte>, content: seq<byte>, total: nat, env: seq<Round>, k: nat, offset: nat,
                     buf: array<byte>, calls: seq<Event>, ghost cuts: seq<nat>)
    returns (calls': seq<Event>, n: nat, outcome: Outcome, ghost cuts': seq<nat>)
    requires k < |env| && AllGo(env, |content|, k) && cuts == Reads(env, |content|, k)
    requires Sent(id, content, total, cuts, calls, Running) && Sum(cuts) == offset <= |content|
    requires buf.Length == DOWNLOAD_CHUNK
    modifies buf
    ensures Sum(cuts') == offset + n <= |content| && Sent(id, content, total, cuts', calls', outcome)
    ensures outcome == Running ==> AllGo(env, |content|, k + 1) && cuts' == Reads(env, |content|, k + 1)
    ensures outcome != Running ==> Stopped(env, |content|, outcome, cuts', k)
    ensures outcome == Finished ==> offset == |content|
  {
    hide Payload, Sum, Cut, Calls, Reads, Left, Asked, Stopped, AllGo;
    var r := env[k];
    calls', n, cuts' := calls, 0, cuts;
    OneRead(env, |content|, k);
    if r.cancelled {
      OneRound(env, |content|, k, n, Cancelled, cuts');
      return calls', n, Cancelled, cuts';
    }
    n := ReadInto(buf, content, offset, r.n);
    OneRound(env, |content|, k, n, RoundEnds(r, n), if n > 0 then cuts + [n] else cuts);
    if n > 0 {
      calls' := SendPiece(id, content, total, offset, buf, n, r.hubOpen, calls, cuts);
      cuts' := cuts + [n];
      if !r.hubOpen {
        return calls', n, HubClosed, cuts';
      }
    }
    if r.readFails {
      return calls', n, ReadFailed, cuts';
    }
    outcome := if r.n > 0 && n == 0 then Finished else Running;
  }

  /**
   streamFileDownload: calls are the frames handed to the hub. Whatever the reads
   give, the chunks are consecutive pieces of the file from its start, each followed
   by its progress message, and all of it when the outcome is Finished. Only a closed
   hub stops the loop between a chunk and its progress message.
   */
  method StreamFileDownload(id: seq<byte>, file: Option<seq<byte>>, total: nat, env: seq<Round>)
    returns (calls: seq<Event>, outcome: Outcome, ghost cuts: seq<nat>, ghost rounds: nat)
    ensures file.None? <==> outcome == OpenFailed
    ensures file.None? ==> calls == [ProgressFrame(id, 0, 0, true)]
    ensures file.Some? ==> Sent(id, file.value, total, cuts, calls, outcome)
    ensures file.Some? && outcome == Finished ==> Sum(cuts) == |file.value|
    ensures file.Some? ==> Stopped(env, |file.value|, outcome, cuts, rounds)
  {
    calls, cuts, rounds := [], [], 0;
    if file.None? {
      return [ProgressFrame(id, 0, 0, true)], OpenFailed, [], 0;
    }
    hide Payload, Sum, Reads, Left, Asked, Stopped, AllGo, Sent;
    var content := file.value;
    StartStream(id, content, total, env);
    var buf := new byte[DOWNLOAD_CHUNK](_ => 0);
    var offset := 0;
    for k := 0 to |env|
      invariant 0 <= offset <= |content| && offset == Sum(cuts)
      invariant Sent(id, content, total, cuts, calls, Running)
      invariant fresh(buf) && buf.Length == DOWNLOAD_CHUNK
      invariant rounds == k && cuts == Reads(env, |content|, k)
      invariant AllGo(env, |content|, k)
    {
      var n;
      calls, n, outcome, cuts := StreamRound(id, content, total, env, k, offset, buf, calls, cuts);
      offset := offset + n;
      if outcome != Running {
        return;
      }
      rounds := rounds + 1;
    }
    outcome := Running;
    OutOfRounds(env, |content|);
  }

  // ---------------------------------------------------------------------
  // The browser

  /** A download under way; JavaScript's Map from offset to bytes is a map. */
  datatype Entry = Entry(name: string, total: nat, received: nat, chunks: map<nat, seq<byte>>)

  datatype Saved = Saved(id: seq<byte>, name: string, data: seq<byte>)

  datatype Manager = Manager(downloads: map<seq<byte>, Entry>, saved: seq<Saved>)

  /** The chunks in the order of their offsets. */
  ghost function Assemble(chunks: map<nat, seq<byte>>): seq<byte>
    decreases |chunks|
  {
    if chunks == map[] then []
    else
      HasLast(chunks.Keys);
      var k: nat :| k in chunks && forall j | j in chunks :: j <= k;
      assert (chunks - {k}).Keys == chunks.Keys - {k};
      Assemble(chunks - {k}) + chunks[k]
  }

  lemma {:induction false} HasLast(ks: set<nat>)
    requires ks != {}
    ensures exists k :: k in ks && forall j | j in ks :: j <= k
  {
    var x :| x in ks;
    if ks != {x} {
      HasLast(ks - {x});
      var m :| m in ks - {x} && forall j | j in ks - {x} :: j <= m;
      var k := if x <= m then m else x;
      assert k in ks;
      forall j | j in ks
        ensures j <= k
      {
        assert j == x || j in ks - {x};
      }
    }
  }

  lemma AssembleLast(chunks: map<nat, seq<byte>>, k: nat, data: seq<byte>)
    requires forall j | j in chunks :: j < k
    ensures Assemble(chunks[k := data]) == Assemble(chunks) + data
  {
    assert chunks[k := data] - {k} == chunks;
    assert k in chunks[k := data];
  }

  function StartIn(m: Manager, id: seq<byte>, name: string): Manager
  {
    m.(downloads := m.downloads[id := Entry(name, 0, 0, map[])])
  }

  function OnChunkIn(m: Manager, payload: seq<byte>): Manager
  {
    if |payload| < ID_SIZE + 8 then m
    else
      var id := TrimEnd(payload[..ID_SIZE]);
      if id !in m.downloads then m
      else
        var dl := m.downloads[id];
        var offset := Upload.U64(payload[ID_SIZE..ID_SIZE + 8]);
        m.(downloads := m.downloads[id := dl.(chunks := dl.chunks[offset := payload[ID_SIZE + 8..]],
                                                received := dl.received + |payload| - (ID_SIZE + 8))])
  }

  ghost function OnProgressIn(m: Manager, id: seq<byte>, bytesSent: nat, total: nat, error: bool): Manager
  {
    if id !in m.downloads then m
    else if error then m.(downloads := m.downloads - {id})
    else
      var dl := m.downloads[id].(total := total);
      if total > 0 && bytesSent >= total
      then Manager(m.downloads - {id}, m.saved + [Saved(id, dl.name, Assemble(dl.chunks))])
      else m.(downloads := m.downloads[id := dl])
  }

  ghost function On(m: Manager, e: Event): Manager
  {
    match e
    case ChunkFrame(payload) => OnChunkIn(m, payload)
    case ProgressFrame(id, bytesSent, total, error) => OnProgressIn(m, id, bytesSent, total, error)
  }

  ghost function OnAll(m: Manager, events: seq<Event>): Manager
  {
    if events == [] then m else On(OnAll(m, events[..|events| - 1]), events[|events| - 1])
  }

  class FileManager {
    var downloads: map<seq<byte>, Entry>
    var saved: seq<Saved>

    ghost function View(): Manager
      reads this
    {
      Manager(downloads, saved)
    }

    method Start(id: seq<byte>, name: string)
      modifies this
      ensures View() == StartIn(old(View()), id, name)
    {
      downloads := downloads[id := Entry(name, 0, 0, map[])];
    }

    method OnChunk(payload: seq<byte>)
      modifies this
      ensures View() == OnChunkIn(old(View()), payload)
    {
      if |payload| < ID_SIZE + 8 {
        return;
      }
      var id := TrimEnd(payload[..ID_SIZE]);
      if id !in downloads {
        return;
      }
      var dl := downloads[id];
      var offset := Upload.U64(payload[ID_SIZE..ID_SIZE + 8]);
      downloads := downloads[id := dl.(chunks := dl.chunks[offset := payload[ID_SIZE + 8..]],
                                       received := dl.received + |payload| - (ID_SIZE + 8))];
    }

    method OnProgress(id: seq<byte>, bytesSent: nat, total: nat, error: bool)
      modifies this
      ensures View() == OnProgressIn(old(View()), id, bytesSent, total, error)
    {
      if id !in downloads {
        return;
      }
      if error {
        downloads := downloads - {id};
        return;
      }
      downloads := downloads[id := downloads[id].(total := total)];
      if total > 0 && bytesSent >= total {
        var dl := downloads[id];
        var offsets := SortedOffsets(dl.chunks);
        var out := Join(dl.chunks, offsets);
        saved := saved + [Saved(id, dl.name, out)];
        downloads := downloads - {id};
      }
    }
  }

  /** The keys of chunks in order. */
  ghost predicate Covers(offsets: seq<nat>, chunks: map<nat, seq<byte>>)
  {
    && (forall i, j | 0 <= i < j < |offsets| :: offsets[i] < offsets[j])
    && (forall k: nat :: k in offsets <==> k in chunks)
  }

  method SortedOffsets(chunks: map<nat, seq<byte>>) returns (offsets: seq<nat>)
    ensures Covers(offsets, chunks)
  {
    offsets := [];
    var rest := chunks.Keys;
    while rest != {}
      invariant forall i, j | 0 <= i < j < |offsets| :: offsets[i] < offsets[j]
      invariant forall k: nat :: k in offsets || k in rest <==> k in chunks
      invariant forall i, k | 0 <= i < |offsets| && k in rest :: offsets[i] < k
    {
      var k := First(rest);
      offsets, rest := offsets + [k], rest - {k};
    }
  }

  method First(ks: set<nat>) returns (k: nat)
    requires ks != {}
    ensures k in ks && forall j | j in ks :: k <= j
  {
    k :| k in ks;
    var rest := ks - {k};
    while rest != {}
      invariant rest <= ks && k in ks
      invariant forall j | j in ks && j !in rest :: k <= j
    {
      var x :| x in rest;
      if x < k {
        k := x;
      }
      rest := rest - {x};
    }
  }

  /** The chunks at the first i offsets. */
  function Lowest(chunks: map<nat, seq<byte>>, offsets: seq<nat>, i: nat): map<nat, seq<byte>>
    requires i <= |offsets|
  {
    chunks - set k | k in offsets[i..]
  }

  lemma LowestGrows(chunks: map<nat, seq<byte>>, offsets: seq<nat>, i: nat)
    requires Covers(offsets, chunks) && i < |offsets|
    ensures offsets[i] in chunks
    ensures Assemble(Lowest(chunks, offsets, i + 1)) == Assemble(Lowest(chunks, offsets, i)) + chunks[offsets[i]]
  {
    var k, low := offsets[i], Lowest(chunks, offsets, i);
    assert k in offsets;
    assert forall x | i <= x < |offsets| :: offsets[i..][x - i] == offsets[x];
    forall j | j in low
      ensures j < k
    {
      assert j in offsets && j !in offsets[i..];
      var x :| 0 <= x < |offsets| && offsets[x] == j;
      assert x < i;
    }
    assert Lowest(chunks, offsets, i + 1) == low[k := chunks[k]] by {
      assert offsets[i..] == [k] + offsets[i + 1..];
      assert k !in offsets[i + 1..];
    }
    AssembleLast(low, k, chunks[k]);
  }

  lemma LowestAll(chunks: map<nat, seq<byte>>, offsets: seq<nat>)
    requires Covers(offsets, chunks)
    ensures Lowest(chunks, offsets, 0) == map[] && Lowest(chunks, offsets, |offsets|) == chunks
  {
    assert offsets[0..] == offsets;
    assert Lowest(chunks, offsets, 0).Keys == {};
  }

  lemma {:induction false} LowestFits(chunks: map<nat, seq<byte>>, offsets: seq<nat>, i: nat)
    requires Covers(offsets, chunks) && i <= |offsets|
    ensures |Assemble(Lowest(chunks, offsets, i))| <= |Assemble(chunks)|
    decreases |offsets| - i
  {
    hide Lowest, Covers, Assemble;
    if i == |offsets| {
      LowestAll(chunks, offsets);
    } else {
      LowestFits(chunks, offsets, i + 1);
      LowestGrows(chunks, offsets, i);
    }
  }

  method CopyInto(buf: array<byte>, pos: nat, c: seq<byte>)
    requires pos + |c| <= buf.Length
    modifies buf
    ensures buf[..pos] == old(buf[..pos]) && buf[pos..pos + |c|] == c
  {
    forall i | 0 <= i < |c| {
      buf[pos + i] := c[i];
    }
  }

  /** One output buffer filled chunk by chunk. */
  method Join(chunks: map<nat, seq<byte>>, offsets: seq<nat>) returns (out: seq<byte>)
    requires Covers(offsets, chunks)
    ensures out == Assemble(chunks)
  {
    hide Lowest, Covers, Assemble;
    var totalBytes := 0;
    LowestAll(chunks, offsets);
    assert |Assemble(map[])| == 0 by { AssembleNothing(); }
    for i := 0 to |offsets|
      invariant totalBytes == |Assemble(Lowest(chunks, offsets, i))|
    {
      LowestGrows(chunks, offsets, i);
      totalBytes := totalBytes + |chunks[offsets[i]]|;
    }
    var buf := new byte[totalBytes](_ => 0);
    var pos := 0;
    for i := 0 to |offsets|
      invariant fresh(buf)
      invariant 0 <= pos <= buf.Length && buf[..pos] == Assemble(Lowest(chunks, offsets, i))
    {
      LowestGrows(chunks, offsets, i);
      LowestFits(chunks, offsets, i + 1);
      var c := chunks[offsets[i]];
      CopyInto(buf, pos, c);
      assert buf[..pos + |c|] == buf[..pos] + buf[pos..pos + |c|];
      pos := pos + |c|;
    }
    out := buf[..];
  }

  lemma AssembleNothing()
    ensures Assemble(map[]) == []
  {
  }

  // ---------------------------------------------------------------------
  // One download among many

  function Concerns(e: Event): Option<seq<byte>>
  {
    match e
    case ChunkFrame(p) => if |p| < ID_SIZE + 8 then None else Some(TrimEnd(p[..ID_SIZE]))
    case ProgressFrame(id, _, _, _) => Some(id)
  }

  function OnlyFor(events: seq<Event>, id: seq<byte>): seq<Event>
  {
    if events == [] then []
    else
      OnlyFor(events[..|events| - 1], id)
      + if Concerns(events[|events| - 1]) == Some(id) then [events[|events| - 1]] else []
  }

  function SavedFor(saved: seq<Saved>, id: seq<byte>): seq<seq<byte>>
  {
    if saved == [] then []
    else
      SavedFor(saved[..|saved| - 1], id) + if saved[|saved| - 1].id == id then [saved[|saved| - 1].data] else []
  }

  ghost predicate SameFor(m: Manager, m': Manager, id: seq<byte>)
  {
    && (id in m.downloads <==> id in m'.downloads)
    && (id in m.downloads ==> m.downloads[id] == m'.downloads[id])
    && SavedFor(m.saved, id) == SavedFor(m'.saved, id)
  }

  lemma SavedForGrows(saved: seq<Saved>, s: Saved, id: seq<byte>)
    ensures SavedFor(saved + [s], id) == SavedFor(saved, id) + if s.id == id then [s.data] else []
  {
    assert (saved + [s])[..|saved|] == saved;
  }

  lemma StepsAlike(m: Manager, m': Manager, e: Event, id: seq<byte>)
    requires SameFor(m, m', id)
    ensures Concerns(e) == Some(id) ==> SameFor(On(m, e), On(m', e), id)
    ensures Concerns(e) != Some(id) ==> SameFor(On(m, e), m', id)
  {
    hide TrimEnd, SavedFor, Assemble;
    if e.ProgressFrame? {
      if e.id in m.downloads {
        SavedForGrows(m.saved, Saved(e.id, m.downloads[e.id].name, Assemble(m.downloads[e.id].chunks)), id);
      }
      if e.id in m'.downloads {
        SavedForGrows(m'.saved, Saved(e.id, m'.downloads[e.id].name, Assemble(m'.downloads[e.id].chunks)), id);
      }
    }
  }

  /** Downloads do not interfere: what becomes of one depends only on its own frames. */
  lemma {:induction false} DownloadsDoNotInterfere(m: Manager, events: seq<Event>, id: seq<byte>)
    ensures SameFor(OnAll(m, events), OnAll(m, OnlyFor(events, id)), id)
  {
    hide SameFor, On, Concerns;
    if events == [] {
      SameForSelf(m, id);
    } else {
      var front, e := events[..|events| - 1], events[|events| - 1];
      DownloadsDoNotInterfere(m, front, id);
      StepsAlike(OnAll(m, front), OnAll(m, OnlyFor(front, id)), e, id);
      var own := OnlyFor(front, id);
      assert (own + [e])[..|own|] == own;
      assert own + [] == own;
    }
  }

  lemma SameForSelf(m: Manager, id: seq<byte>)
    ensures SameFor(m, m, id)
  {
  }

  lemma {:induction false} ForgottenStays(m: Manager, events: seq<Event>, id: seq<byte>)
    requires id !in m.downloads
    ensures id !in OnAll(m, events).downloads && SavedFor(OnAll(m, events).saved, id) == SavedFor(m.saved, id)
  {
    hide TrimEnd, SavedFor, Assemble;
    if events != [] {
      var front, e := events[..|events| - 1], events[|events| - 1];
      ForgottenStays(m, front, id);
      var r := OnAll(m, front);
      if e.ProgressFrame? && e.id in r.downloads {
        SavedForGrows(r.saved, Saved(e.id, r.downloads[e.id].name, Assemble(r.downloads[e.id].chunks)), id);
      }
    }
  }

  /** An error ends a download: it saves nothing, then or later, and leaves the others
      alone. */
  lemma ErrorIsFinal(m: Manager, id: seq<byte>, sent: nat, total: nat, later: seq<Event>)
    ensures var r := OnAll(On(m, ProgressFrame(id, sent, total, true)), later);
            id !in r.downloads && SavedFor(r.saved, id) == SavedFor(m.saved, id)
    ensures var r := On(m, ProgressFrame(id, sent, total, true));
            r.saved == m.saved
            && forall k | k in m.downloads && k != id :: k in r.downloads && r.downloads[k] == m.downloads[k]
  {
    ForgottenStays(On(m, ProgressFrame(id, sent, total, true)), later, id);
  }

  /** Files are saved under the name the download was started with, and the total shown
      for it is the latest one reported. */
  lemma {:induction false} NameIsKept(m: Manager, events: seq<Event>, id: seq<byte>)
    requires id in m.downloads
    ensures var r := OnAll(m, events);
            && m.saved <= r.saved
            && (forall i | |m.saved| <= i < |r.saved| && r.saved[i].id == id :: r.saved[i].name == m.downloads[id].name)
            && (id in r.downloads ==>
                  r.downloads[id].name == m.downloads[id].name
                  && r.downloads[id].total == LatestTotal(m.downloads[id].total, events, id))
  {
    hide TrimEnd, Assemble;
    if events != [] {
      var front, e := events[..|events| - 1], events[|events| - 1];
      NameIsKept(m, front, id);
      NewlySaved(OnAll(m, front), e);
      if id !in OnAll(m, front).downloads {
        ForgottenStays(OnAll(m, front), [e], id);
        assert [e][..0] == [] && OnAll(OnAll(m, front), [e]) == On(OnAll(m, front), e);
      }
    }
  }

  /** What one message saves belongs to a download under way. */
  lemma NewlySaved(m: Manager, e: Event)
    ensures m.saved <= On(m, e).saved
    ensures forall i | |m.saved| <= i < |On(m, e).saved| ::
              On(m, e).saved[i].id in m.downloads && On(m, e).saved[i].name == m.downloads[On(m, e).saved[i].id].name
  {
    hide TrimEnd, Assemble;
  }

  function LatestTotal(total: nat, events: seq<Event>, id: seq<byte>): nat
  {
    if events == [] then total
    else
      var e := events[|events| - 1];
      if e.ProgressFrame? && e.id == id then e.total else LatestTotal(total, events[..|events| - 1], id)
  }

  // ---------------------------------------------------------------------
  // Reassembly

  /** Whether the chunk and the progress message of a piece get through the hub. */
  datatype Luck = Luck(chunk: bool, progress: bool)

  function Arriving(id: seq<byte>, content: seq<byte>, total: nat, cuts: seq<nat>, net: seq<Luck>): seq<Event>
    requires Sum(cuts) <= |content| && |net| == |cuts|
  {
    if cuts == [] then []
    else
      var front, luck := cuts[..|cuts| - 1], net[|net| - 1];
      (Arriving(id, content, total, front, net[..|net| - 1])
       + (if luck.chunk then [ChunkFrame(Payload(id, Sum(front), LastPiece(content, cuts)))] else []))
      + (if luck.progress then [ProgressFrame(id, Sum(cuts), total, false)] else [])
  }

  /** The file without the pieces that were lost. */
  function Kept(content: seq<byte>, cuts: seq<nat>, net: seq<Luck>): seq<byte>
    requires Sum(cuts) <= |content| && |net| == |cuts|
  {
    if cuts == [] then []
    else
      Kept(content, cuts[..|cuts| - 1], net[..|net| - 1])
      + if net[|net| - 1].chunk then LastPiece(content, cuts) else []
  }

  /** What had arrived at the first progress message that reaches the total. */
  function Result(content: seq<byte>, total: nat, cuts: seq<nat>, net: seq<Luck>): Option<seq<byte>>
    requires Sum(cuts) <= |content| && |net| == |cuts|
  {
    if cuts == [] then None
    else
      var before := Result(content, total, cuts[..|cuts| - 1], net[..|net| - 1]);
      if before.Some? then before
      else if net[|net| - 1].progress && total > 0 && Sum(cuts) >= total then Some(Kept(content, cuts, net))
      else None
  }

  /** How a started download stands: saved as result, or kept so far. */
  ghost predicate Stands(m: Manager, id: seq<byte>, result: Option<seq<byte>>, kept: seq<byte>, end: nat)
  {
    if result.Some? then id !in m.downloads && SavedFor(m.saved, id) == [result.value]
    else SavedFor(m.saved, id) == [] && id in m.downloads && Collected(m.downloads[id], kept, end)
  }

  ghost predicate Collected(dl: Entry, kept: seq<byte>, end: nat)
  {
    && (forall k | k in dl.chunks :: k < end)
    && Assemble(dl.chunks) == kept
    && dl.received == |kept|
  }

  lemma ChunkArrives(m: Manager, id: seq<byte>, offset: nat, data: seq<byte>, result: Option<seq<byte>>,
                     kept: seq<byte>)
    requires PlainId(id) && offset < TWO32 * TWO32 && data != []
    requires Stands(m, id, result, kept, offset)
    ensures Stands(On(m, ChunkFrame(Payload(id, offset, data))), id, result, kept + data, offset + |data|)
  {
    hide Payload, TrimEnd, Upload.U64, Assemble;
    PayloadReadsBack(id, offset, data);
    if id in m.downloads {
      AssembleLast(m.downloads[id].chunks, offset, data);
    }
  }

  lemma ProgressArrives(m: Manager, id: seq<byte>, sent: nat, total: nat, result: Option<seq<byte>>,
                        kept: seq<byte>, end: nat)
    requires Stands(m, id, result, kept, end)
    ensures Stands(On(m, ProgressFrame(id, sent, total, false)), id,
                   if result.Some? then result else if total > 0 && sent >= total then Some(kept) else None, kept, end)
  {
    hide Assemble;
    if id in m.downloads {
      SavedForGrows(m.saved, Saved(id, m.downloads[id].name, Assemble(m.downloads[id].chunks)), id);
    }
  }

  lemma OnAllGrows(m: Manager, events: seq<Event>, e: Event)
    ensures OnAll(m, events + [e]) == On(OnAll(m, events), e)
    ensures events + [] == events
  {
    assert (events + [e])[..|events|] == events;
  }

  lemma {:induction false} ArrivingStands(m: Manager, id: seq<byte>, content: seq<byte>, total: nat,
                                          cuts: seq<nat>, net: seq<Luck>)
    requires PlainId(id) && |content| <= TWO32 * TWO32
    requires Cut(cuts, |content|) && |net| == |cuts|
    requires Stands(m, id, None, [], 0)
    ensures Stands(OnAll(m, Arriving(id, content, total, cuts, net)), id, Result(content, total, cuts, net),
                   Kept(content, cuts, net), Sum(cuts))
  {
    hide OnAll, On, Stands, Payload;
    if cuts == [] {
      assert OnAll(m, []) == m by { OnNone(m); }
    } else {
      var front, nets, luck := cuts[..|cuts| - 1], net[..|net| - 1], net[|net| - 1];
      ArrivingStands(m, id, content, total, front, nets);
      var events := Arriving(id, content, total, front, nets);
      var before, kept := Result(content, total, front, nets), Kept(content, front, nets);
      var data := LastPiece(content, cuts);
      assert |data| == cuts[|cuts| - 1] > 0;
      if luck.chunk {
        ChunkArrives(OnAll(m, events), id, Sum(front), data, before, kept);
        OnAllGrows(m, events, ChunkFrame(Payload(id, Sum(front), data)));
        events := events + [ChunkFrame(Payload(id, Sum(front), data))];
        kept := kept + data;
      } else {
        FartherStands(OnAll(m, events), id, before, kept, Sum(front), Sum(cuts));
        assert events + [] == events && kept + [] == kept;
      }
      if luck.progress {
        ProgressArrives(OnAll(m, events), id, Sum(cuts), total, before, kept, Sum(cuts));
        OnAllGrows(m, events, ProgressFrame(id, Sum(cuts), total, false));
      } else {
        assert events + [] == events;
      }
    }
  }

  lemma OnNone(m: Manager)
    ensures OnAll(m, []) == m
  {
  }

  lemma FartherStands(m: Manager, id: seq<byte>, result: Option<seq<byte>>, kept: seq<byte>, end: nat, end': nat)
    requires Stands(m, id, result, kept, end) && end <= end'
    ensures Stands(m, id, result, kept, end')
  {
  }

  // ---------------------------------------------------------------------
  // The promises

  ghost predicate Fresh(m: Manager, id: seq<byte>)
  {
    id in m.downloads && m.downloads[id].chunks == map[] && m.downloads[id].received == 0 && SavedFor(m.saved, id) == []
  }

  /** A download starts afresh exactly when nothing was saved under its id before. */
  lemma StartsAfresh(m: Manager, id: seq<byte>, name: string)
    ensures Fresh(StartIn(m, id, name), id) <==> SavedFor(m.saved, id) == []
    ensures StartIn(m, id, name).downloads[id].name == name
  {
  }

  /** Whatever is lost and however many downloads share the hub, the browser saves what
      Result says: once, when it says so, and nothing else. */
  lemma SavesExactly(m: Manager, id: seq<byte>, content: seq<byte>, total: nat, cuts: seq<nat>, net: seq<Luck>,
                     events: seq<Event>)
    requires PlainId(id) && |content| <= TWO32 * TWO32 && Fresh(m, id)
    requires Cut(cuts, |content|) && |net| == |cuts|
    requires OnlyFor(events, id) == Arriving(id, content, total, cuts, net)
    ensures var r, result := OnAll(m, events), Result(content, total, cuts, net);
            && SavedFor(r.saved, id) == (if result.Some? then [result.value] else [])
            && (id in r.downloads <==> result.None?)
  {
    AssembleNothing();
    ArrivingStands(m, id, content, total, cuts, net);
    DownloadsDoNotInterfere(m, events, id);
  }

  /** Result is what was kept up to the first progress message that got through and
      reaches a positive total. */
  ghost predicate Ends(total: nat, cuts: seq<nat>, net: seq<Luck>, i: nat)
    requires |net| == |cuts| && i < |cuts|
  {
    net[i].progress && total > 0 && Sum(cuts[..i + 1]) >= total
  }

  lemma {:induction false} SumOfPart(cuts: seq<nat>, i: nat)
    requires i <= |cuts|
    ensures Sum(cuts[..i]) <= Sum(cuts)
  {
    if i < |cuts| {
      SumOfPart(cuts[..|cuts| - 1], i);
      assert cuts[..|cuts| - 1][..i] == cuts[..i];
    } else {
      assert cuts[..i] == cuts;
    }
  }

  lemma {:induction false} ResultIsFirst(content: seq<byte>, total: nat, cuts: seq<nat>, net: seq<Luck>, i: nat)
    requires Sum(cuts) <= |content| && |net| == |cuts| && i < |cuts|
    requires Ends(total, cuts, net, i) && forall j | 0 <= j < i :: !Ends(total, cuts, net, j)
    ensures Sum(cuts[..i + 1]) <= |content|
    ensures Result(content, total, cuts, net) == Some(Kept(content, cuts[..i + 1], net[..i + 1]))
  {
    SumOfPart(cuts, i + 1);
    var n := |cuts| - 1;
    EndsEarlier(total, cuts, net);
    if i == n {
      assert cuts[..i + 1] == cuts && net[..i + 1] == net;
      NeverEnds(content, total, cuts[..n], net[..n]);
    } else {
      assert cuts[..n][..i + 1] == cuts[..i + 1] && net[..n][..i + 1] == net[..i + 1];
      ResultIsFirst(content, total, cuts[..n], net[..n], i);
    }
  }

  lemma {:induction false} NeverEnds(content: seq<byte>, total: nat, cuts: seq<nat>, net: seq<Luck>)
    requires Sum(cuts) <= |content| && |net| == |cuts|
    requires forall j | 0 <= j < |cuts| :: !Ends(total, cuts, net, j)
    ensures Result(content, total, cuts, net) == None
  {
    if cuts != [] {
      var n := |cuts| - 1;
      EndsEarlier(total, cuts, net);
      NeverEnds(content, total, cuts[..n], net[..n]);
      assert cuts[..n + 1] == cuts;
      assert !Ends(total, cuts, net, n);
    }
  }

  lemma EndsEarlier(total: nat, cuts: seq<nat>, net: seq<Luck>)
    requires |net| == |cuts| > 0
    ensures var n := |cuts| - 1;
            forall j | 0 <= j < n :: Ends(total, cuts, net, j) <==> Ends(total, cuts[..n], net[..n], j)
  {
    var n := |cuts| - 1;
    forall j | 0 <= j < n
      ensures Ends(total, cuts, net, j) <==> Ends(total, cuts[..n], net[..n], j)
    {
      assert cuts[..n][..j + 1] == cuts[..j + 1];
    }
  }

  lemma SameBefore(a: seq<byte>, b: seq<byte>, c: seq<byte>)
    ensures a + c == b + c <==> a == b
  {
    if a + c == b + c {
      assert |a + c| == |b + c|;
      assert a == (a + c)[..|a|] && b == (b + c)[..|b|];
    }
  }

  ghost predicate NoneLost(net: seq<Luck>)
  {
    forall i | 0 <= i < |net| :: net[i].chunk
  }

  /** What is kept is no longer than the pieces, and is the whole exactly when no chunk
      was lost. */
  lemma {:induction false} KeptIsAll(content: seq<byte>, cuts: seq<nat>, net: seq<Luck>)
    requires Cut(cuts, |content|) && |net| == |cuts|
    ensures |Kept(content, cuts, net)| <= Sum(cuts)
    ensures Kept(content, cuts, net) == content[..Sum(cuts)] <==> NoneLost(net)
  {
    if cuts != [] {
      hide NoneLost, Kept, LastPiece, Sum;
      var n := |cuts| - 1;
      KeptIsAll(content, cuts[..n], net[..n]);
      KeptGrows(content, cuts, net);
      SameBefore(Kept(content, cuts[..n], net[..n]), content[..Sum(cuts[..n])], LastPiece(content, cuts));
    }
  }

  lemma KeptGrows(content: seq<byte>, cuts: seq<nat>, net: seq<Luck>)
    requires Cut(cuts, |content|) && |net| == |cuts| > 0
    ensures var n := |cuts| - 1;
            && Cut(cuts[..n], |content|)
            && Kept(content, cuts, net)
               == Kept(content, cuts[..n], net[..n]) + (if net[n].chunk then LastPiece(content, cuts) else [])
            && content[..Sum(cuts)] == content[..Sum(cuts[..n])] + LastPiece(content, cuts)
            && Sum(cuts) == Sum(cuts[..n]) + |LastPiece(content, cuts)| > Sum(cuts[..n])
            && (NoneLost(net) <==> NoneLost(net[..n]) && net[n].chunk)
  {
    hide NoneLost, Sum, Cut, Kept, LastPiece;
    NoneLostGrows(net);
    CutShrinks(cuts, |content|);
    KeptUnfolds(content, cuts, net);
    PieceFollows(content, cuts);
  }

  lemma PieceFollows(content: seq<byte>, cuts: seq<nat>)
    requires cuts != [] && Sum(cuts[..|cuts| - 1]) <= Sum(cuts) <= |content|
    ensures content[..Sum(cuts)] == content[..Sum(cuts[..|cuts| - 1])] + LastPiece(content, cuts)
    ensures |LastPiece(content, cuts)| == Sum(cuts) - Sum(cuts[..|cuts| - 1])
  {
    hide Sum;
  }

  lemma KeptUnfolds(content: seq<byte>, cuts: seq<nat>, net: seq<Luck>)
    requires Sum(cuts) <= |content| && |net| == |cuts| > 0 && Sum(cuts[..|cuts| - 1]) <= |content|
    ensures var n := |cuts| - 1;
            Kept(content, cuts, net)
            == Kept(content, cuts[..n], net[..n]) + (if net[n].chunk then LastPiece(content, cuts) else [])
  {
    hide Sum, LastPiece;
  }

  lemma CutShrinks(cuts: seq<nat>, n: nat)
    requires Cut(cuts, n) && cuts != []
    ensures Cut(cuts[..|cuts| - 1], n) && Sum(cuts) == Sum(cuts[..|cuts| - 1]) + cuts[|cuts| - 1] <= n
    ensures cuts[|cuts| - 1] > 0
  {
  }

  lemma NoneLostGrows(net: seq<Luck>)
    requires net != []
    ensures NoneLost(net) <==> NoneLost(net[..|net| - 1]) && net[|net| - 1].chunk
  {
    if NoneLost(net[..|net| - 1]) {
      assert forall i | 0 <= i < |net| - 1 :: net[i] == net[..|net| - 1][i];
    }
  }

  /** A file whose size did not change is saved exactly when its last progress message
      gets through; it is saved without exactly the lost pieces, so it is the file
      exactly when no chunk was lost. An empty file is never saved. */
  lemma DownloadArrives(m: Manager, id: seq<byte>, content: seq<byte>, cuts: seq<nat>, net: seq<Luck>,
                        events: seq<Event>)
    requires PlainId(id) && |content| <= TWO32 * TWO32 && Fresh(m, id)
    requires Cut(cuts, |content|) && Sum(cuts) == |content| && |net| == |cuts|
    requires OnlyFor(events, id) == Arriving(id, content, |content|, cuts, net)
    ensures var saved := SavedFor(OnAll(m, events).saved, id);
            && saved == (if content != [] && net[|net| - 1].progress then [Kept(content, cuts, net)] else [])
            && (saved == [content] <==>
                  content != [] && net[|net| - 1].progress && NoneLost(net))
  {
    hide Kept, NoneLost, OnAll, SavedFor, OnlyFor, Arriving, Result;
    assert content[..|content|] == content;
    SavesExactly(m, id, content, |content|, cuts, net, events);
    KeptIsAll(content, cuts, net);
    ResultAtTheEnd(content, cuts, net);
  }

  lemma ResultAtTheEnd(content: seq<byte>, cuts: seq<nat>, net: seq<Luck>)
    requires Cut(cuts, |content|) && Sum(cuts) == |content| && |net| == |cuts|
    ensures content == [] <==> cuts == []
    ensures Result(content, |content|, cuts, net)
            == if content != [] && net[|net| - 1].progress then Some(Kept(content, cuts, net)) else None
  {
    if cuts != [] {
      assert Sum(cuts[..|cuts| - 1]) < |content|;
      NotBeforeTheEnd(content, cuts[..|cuts| - 1], net[..|net| - 1]);
    }
  }

  lemma NotBeforeTheEnd(content: seq<byte>, cuts: seq<nat>, net: seq<Luck>)
    requires Sum(cuts) < |content| && |net| == |cuts|
    ensures Result(content, |content|, cuts, net) == None
  {
    forall j | 0 <= j < |cuts|
      ensures !Ends(|content|, cuts, net, j)
    {
      SumOfPart(cuts, j + 1);
    }
    NeverEnds(content, |content|, cuts, net);
  }

  /** With nothing lost, what arrives is what the server sent. */
  lemma {:induction false} AllArrives(id: seq<byte>, content: seq<byte>, total: nat, cuts: seq<nat>, net: seq<Luck>)
    requires Sum(cuts) <= |content| && |net| == |cuts|
    requires forall i | 0 <= i < |net| :: net[i] == Luck(true, true)
    ensures Arriving(id, content, total, cuts, net) == Calls(id, content, total, cuts)
  {
    hide Payload;
    if cuts != [] {
      AllArrives(id, content, total, cuts[..|cuts| - 1], net[..|net| - 1]);
    }
  }

  /** Every download chunk is far below the hub's payload limit. */
  lemma DownloadFramesFit(id: seq<byte>, content: seq<byte>, total: nat, cuts: seq<nat>, i: nat)
    requires Cut(cuts, |content|) && i < |Calls(id, content, total, cuts)|
    requires Calls(id, content, total, cuts)[i].ChunkFrame?
    ensures |Calls(id, content, total, cuts)[i].payload| <= MAX_PAYLOAD
  {
    var front := cuts[..|cuts| - 1];
    if i < |Calls(id, content, total, front)| {
      DownloadFramesFit(id, content, total, front, i);
    }
  }
}
