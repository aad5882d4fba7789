/** sendChunks (internal/transfer/p2p.go) over any reader that keeps the contract of io.Reader. */
module Chunking {
  import opened Protocol
  import opened Storage
  import opened Flow
  import opened DiskInvariant
  import Machine
  import opened Dialogue
  import Receiver

  /** How a Read ends besides its bytes. */
  datatype Ending = More | Eof | Broken

  /** One Read: any number of bytes up to the size of the buffer, none too, with or without an end. */
  datatype Piece = Piece(data: Bytes, ending: Ending)

  predicate Contract(script: seq<Piece>) {
    && (forall r <- script :: |r.data| <= FILE_CHUNK_SIZE)
    && script != [] && script[|script| - 1].ending != More
  }

  /** The bytes up to the first end. */
  function Content(script: seq<Piece>): Bytes {
    if script == [] then []
    else if script[0].ending != More then script[0].data
    else script[0].data + Content(script[1..])
  }

  function Ends(script: seq<Piece>): Ending {
    if script == [] then More
    else if script[0].ending != More then script[0].ending
    else Ends(script[1..])
  }

  /** A reader; a TeeReader on it collects what has been read. */
  class Source {
    var script: seq<Piece>
    var tee: Bytes

    constructor (script: seq<Piece>)
      ensures this.script == script && tee == []
    {
      this.script, tee := script, [];
    }

    /** Read into the front of the caller's buffer; the rest of the buffer is scratch space. */
    method Read(buf: array<byte>) returns (n: nat, ending: Ending)
      requires Contract(script) && buf.Length == FILE_CHUNK_SIZE
      modifies this, buf
      ensures n <= FILE_CHUNK_SIZE && |script| < |old(script)| && tee == old(tee) + buf[..n]
      ensures ending == More ==>
                && Contract(script) && Ends(script) == Ends(old(script))
                && Content(old(script)) == buf[..n] + Content(script)
      ensures ending != More ==> Ends(old(script)) == ending && Content(old(script)) == buf[..n]
    {
      var r := script[0];
      n, ending := |r.data|, r.ending;
      forall i | 0 <= i < n {
        buf[i] := r.data[i];
      }
      assert buf[..n] == r.data;
      Unfold(script);
      script, tee := script[1..], tee + r.data;
    }
  }

  /** Non-empty chunks of one file, with consecutive indices from `index`. */
  predicate Consecutive(ms: seq<Message>, id: string, index: int) {
    forall i | 0 <= i < |ms| ::
      1 <= |ms[i].chunk| <= FILE_CHUNK_SIZE && ms[i] == ChunkMsg(id, index + i, ms[i].chunk)
  }

  /** What is sent for one read: a chunk, unless nothing was read. */
  function Pieces(id: string, index: int, data: Bytes): seq<Message> {
    if data == [] then [] else [ChunkMsg(id, index, data)]
  }

  lemma PiecesAppend(ms: seq<Message>, id: string, first: int, data: Bytes)
    requires Consecutive(ms, id, first) && |data| <= FILE_CHUNK_SIZE
    ensures var more := ms + Pieces(id, first + |ms|, data);
            Consecutive(more, id, first) && Payload(more) == Payload(ms) + data
  {
    if data != [] {
      PayloadAppend(ms, ChunkMsg(id, first + |ms|, data));
    } else {
      assert ms + [] == ms;
    }
  }

  lemma Regroup<T>(a: seq<T>, b: seq<T>, c: seq<T>)
    ensures a + b + c == a + (b + c)
  {
  }

  /** What the chunks so far contain, with what is still to be read, is everything. */
  predicate Conserves(ms: seq<Message>, tee: Bytes, before: Bytes, later: Bytes, all: Bytes) {
    Payload(ms) + later == all && tee == before + Payload(ms)
  }

  lemma OneTurn(ms: seq<Message>, id: string, first: int, data: Bytes, later: Bytes, tee: Bytes, before: Bytes,
                all: Bytes)
    requires Consecutive(ms, id, first) && |data| <= FILE_CHUNK_SIZE && Conserves(ms, tee, before, data + later, all)
    ensures Conserves(ms + Pieces(id, first + |ms|, data), tee + data, before, later, all)
  {
    PiecesAppend(ms, id, first, data);
    Regroup(Payload(ms), data, later);
    Regroup(before, Payload(ms), data);
  }

  /** What reading `src` from `pos` on may return: everything, or a part and then an error. */
  predicate ReadsOf(script: seq<Piece>, src: Bytes, pos: nat) {
    && Contract(script)
    && Content(script) <= From(src, pos)
    && (Ends(script) == Eof ==> Content(script) == From(src, pos))
  }

  /** The sender's machine after these chunks. */
  function Advanced(s: Machine.Sender, ms: seq<Message>): Machine.Sender {
    s.(pos := s.pos + |Payload(ms)|, index := s.index + |ms|)
  }

  lemma NextSlice(src: Bytes, pos: nat, done: Bytes, data: Bytes, later: Bytes)
    requires done + (data + later) <= From(src, pos) && data != []
    ensures var k := pos + |done|;
            k + |data| <= |src| && src[k..k + |data|] == data
  {
    var all := done + (data + later);
    forall i | 0 <= i < |data| ensures src[pos + |done| + i] == data[i] {
      assert all[|done| + i] == (data + later)[i] == data[i];
      assert all[|done| + i] == From(src, pos)[|done| + i];
    }
  }

  /** What is read next is what the machine sends next. */
  lemma ChunkIsNext(t: Machine.Sender, data: Bytes)
    requires t.pc == Machine.SenderPc.Reading && 1 <= |data| <= FILE_CHUNK_SIZE
    requires t.pos + |data| <= |t.job.src| && t.job.src[t.pos..t.pos + |data|] == data
    ensures Says(t, |data|) == ChunkMsg(t.job.fileId, t.index, data)
    ensures Said(t, |data|) == t.(pos := t.pos + |data|, index := t.index + 1)
  {
    assert Machine.NextRead(t.job.src, t.pos, |data|) == data;
  }

  lemma AdvancesBy(s: Machine.Sender, ms: seq<Message>, id: string, first: int, data: Bytes)
    requires Consecutive(ms, id, first) && |data| <= FILE_CHUNK_SIZE
    ensures Advanced(s, ms + Pieces(id, first + |ms|, data)) ==
            if data == [] then Advanced(s, ms)
            else Advanced(s, ms).(pos := Advanced(s, ms).pos + |data|, index := Advanced(s, ms).index + 1)
  {
    PiecesAppend(ms, id, first, data);
  }

  /** Whatever the reader, the connection and the receiver do, the chunks are non-empty, no larger
      than a chunk, numbered from startIndex on, and together exactly the bytes that were read: all
      of them, unless sending or reading fails. */
  method SendChunks(link: Dialogue, id: string, source: Source, startIndex: int, io: Receiver.Outcomes)
    returns (ok: bool, ghost ms: seq<Message>)
    requires link.Valid() && link.s.pc == Machine.SenderPc.Reading && link.s.job.fileId == id
             && link.s.index == startIndex
    requires ReadsOf(source.script, link.s.job.src, link.s.pos)
    modifies link, source
    ensures link.Valid() && old(link.trace) <= link.trace && Consecutive(ms, id, startIndex)
    ensures Payload(ms) <= Content(old(source.script))
    ensures link.s == if ok then Advanced(old(link.s), ms)
                      else Machine.Step(Advanced(old(link.s), ms), Machine.Failed)
    ensures ok ==> Payload(ms) == Content(old(source.script)) && Ends(old(source.script)) == Eof
    ensures ok ==> source.tee == old(source.tee) + Content(old(source.script))
    ensures (forall n :: io(n).Works?) && Ends(old(source.script)) == Eof ==> ok
  {
    var buf := new byte[FILE_CHUNK_SIZE];
    var index, clock := startIndex, 0;
    ghost var all, s, tee := source.script, link.s, source.tee;
    ms := [];
    while true
      invariant link.Valid() && old(link.trace) <= link.trace
      invariant link.s == Advanced(s, ms) && index == startIndex + |ms|
      invariant Consecutive(ms, id, startIndex) && Contract(source.script) && Ends(source.script) == Ends(all)
      invariant Conserves(ms, source.tee, tee, Content(source.script), Content(all))
      decreases |source.script|
    {
      var n, ending;
      ghost var more;
      ok, n, ending, more := ReadAndSend(link, id, source, buf, index, io(clock), s, ms, tee, Content(all));
      clock := clock + 1;
      if !ok {
        return;
      }
      ms := more;
      if n > 0 {
        index := index + 1;
      }
      if ending != More {
        ok := ending == Eof;
        if !ok {
          link.Abandon();
        }
        return;
      }
    }
  }

  /** One turn of the loop. */
  method ReadAndSend(link: Dialogue, id: string, source: Source, buf: array<byte>, index: int, io: Io,
                     ghost s: Machine.Sender, ghost ms: seq<Message>, ghost tee: Bytes, ghost all: Bytes)
    returns (ok: bool, n: nat, ending: Ending, ghost more: seq<Message>)
    requires Contract(source.script) && buf.Length == FILE_CHUNK_SIZE
    requires link.Valid() && link.s == Advanced(s, ms) && s.pc == Machine.SenderPc.Reading
    requires s.job.fileId == id && index == s.index + |ms| && Consecutive(ms, id, s.index)
    requires all <= From(s.job.src, s.pos) && Conserves(ms, source.tee, tee, Content(source.script), all)
    modifies link, source, buf
    ensures link.Valid() && old(link.trace) <= link.trace && |source.script| < |old(source.script)|
    ensures link.s == if ok then Advanced(s, more) else Machine.Step(Advanced(s, ms), Machine.Failed)
    ensures ok ==> Consecutive(more, id, s.index) && |more| == |ms| + if n > 0 then 1 else 0
    ensures ok ==> Conserves(more, source.tee, tee, if ending == More then Content(source.script) else [], all)
    ensures ending == More ==> Contract(source.script) && Ends(source.script) == Ends(old(source.script))
    ensures ending != More ==> Ends(old(source.script)) == ending
    ensures io.Works? ==> ok
  {
    var chunk;
    ghost var later;
    n, chunk, ending, later := ReadChunk(source, buf, id, s.index, ms, tee, all);
    ok, more := SendPiece(link, id, index, chunk, io, s, ms, later, all);
  }

  /** Read, and copy what was read. */
  method ReadChunk(source: Source, buf: array<byte>, ghost id: string, ghost first: int, ghost ms: seq<Message>,
                   ghost tee: Bytes, ghost all: Bytes)
    returns (n: nat, chunk: Bytes, ending: Ending, ghost later: Bytes)
    requires Contract(source.script) && buf.Length == FILE_CHUNK_SIZE && Consecutive(ms, id, first)
    requires Conserves(ms, source.tee, tee, Content(source.script), all)
    modifies source, buf
    ensures n == |chunk| <= FILE_CHUNK_SIZE && |source.script| < |old(source.script)|
    ensures later == if ending == More then Content(source.script) else []
    ensures Payload(ms) + (chunk + later) == all
    ensures Conserves(ms + Pieces(id, first + |ms|, chunk), source.tee, tee, later, all)
    ensures ending == More ==> Contract(source.script) && Ends(source.script) == Ends(old(source.script))
    ensures ending != More ==> Ends(old(source.script)) == ending
  {
    ghost var content, before := Content(source.script), source.tee;
    n, ending := source.Read(buf);
    chunk := buf[..n];
    later := if ending == More then Content(source.script) else [];
    assert content == chunk + later;
    OneTurn(ms, id, first, chunk, later, before, tee, all);
  }

  /** Send what was read, if anything. */
  method SendPiece(link: Dialogue, id: string, index: int, chunk: Bytes, io: Io,
                   ghost s: Machine.Sender, ghost ms: seq<Message>, ghost later: Bytes, ghost all: Bytes)
    returns (ok: bool, ghost more: seq<Message>)
    requires link.Valid() && link.s == Advanced(s, ms) && s.pc == Machine.SenderPc.Reading
    requires s.job.fileId == id && index == s.index + |ms| && Consecutive(ms, id, s.index)
    requires |chunk| <= FILE_CHUNK_SIZE && Payload(ms) + (chunk + later) == all <= From(s.job.src, s.pos)
    modifies link
    ensures link.Valid() && old(link.trace) <= link.trace
    ensures link.s == if ok then Advanced(s, more) else Machine.Step(Advanced(s, ms), Machine.Failed)
    ensures more == ms + Pieces(id, index, chunk) && Consecutive(more, id, s.index)
    ensures ok <== chunk == [] || io.Works?
  {
    more := ms + Pieces(id, index, chunk);
    PiecesAppend(ms, id, s.index, chunk);
    AdvancesBy(s, ms, id, s.index, chunk);
    ok := true;
    if chunk != [] {
      NextSlice(s.job.src, s.pos, Payload(ms), chunk, later);
      ChunkIsNext(Advanced(s, ms), chunk);
      ok := link.SendMessage(ChunkMsg(id, index, chunk), io, |chunk|);
    }
  }

  lemma Unfold(script: seq<Piece>)
    requires Contract(script)
    ensures Content(script) == script[0].data + (if script[0].ending == More then Content(script[1..]) else [])
    ensures script[0].ending == More ==> Contract(script[1..]) && Ends(script) == Ends(script[1..])
    ensures script[0].ending != More ==> Ends(script) == script[0].ending
  {
  }

  /** With full reads (only the last chunk is short) the chunk with index k is the k-th piece of the source. */
  lemma {:induction false} FullReadsAreAligned(ms: seq<Message>, id: string, k: int, src: Bytes, i: nat)
    requires Consecutive(ms, id, k) && k >= 0 && k * FILE_CHUNK_SIZE <= |src|
    requires Payload(ms) == src[k * FILE_CHUNK_SIZE..]
    requires forall j | 0 <= j < |ms| - 1 :: |ms[j].chunk| == FILE_CHUNK_SIZE
    requires i < |ms|
    ensures IsChunk(ms[i].chunk, ms[i].index, src)
    decreases |ms|
  {
    var c := ms[0].chunk;
    var rest := ms[1..];
    assert Payload(ms) == c + Payload(rest);
    assert c == src[k * FILE_CHUNK_SIZE..][..|c|];
    if |ms| == 1 {
      assert Payload(rest) == [];
    } else if i == 0 {
      assert |c| == FILE_CHUNK_SIZE;
    } else {
      assert Payload(rest) == src[k * FILE_CHUNK_SIZE..][FILE_CHUNK_SIZE..];
      assert src[k * FILE_CHUNK_SIZE..][FILE_CHUNK_SIZE..] == src[(k + 1) * FILE_CHUNK_SIZE..];
      forall j | 0 <= j < |rest| ensures rest[j] == ms[j + 1] {
      }
      FullReadsAreAligned(rest, id, k + 1, src, i - 1);
    }
  }
}
