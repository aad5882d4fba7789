/** sendSingleFile and sendDirectory (internal/transfer/p2p.go) as they are written, with the
    receiver at work at the same time. Whatever the connection, the reader and the receiver do,
    what has happened is a run of the two machines, so what is proved about these holds of the code. */
module Upload {
  import opened Protocol
  import opened Storage
  import opened Machine
  import opened Chunking
  import opened Dialogue
  import Flow
  import Receiver
  import Safety

  /** Announce the file and, when resuming, learn where to start. */
  method Open(link: Dialogue, id: string, name: string, size: int, resume: bool, io: Receiver.Outcomes)
    returns (ok: bool, offset: nat)
    requires link.Valid() && link.s == Sender(Begin, link.s.job, 0, 0)
    requires link.s.job.fileId == id && link.s.job.name == name && link.s.job.size == size
             && link.s.job.offers == resume
    modifies link
    ensures link.Valid() && old(link.trace) <= link.trace
    ensures link.s == if ok then Sender(SenderPc.Reading, old(link.s.job), offset, offset / FILE_CHUNK_SIZE)
                      else Step(old(link.s), Failed)
    ensures !resume ==> offset == 0
  {
    offset := 0;
    ok := link.SendMessage(StartMsg(id, name, size, resume), io(0), 0);
    if ok && resume {
      var ack := link.ReceiveMessage(io(1));
      ok := ack.Some?;
      if ok && ack.value.kind == FileResume && ack.value.offset >= 0 {
        offset := ack.value.offset;
      }
    }
  }

  /** file_complete, file_checksum, and the receiver's checksum, which must be the sender's own. */
  method Close(link: Dialogue, id: string, sum: Bytes, io: Receiver.Outcomes) returns (ok: bool)
    requires link.Valid() && link.s.pc == SenderPc.Reading && link.s.pos >= |link.s.job.src|
    requires link.s.job.fileId == id && link.s.job.summed == sum
    modifies link
    ensures link.Valid() && old(link.trace) <= link.trace
    ensures link.s == Step(old(link.s), if ok then Sent else Failed)
  {
    ok := link.SendMessage(CompleteMsg(id), io(0), 0);
    if ok {
      ok := link.SendMessage(ChecksumMsg(id, Sum(sum)), io(1), 0);
    }
    if ok {
      var ack := link.ReceiveMessage(io(2));
      ok := ack.Some? && ack.value.kind == FileChecksum && ack.value.checksum == Sum(sum);
    }
  }

  lemma AllRead(s: Sender, ms: seq<Message>)
    requires Flow.Payload(ms) == Flow.From(s.job.src, s.pos)
    ensures Advanced(s, ms).pos >= |s.job.src|
  {
  }

  /** The receiver had, at some moment of the run, all the bytes that the sender hashed. */
  ghost predicate WasAssembled(link: Dialogue)
    reads link
  {
    exists i | 0 <= i <= |link.trace| :: Safety.Assembled(Exec(link.start, link.trace[..i]))
  }

  lemma SuccessIsAssembled(link: Dialogue, d: Disk, job: Job)
    requires link.Valid() && link.start == Initial(d, job) && FreshOk(d) && link.s.pc == Sent
    ensures WasAssembled(link)
  {
    var a := Attempt(job, link.trace);
    Safety.SentMeansAssembled(d, a);
    var i :| 0 <= i <= |a.events| && Safety.Assembled(After(d, a.(events := a.events[..i])));
    assert Safety.Assembled(Exec(link.start, link.trace[..i]));
  }

  /** A connection that has just been made, to a receiver with this disk. */
  ghost predicate Fresh(link: Dialogue, d: Disk)
    reads link
  {
    link.Valid() && link.trace == [] && link.start == Initial(d, link.s.job) && FreshOk(d)
  }

  /** `summed` is what was hashed before; `opens` says whether the file can be opened and positioned,
      and `open(offset)` is what reading it from there gives. If the code returns without an error,
      the receiver had assembled exactly the hashed bytes. */
  method SendSingleFile(link: Dialogue, id: string, name: string, size: int, summed: Bytes, resume: bool,
                        open: nat -> seq<Piece>, opens: bool, io: Receiver.Outcomes, chunkIo: Receiver.Outcomes,
                        lastIo: Receiver.Outcomes, ghost d: Disk)
    returns (ok: bool)
    requires Fresh(link, d) && link.s.job == Job(id, name, size, link.s.job.src, summed, resume, link.s.job.accepts)
    requires forall offset: nat :: ReadsOf(open(offset), link.s.job.src, offset)
    modifies link
    ensures link.Valid() && link.s.job == old(link.s.job) && link.s.pc == if ok then Sent else Failed
    ensures ok ==> WasAssembled(link)
  {
    ghost var job := link.s.job;
    var offset;
    ok, offset := Open(link, id, name, size, resume, io);
    if ok && !opens {
      link.Abandon();
      ok := false;
    } else if ok {
      var source := new Source(open(offset));
      ok := Transfer(link, id, summed, source, offset / FILE_CHUNK_SIZE, chunkIo, lastIo);
    }
    if ok {
      SuccessIsAssembled(link, d, job);
    }
  }

  /** Everything that follows the opening of the file. */
  method Transfer(link: Dialogue, id: string, summed: Bytes, source: Source, startIndex: int,
                  chunkIo: Receiver.Outcomes, lastIo: Receiver.Outcomes)
    returns (ok: bool)
    requires link.Valid() && link.s.pc == SenderPc.Reading && link.s.job.fileId == id && link.s.index == startIndex
    requires link.s.job.summed == summed && ReadsOf(source.script, link.s.job.src, link.s.pos)
    modifies link, source
    ensures link.Valid() && old(link.trace) <= link.trace
    ensures link.s.job == old(link.s.job) && link.s.pc == if ok then Sent else Failed
  {
    ghost var ms;
    ghost var s := link.s;
    ok, ms := SendChunks(link, id, source, startIndex, chunkIo);
    if ok {
      AllRead(s, ms);
      ok := Close(link, id, summed, lastIo);
    }
  }

  /** `source` is the stream of the archive; the hash is of what is read from it. */
  method SendDirectory(link: Dialogue, id: string, base: string, source: Source, io: Receiver.Outcomes,
                       chunkIo: Receiver.Outcomes, lastIo: Receiver.Outcomes, ghost d: Disk)
    returns (ok: bool)
    requires Contract(source.script) && source.tee == []
    requires Fresh(link, d)
    requires var archive := Content(source.script);
             link.s.job == Job(id, base + ".tar.gz", -1, archive, archive, false, link.s.job.accepts)
    modifies link, source
    ensures link.Valid() && link.s.job == old(link.s.job) && link.s.pc == if ok then Sent else Failed
    ensures ok ==> WasAssembled(link)
  {
    ghost var job := link.s.job;
    var offset;
    ok, offset := Open(link, id, base + ".tar.gz", -1, false, io);
    if ok {
      ghost var ms;
      ghost var s := link.s;
      ok, ms := SendChunks(link, id, source, 0, chunkIo);
      if ok {
        AllRead(s, ms);
        ok := Close(link, id, source.tee, lastIo);
      }
    }
    if ok {
      SuccessIsAssembled(link, d, job);
    }
  }
}
