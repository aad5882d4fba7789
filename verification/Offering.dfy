/** Exactly what the sender says, and when it is content, whoever answers, if its own operations work. */
module Offering {
  import opened Protocol
  import opened Storage
  import opened Machine
  import opened Flow
  import opened Chunking
  import opened Dialogue
  import Safety

  predicate OwnWork(es: seq<Event>) { forall i | 0 <= i < |es| :: es[i].who == SenderSide && es[i].io.Works? }

  /** The answers are all there, and the peer has left. */
  predicate Left(y: System) { ReceiverGone(y.c) }

  /** One read is one chunk. */
  lemma {:induction false} ReadIsAChunk(s: Sender, n: nat)
    requires s.pc == SenderPc.Reading && s.pos < |s.job.src|
    ensures var m := Says(s, n);
            && m == ChunkMsg(s.job.fileId, s.index, m.chunk) && 1 <= |m.chunk| <= FILE_CHUNK_SIZE
            && Said(s, n) == s.(pos := s.pos + |m.chunk|, index := s.index + 1)
            && From(s.job.src, s.pos) == m.chunk + From(s.job.src, s.pos + |m.chunk|)
  {
    ReadSplits(s.job.src, s.pos, n);
  }

  lemma {:induction false} FirstChunk(m: Message, ms: seq<Message>, id: string, index: int)
    requires m == ChunkMsg(id, index, m.chunk) && 1 <= |m.chunk| <= FILE_CHUNK_SIZE && Consecutive(ms, id, index + 1)
    ensures Consecutive([m] + ms, id, index) && Payload([m] + ms) == m.chunk + Payload(ms)
  {
    assert ([m] + ms)[1..] == ms;
    forall i | 0 < i < |ms| + 1 ensures ([m] + ms)[i] == ms[i - 1] {
    }
  }

  /** The first of several events. */
  lemma {:induction false} OneMore(y: System, es: seq<Event>)
    requires !SenderGone(y.s) && OwnWork(es) && SenderGone(Exec(y, es).s)
    ensures es != [] && es[0] == Event(SenderSide, Works, es[0].n) && OwnWork(es[1..])
    ensures Exec(y, es) == Exec(Next(y, es[0]), es[1..])
  {
    assert es == [] ==> Exec(y, es) == y;
  }

  function Completed(y: System, ms: seq<Message>): System {
    System(Step(Advanced(y.s, ms), Summing), y.c.(inbox := y.c.inbox + ms + [CompleteMsg(y.s.job.fileId)]))
  }

  /** A read, and what follows it. */
  lemma {:induction false} CompletedLater(y: System, n: nat, ms: seq<Message>)
    requires y.s.pc == SenderPc.Reading && y.s.pos < |y.s.job.src|
    requires Consecutive(ms, y.s.job.fileId, y.s.index + 1)
    requires Payload(ms) == From(y.s.job.src, Said(y.s, n).pos)
    ensures var all := [Says(y.s, n)] + ms;
            && Consecutive(all, y.s.job.fileId, y.s.index) && Payload(all) == From(y.s.job.src, y.s.pos)
            && Completed(System(Said(y.s, n), y.c.(inbox := y.c.inbox + [Says(y.s, n)])), ms) == Completed(y, all)
  {
    var m := Says(y.s, n);
    ReadIsAChunk(y.s, n);
    FirstChunk(m, ms, y.s.job.fileId, y.s.index);
    assert y.c.inbox + [m] + ms == y.c.inbox + ([m] + ms);
  }

  /** From the first read to file_complete: chunks of all that is left of the file. */
  lemma {:induction false} SendsTheRest(y: System, es: seq<Event>) returns (ms: seq<Message>, rest: seq<Event>)
    requires y.s.pc == SenderPc.Reading && Left(y) && OwnWork(es) && SenderGone(Exec(y, es).s)
    ensures Consecutive(ms, y.s.job.fileId, y.s.index) && Payload(ms) == From(y.s.job.src, y.s.pos)
    ensures OwnWork(rest) && Exec(y, es) == Exec(Completed(y, ms), rest)
    decreases |es|
  {
    OneMore(y, es);
    var n := es[0].n;
    SayingIsAStep(y.s, y.c, n);
    if y.s.pos < |y.s.job.src| {
      ReadIsAChunk(y.s, n);
      ms, rest := SendsTheRest(Next(y, es[0]), es[1..]);
      CompletedLater(y, n, ms);
      ms := [Says(y.s, n)] + ms;
    } else {
      ms, rest := [], es[1..];
      assert y.c.inbox + [] == y.c.inbox;
    }
  }

  /** The end: the sender's checksum, and the peer's. */
  lemma {:induction false} SendsTheSum(y: System, es: seq<Event>)
    requires y.s.pc == Summing && Left(y) && OwnWork(es) && SenderGone(Exec(y, es).s)
    ensures var end := Exec(y, es);
            && end.c.inbox == y.c.inbox + [ChecksumMsg(y.s.job.fileId, Sum(y.s.job.summed))]
            && (end.s.pc == Sent <==> Confirmed(y.c.sent, y.s.job))
  {
    OneMore(y, es);
    var mid := Next(y, es[0]);
    assert mid.s.pc == AwaitSum && mid.c.sent == y.c.sent && mid.s.job == y.s.job && Left(mid);
    OneMore(mid, es[1..]);
    Concludes(mid, es[1..]);
  }

  predicate Confirmed(answers: seq<Message>, job: Job) {
    answers != [] && answers[0].kind == FileChecksum && answers[0].checksum == Sum(job.summed)
  }

  lemma {:induction false} Concludes(y: System, es: seq<Event>)
    requires y.s.pc == AwaitSum && Left(y) && OwnWork(es) && es != []
    ensures Exec(y, es).c.inbox == y.c.inbox && (Exec(y, es).s.pc == Sent <==> Confirmed(y.c.sent, y.s.job))
  {
    var next := Next(y, es[0]);
    assert SenderGone(next.s) && next.c.inbox == y.c.inbox && (next.s.pc == Sent <==> Confirmed(y.c.sent, y.s.job));
    GoneStays(next, es[1..]);
  }

  lemma {:induction false} GoneStays(y: System, es: seq<Event>)
    requires SenderGone(y.s) && OwnWork(es)
    ensures Exec(y, es) == y
    decreases |es|
  {
    if es != [] {
      GoneStays(Next(y, es[0]), es[1..]);
    }
  }

  /** Where the sender starts, by the answer to its announcement. */
  function StartOf(answers: seq<Message>, job: Job): nat {
    if job.offers && answers != [] && answers[0].kind == FileResume && answers[0].offset >= 0
    then answers[0].offset
    else 0
  }

  function Later(answers: seq<Message>, job: Job): seq<Message> {
    if job.offers && answers != [] then answers[1..] else answers
  }

  function Begun(y: System): System {
    var offset := StartOf(y.c.sent, y.s.job);
    System(Sender(SenderPc.Reading, y.s.job, offset, offset / FILE_CHUNK_SIZE),
           y.c.(inbox := y.c.inbox + [Safety.Announce(y.s.job)], sent := Later(y.c.sent, y.s.job)))
  }

  predicate Beginning(y: System) { y.s == Sender(Begin, y.s.job, 0, 0) && Left(y) }

  lemma {:induction false} Announces(y: System, es: seq<Event>) returns (rest: seq<Event>)
    requires Beginning(y) && OwnWork(es) && SenderGone(Exec(y, es).s)
    requires y.s.job.offers ==> y.c.sent != []
    ensures OwnWork(rest) && Exec(y, es) == Exec(Begun(y), rest)
  {
    OneMore(y, es);
    var next := Next(y, es[0]);
    rest := es[1..];
    if y.s.job.offers {
      assert next.s.pc == AwaitAck && next.c.sent == y.c.sent;
      OneMore(next, rest);
      assert Next(next, rest[0]) == Begun(y);
      rest := rest[1..];
    } else {
      assert next == Begun(y);
    }
  }

  lemma {:induction false} Unanswered(y: System, es: seq<Event>)
    requires Beginning(y) && OwnWork(es) && SenderGone(Exec(y, es).s)
    requires y.s.job.offers && y.c.sent == []
    ensures Exec(y, es).s.pc == Failed && Exec(y, es).c.inbox == y.c.inbox + [Safety.Announce(y.s.job)]
  {
    OneMore(y, es);
    var next := Next(y, es[0]);
    assert next.s.pc == AwaitAck && next.c.sent == [];
    OneMore(next, es[1..]);
    var last := Next(next, es[1..][0]);
    assert last.s.pc == Failed && last.c == next.c;
    GoneStays(last, es[1..][1..]);
  }

  /** For every file, every sequence of answers and every size of reads: the sender announces the file;
      without an answer to an offer it fails; with one it sends chunks, with consecutive indices, of
      exactly the bytes from the offset it was told to the end of the file, and then file_complete and
      its checksum; and it succeeds if and only if the next answer is that checksum. */
  lemma {:induction false} OffersExactly(y: System, es: seq<Event>) returns (ms: seq<Message>)
    requires Beginning(y) && OwnWork(es) && SenderGone(Exec(y, es).s)
    ensures var job, end, offset := y.s.job, Exec(y, es), StartOf(y.c.sent, y.s.job);
            if job.offers && y.c.sent == [] then
              end.s.pc == Failed && end.c.inbox == y.c.inbox + [Safety.Announce(job)]
            else
              && Consecutive(ms, job.fileId, offset / FILE_CHUNK_SIZE) && Payload(ms) == From(job.src, offset)
              && end.c.inbox == y.c.inbox + [Safety.Announce(job)] + ms + [CompleteMsg(job.fileId)]
                                + [ChecksumMsg(job.fileId, Sum(job.summed))]
              && (end.s.pc == Sent <==> Confirmed(Later(y.c.sent, job), job))
  {
    ms := [];
    if y.s.job.offers && y.c.sent == [] {
      Unanswered(y, es);
    } else {
      var rest := Announces(y, es);
      ms, rest := SendsTheRest(Begun(y), rest);
      SendsTheSum(Completed(Begun(y), ms), rest);
    }
  }
}
