/** Exactly which sequences of messages the receiver's code accepts as a file, whoever has sent them,
    when its own operations work. */
module Acceptance {
  import opened Protocol
  import opened Storage
  import opened Safety
  import opened Receiver
  import Flow
  import Machine
  import Paths
  import Extraction

  ghost predicate AllWork(io: Outcomes) { forall n :: io(n).Works? }

  /** The first n messages are the chunks of this file from index k on, and then come its
      file_complete and the checksum of all its bytes. */
  predicate Transfer(q: seq<Message>, n: nat, id: string, k: int, hashed: Bytes) {
    && n + 2 <= |q|
    && (forall i | 0 <= i < n :: q[i].kind == FileChunk && q[i].fileId == id && q[i].index == k + i)
    && q[n].kind == FileComplete && q[n].fileId == id
    && q[n + 1].kind == FileChecksum && q[n + 1].checksum == Sum(hashed + Flow.Payload(q[..n]))
  }

  /** At the head of the message loop, with the temporary file as the hasher has it. */
  predicate Ready(c: Machine.Config) { c.r.pc == Machine.Loop && TempIsHashed(c) }

  function Total(q: seq<Message>, n: nat, hashed: Bytes): Bytes
    requires n <= |q|
  {
    hashed + Flow.Payload(q[..n])
  }

  predicate CanPlace(c: Machine.Config, data: Bytes) {
    Paths.IsArchive(c.r.start.name) ==> Extractable(c.disk, data)
  }

  /** All that a receiver that saves the file does. */
  ghost predicate SavedAs(c: Machine.Config, end: Machine.Config, n: nat)
    requires n + 2 <= |c.inbox|
  {
    var data := Total(c.inbox, n, c.r.hashed);
    && end.r.pc == Machine.Saved
    && end.inbox == c.inbox[n + 2..]
    && end.sent == c.sent + [ChecksumMsg(c.r.start.fileId, Sum(data))]
    && (if Paths.IsArchive(c.r.start.name)
        then Unpacked(c.disk.dir, Untar(c.disk, data), Extraction.Files(end.disk.dest, end.disk.dirs))
        else end.disk.dest == c.disk.dest[SavePath(c.disk, c.r.start.name) := data])
    && c.r.temp !in end.disk.temps
    && (c.r.state.Some? ==> c.r.start.fileId !in end.disk.states)
  }

  predicate IsChunk(c: Machine.Config) {
    && c.inbox != [] && c.inbox[0].kind == FileChunk
    && c.inbox[0].fileId == c.r.start.fileId && c.inbox[0].index == c.r.nextIndex
  }

  predicate IsEnd(c: Machine.Config) {
    c.inbox != [] && c.inbox[0].kind == FileComplete && c.inbox[0].fileId == c.r.start.fileId
  }

  lemma TransferFirst(q: seq<Message>, n: nat, id: string, k: int, hashed: Bytes)
    requires n > 0 && q != []
    ensures Transfer(q, n, id, k, hashed) <==>
            && q[0].kind == FileChunk && q[0].fileId == id && q[0].index == k
            && Transfer(q[1..], n - 1, id, k + 1, hashed + q[0].chunk)
    ensures q[0].kind == FileChunk && n <= |q| ==> Total(q, n, hashed) == Total(q[1..], n - 1, hashed + q[0].chunk)
  {
    if q[0].kind == FileChunk && n <= |q| {
      var some, rest := q[..n], q[1..][..n - 1];
      assert some[1..] == rest;
      assert Flow.Payload(some) == q[0].chunk + Flow.Payload(rest);
      assert hashed + q[0].chunk + Flow.Payload(rest) == hashed + (q[0].chunk + Flow.Payload(rest));
      forall i | 0 <= i < |q| - 1 ensures q[1..][i] == q[i + 1] {
      }
    }
  }

  /** The same transfer, further on. */
  predicate SameTransfer(c: Machine.Config, c': Machine.Config) {
    && c'.r.start == c.r.start && c'.r.temp == c.r.temp && c'.r.accepts == c.r.accepts
    && (c'.r.state.Some? <==> c.r.state.Some?)
    && c'.disk.dest == c.disk.dest && c'.disk.dirs == c.disk.dirs && SameWorld(c'.disk, c.disk)
  }

  /** A chunk is written at the end of the temporary file, hashed, and counted. */
  lemma TakesChunk(p: Point, io: Outcomes) returns (q: Point)
    requires AllWork(io) && Ready(p.c) && IsChunk(p.c)
    ensures RunFile(p, io) == RunFile(q, io)
    ensures Ready(q.c) && SameTransfer(p.c, q.c) && q.c.inbox == p.c.inbox[1..] && q.c.sent == p.c.sent
    ensures q.c.r.hashed == p.c.r.hashed + p.c.inbox[0].chunk && q.c.r.nextIndex == p.c.r.nextIndex + 1
  {
    var p1 := Tick(p, io);
    assert p1.c == Machine.LoopStep(p.c, true, io(p.clock)) && p1.c.r.pc == Machine.Write;
    q := WritesChunk(p1, io);
  }

  lemma WritesChunk(p: Point, io: Outcomes) returns (q: Point)
    requires AllWork(io) && p.c.r.pc == Machine.Write && TempIsHashed(p.c)
    ensures RunFile(p, io) == RunFile(q, io)
    ensures Ready(q.c) && SameTransfer(p.c, q.c) && q.c.inbox == p.c.inbox && q.c.sent == p.c.sent
    ensures q.c.r.hashed == p.c.r.hashed + p.c.r.chunk && q.c.r.nextIndex == p.c.r.nextIndex + 1
  {
    var p1 := Tick(p, io);
    assert p1.c == Machine.WriteStep(p.c, io(p.clock)) && p1.c.r.pc == Machine.Save;
    WriteAtEnd(p.c.r.hashed, p.c.r.chunk);
    q := Tick(p1, io);
    assert q.c == Machine.SaveStep(p1.c, io(p1.clock));
  }

  /** Anything else in the loop is an error. */
  lemma RefusesOther(p: Point, io: Outcomes)
    requires AllWork(io) && Ready(p.c) && !IsChunk(p.c) && !IsEnd(p.c)
    ensures RunFile(p, io).c.r.pc == Machine.Exit(false)
  {
    var p1 := Tick(p, io);
    assert p1.c.r.pc == Machine.Abort;
    Aborts(p1, io);
  }

  lemma Aborts(p: Point, io: Outcomes)
    requires p.c.r.pc == Machine.Abort
    ensures RunFile(p, io).c.r.pc == Machine.Exit(false)
  {
    assert Tick(p, io).c.r.pc == Machine.Exit(false);
  }

  predicate HasSum(c: Machine.Config) {
    |c.inbox| >= 2 && c.inbox[1].kind == FileChecksum && c.inbox[1].checksum == Sum(c.r.hashed)
  }

  lemma TakesEnd(p: Point, io: Outcomes) returns (q: Point)
    requires AllWork(io) && Ready(p.c) && IsEnd(p.c)
    ensures RunFile(p, io) == RunFile(q, io)
    ensures q.c == p.c.(r := p.c.r.(pc := Machine.Closing), inbox := p.c.inbox[1..])
  {
    q := Tick(p, io);
    assert q.c == Machine.LoopStep(p.c, true, io(p.clock));
  }

  lemma TakesSum(p: Point, io: Outcomes) returns (q: Point)
    requires AllWork(io) && p.c.r.pc == Machine.Closing
    ensures var good := p.c.inbox != [] && p.c.inbox[0].kind == FileChecksum
            && p.c.inbox[0].checksum == Sum(p.c.r.hashed);
            if good then
              && RunFile(p, io) == RunFile(q, io)
              && q.c == p.c.(r := p.c.r.(pc := Machine.SumAck), inbox := p.c.inbox[1..])
            else RunFile(p, io).c.r.pc == Machine.Exit(false)
  {
    q := Tick(p, io);
    assert q.c == Machine.ClosingStep(p.c, true, io(p.clock));
    if q.c.r.pc == Machine.Abort {
      Aborts(q, io);
    }
  }

  lemma ComparesSum(p: Point, io: Outcomes) returns (q: Point)
    requires AllWork(io) && Ready(p.c) && IsEnd(p.c)
    ensures !HasSum(p.c) ==> RunFile(p, io).c.r.pc == Machine.Exit(false)
    ensures HasSum(p.c) ==>
              && RunFile(p, io) == RunFile(q, io) && q.c.r == p.c.r.(pc := Machine.SumAck)
              && q.c.disk == p.c.disk && q.c.sent == p.c.sent && q.c.inbox == p.c.inbox[2..]
  {
    var p1 := TakesEnd(p, io);
    q := TakesSum(p1, io);
    if HasSum(p.c) {
      assert p.c.inbox[1..][1..] == p.c.inbox[2..];
    }
  }

  /** The acknowledgement, and the state file. */
  lemma SendsSum(p: Point, io: Outcomes) returns (q: Point)
    requires AllWork(io) && p.c.r.pc == Machine.SumAck
    ensures RunFile(p, io) == RunFile(q, io) && q.c.r == p.c.r.(pc := Machine.Place)
    ensures q.c.inbox == p.c.inbox && q.c.sent == p.c.sent + [ChecksumMsg(p.c.r.start.fileId, Sum(p.c.r.hashed))]
    ensures q.c.disk ==
            if p.c.r.state.Some? then p.c.disk.(states := p.c.disk.states - {p.c.r.start.fileId}) else p.c.disk
  {
    var p1 := Tick(p, io);
    assert p1.c.r.pc == Machine.Forget;
    q := Tick(p1, io);
  }

  lemma PutsInPlace(p: Point, io: Outcomes)
    requires AllWork(io) && p.c.r.pc == Machine.Place && TempIsHashed(p.c)
    ensures var end := RunFile(p, io).c;
            if !CanPlace(p.c, p.c.r.hashed) then end.r.pc == Machine.Exit(false)
            else
              && end.r.pc == Machine.Saved && end.inbox == p.c.inbox && end.sent == p.c.sent
              && end.disk.states == p.c.disk.states && p.c.r.temp !in end.disk.temps
              && (if Paths.IsArchive(p.c.r.start.name)
                  then Unpacked(p.c.disk.dir, Untar(p.c.disk, p.c.r.hashed),
                                Extraction.Files(end.disk.dest, end.disk.dirs))
                  else end.disk.dest == p.c.disk.dest[SavePath(p.c.disk, p.c.r.start.name) := p.c.r.hashed])
  {
    var q := Tick(p, io);
    assert q.c == Machine.PlaceStep(p.c, io(p.clock));
    if CanPlace(p.c, p.c.r.hashed) {
      if Paths.IsArchive(p.c.r.start.name) {
        ExtractUnpacks(p.c.disk, p.c.r.hashed);
      }
      assert q.c.r.pc == Machine.Finish && q.c.r.temp == p.c.r.temp;
      var end := Tick(q, io);
      assert end.c == Machine.Goto(Machine.RemoveTempOf(q.c), Machine.Saved);
      assert RunFile(p, io) == RunFile(q, io) == RunFile(end, io) == end;
    } else {
      Aborts(q, io);
    }
  }

  lemma SumThenPlace(p: Point, io: Outcomes)
    requires AllWork(io) && p.c.r.pc == Machine.SumAck && TempIsHashed(p.c)
    ensures var end := RunFile(p, io).c;
            if !CanPlace(p.c, p.c.r.hashed) then end.r.pc == Machine.Exit(false)
            else
              && end.r.pc == Machine.Saved && end.inbox == p.c.inbox && p.c.r.temp !in end.disk.temps
              && end.sent == p.c.sent + [ChecksumMsg(p.c.r.start.fileId, Sum(p.c.r.hashed))]
              && (p.c.r.state.Some? ==> p.c.r.start.fileId !in end.disk.states)
              && (if Paths.IsArchive(p.c.r.start.name)
                  then Unpacked(p.c.disk.dir, Untar(p.c.disk, p.c.r.hashed),
                                Extraction.Files(end.disk.dest, end.disk.dirs))
                  else end.disk.dest == p.c.disk.dest[SavePath(p.c.disk, p.c.r.start.name) := p.c.r.hashed])
  {
    var q := SendsSum(p, io);
    PutsInPlace(q, io);
  }

  lemma EndsFile(p: Point, io: Outcomes)
    requires AllWork(io) && Ready(p.c) && IsEnd(p.c)
    ensures var end := RunFile(p, io).c;
            if HasSum(p.c) && CanPlace(p.c, p.c.r.hashed) then SavedAs(p.c, end, 0) else end.r.pc == Machine.Exit(false)
  {
    var q := ComparesSum(p, io);
    if HasSum(p.c) {
      SumThenPlace(q, io);
      assert Total(p.c.inbox, 0, p.c.r.hashed) == p.c.r.hashed;
    }
  }

  /** From the head of the loop on. */
  lemma {:induction false} LoopAccepts(p: Point, io: Outcomes)
    requires AllWork(io) && Ready(p.c)
    ensures var c, end := p.c, RunFile(p, io).c;
            && (end.r.pc in {Machine.Saved, Machine.Exit(false)})
            && (end.r.pc == Machine.Saved ==> exists n: nat :: Accepted(c, n))
            && (forall n: nat | Accepted(c, n) :: SavedAs(c, end, n))
    decreases |p.c.inbox|
  {
    if IsChunk(p.c) {
      var q := TakesChunk(p, io);
      LoopAccepts(q, io);
      AcceptedLater(p.c, q.c, RunFile(p, io).c);
    } else if IsEnd(p.c) {
      EndsFile(p, io);
      EndAccepted(p.c, RunFile(p, io).c);
    } else {
      RefusesOther(p, io);
      forall n: nat ensures !Accepted(p.c, n) {
        if Accepted(p.c, n) && n > 0 {
          TransferFirst(p.c.inbox, n, p.c.r.start.fileId, p.c.r.nextIndex, p.c.r.hashed);
        }
      }
    }
  }

  predicate Accepted(c: Machine.Config, n: nat) {
    && Transfer(c.inbox, n, c.r.start.fileId, c.r.nextIndex, c.r.hashed)
    && CanPlace(c, Total(c.inbox, n, c.r.hashed))
  }

  lemma EndAccepted(c: Machine.Config, end: Machine.Config)
    requires IsEnd(c)
    requires if HasSum(c) && CanPlace(c, c.r.hashed) then SavedAs(c, end, 0) else end.r.pc == Machine.Exit(false)
    ensures end.r.pc == Machine.Saved ==> exists n: nat :: Accepted(c, n)
    ensures forall n: nat | Accepted(c, n) :: SavedAs(c, end, n)
  {
    assert Total(c.inbox, 0, c.r.hashed) == c.r.hashed;
    if HasSum(c) && CanPlace(c, c.r.hashed) {
      assert Accepted(c, 0);
    }
    forall n: nat | Accepted(c, n) ensures SavedAs(c, end, n) {
      if n > 0 {
        TransferFirst(c.inbox, n, c.r.start.fileId, c.r.nextIndex, c.r.hashed);
      }
    }
  }

  lemma AcceptedNext(c: Machine.Config, c': Machine.Config, n: nat)
    requires IsChunk(c) && n > 0 && c'.inbox == c.inbox[1..] && SameTransfer(c, c')
    requires c'.r.hashed == c.r.hashed + c.inbox[0].chunk && c'.r.nextIndex == c.r.nextIndex + 1
    ensures Accepted(c, n) <==> Accepted(c', n - 1)
  {
    TransferFirst(c.inbox, n, c.r.start.fileId, c.r.nextIndex, c.r.hashed);
  }

  lemma AcceptedLater(c: Machine.Config, c': Machine.Config, end: Machine.Config)
    requires IsChunk(c) && c'.inbox == c.inbox[1..] && c'.sent == c.sent && SameTransfer(c, c')
    requires c'.r.hashed == c.r.hashed + c.inbox[0].chunk && c'.r.nextIndex == c.r.nextIndex + 1
    requires end.r.pc == Machine.Saved ==> exists n: nat :: Accepted(c', n)
    requires forall n: nat | Accepted(c', n) :: SavedAs(c', end, n)
    ensures end.r.pc == Machine.Saved ==> exists n: nat :: Accepted(c, n)
    ensures forall n: nat | Accepted(c, n) :: SavedAs(c, end, n)
  {
    if end.r.pc == Machine.Saved {
      var n: nat :| Accepted(c', n);
      AcceptedNext(c, c', n + 1);
    }
    forall n: nat | Accepted(c, n) ensures SavedAs(c, end, n) {
      assert n > 0;
      AcceptedNext(c, c', n);
      assert SavedAs(c', end, n - 1);
      TransferFirst(c.inbox, n, c.r.start.fileId, c.r.nextIndex, c.r.hashed);
      assert c.inbox[1..][n - 1 + 2..] == c.inbox[n + 2..];
    }
  }

  /** What file_start asks for, and what this receiver allows. */
  function Asked(c: Machine.Config): Machine.Job {
    var m := c.r.start;
    Machine.Job(m.fileId, m.name, m.size, [], [], m.resume, c.r.accepts)
  }

  /** The temporary file is open, and nothing has been answered yet. */
  predicate Opened(c: Machine.Config, from: Machine.Config) {
    var job := Asked(from);
    && c.r.pc == Machine.Ack && TempIsHashed(c)
    && c.r.start == from.r.start && c.r.accepts == from.r.accepts
    && c.inbox == from.inbox && c.sent == from.sent
    && c.disk.dest == from.disk.dest && c.disk.dirs == from.disk.dirs && SameWorld(c.disk, from.disk)
    && c.r.nextIndex == Flow.StartIndex(from.disk, job) && c.r.hashed == Flow.Kept(from.disk, job)
    && (c.r.state.Some? <==> Flow.Resumable(job))
  }

  lemma OpensFresh(p: Point, io: Outcomes) returns (q: Point)
    requires AllWork(io) && p.c.r.pc == Machine.Create && !Flow.Live(p.c.disk, Asked(p.c))
    ensures RunFile(p, io) == RunFile(q, io) && Opened(q.c, p.c)
  {
    q := Tick(p, io);
    assert q.c == Machine.CreateStep(p.c, io(p.clock));
    if Flow.Resumable(Asked(p.c)) {
      assert q.c.r.pc == Machine.SaveNew;
      q := Tick(q, io);
    }
  }

  lemma OpensKept(p: Point, io: Outcomes) returns (q: Point)
    requires AllWork(io) && p.c.r.pc == Machine.Truncate && Flow.Live(p.c.disk, Asked(p.c))
    requires p.c.r.state == LoadState(p.c.disk, p.c.r.start.fileId) && p.c.r.temp == p.c.r.state.value.temp
    ensures RunFile(p, io) == RunFile(q, io) && Opened(q.c, p.c)
  {
    var p1 := Tick(p, io);
    assert p1.c == Machine.TruncateStep(p.c, io(p.clock)) && p1.c.r.pc == Machine.Rehash;
    q := Tick(p1, io);
    assert q.c == Machine.RehashStep(p1.c, io(p1.clock));
    var kept := Flow.Kept(p.c.disk, Asked(p.c));
    assert p1.c.disk.temps[p1.c.r.temp] == kept && kept[..|kept|] == kept;
  }

  lemma NotKept(p: Point, io: Outcomes) returns (q: Point)
    requires AllWork(io) && p.c.r.pc == Machine.Truncate && !Flow.Live(p.c.disk, Asked(p.c))
    requires Flow.Resumable(Asked(p.c)) && p.c.r.state == LoadState(p.c.disk, p.c.r.start.fileId)
    requires p.c.r.state.Some? && p.c.r.temp == p.c.r.state.value.temp && p.c.r.temp in p.c.disk.temps
    ensures RunFile(p, io) == RunFile(q, io) && Opened(q.c, p.c)
  {
    var p1 := Tick(p, io);
    assert p1.c == Machine.Goto(p.c, Machine.Create);
    q := OpensFresh(p1, io);
  }

  lemma OpensState(p: Point, io: Outcomes) returns (q: Point)
    requires AllWork(io) && p.c.r.pc == Machine.Open && Flow.Resumable(Asked(p.c))
    requires p.c.r.state.Some? && p.c.r.state == LoadState(p.c.disk, p.c.r.start.fileId)
    ensures RunFile(p, io) == RunFile(q, io) && Opened(q.c, p.c)
  {
    var p1 := Tick(p, io);
    assert p1.c == Machine.OpenStep(p.c, io(p.clock));
    if p1.c.r.pc == Machine.Create {
      q := OpensFresh(p1, io);
    } else if Flow.Live(p.c.disk, Asked(p.c)) {
      q := OpensKept(p1, io);
    } else {
      q := NotKept(p1, io);
    }
  }

  lemma Opens(p: Point, io: Outcomes) returns (q: Point)
    requires AllWork(io) && p.c.r.pc == Machine.Load
    ensures RunFile(p, io) == RunFile(q, io) && Opened(q.c, p.c)
  {
    var p1 := Tick(p, io);
    assert p1.c == Machine.LoadStep(p.c, io(p.clock));
    if p1.c.r.pc == Machine.Open {
      q := OpensState(p1, io);
    } else {
      q := OpensFresh(p1, io);
    }
  }

  /** What the receiver answers to file_start: nothing, unless the sender has asked. */
  function Answer(c: Machine.Config): seq<Message> {
    if c.r.start.resume then [Flow.Reply(c.disk, Asked(c))] else []
  }

  lemma Answers(p: Point, io: Outcomes, from: Machine.Config) returns (q: Point)
    requires AllWork(io) && Opened(p.c, from)
    ensures RunFile(p, io) == RunFile(q, io) && Ready(q.c)
    ensures q.c == p.c.(r := p.c.r.(pc := Machine.Loop), sent := from.sent + Answer(from))
  {
    q := Tick(p, io);
    assert q.c == Machine.AckStep(p.c, io(p.clock));
  }

  /** The whole transfer: the messages after file_start are the n chunks from the index on that the
      receiver's disk says, and then the checksum of what it had kept and these chunks. */
  predicate FileAccepted(c: Machine.Config, n: nat) {
    var job := Asked(c);
    && Transfer(c.inbox, n, job.fileId, Flow.StartIndex(c.disk, job), Flow.Kept(c.disk, job))
    && CanPlace(c, Total(c.inbox, n, Flow.Kept(c.disk, job)))
  }

  ghost predicate FileSaved(c: Machine.Config, end: Machine.Config, n: nat)
    requires n + 2 <= |c.inbox|
  {
    var job := Asked(c);
    var data := Total(c.inbox, n, Flow.Kept(c.disk, job));
    && end.r.pc == Machine.Saved
    && end.inbox == c.inbox[n + 2..]
    && end.sent == c.sent + Answer(c) + [ChecksumMsg(job.fileId, Sum(data))]
    && (if Paths.IsArchive(job.name)
        then Unpacked(c.disk.dir, Untar(c.disk, data), Extraction.Files(end.disk.dest, end.disk.dirs))
        else end.disk.dest == c.disk.dest[SavePath(c.disk, job.name) := data])
    && (Flow.Resumable(job) ==> job.fileId !in end.disk.states)
  }

  lemma SameAcceptance(c: Machine.Config, q: Machine.Config, end: Machine.Config, n: nat)
    requires q.r.start == c.r.start && q.inbox == c.inbox && q.sent == c.sent + Answer(c)
    requires q.disk.dest == c.disk.dest && SameWorld(q.disk, c.disk)
    requires q.r.nextIndex == Flow.StartIndex(c.disk, Asked(c)) && q.r.hashed == Flow.Kept(c.disk, Asked(c))
    requires q.r.state.Some? <==> Flow.Resumable(Asked(c))
    ensures Accepted(q, n) <==> FileAccepted(c, n)
    ensures Accepted(q, n) && SavedAs(q, end, n) ==> FileSaved(c, end, n)
  {
  }

  /** For every disk and every sequence of messages after a file_start, whoever has sent them: if its own
      operations work, receiveOneFile saves the file if and only if the messages are a transfer, and
      then it has read no message more, answered as it should, and put in place exactly the bytes that the
      transfer carries. In all other cases it returns an error. */
  lemma FileAccepts(p: Point, io: Outcomes)
    requires AllWork(io) && p.c.r.pc == Machine.Load
    ensures var end := RunFile(p, io).c;
            && end.r.pc in {Machine.Saved, Machine.Exit(false)}
            && (end.r.pc == Machine.Saved <==> exists n: nat :: FileAccepted(p.c, n))
            && (forall n: nat | FileAccepted(p.c, n) :: FileSaved(p.c, end, n))
  {
    var end := RunFile(p, io).c;
    var q := Opens(p, io);
    q := Answers(q, io, p.c);
    LoopAccepts(q, io);
    forall n: nat | FileAccepted(p.c, n) ensures FileSaved(p.c, end, n) {
      SameAcceptance(p.c, q.c, end, n);
      assert SavedAs(q.c, end, n);
    }
    if end.r.pc == Machine.Saved {
      var n: nat :| Accepted(q.c, n);
      SameAcceptance(p.c, q.c, end, n);
    }
  }
}
