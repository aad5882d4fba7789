/** Whatever is cut, lost, torn or edited: a file is reported saved, or sent, only if
    the bytes are those the sender hashed. */
module Safety {
  import opened Protocol
  import opened Storage
  import opened Machine
  import Paths
  import Extraction

  function Announce(job: Job): Message { StartMsg(job.fileId, job.name, job.size, job.offers) }

  predicate Holding(pc: ReceiverPc) {
    pc in {SaveNew, Ack, Loop, Write, Save, Closing, SumAck, Forget, Place}
  }

  predicate Verified(pc: ReceiverPc) { pc in {SumAck, Forget, Place, Finish, Saved} }

  predicate Acked(pc: ReceiverPc) { pc in {Forget, Place, Finish, Abort, Saved} || pc.Exit? }

  predicate Began(pc: ReceiverPc) { pc != Idle && !pc.Exit? }

  /** The temporary file holds exactly the bytes the hasher has absorbed, and writes go to its end. */
  predicate TempIsHashed(c: Config) {
    && c.r.temp in c.disk.temps
    && c.disk.temps[c.r.temp] == c.r.hashed
    && c.r.pos == |c.r.hashed|
  }

  predicate Quiet(q: seq<Message>, kind: Kind) { forall i | 0 <= i < |q| :: q[i].kind != kind }

  /** What may be on its way to the receiver: one file_start, at the front, and the sender's checksum. */
  predicate InboxOk(q: seq<Message>, job: Job) {
    forall i | 0 <= i < |q| ::
      && (q[i].kind == FileStart ==> i == 0 && q[i] == Announce(job))
      && (q[i].kind == FileChecksum ==> q[i].checksum == Sum(job.summed))
  }

  /** All that a tarball has is in its place. */
  ghost predicate Unpacked(dir: seq<string>, t: Tarball, fs: Extraction.Files) {
    && t.intact && Extraction.AllGood(dir, t.entries)
    && forall path: string :: Holds(dir, t.entries, fs, path)
  }

  predicate Holds(dir: seq<string>, entries: seq<Extraction.Entry>, fs: Extraction.Files, path: string) {
    && (Extraction.Last(dir, entries, path).Some? ==>
          path in fs.data && fs.data[path] == Extraction.Last(dir, entries, path).value)
    && ((exists i :: 0 <= i < |entries| && Extraction.Makes(dir, entries[i], path)) ==> path in fs.dirs)
  }

  /** The file is in the destination directory, or, if it is an archive, all it contains. */
  ghost predicate Placed(c: Config, job: Job) {
    if Paths.IsArchive(job.name)
    then Unpacked(c.disk.dir, Untar(c.disk, job.summed), Extraction.Files(c.disk.dest, c.disk.dirs))
    else SavePath(c.disk, job.name) in c.disk.dest && c.disk.dest[SavePath(c.disk, job.name)] == job.summed
  }

  lemma ExtractUnpacks(d: Disk, data: Bytes)
    requires Extractable(d, data)
    ensures var d' := Extract(d, data, Works);
            Unpacked(d.dir, Untar(d, data), Extraction.Files(d'.dest, d'.dirs))
  {
    var entries := Untar(d, data).entries;
    var fs := Extraction.Files(d.dest, d.dirs);
    Extraction.ReachIs(d.dir, entries);
    assert Extraction.Reach(d.dir, entries) == |entries| && entries[..|entries|] == entries;
    forall path: string ensures Holds(d.dir, entries, Extraction.Extracted(d.dir, entries, fs).0, path) {
      Extraction.ExtractedExactly(d.dir, entries, fs, path);
    }
  }

  ghost predicate Safe(y: System) {
    var c := y.c;
    var job := y.s.job;
    && FreshOk(c.disk)
    && (Holding(c.r.pc) ==> TempIsHashed(c))
    && (c.r.pc == Rehash && c.r.state.Some? && c.r.temp in c.disk.temps ==>
          |c.disk.temps[c.r.temp]| == c.r.state.value.ByteOffset())
    && InboxOk(c.inbox, job)
    && (c.inbox != [] || Began(c.r.pc) ==> y.s.pc != Begin)
    && (Began(c.r.pc) ==> c.r.start == Announce(job) && Quiet(c.inbox, FileStart))
    && (c.r.pc == Idle ==> Quiet(c.sent, FileChecksum) && c.r.state == None)
    && (c.r.state.Some? ==> c.r.state.value.temp < c.disk.nextTemp)
    && (Verified(c.r.pc) ==> c.r.hashed == job.summed)
    && (c.r.pc in {Finish, Saved} ==> Placed(c, job))
    && (!Quiet(c.sent, FileChecksum) || y.s.pc == Sent ==> Acked(c.r.pc) && c.r.hashed == job.summed)
  }

  lemma SafeInitial(d: Disk, job: Job)
    requires FreshOk(d)
    ensures Safe(Initial(d, job))
  {
  }

  lemma BeginnerStaysSafe(y: System, io: Io, n: nat)
    requires Safe(y) && y.s.pc == Begin
    ensures Safe(SenderStep(y, io, n))
  {
  }

  lemma AnnouncerStaysSafe(y: System, io: Io, n: nat)
    requires Safe(y) && y.s.pc in {Reading, Summing}
    ensures Safe(SenderStep(y, io, n))
  {
  }

  lemma AwaiterStaysSafe(y: System, io: Io, n: nat)
    requires Safe(y) && y.s.pc in {AwaitAck, AwaitSum}
    ensures Safe(SenderStep(y, io, n))
  {
  }

  lemma SenderStaysSafe(y: System, io: Io, n: nat)
    requires Safe(y)
    ensures Safe(SenderStep(y, io, n))
  {
    if y.s.pc == Begin {
      BeginnerStaysSafe(y, io, n);
    } else if y.s.pc in {Reading, Summing} {
      AnnouncerStaysSafe(y, io, n);
    } else if y.s.pc in {AwaitAck, AwaitSum} {
      AwaiterStaysSafe(y, io, n);
    }
  }

  predicate Opening(pc: ReceiverPc) { pc in {Load, Open, Truncate, Rehash, Create, SaveNew} }

  lemma LoadStaysSafe(y: System, closed: bool, io: Io)
    requires Safe(y) && y.c.r.pc in {Load, Open}
    ensures Safe(y.(c := ReceiverStep(y.c, closed, io)))
  {
  }

  lemma TruncateStaysSafe(y: System, closed: bool, io: Io)
    requires Safe(y) && y.c.r.pc == Truncate
    ensures Safe(y.(c := ReceiverStep(y.c, closed, io)))
  {
    assert ReceiverStep(y.c, closed, io) == TruncateStep(y.c, io);
  }

  lemma RehashStaysSafe(y: System, closed: bool, io: Io)
    requires Safe(y) && y.c.r.pc == Rehash
    ensures Safe(y.(c := ReceiverStep(y.c, closed, io)))
  {
    assert ReceiverStep(y.c, closed, io) == RehashStep(y.c, io);
  }

  lemma CreateStaysSafe(y: System, closed: bool, io: Io)
    requires Safe(y) && y.c.r.pc in {Create, SaveNew}
    ensures Safe(y.(c := ReceiverStep(y.c, closed, io)))
  {
  }

  lemma OpeningStaysSafe(y: System, closed: bool, io: Io)
    requires Safe(y) && y.c.r.pc in {Load, Open, Truncate, Rehash, Create, SaveNew}
    ensures Safe(y.(c := ReceiverStep(y.c, closed, io)))
  {
    if y.c.r.pc in {Load, Open} {
      LoadStaysSafe(y, closed, io);
    } else if y.c.r.pc == Truncate {
      TruncateStaysSafe(y, closed, io);
    } else if y.c.r.pc == Rehash {
      RehashStaysSafe(y, closed, io);
    } else {
      CreateStaysSafe(y, closed, io);
    }
  }

  lemma PopKeeps(q: seq<Message>, job: Job)
    requires q != [] && InboxOk(q, job)
    ensures InboxOk(q[1..], job) && Quiet(q[1..], FileStart)
  {
  }

  lemma IdleStaysSafe(y: System, closed: bool, io: Io)
    requires Safe(y) && y.c.r.pc == Idle
    ensures Safe(y.(c := NextFile(y.c, closed, io)))
  {
    if y.c.inbox != [] {
      PopKeeps(y.c.inbox, y.s.job);
    }
  }

  lemma SavedStaysSafe(y: System, closed: bool, io: Io)
    requires Safe(y) && y.c.r.pc == Saved
    ensures Safe(y.(c := NextFile(y.c, closed, io)))
  {
    if y.c.inbox != [] {
      PopKeeps(y.c.inbox, y.s.job);
    }
  }

  lemma LoopStaysSafe(y: System, closed: bool, io: Io)
    requires Safe(y) && y.c.r.pc == Loop
    ensures Safe(y.(c := ReceiverStep(y.c, closed, io)))
  {
    var c' := LoopStep(y.c, closed, io);
    if y.c.inbox != [] {
      PopKeeps(y.c.inbox, y.s.job);
    }
    assert c'.disk == y.c.disk && c'.sent == y.c.sent;
    assert c'.r == y.c.r.(pc := c'.r.pc, chunk := c'.r.chunk) && c'.r.pc in {Loop, Write, Closing, Abort};
    assert InboxOk(c'.inbox, y.s.job) && Quiet(c'.inbox, FileStart);
  }

  lemma ClosingStaysSafe(y: System, closed: bool, io: Io)
    requires Safe(y) && y.c.r.pc == Closing
    ensures Safe(y.(c := ReceiverStep(y.c, closed, io)))
  {
    if y.c.inbox != [] {
      PopKeeps(y.c.inbox, y.s.job);
    }
  }

  lemma InFileStaysSafe(y: System, closed: bool, io: Io)
    requires Safe(y) && y.c.r.pc in {Loop, Closing}
    ensures Safe(y.(c := ReceiverStep(y.c, closed, io)))
  {
    if y.c.r.pc == Loop {
      LoopStaysSafe(y, closed, io);
    } else {
      ClosingStaysSafe(y, closed, io);
    }
  }

  lemma AckStaysSafe(y: System, closed: bool, io: Io)
    requires Safe(y) && y.c.r.pc == Ack
    ensures Safe(y.(c := ReceiverStep(y.c, closed, io)))
  {
  }

  lemma WriteStaysSafe(y: System, closed: bool, io: Io)
    requires Safe(y) && y.c.r.pc == Write
    ensures Safe(y.(c := ReceiverStep(y.c, closed, io)))
  {
    WriteAtEnd(y.c.disk.temps[y.c.r.temp], y.c.r.chunk);
  }

  lemma SaveStaysSafe(y: System, closed: bool, io: Io)
    requires Safe(y) && y.c.r.pc == Save
    ensures Safe(y.(c := ReceiverStep(y.c, closed, io)))
  {
  }

  lemma WritingStaysSafe(y: System, closed: bool, io: Io)
    requires Safe(y) && y.c.r.pc in {Ack, Write, Save}
    ensures Safe(y.(c := ReceiverStep(y.c, closed, io)))
  {
    if y.c.r.pc == Ack {
      AckStaysSafe(y, closed, io);
    } else if y.c.r.pc == Write {
      WriteStaysSafe(y, closed, io);
    } else {
      SaveStaysSafe(y, closed, io);
    }
  }

  lemma SumAckStaysSafe(y: System, closed: bool, io: Io)
    requires Safe(y) && y.c.r.pc in {SumAck, Forget}
    ensures Safe(y.(c := ReceiverStep(y.c, closed, io)))
  {
  }

  lemma PlaceStaysSafe(y: System, closed: bool, io: Io)
    requires Safe(y) && y.c.r.pc == Place
    ensures Safe(y.(c := ReceiverStep(y.c, closed, io)))
  {
    assert ReceiverStep(y.c, closed, io) == PlaceStep(y.c, io);
    if io.Works? && Extractable(y.c.disk, y.s.job.summed) {
      ExtractUnpacks(y.c.disk, y.s.job.summed);
    }
  }

  lemma FinishStaysSafe(y: System, closed: bool, io: Io)
    requires Safe(y) && y.c.r.pc == Finish
    ensures Safe(y.(c := ReceiverStep(y.c, closed, io)))
  {
    assert ReceiverStep(y.c, closed, io) == Goto(DeferredRemove(y.c, io), Saved);
  }

  lemma AbortStaysSafe(y: System, closed: bool, io: Io)
    requires Safe(y) && y.c.r.pc == Abort
    ensures Safe(y.(c := ReceiverStep(y.c, closed, io)))
  {
    assert ReceiverStep(y.c, closed, io) == Goto(DeferredRemove(y.c, io), Exit(false));
  }

  lemma EndingStaysSafe(y: System, closed: bool, io: Io)
    requires Safe(y) && y.c.r.pc in {SumAck, Forget, Place, Finish, Abort}
    ensures Safe(y.(c := ReceiverStep(y.c, closed, io)))
  {
    if y.c.r.pc in {SumAck, Forget} {
      SumAckStaysSafe(y, closed, io);
    } else if y.c.r.pc == Place {
      PlaceStaysSafe(y, closed, io);
    } else if y.c.r.pc == Finish {
      FinishStaysSafe(y, closed, io);
    } else {
      AbortStaysSafe(y, closed, io);
    }
  }

  lemma SafeStep(y: System, e: Event)
    requires Safe(y)
    ensures Safe(Next(y, e))
  {
    var pc := y.c.r.pc;
    if e.who == SenderSide {
      SenderStaysSafe(y, e.io, e.n);
    } else if Opening(pc) {
      OpeningStaysSafe(y, SenderGone(y.s), e.io);
    } else if pc == Idle {
      IdleStaysSafe(y, SenderGone(y.s), e.io);
    } else if pc == Saved {
      SavedStaysSafe(y, SenderGone(y.s), e.io);
    } else if pc in {Loop, Closing} {
      InFileStaysSafe(y, SenderGone(y.s), e.io);
    } else if pc in {Ack, Write, Save} {
      WritingStaysSafe(y, SenderGone(y.s), e.io);
    } else if !pc.Exit? {
      EndingStaysSafe(y, SenderGone(y.s), e.io);
    }
  }

  lemma {:induction false} SafeRun(y: System, es: seq<Event>)
    requires Safe(y)
    ensures Safe(Exec(y, es))
    decreases |es|
  {
    if es != [] {
      SafeStep(y, es[0]);
      SafeRun(Next(y, es[0]), es[1..]);
    }
  }

  lemma {:induction false} ExecSplit(y: System, es: seq<Event>, i: nat)
    requires i <= |es|
    ensures Exec(y, es) == Exec(Exec(y, es[..i]), es[i..])
    decreases i
  {
    if i > 0 {
      ExecSplit(Next(y, es[0]), es[1..], i - 1);
      assert es[1..][..i - 1] == es[..i][1..];
    }
  }

  lemma ExecAppend(y: System, es: seq<Event>, more: seq<Event>)
    ensures Exec(y, es + more) == Exec(Exec(y, es), more)
  {
    ExecSplit(y, es + more, |es|);
    assert (es + more)[..|es|] == es && (es + more)[|es|..] == more;
  }

  lemma OneStep(y: System, e: Event)
    ensures Exec(y, [e]) == Next(y, e)
  {
    assert [e][1..] == [];
    assert Exec(Next(y, e), []) == Next(y, e);
  }

  /** In any attempt on any disk, however it is cut: what receiveOneFile reports saved is in its place,
      a regular file with the bytes the sender hashed, an archive with all that these contain; and what
      is about to be renamed or extracted always has these bytes. */
  lemma SavedIsWhatWasHashed(d: Disk, a: Attempt)
    requires FreshOk(d)
    ensures var c := After(d, a).c;
            && (c.r.pc == Saved ==> Placed(c, a.job))
            && (c.r.pc == Place ==> c.r.temp in c.disk.temps && c.disk.temps[c.r.temp] == a.job.summed)
  {
    SafeInitial(d, a.job);
    SafeRun(Initial(d, a.job), a.events);
    JobStays(Initial(d, a.job), a.events);
  }

  lemma {:induction false} JobStays(y: System, es: seq<Event>)
    ensures Exec(y, es).s.job == y.s.job
    decreases |es|
  {
    if es != [] {
      JobStays(Next(y, es[0]), es[1..]);
    }
  }

  predicate Assembled(y: System) {
    && y.c.r.temp in y.c.disk.temps
    && y.c.disk.temps[y.c.r.temp] == y.s.job.summed
  }

  lemma OnlySumAckSendsASum(y: System, e: Event)
    requires Quiet(y.c.sent, FileChecksum) && y.c.r.pc != SumAck && y.s.pc != Sent
    ensures Quiet(Next(y, e).c.sent, FileChecksum) && Next(y, e).s.pc != Sent
  {
  }

  lemma {:induction false} SentRun(y: System, es: seq<Event>) returns (i: nat)
    requires Safe(y) && y.s.pc != Sent && Quiet(y.c.sent, FileChecksum)
    requires Exec(y, es).s.pc == Sent
    ensures i <= |es| && Assembled(Exec(y, es[..i]))
    decreases |es|
  {
    if y.c.r.pc == SumAck {
      i := 0;
    } else {
      SafeStep(y, es[0]);
      OnlySumAckSendsASum(y, es[0]);
      assert Exec(Next(y, es[0]), es[1..]).s.pc == Sent;
      var j := SentRun(Next(y, es[0]), es[1..]);
      i := j + 1;
      assert es[..i][1..] == es[1..][..j];
    }
  }

  /** If the sender returns without an error, the receiver had at some point of that attempt
      assembled, in its temporary file, exactly the bytes the sender hashed. */
  lemma SentMeansAssembled(d: Disk, a: Attempt)
    requires FreshOk(d) && After(d, a).s.pc == Sent
    ensures exists i | 0 <= i <= |a.events| :: Assembled(After(d, a.(events := a.events[..i])))
  {
    SafeInitial(d, a.job);
    var i := SentRun(Initial(d, a.job), a.events);
    assert Assembled(After(d, a.(events := a.events[..i])));
  }

  /** The same over whole histories: every attempt starts from a disk on which it is safe, so
      what is saved, however many cut attempts came before, is what its own sender hashed. */
  lemma {:induction false} HistoryIsSafe(d: Disk, history: seq<Attempt>, last: Attempt)
    requires FreshOk(d)
    ensures FreshOk(Replay(d, history))
    ensures var c := After(Replay(d, history), last).c;
            c.r.pc == Saved ==> Placed(c, last.job)
    decreases |history|
  {
    if history == [] {
      SavedIsWhatWasHashed(d, last);
    } else {
      SafeInitial(d, history[0].job);
      SafeRun(Initial(d, history[0].job), history[0].events);
      HistoryIsSafe(After(d, history[0]).c.disk, history[1..], last);
    }
  }
}
