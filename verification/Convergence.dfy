/** What uninterrupted attempts achieve: progress, termination, and convergence after any crash
    history. */
module Convergence {
  import opened Protocol
  import opened Storage
  import opened Machine
  import opened Safety
  import opened DiskInvariant
  import opened Flow

  lemma FlowsSender(y: System, e: Event, d: Disk)
    requires Safe(y) && Flows(y, d) && e.io.Works? && e.who == SenderSide
    ensures Flows(Next(y, e), d)
  {
    match y.s.pc
    case Begin => SenderBegin(y, e.n, d);
    case AwaitAck => SenderAwaitAck(y, e.n, d);
    case Reading => SenderReading(y, e.n, d);
    case Summing => SenderSumming(y, e.n, d);
    case AwaitSum => SenderAwaitSum(y, e.n, d);
    case _ =>
  }

  lemma FlowsReceiver(y: System, d: Disk)
    requires Safe(y) && Flows(y, d)
    ensures Flows(Received(y), d)
  {
    match y.c.r.pc
    case Idle => FlowsIdle(y, d);
    case Load => FlowsLoad(y, d);
    case Open => FlowsOpen(y, d);
    case Truncate => FlowsTruncate(y, d);
    case Rehash => FlowsRehash(y, d);
    case Create => FlowsCreate(y, d);
    case SaveNew => FlowsSaveNew(y, d);
    case Ack => FlowsAck(y, d);
    case Loop => FlowsLoop(y, d);
    case Write => FlowsWrite(y, d);
    case Save => FlowsSave(y, d);
    case Closing => FlowsClosing(y, d);
    case SumAck => FlowsSumAck(y, d);
    case Forget => FlowsForget(y, d);
    case Place => FlowsPlace(y, d);
    case Finish => FlowsFinish(y, d);
    case Saved => FlowsSaved(y, d);
    case Abort => FlowsAbort(y, d);
    case Exit(_) =>
  }

  lemma FlowsStep(y: System, e: Event, d: Disk)
    requires Safe(y) && Flows(y, d) && e.io.Works?
    ensures Safe(Next(y, e)) && Flows(Next(y, e), d)
  {
    SafeStep(y, e);
    if e.who == SenderSide {
      FlowsSender(y, e, d);
    } else {
      assert Next(y, e) == Received(y);
      FlowsReceiver(y, d);
    }
  }

  lemma {:induction false} FlowsRun(y: System, es: seq<Event>, d: Disk)
    requires Safe(y) && Flows(y, d) && AllWork(es)
    ensures Safe(Exec(y, es)) && Flows(Exec(y, es), d)
    ensures Exec(y, es).s.job == y.s.job
    decreases |es|
  {
    if es != [] {
      var next := Next(y, es[0]);
      FlowsStep(y, es[0], d);
      assert Safe(next) && Flows(next, d);
      FlowsRun(next, es[1..], d);
    }
    JobStays(y, es);
  }

  lemma UninterruptedFlows(d: Disk, a: Attempt)
    requires FreshOk(d) && AllWork(a.events)
    ensures Safe(After(d, a)) && Flows(After(d, a), d) && After(d, a).s.job == a.job
  {
    FlowsInitial(d, a.job);
    FlowsRun(Initial(d, a.job), a.events, d);
  }

  /** In an uninterrupted attempt no message is ever refused: none is of an unexpected type, out of order or for another
      file, and the sender gets the reply that fits the receiver's disk. */
  lemma NothingIsUnexpected(d: Disk, a: Attempt)
    requires FreshOk(d) && AllWork(a.events)
    ensures var y := After(d, a);
            && (y.c.r.pc == Idle && y.c.inbox != [] ==> y.c.inbox[0] == Announce(a.job))
            && (y.c.r.pc == Loop && y.c.inbox != [] ==>
                  var m := y.c.inbox[0];
                  && m.fileId == a.job.fileId == y.c.r.start.fileId
                  && ((m.kind == FileChunk && m.index == y.c.r.nextIndex) || m.kind == FileComplete))
            && (y.c.r.pc == Closing && y.c.inbox != [] ==> y.c.inbox[0] == ChecksumMsg(a.job.fileId, Sum(a.job.summed)))
            && (y.s.pc == AwaitAck && y.c.sent != [] ==> y.c.sent == [Reply(d, a.job)])
            && (y.s.pc == AwaitSum && y.c.sent != [] ==> y.c.sent == [ChecksumMsg(a.job.fileId, Sum(a.job.summed))])
  {
    UninterruptedFlows(d, a);
    var y := After(d, a);
    if y.c.r.pc == Idle && y.c.inbox != [] {
      IdleHead(y, d);
    } else if y.c.r.pc == Loop {
      LoopHead(y, d);
    } else if y.c.r.pc == Closing {
      ClosingIsComplete(y, d);
    }
  }

  predicate Done(y: System) { SenderGone(y.s) && ReceiverGone(y.c) }

  /** Not blocked in ReceiveMessage: a message has come, or the peer has closed the connection. */
  predicate CanMove(y: System, side: Side) {
    match side
    case SenderSide => !SenderGone(y.s) && (y.s.pc in {AwaitAck, AwaitSum} ==> y.c.sent != [] || ReceiverGone(y.c))
    case ReceiverSide =>
      !ReceiverGone(y.c) && (y.c.r.pc in {Idle, Saved, Loop, Closing} ==> y.c.inbox != [] || SenderGone(y.s))
  }

  /** The two sides never both wait on empty channels. */
  lemma NeverStuck(y: System, d: Disk)
    requires Safe(y) && Flows(y, d) && !Done(y)
    ensures CanMove(y, SenderSide) || CanMove(y, ReceiverSide)
  {
    if y.c.r.pc == Loop {
      LoopHead(y, d);
    } else if y.c.r.pc == Closing {
      ClosingIsComplete(y, d);
    }
  }

  function SenderWork(s: Sender): nat {
    match s.pc
    case Begin => 20 + 10 * |s.job.src|
    case AwaitAck => 14 + 10 * |s.job.src|
    case Reading => 12 + 10 * |From(s.job.src, s.pos)|
    case Summing => 6
    case AwaitSum => 1
    case _ => 0
  }

  function ReceiverWork(pc: ReceiverPc): nat {
    match pc
    case Idle => 30 case Load => 29 case Open => 28 case Truncate => 27 case Rehash => 26
    case Create => 25 case SaveNew => 24 case Ack => 23 case Write => 18 case Save => 17 case Loop => 16
    case Closing => 15 case SumAck => 14 case Forget => 10 case Place => 9 case Finish => 8
    case Saved => 7 case Abort => 6 case Exit(_) => 0
  }

  /** An upper bound on the number of steps left. */
  function Work(y: System): nat {
    SenderWork(y.s) + 4 * |y.c.inbox| + 2 * |y.c.sent| + ReceiverWork(y.c.r.pc)
  }

  lemma SenderWorks(y: System, n: nat)
    requires CanMove(y, SenderSide)
    ensures Work(SenderStep(y, Works, n)) < Work(y)
  {
  }

  lemma OpeningWorks(y: System)
    requires Opening(y.c.r.pc)
    ensures Work(Received(y)) < Work(y)
  {
  }

  lemma ReceivingWorks(y: System)
    requires CanMove(y, ReceiverSide) && y.c.r.pc in {Ack, Loop, Write, Save, Closing}
    ensures Work(Received(y)) < Work(y)
  {
  }

  lemma PlacingWorks(y: System)
    requires y.c.r.pc == Place
    ensures Work(y.(c := PlaceStep(y.c, Works))) < Work(y)
  {
    PlaceShape(y.c, Works);
  }

  lemma EndingWorks(y: System)
    requires y.c.r.pc in {SumAck, Forget, Finish, Abort}
    ensures Work(Received(y)) < Work(y)
  {
  }

  lemma BetweenFilesWorks(y: System, d: Disk)
    requires Flows(y, d) && CanMove(y, ReceiverSide) && y.c.r.pc in {Idle, Saved}
    ensures Work(Received(y)) < Work(y)
  {
    if y.c.r.pc == Idle {
      assert y.c.inbox != [];
      IdleHead(y, d);
    } else {
      assert y.c.inbox == [];
    }
  }

  /** Every step that is possible brings the end nearer. */
  lemma StepWorks(y: System, e: Event, d: Disk)
    requires Flows(y, d) && e.io.Works? && CanMove(y, e.who)
    ensures Work(Next(y, e)) < Work(y)
  {
    if e.who == SenderSide {
      SenderWorks(y, e.n);
    } else if y.c.r.pc in {Idle, Saved} {
      BetweenFilesWorks(y, d);
    } else if Opening(y.c.r.pc) {
      OpeningWorks(y);
    } else if y.c.r.pc in {Ack, Loop, Write, Save, Closing} {
      ReceivingWorks(y);
    } else if y.c.r.pc == Place {
      PlacingWorks(y);
    } else {
      EndingWorks(y);
    }
  }

  /** From every state of an uninterrupted attempt the attempt can be completed, and however it is
      scheduled it takes at most Work(y) steps: the measure above strictly decreases. */
  lemma {:induction false} CanFinish(y: System, d: Disk) returns (es: seq<Event>)
    requires Safe(y) && Flows(y, d)
    ensures AllWork(es) && FullReads(es) && |es| <= Work(y) && Done(Exec(y, es))
    decreases Work(y)
  {
    if Done(y) {
      es := [];
    } else {
      NeverStuck(y, d);
      var who := if CanMove(y, SenderSide) then SenderSide else ReceiverSide;
      var e := Event(who, Works, FILE_CHUNK_SIZE);
      StepWorks(y, e, d);
      FlowsStep(y, e, d);
      var rest := CanFinish(Next(y, e), d);
      es := [e] + rest;
    }
  }

  /** Every event moves the side it names. */
  predicate Busy(y: System, es: seq<Event>)
    decreases |es|
  {
    es == [] || (CanMove(y, es[0].who) && Busy(Next(y, es[0]), es[1..]))
  }

  lemma {:induction false} BusyIsShort(y: System, es: seq<Event>, d: Disk)
    requires Safe(y) && Flows(y, d) && AllWork(es) && Busy(y, es)
    ensures |es| + Work(Exec(y, es)) <= Work(y)
    decreases |es|
  {
    if es != [] {
      StepWorks(y, es[0], d);
      FlowsStep(y, es[0], d);
      BusyIsShort(Next(y, es[0]), es[1..], d);
    }
  }

  /** Progress of an uninterrupted attempt, for all combinations of the two --resume flags, regular
      and archive names, on any disk: it is never stuck, it lasts a bounded number of steps and
      it can always be completed. */
  lemma Progress(d: Disk, a: Attempt)
    requires FreshOk(d) && AllWork(a.events)
    ensures var y := After(d, a);
            && (Done(y) || CanMove(y, SenderSide) || CanMove(y, ReceiverSide))
            && (Busy(Initial(d, a.job), a.events) ==> |a.events| <= 50 + 10 * |a.job.src|)
            && exists es :: AllWork(es) && Done(Exec(y, es))
  {
    UninterruptedFlows(d, a);
    var y := After(d, a);
    if !Done(y) {
      NeverStuck(y, d);
    }
    if Busy(Initial(d, a.job), a.events) {
      FlowsInitial(d, a.job);
      BusyIsShort(Initial(d, a.job), a.events, d);
    }
    var es := CanFinish(y, d);
  }

  /** The whole file is in place and nothing of the attempt is left over. */
  ghost predicate Delivered(y: System, job: Job) {
    && y.s.pc == Sent
    && y.c.r.pc == Exit(true)
    && Placed(y.c, job)
    && y.c.r.temp !in y.c.disk.temps
    && (Resumable(job) ==> job.fileId !in y.c.disk.states)
  }

  /** Both sides report an error; the temporary file is gone. */
  predicate Rejected(y: System) {
    && y.s.pc == Failed
    && y.c.r.pc == Exit(false)
    && y.c.r.temp !in y.c.disk.temps
  }

  /** The sender has its success, and the receiver an error: the archive has arrived as it was sent,
      and cannot be extracted. */
  predicate Unextracted(y: System, d: Disk, job: Job) {
    && !Unpacks(d, job)
    && y.s.pc == Sent
    && y.c.r.pc == Exit(false)
    && y.c.r.temp !in y.c.disk.temps
  }

  lemma DoneIsDecided(y: System, d: Disk)
    requires Flows(y, d) && Done(y)
    ensures if Target(d, y.s.job) != y.s.job.summed then Rejected(y)
            else if Unpacks(d, y.s.job) then Delivered(y, y.s.job)
            else Unextracted(y, d, y.s.job)
  {
  }

  /** An uninterrupted attempt, on any disk, delivers exactly when what the receiver kept, followed by
      what the sender skips to, is what the sender hashed, and, if it is an archive, all its entries
      are accepted and complete. */
  lemma Outcome(d: Disk, a: Attempt)
    requires FreshOk(d) && AllWork(a.events) && Done(After(d, a))
    ensures Target(d, a.job) != a.job.summed ==> Rejected(After(d, a))
    ensures Target(d, a.job) == a.job.summed && Unpacks(d, a.job) ==> Delivered(After(d, a), a.job)
    ensures Target(d, a.job) == a.job.summed && !Unpacks(d, a.job) ==> Unextracted(After(d, a), d, a.job)
  {
    UninterruptedFlows(d, a);
    DoneIsDecided(After(d, a), d);
  }

  /** After a rejected attempt the same file is not resumed: its state file names a
      temporary file that is no longer there. */
  lemma RejectedIsNotLive(d: Disk, a: Attempt, next: Job)
    requires FreshOk(d) && AllWork(a.events) && Done(After(d, a))
    requires Target(d, a.job) != a.job.summed && a.job.src == a.job.summed
    requires next.offers ==> next.fileId == a.job.fileId
    ensures !Live(After(d, a).c.disk, next)
  {
    UninterruptedFlows(d, a);
    DoneIsDecided(After(d, a), d);
    NotLiveTargetsSource(d, a.job);
  }

  lemma NotLiveTargetsSource(d: Disk, job: Job)
    ensures !Live(d, job) ==> Target(d, job) == job.src
  {
  }

  /** Convergence. Whatever is on the disk (no state, a torn state, a live, missing, padded
      or foreign temporary file), one uninterrupted attempt delivers the file or the next one does,
      unless it is an archive that cannot be extracted. */
  lemma TwoAttemptsSuffice(d: Disk, first: Attempt, second: Attempt)
    requires FreshOk(d)
    requires AllWork(first.events) && Done(After(d, first)) && first.job.src == first.job.summed
    requires var e := After(d, first).c.disk;
             AllWork(second.events) && Done(After(e, second)) && second.job.src == second.job.summed
    requires second.job.offers ==> second.job.fileId == first.job.fileId
    ensures || Delivered(After(d, first), first.job)
            || Delivered(After(After(d, first).c.disk, second), second.job)
            || Unextracted(After(d, first), d, first.job)
            || Unextracted(After(After(d, first).c.disk, second), After(d, first).c.disk, second.job)
  {
    Outcome(d, first);
    if Target(d, first.job) != first.job.summed {
      var e := After(d, first).c.disk;
      RejectedIsNotLive(d, first, second.job);
      NotLiveTargetsSource(e, second.job);
      UninterruptedFlows(d, first);
      Outcome(e, second);
    }
  }
}
