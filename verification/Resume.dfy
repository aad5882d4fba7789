/** When an interrupted transfer is really resumed, and when the resumed one succeeds. */
module Resume {
  import opened Protocol
  import opened Storage
  import opened Machine
  import opened Safety
  import opened DiskInvariant
  import opened Flow
  import opened Convergence

  /** Exact criterion: over an unchanged source and any disk a history can leave, an
      uninterrupted resumed attempt delivers if and only if the chunks it claims to have
      end inside the source. One past the end, the truncation pads with zeros. */
  lemma ResumeSucceedsExactly(d: Disk, a: Attempt, cat: Catalog)
    requires DiskOk(d, cat) && Faithful(a.job, cat) && a.job.src == a.job.summed
    requires Live(d, a.job) && AllWork(a.events) && Done(After(d, a))
    ensures Delivered(After(d, a), a.job) <==> StartIndex(d, a.job) * FILE_CHUNK_SIZE <= |a.job.src|
  {
    Outcome(d, a);
    var rec := LoadState(d, a.job.fileId).value;
    assert StateFits(d, a.job.fileId, cat);
    TruncationCovers(d.temps[rec.temp], rec.nextIndex, a.job.src);
    var n := rec.ByteOffset();
    if n <= |a.job.src| {
      assert Kept(d, a.job) == a.job.src[..n];
      assert Target(d, a.job) == a.job.src;
    } else {
      assert |Target(d, a.job)| == n;
    }
  }

  /** A state file is stored under the file ID it contains. */
  predicate KeysOk(d: Disk) {
    forall id <- d.states :: d.states[id].Readable? ==> d.states[id].rec.fileId == id
  }

  /** Only the connection fails: sends, receives, and anything on the sender's side. */
  predicate OnlyNetworkFails(y: System, es: seq<Event>)
    decreases |es|
  {
    es == [] || (
      && NetworkFault(y, es[0])
      && OnlyNetworkFails(Next(y, es[0]), es[1..]))
  }

  predicate Underway(pc: ReceiverPc) { pc in {Ack, Loop, Write, Save, Closing, SumAck, Forget, Abort} }

  /** receiveOneFile has returned: its deferred removal has run. */
  predicate Returned(c: Config) { c.r.start.kind == FileStart && (c.r.pc == Saved || c.r.pc.Exit?) }

  /** State file and receiver agree. */
  predicate Synced(y: System) {
    var c := y.c;
    var r := c.r;
    var id := y.s.job.fileId;
    && KeysOk(c.disk)
    && (r.accepts == y.s.job.accepts)
    && (r.pc == Idle ==> r.start.kind != FileStart)
    && (r.pc in {Open, Truncate, Rehash} ==>
          Resumable(y.s.job) && r.state.Some? && LoadState(c.disk, id) == r.state)
    && (r.pc in {Truncate, Rehash} ==> r.state.value.temp == r.temp && r.temp in c.disk.temps)
    && (r.pc == Rehash ==> r.state.value.ByteOffset() >= 0)
    && (r.pc == SaveNew ==> r.state.Some? && r.state.value.fileId == id && r.state.value.nextIndex == r.nextIndex == 0
                            && r.state.value.temp == r.temp)
    && (Resumable(y.s.job) && Underway(r.pc) ==>
          && r.state.Some? && r.state.value.fileId == id && r.state.value.temp == r.temp
          && r.state.value.nextIndex == (if r.pc == Save then r.nextIndex - 1 else r.nextIndex)
          && r.nextIndex >= (if r.pc == Save then 1 else 0)
          && LoadState(c.disk, id) == r.state
          && r.temp in c.disk.temps)
    && (Resumable(y.s.job) && r.pc in {Place, Finish} ==> id !in c.disk.states)
    && (Resumable(y.s.job) && Returned(c) ==> !Live(c.disk, y.s.job))
  }

  predicate NetworkFault(y: System, e: Event) {
    e.io.Works? || e.who == SenderSide || y.c.r.pc in {Idle, Saved, Ack, Loop, Closing, SumAck}
  }

  function Moved(y: System, io: Io): System { y.(c := ReceiverStep(y.c, SenderGone(y.s), io)) }

  lemma SyncedSender(y: System, io: Io, n: nat)
    requires Synced(y)
    ensures Synced(SenderStep(y, io, n))
  {
  }

  lemma SyncedIdle(y: System, io: Io)
    requires Safe(y) && Synced(y) && y.c.r.pc in {Idle, Saved} && NetworkFault(y, Event(ReceiverSide, io, 0))
    ensures Synced(Moved(y, io))
  {
  }

  lemma SyncedLoad(y: System, io: Io)
    requires Safe(y) && Synced(y) && y.c.r.pc in {Load, Open} && NetworkFault(y, Event(ReceiverSide, io, 0))
    ensures Synced(Moved(y, io))
  {
  }

  lemma SyncedTruncate(y: System, io: Io)
    requires Safe(y) && Synced(y) && y.c.r.pc == Truncate && NetworkFault(y, Event(ReceiverSide, io, 0))
    ensures Synced(Moved(y, io))
  {
  }

  lemma SyncedRehash(y: System, io: Io)
    requires Safe(y) && Synced(y) && y.c.r.pc == Rehash && NetworkFault(y, Event(ReceiverSide, io, 0))
    ensures Synced(Moved(y, io))
  {
  }

  lemma SyncedCreate(y: System, io: Io)
    requires Safe(y) && Synced(y) && y.c.r.pc in {Create, SaveNew} && NetworkFault(y, Event(ReceiverSide, io, 0))
    ensures Synced(Moved(y, io))
  {
  }

  lemma SyncedAck(y: System, io: Io)
    requires Synced(y) && y.c.r.pc in {Ack, SumAck}
    ensures Synced(Moved(y, io))
  {
    SyncedQuiet(y, Moved(y, io).c);
  }

  /** A step that leaves the disk and the transfer's own fields alone. */
  lemma SyncedQuiet(y: System, c': Config)
    requires Synced(y) && Underway(y.c.r.pc) && Underway(c'.r.pc) && Save !in {y.c.r.pc, c'.r.pc}
    requires c'.disk == y.c.disk && c'.r == y.c.r.(pc := c'.r.pc, chunk := c'.r.chunk)
    ensures Synced(y.(c := c'))
  {
  }

  lemma SyncedLoop(y: System, io: Io)
    requires Synced(y) && y.c.r.pc == Loop
    ensures Synced(Moved(y, io))
  {
    SyncedQuiet(y, LoopStep(y.c, SenderGone(y.s), io));
  }

  lemma SyncedClosing(y: System, io: Io)
    requires Synced(y) && y.c.r.pc == Closing
    ensures Synced(Moved(y, io))
  {
    SyncedQuiet(y, ClosingStep(y.c, SenderGone(y.s), io));
  }

  lemma SyncedWrite(y: System, io: Io)
    requires Safe(y) && Synced(y) && y.c.r.pc in {Write, Save} && NetworkFault(y, Event(ReceiverSide, io, 0))
    ensures Synced(Moved(y, io))
  {
  }

  lemma SyncedForget(y: System, io: Io)
    requires Safe(y) && Synced(y) && y.c.r.pc in {Forget} && NetworkFault(y, Event(ReceiverSide, io, 0))
    ensures Synced(Moved(y, io))
  {
  }

  lemma SyncedPlace(y: System, io: Io)
    requires Safe(y) && Synced(y) && y.c.r.pc in {Place} && NetworkFault(y, Event(ReceiverSide, io, 0))
    ensures Synced(Moved(y, io))
  {
  }

  lemma SyncedFinish(y: System, io: Io)
    requires Safe(y) && Synced(y) && y.c.r.pc in {Finish} && NetworkFault(y, Event(ReceiverSide, io, 0))
    ensures Synced(Moved(y, io))
  {
  }

  lemma SyncedAbort(y: System, io: Io)
    requires Safe(y) && Synced(y) && y.c.r.pc in {Abort} && NetworkFault(y, Event(ReceiverSide, io, 0))
    ensures Synced(Moved(y, io))
  {
  }

  lemma SyncedStep(y: System, e: Event)
    requires Safe(y) && Synced(y) && NetworkFault(y, e)
    ensures Safe(Next(y, e)) && Synced(Next(y, e))
  {
    SafeStep(y, e);
    var pc := y.c.r.pc;
    if e.who == SenderSide {
      SyncedSender(y, e.io, e.n);
    } else if pc in {Idle, Saved} {
      SyncedIdle(y, e.io);
    } else if pc in {Load, Open} {
      SyncedLoad(y, e.io);
    } else if pc == Truncate {
      SyncedTruncate(y, e.io);
    } else if pc == Rehash {
      SyncedRehash(y, e.io);
    } else if pc in {Create, SaveNew} {
      SyncedCreate(y, e.io);
    } else if pc in {Ack, SumAck} {
      SyncedAck(y, e.io);
    } else if pc == Loop {
      SyncedLoop(y, e.io);
    } else if pc == Closing {
      SyncedClosing(y, e.io);
    } else if pc in {Write, Save} {
      SyncedWrite(y, e.io);
    } else if pc == Forget {
      SyncedForget(y, e.io);
    } else if pc == Place {
      SyncedPlace(y, e.io);
    } else if pc == Finish {
      SyncedFinish(y, e.io);
    } else if pc == Abort {
      SyncedAbort(y, e.io);
    }
  }

  lemma {:induction false} SyncedRun(y: System, es: seq<Event>)
    requires Safe(y) && Synced(y) && OnlyNetworkFails(y, es)
    ensures Safe(Exec(y, es)) && Synced(Exec(y, es)) && Exec(y, es).s.job == y.s.job
    decreases |es|
  {
    if es != [] {
      SyncedStep(y, es[0]);
      SyncedRun(Next(y, es[0]), es[1..]);
    }
  }

  predicate Reopening(pc: ReceiverPc) { pc in {Load, Open, Truncate, Rehash} }

  /** Nothing has been announced: no step has touched the disk. */
  predicate Unannounced(c: Config) { c.r.start.kind != FileStart }

  /** What the attempt has done so far to the resume state it found on `d`. */
  predicate Inherited(c: Config, d: Disk, job: Job) {
    && (c.r.pc == Idle ==> Unannounced(c))
    && (Unannounced(c) ==> c.r.pc == Idle || c.r.pc.Exit?)
    && (Unannounced(c) || c.r.pc in {Load, Open, Truncate} ==> c.disk == d)
    && (c.r.pc == Rehash ==>
          Live(d, job) && Live(c.disk, job) && StartIndex(c.disk, job) == StartIndex(d, job))
    && (c.r.pc in {Create, SaveNew} ==> !Live(c.disk, job))
  }

  lemma InheritedOpening(y: System, io: Io, d: Disk)
    requires Safe(y) && Synced(y) && Resumable(y.s.job) && Inherited(y.c, d, y.s.job) && Reopening(y.c.r.pc)
    requires NetworkFault(y, Event(ReceiverSide, io, 0))
    ensures Inherited(Moved(y, io).c, d, y.s.job)
  {
  }

  lemma InheritedFresh(y: System, io: Io, d: Disk)
    requires Safe(y) && Synced(y) && Resumable(y.s.job) && Inherited(y.c, d, y.s.job) && y.c.r.pc in {Create, SaveNew}
    requires NetworkFault(y, Event(ReceiverSide, io, 0))
    ensures Inherited(Moved(y, io).c, d, y.s.job)
  {
  }

  lemma InheritedBetween(y: System, io: Io, d: Disk)
    requires Safe(y) && Inherited(y.c, d, y.s.job) && y.c.r.pc in {Idle, Saved}
    ensures Inherited(Moved(y, io).c, d, y.s.job)
  {
  }

  predicate Later(pc: ReceiverPc) { Underway(pc) || pc in {Place, Finish} || pc.Exit? }

  lemma InheritedLater(c: Config, closed: bool, io: Io, d: Disk, job: Job)
    requires Inherited(c, d, job) && Later(c.r.pc)
    ensures Inherited(ReceiverStep(c, closed, io), d, job)
  {
    LaterStays(c, closed, io);
    StartedStays(c, ReceiverStep(c, closed, io), d, job);
  }

  lemma StartedStays(c: Config, c': Config, d: Disk, job: Job)
    requires Inherited(c, d, job) && Later(c.r.pc)
    requires (Later(c'.r.pc) || c'.r.pc == Saved) && c'.r.start == c.r.start && (c.r.pc.Exit? ==> c' == c)
    ensures Inherited(c', d, job)
  {
  }

  lemma LaterStays(c: Config, closed: bool, io: Io)
    requires Later(c.r.pc)
    ensures var c' := ReceiverStep(c, closed, io);
            && (Later(c'.r.pc) || c'.r.pc == Saved) && c'.r.start == c.r.start
            && (c.r.pc.Exit? ==> c' == c)
  {
    match c.r.pc
    case Ack => case Loop => case Save => case Closing => case SumAck => case Forget =>
    case Place => case Finish => case Abort => case Exit(_) =>
    case Write => assert ReceiverStep(c, closed, io) == WriteStep(c, io);
  }

  lemma InheritedStep(y: System, e: Event, d: Disk)
    requires Safe(y) && Synced(y) && Resumable(y.s.job) && Inherited(y.c, d, y.s.job) && NetworkFault(y, e)
    ensures Inherited(Next(y, e).c, d, y.s.job)
  {
    if e.who == ReceiverSide {
      if Reopening(y.c.r.pc) {
        InheritedOpening(y, e.io, d);
      } else if y.c.r.pc in {Create, SaveNew} {
        InheritedFresh(y, e.io, d);
      } else if y.c.r.pc in {Idle, Saved} {
        InheritedBetween(y, e.io, d);
      } else {
        InheritedLater(y.c, SenderGone(y.s), e.io, d, y.s.job);
      }
    }
  }

  lemma {:induction false} InheritedRun(y: System, es: seq<Event>, d: Disk)
    requires Safe(y) && Synced(y) && Resumable(y.s.job) && Inherited(y.c, d, y.s.job) && OnlyNetworkFails(y, es)
    ensures Inherited(Exec(y, es).c, d, y.s.job)
    decreases |es|
  {
    if es != [] {
      var next := Next(y, es[0]);
      SyncedStep(y, es[0]);
      InheritedStep(y, es[0], d);
      assert Safe(next) && Synced(next) && next.s.job == y.s.job;
      InheritedRun(next, es[1..], d);
    }
  }

  /** What a kill at this point leaves can be resumed. */
  predicate Resumes(c: Config, d: Disk, job: Job) {
    Underway(c.r.pc) || ((Unannounced(c) || Reopening(c.r.pc)) && Live(d, job))
  }

  /** Exactly when a killed attempt can be resumed, if nothing but the connection fails: while a
      temporary file is open and deleteResumeState has not run, or as long as what an earlier attempt left
      has not been opened yet. From deleteResumeState on, before the file is in place, nothing is left to
      resume, and nothing is left either once receiveOneFile has returned. */
  lemma ResumableExactly(d: Disk, a: Attempt)
    requires FreshOk(d) && KeysOk(d) && Resumable(a.job)
    requires OnlyNetworkFails(Initial(d, a.job), a.events)
    ensures var c := After(d, a).c;
            && (Live(c.disk, a.job) <==> Resumes(c, d, a.job))
            && (Resumes(c, d, a.job) ==>
                  StartIndex(c.disk, a.job) ==
                  if !Underway(c.r.pc) then StartIndex(d, a.job)
                  else if c.r.pc == Save then c.r.nextIndex - 1
                  else c.r.nextIndex)
  {
    var y := Initial(d, a.job);
    SafeInitial(d, a.job);
    SyncedRun(y, a.events);
    InheritedRun(y, a.events, d);
    ResumableNow(After(d, a), d);
  }

  lemma ResumableNow(y: System, d: Disk)
    requires Safe(y) && Synced(y) && Resumable(y.s.job) && Inherited(y.c, d, y.s.job)
    ensures Live(y.c.disk, y.s.job) <==> Resumes(y.c, d, y.s.job)
    ensures Resumes(y.c, d, y.s.job) ==>
              StartIndex(y.c.disk, y.s.job) ==
              if !Underway(y.c.r.pc) then StartIndex(d, y.s.job)
              else if y.c.r.pc == Save then y.c.r.nextIndex - 1
              else y.c.r.nextIndex
  {
    if Underway(y.c.r.pc) {
      SyncedIndex(y);
    }
  }

  lemma SyncedIndex(y: System)
    requires Synced(y) && Resumable(y.s.job) && Underway(y.c.r.pc)
    ensures Live(y.c.disk, y.s.job)
    ensures StartIndex(y.c.disk, y.s.job) == if y.c.r.pc == Save then y.c.r.nextIndex - 1 else y.c.r.nextIndex
  {
  }

  predicate Starting(pc: ReceiverPc) { BeforeAck(pc) || pc in {Loop, Write, Save} }

  lemma ReachStep(y: System, d: Disk) returns (e: Event)
    requires Safe(y) && Flows(y, d) && Starting(y.c.r.pc)
    ensures e.io.Works? && e.n >= FILE_CHUNK_SIZE
    ensures var next := Next(y, e);
            && Safe(next) && Flows(next, d) && Work(next) < Work(y) && next.c.disk.dest == y.c.disk.dest
            && (Starting(next.c.r.pc) || next.c.r.pc == Closing)
  {
    NeverStuck(y, d);
    e := Event(if CanMove(y, SenderSide) then SenderSide else ReceiverSide, Works, FILE_CHUNK_SIZE);
    StepWorks(y, e, d);
    FlowsStep(y, e, d);
    StartingStep(y, e, d);
    DestStays(y, e);
  }

  /** An uninterrupted attempt comes to the point where only the checksum is missing. */
  lemma {:induction false} ReachClosing(y: System, d: Disk) returns (es: seq<Event>)
    requires Safe(y) && Flows(y, d) && Starting(y.c.r.pc)
    ensures AllWork(es) && FullReads(es) && Exec(y, es).c.r.pc == Closing
    ensures Exec(y, es).c.disk.dest == y.c.disk.dest
    decreases Work(y)
  {
    var e := ReachStep(y, d);
    var next := Next(y, e);
    var rest: seq<Event> := [];
    if next.c.r.pc != Closing {
      rest := ReachClosing(next, d);
    }
    es := [e] + rest;
    assert es[1..] == rest;
  }

  /** Only the last step of a transfer changes the destination. */
  lemma DestStays(y: System, e: Event)
    requires y.c.r.pc != Place
    ensures Next(y, e).c.disk.dest == y.c.disk.dest
  {
    match y.c.r.pc
    case Write => assert ReceiverStep(y.c, SenderGone(y.s), e.io) == WriteStep(y.c, e.io);
    case _ =>
  }

  lemma StartingReads(y: System, d: Disk)
    requires Safe(y) && Flows(y, d) && y.c.r.pc in {Idle, Loop}
    ensures Starting(Received(y).c.r.pc) || Received(y).c.r.pc == Closing
  {
    if y.c.r.pc == Loop {
      LoopHead(y, d);
    } else if y.c.inbox != [] {
      IdleHead(y, d);
    }
  }

  lemma StartingWorks(y: System, d: Disk)
    requires Safe(y) && Starting(y.c.r.pc) && y.c.r.pc !in {Idle, Loop}
    ensures Starting(Received(y).c.r.pc)
  {
  }

  lemma StartingStep(y: System, e: Event, d: Disk)
    requires Safe(y) && Flows(y, d) && Starting(y.c.r.pc) && e.io.Works?
    ensures Starting(Next(y, e).c.r.pc) || Next(y, e).c.r.pc == Closing
  {
    if e.who == ReceiverSide {
      if y.c.r.pc in {Idle, Loop} {
        StartingReads(y, d);
      } else {
        StartingWorks(y, d);
      }
    }
  }

  lemma {:induction false} AllWorkIsNetworkOnly(y: System, es: seq<Event>)
    requires AllWork(es)
    ensures OnlyNetworkFails(y, es)
    decreases |es|
  {
    if es != [] {
      AllWorkIsNetworkOnly(Next(y, es[0]), es[1..]);
    }
  }

  lemma ClosingHasAll(y: System, d: Disk)
    requires Flows(y, d) && y.c.r.pc == Closing
    ensures y.c.r.hashed == Target(d, y.s.job)
  {
    ClosingIsComplete(y, d);
  }

  lemma {:induction false} NetworkOnlyAppend(y: System, es: seq<Event>, more: seq<Event>)
    requires OnlyNetworkFails(y, es) && OnlyNetworkFails(Exec(y, es), more)
    ensures OnlyNetworkFails(y, es + more)
    decreases |es|
  {
    if es == [] {
      assert es + more == more;
    } else {
      NetworkOnlyAppend(Next(y, es[0]), es[1..], more);
      assert (es + more)[1..] == es[1..] + more;
    }
  }

  function Loss(): seq<Event> { [Event(ReceiverSide, Fails(0), 0), Event(ReceiverSide, Works, 0)] }

  lemma LossEnds(y: System)
    requires y.c.r.pc == Closing
    ensures OnlyNetworkFails(y, Loss()) && Exec(y, Loss()).c.r.pc == Exit(false)
    ensures Exec(y, Loss()).c.r.start == y.c.r.start
  {
    var es := Loss();
    assert es[1..] == [es[1]] && es[1..][1..] == [];
    var mid := Next(y, es[0]);
    assert Exec(y, es) == Exec(mid, es[1..]) == Exec(Next(mid, es[1]), []);
    assert OnlyNetworkFails(mid, es[1..]);
  }

  /** A run to the moment when the receiver has every byte and waits for the checksum. */
  lemma AllReceived(d: Disk, job: Job) returns (es: seq<Event>)
    requires FreshOk(d) && KeysOk(d) && Resumable(job)
    ensures OnlyNetworkFails(Initial(d, job), es)
    ensures AllWork(es)
    ensures var y := After(d, Attempt(job, es));
            && Safe(y) && Flows(y, d) && y.s.job == job
            && y.c.r.pc == Closing && y.c.r.hashed == Target(d, job) && y.c.r.start.kind == FileStart
            && y.c.disk.dest == d.dest
  {
    var y := Initial(d, job);
    FlowsInitial(d, job);
    es := ReachClosing(y, d);
    FlowsRun(y, es, d);
    ClosingHasAll(Exec(y, es), d);
    AllWorkIsNetworkOnly(y, es);
  }

  /** --resume does not cover a lost connection. For every resumable transfer there is a run in which the
      receiver has every byte that an uninterrupted attempt gives it, and in which a kill at that
      moment leaves all of it to be resumed, but a connection lost at the same moment leaves nothing:
      the receiver returns an error, removes the temporary file, and the next attempt starts at zero. */
  lemma LostConnectionStartsOver(d: Disk, job: Job) returns (es: seq<Event>)
    requires FreshOk(d) && KeysOk(d) && Resumable(job)
    ensures OnlyNetworkFails(Initial(d, job), es + Loss())
    ensures var killed := After(d, Attempt(job, es)).c;
            && killed.r.hashed == Target(d, job)
            && Live(killed.disk, job)
            && StartIndex(killed.disk, job) == killed.r.nextIndex
    ensures var lost := After(d, Attempt(job, es + Loss())).c;
            && lost.r.pc == Exit(false)
            && StartIndex(lost.disk, job) == 0
  {
    es := AllReceived(d, job);
    var mid := Exec(Initial(d, job), es);
    LossEnds(mid);
    NetworkOnlyAppend(Initial(d, job), es, Loss());
    ExecAppend(Initial(d, job), es, Loss());
    ResumableExactly(d, Attempt(job, es));
    ResumableExactly(d, Attempt(job, es + Loss()));
  }

  const RECEIVER_WORKS := Event(ReceiverSide, Works, 0)

  /** The comparison succeeds. */
  lemma Compares(y: System, d: Disk)
    requires Flows(y, d) && y.c.r.pc == Closing && y.c.inbox != [] && Target(d, y.s.job) == y.s.job.summed
    ensures var z := Next(y, RECEIVER_WORKS);
            && z.s == y.s && z.s.pc == AwaitSum && z.c.sent == []
            && z.c.r == y.c.r.(pc := SumAck) && z.c.disk == y.c.disk && z.c.r.hashed == z.s.job.summed
  {
    ClosingIsComplete(y, d);
  }

  lemma Acknowledges(y: System)
    requires y.c.r.pc == SumAck && y.c.sent == []
    ensures var z := Next(y, RECEIVER_WORKS);
            && z.s == y.s && z.c.sent == [ChecksumMsg(y.c.r.start.fileId, Sum(y.c.r.hashed))]
            && z.c.r == y.c.r.(pc := Forget) && z.c.disk == y.c.disk
  {
  }

  lemma Forgets(y: System)
    requires y.c.r.pc == Forget
    ensures var z := Next(y, RECEIVER_WORKS);
            z.s == y.s && z.c.sent == y.c.sent && z.c.r == y.c.r.(pc := Place) && z.c.disk.dest == y.c.disk.dest
  {
  }

  /** From the last comparison on: the acknowledgement is sent, the state file deleted, and the sender done. */
  lemma EndOfSender(y: System, d: Disk) returns (es: seq<Event>)
    requires Safe(y) && Flows(y, d) && y.c.r.pc == Closing && y.c.inbox != [] && Target(d, y.s.job) == y.s.job.summed
    ensures AllWork(es)
    ensures var z := Exec(y, es);
            && z.s.pc == Sent && z.c.r.pc == Place
            && z.c.r.hashed == y.c.r.hashed && z.c.r.start == y.c.r.start && z.c.disk.dest == y.c.disk.dest
  {
    var last := Event(SenderSide, Works, 0);
    var y1 := Next(y, RECEIVER_WORKS);
    var y2 := Next(y1, RECEIVER_WORKS);
    var y3 := Next(y2, RECEIVER_WORKS);
    Compares(y, d);
    Acknowledges(y1);
    Forgets(y2);
    es := [RECEIVER_WORKS, RECEIVER_WORKS, RECEIVER_WORKS, last];
    FourSteps(y, es);
    SenderConfirms(y3);
  }

  lemma SenderConfirms(y: System)
    requires y.s.pc == AwaitSum && y.c.sent != []
    requires y.c.sent[0].kind == FileChecksum && y.c.sent[0].checksum == Sum(y.s.job.summed)
    ensures var z := Next(y, Event(SenderSide, Works, 0));
            z.s.pc == Sent && z.c.r == y.c.r && z.c.disk == y.c.disk
  {
  }

  lemma FourSteps(y: System, es: seq<Event>)
    requires |es| == 4
    ensures Exec(y, es) == Next(Next(Next(Next(y, es[0]), es[1]), es[2]), es[3])
  {
    var y1, y2, y3 := Next(y, es[0]), Next(Next(y, es[0]), es[1]), Next(Next(Next(y, es[0]), es[1]), es[2]);
    assert es[1..][1..] == es[2..] && es[2..][1..] == es[3..] && es[3..][1..] == [];
    assert Exec(y, es) == Exec(y1, es[1..]) == Exec(y2, es[2..]) == Exec(y3, es[3..]);
    assert Exec(y3, es[3..]) == Exec(Next(y3, es[3]), []);
  }

  /** The same, when the sender's checksum has arrived too. */
  lemma AllSummed(d: Disk, job: Job) returns (es: seq<Event>)
    requires FreshOk(d) && KeysOk(d) && Resumable(job)
    ensures AllWork(es)
    ensures var y := After(d, Attempt(job, es));
            && Safe(y) && Flows(y, d) && y.s.job == job && y.c.inbox != [] && y.c.r.start.kind == FileStart
            && y.c.r.pc == Closing && y.c.r.hashed == Target(d, job) && y.c.disk.dest == d.dest
  {
    var y := Initial(d, job);
    es := AllReceived(d, job);
    var mid := Exec(y, es);
    if mid.c.inbox == [] {
      ClosingIsComplete(mid, d);
      var sum := Event(SenderSide, Works, 0);
      FlowsStep(mid, sum, d);
      OneStep(mid, sum);
      ExecAppend(y, es, [sum]);
      es := es + [sum];
    }
  }

  /** The sender may have its success and the receiver nothing: for every resumable transfer that an
      uninterrupted attempt would deliver, there is a run without any fault in which the sender has
      returned, with both checksums compared, and in which a kill of the receiver at that moment
      leaves neither the file nor anything to resume. */
  lemma SentButForgotten(d: Disk, job: Job) returns (es: seq<Event>)
    requires FreshOk(d) && KeysOk(d) && Resumable(job) && Target(d, job) == job.summed
    ensures AllWork(es)
    ensures var y := After(d, Attempt(job, es));
            && y.s.pc == Sent && y.c.r.pc == Place && y.c.r.hashed == job.summed
            && y.c.disk.dest == d.dest
            && !Live(y.c.disk, job) && StartIndex(y.c.disk, job) == 0
  {
    var y := Initial(d, job);
    var start := AllSummed(d, job);
    var rest := EndOfSender(Exec(y, start), d);
    ExecAppend(y, start, rest);
    es := start + rest;
    AllWorkIsNetworkOnly(y, es);
    assert !Resumes(Exec(y, es).c, d, job);
    ResumableExactly(d, Attempt(job, es));
  }

  lemma PastTheEnd(h: Bytes, k: int, src: Bytes)
    requires Good(h, k, src) && h == src && |src| % FILE_CHUNK_SIZE != 0
    ensures k * FILE_CHUNK_SIZE > |src|
  {
  }

  /** Two attempts can be necessary: for every source with a short last chunk, a kill after its
      last chunk leaves a disk from which the next uninterrupted attempt is rejected. */
  lemma OneAttemptMayFail(d: Disk, job: Job, cat: Catalog) returns (es: seq<Event>)
    requires DiskOk(d, cat) && Faithful(job, cat) && job.src == job.summed
    requires Resumable(job) && !Live(d, job) && |job.src| % FILE_CHUNK_SIZE != 0
    ensures AllWork(es) && FullReads(es)
    ensures var killed := After(d, Attempt(job, es)).c.disk;
            && DiskOk(killed, cat)
            && Live(killed, job)
            && StartIndex(killed, job) * FILE_CHUNK_SIZE > |job.src|
            && forall next | AllWork(next) && Done(After(killed, Attempt(job, next))) ::
                 Rejected(After(killed, Attempt(job, next)))
  {
    assert KeysOk(d) by {
      forall id <- d.states | d.states[id].Readable? ensures d.states[id].rec.fileId == id {
        assert StateFits(d, id, cat);
      }
    }
    var y := Initial(d, job);
    FlowsInitial(d, job);
    es := ReachClosing(y, d);
    FlowsRun(y, es, d);
    var mid := Exec(y, es);
    ClosingHasAll(mid, d);
    NotLiveTargetsSource(d, job);
    TrackedInitial(d, job, cat);
    TrackedRun(y, es, cat);
    AllWorkIsNetworkOnly(y, es);
    SyncedRun(y, es);
    ResumableExactly(d, Attempt(job, es));
    PastTheEnd(mid.c.r.hashed, mid.c.r.nextIndex, job.src);
    forall next | AllWork(next) && Done(After(mid.c.disk, Attempt(job, next)))
      ensures Rejected(After(mid.c.disk, Attempt(job, next)))
    {
      var a := Attempt(job, next);
      ResumeSucceedsExactly(mid.c.disk, a, cat);
      Outcome(mid.c.disk, a);
    }
  }
}
