/** What a sender's success is worth: when the file is in place, or left to be resumed, once
    sendSingleFile has returned without an error. */
module Delivery {
  import opened Protocol
  import opened Storage
  import opened Machine
  import opened Safety
  import opened Flow
  import opened Resume
  import Paths

  /** Besides the connection, the rename and the copy may fail. */
  predicate Fault(y: System, e: Event) { NetworkFault(y, e) || y.c.r.pc == Place }

  predicate OnlyTheseFail(y: System, es: seq<Event>)
    decreases |es|
  {
    es == [] || (Fault(y, es[0]) && OnlyTheseFail(Next(y, es[0]), es[1..]))
  }

  /** The rename fails, and the copy does not get to the end of the file. */
  predicate FallsShort(y: System, e: Event) {
    && e.who == ReceiverSide && y.c.r.pc == Place && e.io.Fails?
    && (e.io.part == 1 || (e.io.part > 1 && e.io.part - 2 < |y.s.job.summed|))
  }

  predicate FellShort(y: System, es: seq<Event>)
    decreases |es|
  {
    es != [] && (FallsShort(y, es[0]) || FellShort(Next(y, es[0]), es[1..]))
  }

  /** The destination file has the bytes the sender hashed. */
  predicate InPlace(d: Disk, job: Job) {
    SavePath(d, job.name) in d.dest && d.dest[SavePath(d, job.name)] == job.summed
  }

  /** The receiver's checksum is on its way to the sender, or has arrived. */
  predicate Promised(y: System) { y.s.pc == Sent || !Quiet(y.c.sent, FileChecksum) }

  /** Nothing has been tried with the destination file. */
  predicate BeforePlace(pc: ReceiverPc) { pc !in {Finish, Saved, Abort} && !pc.Exit? }

  ghost predicate Fate(y: System, d: Disk, short: bool) {
    && !Paths.IsArchive(y.s.job.name) && !InPlace(d, y.s.job)
    && SameWorld(y.c.disk, d)
    && (BeforePlace(y.c.r.pc) ==> Synced(y) && y.c.disk.dest == d.dest && !short)
    && (Promised(y) && !short ==> y.c.r.pc in {Forget, Place} || InPlace(y.c.disk, y.s.job))
    && (short ==>
          && (y.c.r.pc == Abort || y.c.r.pc == Exit(false))
          && !InPlace(y.c.disk, y.s.job)
          && (Resumable(y.s.job) ==> LoadState(y.c.disk, y.s.job.fileId) == None))
  }

  lemma FateInitial(d: Disk, job: Job)
    requires KeysOk(d) && !Paths.IsArchive(job.name) && !InPlace(d, job)
    ensures Fate(Initial(d, job), d, false)
  {
  }

  lemma SenderPromises(y: System, io: Io, n: nat)
    ensures Promised(SenderStep(y, io, n)) ==> Promised(y)
  {
    var y' := SenderStep(y, io, n);
    if y'.c.sent != y.c.sent {
      assert y'.c.sent == y.c.sent[1..];
    }
  }

  lemma FateSender(y: System, io: Io, n: nat, d: Disk, short: bool)
    requires Fate(y, d, short)
    ensures Fate(SenderStep(y, io, n), d, short)
  {
    SenderPromises(y, io, n);
    SyncedIfBefore(y, io, n);
    assert SenderStep(y, io, n).c.r == y.c.r && SenderStep(y, io, n).c.disk == y.c.disk;
    assert SenderStep(y, io, n).s.job == y.s.job;
  }

  lemma SyncedIfBefore(y: System, io: Io, n: nat)
    ensures Synced(y) ==> Synced(SenderStep(y, io, n))
  {
    if Synced(y) {
      SyncedSender(y, io, n);
    }
  }

  /** Only one step of the receiver sends a checksum. */
  lemma ReceiverPromises(c: Config, closed: bool, io: Io)
    ensures var c' := ReceiverStep(c, closed, io);
            Quiet(c.sent, FileChecksum) && !Quiet(c'.sent, FileChecksum) ==> c.r.pc == SumAck && c'.r.pc == Forget
  {
    match c.r.pc
    case Write => assert ReceiverStep(c, closed, io) == WriteStep(c, io);
    case Truncate => assert ReceiverStep(c, closed, io) == TruncateStep(c, io);
    case Place => assert ReceiverStep(c, closed, io) == PlaceStep(c, io);
    case _ =>
  }

  lemma WorldStays(c: Config, closed: bool, io: Io)
    ensures SameWorld(ReceiverStep(c, closed, io).disk, c.disk)
  {
    match c.r.pc
    case Write => assert ReceiverStep(c, closed, io) == WriteStep(c, io);
    case Truncate => assert ReceiverStep(c, closed, io) == TruncateStep(c, io);
    case Place => PlaceShape(c, io);
    case _ =>
  }

  /** A step before the last one, given what it leaves alone. */
  lemma FateQuiet(y: System, y': System, d: Disk)
    requires Fate(y, d, false) && BeforePlace(y.c.r.pc) && y.c.r.pc != Place && y'.s == y.s && Synced(y')
    requires y'.c.disk.dest == y.c.disk.dest && SameWorld(y'.c.disk, y.c.disk)
    requires Quiet(y.c.sent, FileChecksum) && !Quiet(y'.c.sent, FileChecksum) ==> y'.c.r.pc == Forget
    requires y.c.r.pc == Forget ==> y'.c.r.pc == Place
    ensures Fate(y', d, false)
  {
  }

  lemma FateBefore(y: System, io: Io, d: Disk)
    requires Safe(y) && Fate(y, d, false) && BeforePlace(y.c.r.pc) && y.c.r.pc != Place
    requires NetworkFault(y, Event(ReceiverSide, io, 0))
    ensures Fate(Moved(y, io), d, false)
  {
    var e := Event(ReceiverSide, io, 0);
    SyncedStep(y, e);
    DestStays(y, e);
    ReceiverPromises(y.c, SenderGone(y.s), io);
    WorldStays(y.c, SenderGone(y.s), io);
    FateQuiet(y, Moved(y, io), d);
  }

  /** The copy leaves the whole file, or falls short. */
  lemma CopyIs(dest: map<string, Bytes>, path: string, data: Bytes, part: nat)
    requires !(path in dest && dest[path] == data)
    ensures var after := PartialCopy(dest, path, data, part);
            (path in after && after[path] == data) <==> part > 1 && part - 2 >= |data|
  {
    if part > 1 && part - 2 < |data| {
      assert |CleanPrefix(data, part - 2)| < |data|;
    }
  }

  lemma FatePlace(y: System, io: Io, d: Disk)
    requires Safe(y) && Fate(y, d, false) && y.c.r.pc == Place
    ensures Fate(Moved(y, io), d, FallsShort(y, Event(ReceiverSide, io, 0)))
  {
    var c' := PlaceStep(y.c, io);
    assert Moved(y, io).c == c' && y.c.r.start.name == y.s.job.name;
    assert y.c.disk.temps[y.c.r.temp] == y.s.job.summed;
    if io.Fails? {
      CopyIs(d.dest, SavePath(d, y.s.job.name), y.s.job.summed, io.part);
    }
    if Resumable(y.s.job) {
      assert LoadState(c'.disk, y.s.job.fileId) == None;
    }
  }

  /** From then on the destination, the state files and what has been sent stay as they are. */
  lemma AfterStays(y: System, io: Io)
    requires Safe(y) && !BeforePlace(y.c.r.pc)
    ensures var c, c' := y.c, Moved(y, io).c;
            && !BeforePlace(c'.r.pc) && c'.sent == c.sent
            && c'.disk == c.disk.(temps := c'.disk.temps)
            && (c.r.pc == Abort || c.r.pc == Exit(false) ==> c'.r.pc == Exit(false))
  {
  }

  lemma FateAfter(y: System, io: Io, d: Disk, short: bool)
    requires Safe(y) && Fate(y, d, short) && !BeforePlace(y.c.r.pc)
    ensures Fate(Moved(y, io), d, short)
  {
    AfterStays(y, io);
  }

  lemma FateStep(y: System, e: Event, d: Disk, short: bool)
    requires Safe(y) && Fate(y, d, short) && Fault(y, e)
    ensures Safe(Next(y, e)) && Fate(Next(y, e), d, short || FallsShort(y, e))
  {
    SafeStep(y, e);
    if e.who == SenderSide {
      FateSender(y, e.io, e.n, d, short);
    } else {
      assert Next(y, e) == Moved(y, e.io);
      if !BeforePlace(y.c.r.pc) {
        FateAfter(y, e.io, d, short);
      } else if y.c.r.pc == Place {
        FatePlace(y, e.io, d);
      } else {
        FateBefore(y, e.io, d);
      }
    }
  }

  lemma {:induction false} FateRun(y: System, es: seq<Event>, d: Disk, short: bool)
    requires Safe(y) && Fate(y, d, short) && OnlyTheseFail(y, es)
    ensures Fate(Exec(y, es), d, short || FellShort(y, es))
    decreases |es|
  {
    if es != [] {
      var next := Next(y, es[0]);
      FateStep(y, es[0], d, short);
      FateRun(next, es[1..], d, short || FallsShort(y, es[0]));
    }
  }

  lemma FateShows(y: System, d: Disk, short: bool)
    requires Fate(y, d, short) && y.s.pc == Sent
    ensures (InPlace(y.c.disk, y.s.job) || Live(y.c.disk, y.s.job)) <==>
            !short && y.c.r.pc != Place && (y.c.r.pc == Forget ==> Resumable(y.s.job))
  {
    if y.c.r.pc == Forget && Resumable(y.s.job) {
      SyncedIndex(y);
    }
  }

  /** Exactly what the sender's success is worth at the moment when the receiver is killed, if nothing but
      the connection, the rename and the copy fails: the file is in place, or all of it can be resumed,
      unless the state file has been deleted and the file not yet renamed, or the rename has failed
      and the copy has fallen short. Without --resume it is lost before the deletion, too. */
  lemma SuccessIsKept(d: Disk, a: Attempt)
    requires FreshOk(d) && KeysOk(d) && !Paths.IsArchive(a.job.name) && !InPlace(d, a.job)
    requires OnlyTheseFail(Initial(d, a.job), a.events) && After(d, a).s.pc == Sent
    ensures var c := After(d, a).c;
            (InPlace(c.disk, a.job) || Live(c.disk, a.job)) <==>
            && !FellShort(Initial(d, a.job), a.events)
            && c.r.pc != Place
            && (c.r.pc == Forget ==> Resumable(a.job))
  {
    var y := Initial(d, a.job);
    SafeInitial(d, a.job);
    FateInitial(d, a.job);
    FateRun(y, a.events, d, false);
    JobStays(y, a.events);
    FateShows(After(d, a), d, FellShort(y, a.events));
  }
}
