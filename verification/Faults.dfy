/** Exactly what makes the receiver return an error. */
module Faults {
  import opened Protocol
  import opened Storage
  import opened Machine
  import opened Safety
  import Paths

  /** An operation fails that the receiver cannot do without. Loading, opening, truncating, rehashing,
      saving, deleting and the deferred removal are not among them, and a failing rename is one only
      if the copy fails too. */
  predicate Breaks(r: Receiver, io: Io) {
    && io.Fails?
    && (|| r.pc in {Create, Loop, Write, Closing, SumAck}
        || (r.pc == Ack && r.start.resume)
        || (r.pc == Place && (Paths.IsArchive(r.start.name) || io.part != 0)))
  }

  /** The next message is not one that the receiver can take. */
  predicate Refuses(r: Receiver, m: Message) {
    match r.pc
    case Idle => m.kind != FileStart
    case Saved => m.kind != FileStart
    case Loop =>
      && (m.kind == FileChunk ==> m.fileId != r.start.fileId || m.index != r.nextIndex)
      && (m.kind == FileComplete ==> m.fileId != r.start.fileId)
    case Closing => m.kind != FileChecksum || m.checksum != Sum(r.hashed)
    case _ => false
  }

  /** This step of the receiver ends the transfer with an error. */
  predicate Dooms(y: System, e: Event) {
    var c := y.c;
    && e.who == ReceiverSide
    && (|| Breaks(c.r, e.io)
        || (e.io.Works? && c.inbox != [] && Refuses(c.r, c.inbox[0]))
        || (c.inbox == [] && SenderGone(y.s) && c.r.pc in {Loop, Closing})
        || (c.r.pc == Place && Paths.IsArchive(c.r.start.name) && !Extractable(c.disk, c.r.hashed)))
  }

  predicate Failing(pc: ReceiverPc) { pc == Abort || pc == Exit(false) }

  lemma OpeningFails(c: Config, closed: bool, io: Io)
    requires c.r.pc in {Load, Open, Truncate, Rehash, Create, SaveNew, Ack}
    ensures Failing(ReceiverStep(c, closed, io).r.pc) <==> Breaks(c.r, io)
  {
  }

  lemma ReadingFails(y: System, io: Io)
    requires y.c.r.pc in {Idle, Saved, Loop, Closing}
    ensures Failing(ReceiverStep(y.c, SenderGone(y.s), io).r.pc) <==> Dooms(y, Event(ReceiverSide, io, 0))
  {
  }

  lemma WritingFails(y: System, io: Io)
    requires Safe(y) && y.c.r.pc in {Write, Save, SumAck, Forget}
    ensures Failing(ReceiverStep(y.c, SenderGone(y.s), io).r.pc) <==> Breaks(y.c.r, io)
  {
  }

  lemma PlacingFails(y: System, io: Io)
    requires Safe(y) && y.c.r.pc == Place
    ensures Failing(PlaceStep(y.c, io).r.pc) <==> Dooms(y, Event(ReceiverSide, io, 0))
  {
  }

  lemma ReceiverDoom(y: System, io: Io)
    requires Safe(y) && !Failing(y.c.r.pc)
    ensures Failing(ReceiverStep(y.c, SenderGone(y.s), io).r.pc) <==> Dooms(y, Event(ReceiverSide, io, 0))
  {
    var pc := y.c.r.pc;
    if pc in {Idle, Saved, Loop, Closing} {
      ReadingFails(y, io);
    } else if pc in {Write, Save, SumAck, Forget} {
      WritingFails(y, io);
    } else if pc == Place {
      PlacingFails(y, io);
    } else if pc in {Load, Open, Truncate, Rehash, Create, SaveNew, Ack} {
      OpeningFails(y.c, SenderGone(y.s), io);
    }
  }

  lemma DoomIsExact(y: System, e: Event)
    requires Safe(y) && !Failing(y.c.r.pc)
    ensures Failing(Next(y, e).c.r.pc) <==> Dooms(y, e)
  {
    if e.who == ReceiverSide {
      ReceiverDoom(y, e.io);
      assert Dooms(y, e) <==> Dooms(y, Event(ReceiverSide, e.io, 0));
    }
  }

  lemma FailingStays(y: System, e: Event)
    requires Failing(y.c.r.pc)
    ensures Failing(Next(y, e).c.r.pc)
  {
  }

  predicate Doomed(y: System, es: seq<Event>)
    decreases |es|
  {
    es != [] && (Dooms(y, es[0]) || Doomed(Next(y, es[0]), es[1..]))
  }

  lemma {:induction false} FailingRun(y: System, es: seq<Event>)
    requires Failing(y.c.r.pc)
    ensures Failing(Exec(y, es).c.r.pc)
    decreases |es|
  {
    if es != [] {
      FailingStays(y, es[0]);
      FailingRun(Next(y, es[0]), es[1..]);
    }
  }

  lemma {:induction false} DoomedRun(y: System, es: seq<Event>)
    requires Safe(y) && !Failing(y.c.r.pc)
    ensures Failing(Exec(y, es).c.r.pc) <==> Doomed(y, es)
    decreases |es|
  {
    if es != [] {
      var next := Next(y, es[0]);
      DoomIsExact(y, es[0]);
      if Dooms(y, es[0]) {
        FailingRun(next, es[1..]);
      } else {
        SafeStep(y, es[0]);
        DoomedRun(next, es[1..]);
      }
    }
  }

  /** In any run on any disk, cut anywhere, with any failing operations: the receiver is on its way to an
      error if and only if an indispensable operation has failed, a message was not the one expected,
      the sender had gone in the middle, or an archive could not be extracted. */
  lemma FailsExactly(d: Disk, a: Attempt)
    requires FreshOk(d)
    ensures Failing(After(d, a).c.r.pc) <==> Doomed(Initial(d, a.job), a.events)
  {
    SafeInitial(d, a.job);
    DoomedRun(Initial(d, a.job), a.events);
  }

  /** This step of the sender makes it fail: an operation, the lack of an answer, or a wrong one. */
  predicate DoomsSender(y: System, e: Event) {
    && e.who == SenderSide && !SenderGone(y.s)
    && (|| e.io.Fails?
        || (y.s.pc in {AwaitAck, AwaitSum} && y.c.sent == [] && ReceiverGone(y.c))
        || (y.s.pc == AwaitSum && y.c.sent != []
            && (y.c.sent[0].kind != FileChecksum || y.c.sent[0].checksum != Sum(y.s.job.summed))))
  }

  predicate SenderDoomed(y: System, es: seq<Event>)
    decreases |es|
  {
    es != [] && (DoomsSender(y, es[0]) || SenderDoomed(Next(y, es[0]), es[1..]))
  }

  lemma {:induction false} SenderDoomIsExact(y: System, e: Event)
    requires y.s.pc != Failed
    ensures Next(y, e).s.pc == Failed <==> DoomsSender(y, e)
  {
  }

  lemma {:induction false} FailedStays(y: System, es: seq<Event>)
    requires y.s.pc == Failed
    ensures Exec(y, es).s.pc == Failed
    decreases |es|
  {
    if es != [] {
      FailedStays(Next(y, es[0]), es[1..]);
    }
  }

  /** In any run, with any receiver: the sender fails if and only if one of its own operations has failed, the
      receiver has gone without the answer it waits for, or the checksum that came back was not its own. */
  lemma {:induction false} SenderFailsExactly(y: System, es: seq<Event>)
    requires y.s.pc != Failed
    ensures Exec(y, es).s.pc == Failed <==> SenderDoomed(y, es)
    decreases |es|
  {
    if es != [] {
      SenderDoomIsExact(y, es[0]);
      if DoomsSender(y, es[0]) {
        FailedStays(Next(y, es[0]), es[1..]);
      } else {
        SenderFailsExactly(Next(y, es[0]), es[1..]);
      }
    }
  }
}
