/** Attempts that nothing interrupts: every operation works, reads may be as short as
    they like, and the two sides may interleave in any way. */
module Flow {
  import opened Protocol
  import opened Storage
  import opened Machine
  import opened Safety
  import Paths

  predicate AllWork(es: seq<Event>) { forall e <- es :: e.io.Works? }

  predicate Resumable(job: Job) { job.offers && job.accepts && !Paths.IsArchive(job.name) }

  /** The receiver will pick up an earlier attempt: there is a readable state file, and its temporary file. */
  predicate Live(d: Disk, job: Job) {
    && Resumable(job)
    && LoadState(d, job.fileId).Some?
    && var rec := LoadState(d, job.fileId).value;
       rec.temp in d.temps && rec.ByteOffset() >= 0
  }

  /** The chunk index an attempt starts from. */
  function StartIndex(d: Disk, job: Job): int {
    if Live(d, job) then LoadState(d, job.fileId).value.nextIndex else 0
  }

  /** What the receiver has before the first chunk arrives. */
  function Kept(d: Disk, job: Job): Bytes {
    if Live(d, job) then
      var rec := LoadState(d, job.fileId).value;
      Resize(d.temps[rec.temp], rec.ByteOffset())
    else []
  }

  function From(src: Bytes, pos: nat): Bytes { if pos <= |src| then src[pos..] else [] }

  function Skipped(d: Disk, job: Job): nat {
    if StartIndex(d, job) > 0 then StartIndex(d, job) * FILE_CHUNK_SIZE else 0
  }

  /** What the receiver will have assembled at the end. */
  function Target(d: Disk, job: Job): Bytes { Kept(d, job) + From(job.src, Skipped(d, job)) }

  /** Where in the sender's script a side is. */
  datatype Phase = Announcing | Data(next: int) | Checking | Over

  function Advance(p: Phase, m: Message, k0: int, job: Job): Option<Phase> {
    match p
    case Announcing => if m == Announce(job) then Some(Data(k0)) else None
    case Data(k) =>
      if m.kind == FileChunk && m.fileId == job.fileId && m.index == k then Some(Data(k + 1))
      else if m == CompleteMsg(job.fileId) then Some(Checking)
      else None
    case Checking => if m == ChecksumMsg(job.fileId, Sum(job.summed)) then Some(Over) else None
    case Over => None
  }

  function Track(q: seq<Message>, p: Phase, k0: int, job: Job): Option<Phase>
    decreases |q|
  {
    if q == [] then Some(p)
    else
      var next := Advance(p, q[0], k0, job);
      if next.None? then None else Track(q[1..], next.value, k0, job)
  }

  lemma {:induction false} TrackAppend(q: seq<Message>, m: Message, p: Phase, k0: int, job: Job)
    requires Track(q, p, k0, job).Some?
    ensures Track(q + [m], p, k0, job) == Advance(Track(q, p, k0, job).value, m, k0, job)
    decreases |q|
  {
    if q == [] {
      assert (q + [m])[1..] == [];
    } else {
      assert (q + [m])[1..] == q[1..] + [m];
      TrackAppend(q[1..], m, Advance(p, q[0], k0, job).value, k0, job);
    }
  }

  function Payload(q: seq<Message>): Bytes
    decreases |q|
  {
    if q == [] then [] else (if q[0].kind == FileChunk then q[0].chunk else []) + Payload(q[1..])
  }

  lemma {:induction false} PayloadAppend(q: seq<Message>, m: Message)
    ensures Payload(q + [m]) == Payload(q) + (if m.kind == FileChunk then m.chunk else [])
    decreases |q|
  {
    if q == [] {
      assert (q + [m])[1..] == [];
    } else {
      assert (q + [m])[1..] == q[1..] + [m];
      PayloadAppend(q[1..], m);
    }
  }

  function ReceiverPhase(r: Receiver, k0: int): Phase {
    match r.pc
    case Idle => Announcing
    case Loop => Data(r.nextIndex)
    case Write => Data(r.nextIndex + 1)
    case Save => Data(r.nextIndex)
    case Closing => Checking
    case _ => if Opening(r.pc) || r.pc == Ack then Data(k0) else Over
  }

  function SenderPhase(s: Sender, k0: int): Phase {
    match s.pc
    case Begin => Announcing
    case AwaitAck => Data(k0)
    case Reading => Data(s.index)
    case Summing => Checking
    case _ => Over
  }

  /** What has reached the temporary file or is in the receiver's hands. */
  function InHand(r: Receiver, kept: Bytes): Bytes {
    match r.pc
    case Write => r.hashed + r.chunk
    case _ => if Holding(r.pc) then r.hashed else kept
  }

  /** What the sender has still to read. */
  function Unread(s: Sender, skipped: nat): Bytes {
    match s.pc
    case Begin => From(s.job.src, skipped)
    case AwaitAck => From(s.job.src, skipped)
    case Reading => From(s.job.src, s.pos)
    case _ => []
  }

  function Reply(d: Disk, job: Job): Message {
    if StartIndex(d, job) > 0 then ResumeMsg(job.fileId, Skipped(d, job)) else READY
  }

  predicate BeforeAck(pc: ReceiverPc) { pc == Idle || Opening(pc) || pc == Ack }

  /** The receiver has sent its checksum. It may still fail to extract an archive. */
  predicate Acknowledged(pc: ReceiverPc, d: Disk, job: Job) {
    || pc in {Forget, Place, Finish, Saved} || pc == Exit(true)
    || (pc in {Abort, Exit(false)} && Target(d, job) == job.summed)
  }

  /** An archive that can be extracted, or no archive. */
  predicate Unpacks(d: Disk, job: Job) { Paths.IsArchive(job.name) ==> Extractable(d, job.summed) }

  /** The messages on their way to the sender. */
  predicate Replies(y: System, d: Disk) {
    var job := y.s.job;
    var pc := y.c.r.pc;
    match y.s.pc
    case Begin => pc == Idle && y.c.inbox == [] && y.c.sent == []
    case AwaitAck =>
      && job.offers
      && y.c.inbox == (if pc == Idle then [Announce(job)] else [])
      && (if BeforeAck(pc) then y.c.sent == []
          else
            && pc == Loop && y.c.sent == [Reply(d, job)]
            && y.c.r.nextIndex == StartIndex(d, job)
            && y.c.r.hashed == Kept(d, job))
    case AwaitSum =>
      && (job.offers ==> !BeforeAck(pc))
      && y.c.sent == (if Acknowledged(pc, d, job) then [ChecksumMsg(job.fileId, Sum(job.summed))] else [])
    case Sent => Acknowledged(pc, d, job) && y.c.sent == []
    case Failed => pc == Exit(false) && y.c.sent == [] && Target(d, job) != job.summed
    case _ => (job.offers ==> !BeforeAck(pc)) && y.c.sent == []
  }

  /** How far the receiver is in opening the temporary file, and what it has done to the disk. */
  predicate Opened(c: Config, d: Disk, job: Job) {
    var r := c.r;
    match r.pc
    case Idle => c.disk == d
    case Load => c.disk == d
    case Open => c.disk == d && Resumable(job) && r.state == LoadState(d, job.fileId) && r.state.Some?
    case Truncate =>
      && Resumable(job) && LoadState(d, job.fileId).Some?
      && r.state == LoadState(d, job.fileId) && r.temp == r.state.value.temp && r.temp in d.temps
      && c.disk == d
    case Rehash =>
      && Live(d, job) && r.state == LoadState(d, job.fileId) && r.temp == r.state.value.temp
      && c.disk == SetTemp(d, r.temp, Kept(d, job))
    case Create => c.disk == d && !Live(d, job)
    case SaveNew => !Live(d, job) && Resumable(job) && r.hashed == [] && r.nextIndex == 0
                    && r.state == Some(ResumeState(job.fileId, job.name, job.size, 0, r.temp))
    case Ack => r.hashed == Kept(d, job) && r.nextIndex == StartIndex(d, job)
    case _ => true
  }

  predicate InTransfer(pc: ReceiverPc) { pc in {Ack, Loop, Write, Save, Closing, SumAck, Forget, Abort} }

  /** The state file of a resumable transfer mentions its temporary file. */
  predicate StateMentions(d: Disk, id: string, t: nat) {
    id in d.states && d.states[id].Readable? && d.states[id].rec.temp == t
  }

  ghost predicate Ended(c: Config, d: Disk, job: Job) {
    && SameWorld(c.disk, d)
    && (InTransfer(c.r.pc) || c.r.pc == Exit(false) ==>
          (Resumable(job) <==> c.r.state.Some?)
          && (Resumable(job) ==> StateMentions(c.disk, job.fileId, c.r.temp) && c.r.state.value.temp == c.r.temp))
    && (c.r.pc in {Place, Finish, Saved} || c.r.pc == Exit(true) ==> Resumable(job) ==> job.fileId !in c.disk.states)
    && (Verified(c.r.pc) || c.r.pc == Exit(true) ==> Target(d, job) == job.summed)
    && (c.r.pc == Place && Paths.IsArchive(job.name) ==> c.r.state == None)
    && (c.r.pc in {Abort, Exit(false)} ==> Target(d, job) != job.summed || !Unpacks(d, job))
    && (c.r.pc in {Finish, Saved, Exit(true)} ==> Placed(c, job) && Unpacks(d, job))
    && (c.r.pc.Exit? || c.r.pc == Saved ==> c.r.temp !in c.disk.temps)
  }

  /** The messages on their way to the receiver take it from its place in the script to the sender's. */
  predicate Stream(y: System, d: Disk) {
    var job := y.s.job;
    var k0 := StartIndex(d, job);
    && Track(y.c.inbox, ReceiverPhase(y.c.r, k0), k0, job) == Some(SenderPhase(y.s, k0))
    && (BeforeAck(y.c.r.pc) || Holding(y.c.r.pc) ==>
          InHand(y.c.r, Kept(d, job)) + Payload(y.c.inbox) + Unread(y.s, Skipped(d, job)) == Target(d, job))
  }

  ghost predicate Flows(y: System, d: Disk) {
    var job := y.s.job;
    var c := y.c;
    && c.r.accepts == job.accepts
    && Stream(y, d)
    && (y.s.pc == Begin ==> y.s.pos == y.s.index == 0)
    && Replies(y, d)
    && Opened(c, d, job)
    && Ended(c, d, job)
  }

  lemma FlowsInitial(d: Disk, job: Job)
    requires FreshOk(d)
    ensures Safe(Initial(d, job)) && Flows(Initial(d, job), d)
  {
    SafeInitial(d, job);
  }

  function Received(y: System): System { y.(c := ReceiverStep(y.c, SenderGone(y.s), Works)) }

  function Carried(m: Message): Bytes { if m.kind == FileChunk then m.chunk else [] }

  lemma AppendTracks(y: System, m: Message, next: Phase, d: Disk)
    requires Stream(y, d)
    requires Advance(SenderPhase(y.s, StartIndex(d, y.s.job)), m, StartIndex(d, y.s.job), y.s.job) == Some(next)
    ensures var k0 := StartIndex(d, y.s.job);
            Track(y.c.inbox + [m], ReceiverPhase(y.c.r, k0), k0, y.s.job) == Some(next)
  {
    var k0 := StartIndex(d, y.s.job);
    TrackAppend(y.c.inbox, m, ReceiverPhase(y.c.r, k0), k0, y.s.job);
  }

  /** Bytes that move from the sender to the channel. */
  lemma MovesOver(hand: Bytes, payload: Bytes, carried: Bytes, unread: Bytes)
    ensures hand + (payload + carried) + unread == hand + payload + (carried + unread)
  {
  }

  lemma AppendConserves(hand: Bytes, q: seq<Message>, m: Message, unread: Bytes)
    ensures hand + Payload(q + [m]) + unread == hand + Payload(q) + (Carried(m) + unread)
  {
    PayloadAppend(q, m);
    MovesOver(hand, Payload(q), Carried(m), unread);
  }

  lemma StreamAppend(y: System, y': System, m: Message, d: Disk)
    requires Stream(y, d)
    requires y'.s.job == y.s.job && y'.c == y.c.(inbox := y.c.inbox + [m])
    requires Advance(SenderPhase(y.s, StartIndex(d, y.s.job)), m, StartIndex(d, y.s.job), y.s.job)
             == Some(SenderPhase(y'.s, StartIndex(d, y.s.job)))
    requires Unread(y.s, Skipped(d, y.s.job)) == Carried(m) + Unread(y'.s, Skipped(d, y.s.job))
    ensures Stream(y', d)
  {
    AppendTracks(y, m, SenderPhase(y'.s, StartIndex(d, y.s.job)), d);
    AppendConserves(InHand(y.c.r, Kept(d, y.s.job)), y.c.inbox, m, Unread(y'.s, Skipped(d, y.s.job)));
  }

  lemma SenderBegin(y: System, n: nat, d: Disk)
    requires Safe(y) && Flows(y, d) && y.s.pc == Begin
    ensures Flows(SenderStep(y, Works, n), d)
  {
    var job := y.s.job;
    StreamAppend(y, SenderStep(y, Works, n), Announce(job), d);
  }

  lemma OffsetIsIndex(k: int)
    requires k >= 0
    ensures k * FILE_CHUNK_SIZE >= 0 && k * FILE_CHUNK_SIZE / FILE_CHUNK_SIZE == k
  {
  }

  /** The reply carries the offset the receiver has kept, and the sender takes both numbers from it. */
  lemma SenderTakesAck(y: System, n: nat, d: Disk)
    requires y.s.pc == AwaitAck && y.c.sent == [Reply(d, y.s.job)]
    ensures var y' := SenderStep(y, Works, n);
            && y'.s == y.s.(pc := Reading, pos := Skipped(d, y.s.job), index := StartIndex(d, y.s.job))
            && y'.c == y.c.(sent := [])
  {
    assert StartIndex(d, y.s.job) >= 0;
    OffsetIsIndex(StartIndex(d, y.s.job));
  }

  lemma SenderAwaitAck(y: System, n: nat, d: Disk)
    requires Safe(y) && Flows(y, d) && y.s.pc == AwaitAck
    ensures Flows(SenderStep(y, Works, n), d)
  {
    if !BeforeAck(y.c.r.pc) {
      SenderTakesAck(y, n, d);
      assert Stream(SenderStep(y, Works, n), d);
    }
  }

  lemma ReadSplits(src: Bytes, pos: nat, n: nat)
    requires pos < |src|
    ensures From(src, pos) == NextRead(src, pos, n) + From(src, pos + |NextRead(src, pos, n)|)
  {
  }

  /** Whatever only adds to the receiver's inbox leaves the rest of the receiver's side alone. */
  lemma InboxIsApart(y: System, y': System, d: Disk)
    requires Flows(y, d) && Stream(y', d)
    requires y.s.pc == Reading && y'.s.pc in {Reading, Summing}
    requires y'.s.job == y.s.job && y'.c == y.c.(inbox := y'.c.inbox)
    ensures Flows(y', d)
  {
  }

  lemma ReadAppends(y: System, n: nat, d: Disk)
    requires Stream(y, d) && y.s.pc == Reading && y.s.pos < |y.s.job.src|
    ensures Stream(SenderStep(y, Works, n), d)
  {
    var job := y.s.job;
    var data := NextRead(job.src, y.s.pos, n);
    ReadSplits(job.src, y.s.pos, n);
    StreamAppend(y, SenderStep(y, Works, n), ChunkMsg(job.fileId, y.s.index, data), d);
  }

  lemma SenderReadsOn(y: System, n: nat, d: Disk)
    requires Flows(y, d) && y.s.pc == Reading && y.s.pos < |y.s.job.src|
    ensures Flows(SenderStep(y, Works, n), d)
  {
    ReadAppends(y, n, d);
    InboxIsApart(y, SenderStep(y, Works, n), d);
  }

  lemma SenderReadsEnd(y: System, n: nat, d: Disk)
    requires Flows(y, d) && y.s.pc == Reading && y.s.pos >= |y.s.job.src|
    ensures Flows(SenderStep(y, Works, n), d)
  {
    var y' := SenderStep(y, Works, n);
    StreamAppend(y, y', CompleteMsg(y.s.job.fileId), d);
    InboxIsApart(y, y', d);
  }

  lemma SenderReading(y: System, n: nat, d: Disk)
    requires Flows(y, d) && y.s.pc == Reading
    ensures Flows(SenderStep(y, Works, n), d)
  {
    if y.s.pos < |y.s.job.src| {
      SenderReadsOn(y, n, d);
    } else {
      SenderReadsEnd(y, n, d);
    }
  }

  lemma SenderSumming(y: System, n: nat, d: Disk)
    requires Safe(y) && Flows(y, d) && y.s.pc == Summing
    ensures Flows(SenderStep(y, Works, n), d)
  {
    var y' := SenderStep(y, Works, n);
    StreamAppend(y, y', ChecksumMsg(y.s.job.fileId, Sum(y.s.job.summed)), d);
    SummingReplies(y, y', d);
    assert y'.c.r == y.c.r && y'.c.disk == y.c.disk;
  }

  lemma SummingReplies(y: System, y': System, d: Disk)
    requires Replies(y, d) && Ended(y.c, d, y.s.job) && Stream(y, d) && y.s.pc == Summing
    requires y'.s == Step(y.s, AwaitSum) && y'.c == y.c.(inbox := y'.c.inbox)
    ensures Replies(y', d)
  {
  }

  lemma SenderAwaitSum(y: System, n: nat, d: Disk)
    requires Safe(y) && Flows(y, d) && y.s.pc == AwaitSum
    ensures Flows(SenderStep(y, Works, n), d)
  {
  }

  lemma StreamPop(y: System, y': System, d: Disk)
    requires Stream(y, d) && y.c.inbox != []
    requires y'.s == y.s && y'.c.inbox == y.c.inbox[1..]
    requires BeforeAck(y.c.r.pc) || Holding(y.c.r.pc)
    requires Advance(ReceiverPhase(y.c.r, StartIndex(d, y.s.job)), y.c.inbox[0], StartIndex(d, y.s.job), y.s.job)
             == Some(ReceiverPhase(y'.c.r, StartIndex(d, y.s.job)))
    requires InHand(y'.c.r, Kept(d, y.s.job)) == InHand(y.c.r, Kept(d, y.s.job)) + Carried(y.c.inbox[0])
    ensures Stream(y', d)
  {
    var k0 := StartIndex(d, y.s.job);
    var kept := Kept(d, y.s.job);
    var q := y.c.inbox;
    var unread := Unread(y.s, Skipped(d, y.s.job));
    assert Track(q[1..], ReceiverPhase(y'.c.r, k0), k0, y.s.job) == Some(SenderPhase(y.s, k0));
    assert Payload(q) == Carried(q[0]) + Payload(q[1..]);
    Regroup(InHand(y.c.r, kept), Carried(q[0]), Payload(q[1..]), unread);
  }

  lemma Regroup(a: Bytes, b: Bytes, c: Bytes, d: Bytes)
    ensures a + (b + c) + d == a + b + c + d
  {
  }

  lemma IdleHead(y: System, d: Disk)
    requires Stream(y, d) && y.c.r.pc == Idle && y.c.inbox != []
    ensures y.c.inbox[0] == Announce(y.s.job)
  {
  }

  lemma FlowsIdle(y: System, d: Disk)
    requires Safe(y) && Flows(y, d) && y.c.r.pc == Idle
    ensures Flows(Received(y), d)
  {
    if y.c.inbox != [] {
      IdleHead(y, d);
      StreamPop(y, Received(y), d);
    } else {
      assert Received(y) == y;
    }
  }

  lemma FlowsLoad(y: System, d: Disk)
    requires Safe(y) && Flows(y, d) && y.c.r.pc == Load
    ensures Flows(Received(y), d)
  {
  }

  lemma FlowsOpen(y: System, d: Disk)
    requires Safe(y) && Flows(y, d) && y.c.r.pc == Open
    ensures Flows(Received(y), d)
  {
  }

  lemma FlowsTruncate(y: System, d: Disk)
    requires Safe(y) && Flows(y, d) && y.c.r.pc == Truncate
    ensures Flows(Received(y), d)
  {
  }

  lemma FlowsRehash(y: System, d: Disk)
    requires Safe(y) && Flows(y, d) && y.c.r.pc == Rehash
    ensures Flows(Received(y), d)
  {
    assert Received(y).c == RehashStep(y.c, Works);
  }

  /** Before the answer to file_start the channels are left alone. */
  lemma OpeningStream(y: System, y': System, d: Disk)
    requires Stream(y, d) && Opening(y.c.r.pc) && (Opening(y'.c.r.pc) || y'.c.r.pc == Ack)
    requires y'.s == y.s && y'.c.inbox == y.c.inbox
    requires InHand(y'.c.r, Kept(d, y.s.job)) == InHand(y.c.r, Kept(d, y.s.job))
    ensures Stream(y', d)
  {
  }

  lemma OpeningReplies(y: System, y': System, d: Disk)
    requires Replies(y, d) && Opening(y.c.r.pc) && (Opening(y'.c.r.pc) || y'.c.r.pc == Ack)
    requires y'.s == y.s && y'.c.inbox == y.c.inbox && y'.c.sent == y.c.sent
    ensures Replies(y', d)
  {
  }

  lemma CreateState(y: System, d: Disk)
    requires Safe(y) && Opened(y.c, d, y.s.job) && Ended(y.c, d, y.s.job) && y.c.r.pc == Create
    requires y.c.r.accepts == y.s.job.accepts
    ensures var c' := Received(y).c;
            && Opened(c', d, y.s.job) && Ended(c', d, y.s.job)
            && c'.r.pc in {SaveNew, Ack} && c'.r.hashed == Kept(d, y.s.job) == [] && c'.r.accepts == y.s.job.accepts
            && c'.inbox == y.c.inbox && c'.sent == y.c.sent
  {
    assert Received(y).c == CreateStep(y.c, Works);
  }

  lemma FlowsCreate(y: System, d: Disk)
    requires Safe(y) && Flows(y, d) && y.c.r.pc == Create
    ensures Flows(Received(y), d)
  {
    CreateState(y, d);
    OpeningStream(y, Received(y), d);
    OpeningReplies(y, Received(y), d);
  }

  lemma FlowsSaveNew(y: System, d: Disk)
    requires Safe(y) && Flows(y, d) && y.c.r.pc == SaveNew
    ensures Flows(Received(y), d)
  {
  }

  lemma FlowsNoAck(y: System, d: Disk)
    requires Safe(y) && Flows(y, d) && y.c.r.pc == Ack && !y.s.job.offers
    ensures Flows(Received(y), d)
  {
  }

  lemma FlowsAck(y: System, d: Disk)
    requires Safe(y) && Flows(y, d) && y.c.r.pc == Ack
    ensures Flows(Received(y), d)
  {
    if !y.s.job.offers {
      FlowsNoAck(y, d);
    } else {
      assert y.s.pc == AwaitAck && y.c.sent == [];
      assert Received(y).c.sent == [Reply(d, y.s.job)];
    }
  }

  /** In the receiving loop no message is out of order, and the sender does not leave first. */
  lemma LoopHead(y: System, d: Disk)
    requires Stream(y, d) && y.c.r.pc == Loop
    ensures y.c.inbox == [] ==> !SenderGone(y.s)
    ensures y.c.inbox != [] ==>
              var m := y.c.inbox[0];
              && m.fileId == y.s.job.fileId
              && ((m.kind == FileChunk && m.index == y.c.r.nextIndex) || m == CompleteMsg(y.s.job.fileId))
  {
  }

  lemma FlowsLoop(y: System, d: Disk)
    requires Safe(y) && Flows(y, d) && y.c.r.pc == Loop
    ensures Flows(Received(y), d)
  {
    LoopHead(y, d);
    if y.c.inbox != [] {
      StreamPop(y, Received(y), d);
      MidStep(y, Received(y), d);
    } else {
      assert Received(y) == y;
    }
  }

  /** Steps between two messages of the receiving loop. */
  lemma MidStep(y: System, y': System, d: Disk)
    requires Flows(y, d) && y.c.r.pc in {Loop, Write} && y'.c.r.pc in {Loop, Write, Save, Closing}
    requires y.c.inbox != [] || y.c.r.pc == Write
    requires y'.s == y.s && y'.c.sent == y.c.sent && y'.c.disk.states == y.c.disk.states
    requires y'.c.r.state == y.c.r.state && y'.c.r.temp == y.c.r.temp && y'.c.r.accepts == y.c.r.accepts
    requires SameWorld(y'.c.disk, y.c.disk)
    requires Stream(y', d)
    ensures Flows(y', d)
  {
    MidReplies(y, y', d);
    assert Ended(y'.c, d, y.s.job);
  }

  lemma MidReplies(y: System, y': System, d: Disk)
    requires Replies(y, d) && y.c.r.pc in {Loop, Write} && y'.c.r.pc in {Loop, Write, Save, Closing}
    requires y.c.inbox != [] || y.c.r.pc == Write
    requires y'.s == y.s && y'.c.sent == y.c.sent && Stream(y, d)
    ensures Replies(y', d)
  {
  }

  lemma FlowsWrite(y: System, d: Disk)
    requires Safe(y) && Flows(y, d) && y.c.r.pc == Write
    ensures Flows(Received(y), d)
  {
    var y' := Received(y);
    var r := y.c.r;
    assert y'.c.r == r.(pc := Save, pos := r.pos + |r.chunk|, hashed := r.hashed + r.chunk,
                        nextIndex := r.nextIndex + 1);
    assert y'.c.disk.states == y.c.disk.states && y'.c.inbox == y.c.inbox && y'.c.sent == y.c.sent;
    assert Stream(y', d);
    MidStep(y, y', d);
  }

  /** Recording the index changes nothing but the state file. */
  predicate Recorded(y: System, y': System) {
    && y.c.r.pc == Save && y'.s == y.s && y'.c.inbox == y.c.inbox && y'.c.sent == y.c.sent
    && y'.c.r == y.c.r.(pc := Loop, state := y'.c.r.state)
  }

  lemma RecordedStream(y: System, y': System, d: Disk)
    requires Stream(y, d) && Recorded(y, y')
    ensures Stream(y', d)
  {
  }

  lemma RecordedReplies(y: System, y': System, d: Disk)
    requires Replies(y, d) && Recorded(y, y')
    ensures Replies(y', d)
  {
  }

  lemma RecordedState(y: System, d: Disk)
    requires Safe(y) && Ended(y.c, d, y.s.job) && y.c.r.pc == Save
    ensures Recorded(y, Received(y)) && Ended(Received(y).c, d, y.s.job)
  {
    assert Received(y).c == SaveStep(y.c, Works);
  }

  lemma FlowsSave(y: System, d: Disk)
    requires Safe(y) && Flows(y, d) && y.c.r.pc == Save
    ensures Flows(Received(y), d)
  {
    RecordedState(y, d);
    RecordedStream(y, Received(y), d);
    RecordedReplies(y, Received(y), d);
  }

  /** When only the checksum is missing, the receiver has everything. */
  lemma ClosingIsComplete(y: System, d: Disk)
    requires Flows(y, d) && y.c.r.pc == Closing
    ensures y.c.inbox == [] ==> y.s.pc == Summing
    ensures y.c.inbox != [] ==>
              && y.c.inbox == [ChecksumMsg(y.s.job.fileId, Sum(y.s.job.summed))]
              && y.s.pc == AwaitSum
              && y.c.r.hashed == Target(d, y.s.job)
  {
    if y.c.inbox != [] {
      var k0 := StartIndex(d, y.s.job);
      assert Track(y.c.inbox[1..], Over, k0, y.s.job) == Some(SenderPhase(y.s, k0));
      assert y.c.inbox[1..] == [];
      assert Payload(y.c.inbox[1..]) == [];
      assert y.c.inbox == [y.c.inbox[0]];
    }
  }

  lemma FlowsClosing(y: System, d: Disk)
    requires Safe(y) && Flows(y, d) && y.c.r.pc == Closing
    ensures Flows(Received(y), d)
  {
    ClosingIsComplete(y, d);
    if y.c.inbox != [] && Target(d, y.s.job) == y.s.job.summed {
      StreamPop(y, Received(y), d);
    }
  }

  lemma SumAckStream(y: System, y': System, d: Disk)
    requires Stream(y, d) && y.c.r.pc == SumAck && y'.s == y.s && y'.c.inbox == y.c.inbox
    requires y'.c.r == y.c.r.(pc := Forget)
    ensures Stream(y', d)
  {
  }

  lemma FlowsSumAck(y: System, d: Disk)
    requires Safe(y) && Flows(y, d) && y.c.r.pc == SumAck
    ensures Flows(Received(y), d)
  {
    assert Received(y).c == Goto(Send(y.c, ChecksumMsg(y.c.r.start.fileId, Sum(y.c.r.hashed))), Forget);
    SumAckStream(y, Received(y), d);
  }

  lemma FlowsForget(y: System, d: Disk)
    requires Safe(y) && Flows(y, d) && y.c.r.pc == Forget
    ensures Flows(Received(y), d)
  {
    LateStep(y, Received(y), d);
  }

  /** Steps after the checksum has been acknowledged neither read nor send. */
  lemma LateStream(y: System, y': System, d: Disk)
    requires Stream(y, d) && y.c.r.pc in {Forget, Place, Finish}
    requires y'.s == y.s && y'.c.inbox == y.c.inbox && y'.c.r == y.c.r.(pc := y'.c.r.pc)
    requires y'.c.r.pc in {Place, Finish, Saved} && (y'.c.r.pc == Place ==> y.c.r.pc == Forget)
    ensures Stream(y', d)
  {
  }

  lemma LateReplies(y: System, y': System, d: Disk)
    requires Replies(y, d) && y.c.r.pc in {Forget, Place, Finish}
    requires y'.s == y.s && y'.c.inbox == y.c.inbox && y'.c.sent == y.c.sent && y'.c.r.pc in {Place, Finish, Saved}
    ensures Replies(y', d) && Opened(y'.c, d, y.s.job)
  {
  }

  lemma LateStep(y: System, y': System, d: Disk)
    requires Stream(y, d) && Replies(y, d) && y.c.r.pc in {Forget, Place, Finish}
    requires y'.s == y.s && y'.c.inbox == y.c.inbox && y'.c.sent == y.c.sent && y'.c.r == y.c.r.(pc := y'.c.r.pc)
    requires y'.c.r.pc in {Place, Finish, Saved} && (y'.c.r.pc == Place ==> y.c.r.pc == Forget)
    ensures Stream(y', d) && Replies(y', d) && Opened(y'.c, d, y.s.job)
  {
    LateStream(y, y', d);
    LateReplies(y, y', d);
  }

  /** An archive that cannot be extracted: an error, after the acknowledgement. */
  lemma PlaceFails(y: System, d: Disk)
    requires Safe(y) && Flows(y, d) && y.c.r.pc == Place && !Unpacks(d, y.s.job)
    ensures Flows(Received(y), d)
  {
    var y' := Received(y);
    assert y.c.r.start.name == y.s.job.name && y.c.disk.temps[y.c.r.temp] == y.s.job.summed;
    assert y'.c.r == y.c.r.(pc := Abort) && y'.c.sent == y.c.sent && y'.c.inbox == y.c.inbox;
    assert Stream(y', d);
  }

  lemma FlowsPlace(y: System, d: Disk)
    requires Safe(y) && Flows(y, d) && y.c.r.pc == Place
    ensures Flows(Received(y), d)
  {
    var y' := Received(y);
    var job := y.s.job;
    if Unpacks(d, job) {
      assert y.c.r.start.name == job.name && y.c.disk.temps[y.c.r.temp] == job.summed;
      assert y'.c == PlaceStep(y.c, Works) && y'.c.r == y.c.r.(pc := Finish);
      if Paths.IsArchive(job.name) {
        ExtractUnpacks(y.c.disk, job.summed);
      }
      assert Placed(y'.c, job);
      LateStep(y, y', d);
    } else {
      PlaceFails(y, d);
    }
  }

  lemma FlowsFinish(y: System, d: Disk)
    requires Safe(y) && Flows(y, d) && y.c.r.pc == Finish
    ensures Flows(Received(y), d)
  {
    LateStep(y, Received(y), d);
  }

  /** After the transfer nothing more comes. */
  lemma SavedIsLast(y: System, d: Disk)
    requires Stream(y, d) && y.c.r.pc == Saved
    ensures y.c.inbox == []
  {
  }

  lemma LeavesStream(y: System, y': System, d: Disk)
    requires Stream(y, d) && y.c.r.pc == Saved && y'.s == y.s && y'.c.inbox == y.c.inbox
    requires y'.c.r == y.c.r.(pc := Exit(true))
    ensures Stream(y', d)
  {
  }

  lemma LeavesReplies(y: System, y': System, d: Disk)
    requires Replies(y, d) && y.c.r.pc == Saved && y'.s == y.s && y'.c.inbox == y.c.inbox && y'.c.sent == y.c.sent
    requires y'.c.r == y.c.r.(pc := Exit(true))
    ensures Replies(y', d)
  {
  }

  lemma FlowsSaved(y: System, d: Disk)
    requires Safe(y) && Flows(y, d) && y.c.r.pc == Saved
    ensures Flows(Received(y), d)
  {
    SavedIsLast(y, d);
    if SenderGone(y.s) {
      assert Received(y).c == Goto(y.c, Exit(true));
      LeavesStream(y, Received(y), d);
      LeavesReplies(y, Received(y), d);
    } else {
      assert Received(y) == y;
    }
  }

  lemma AbortStream(y: System, y': System, d: Disk)
    requires Stream(y, d) && y.c.r.pc == Abort && y'.s == y.s && y'.c.inbox == y.c.inbox
    requires y'.c.r == y.c.r.(pc := Exit(false))
    ensures Stream(y', d)
  {
  }

  lemma AbortReplies(y: System, y': System, d: Disk)
    requires Replies(y, d) && y.c.r.pc == Abort && y'.s == y.s && y'.c.inbox == y.c.inbox && y'.c.sent == y.c.sent
    requires y'.c.r == y.c.r.(pc := Exit(false))
    ensures Replies(y', d)
  {
  }

  lemma FlowsAbort(y: System, d: Disk)
    requires Safe(y) && Flows(y, d) && y.c.r.pc == Abort
    ensures Flows(Received(y), d)
  {
    assert Received(y).c == Goto(RemoveTempOf(y.c), Exit(false));
    AbortStream(y, Received(y), d);
    AbortReplies(y, Received(y), d);
  }
}
