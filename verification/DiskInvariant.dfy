/** What every crash leaves on the receiver's disk, when the sources do not change
    between attempts and reads of a file are full. */
module DiskInvariant {
  import opened Protocol
  import opened Storage
  import opened Machine
  import opened Safety

  /** The file behind each deterministic file ID. */
  type Catalog = string -> Bytes

  predicate Faithful(job: Job, cat: Catalog) { job.offers ==> job.src == cat(job.fileId) }

  predicate FullReads(es: seq<Event>) { forall e <- es :: e.n >= FILE_CHUNK_SIZE }

  /** k is at most the number of chunks of `src`. */
  predicate InRange(k: int, src: Bytes) { k == 0 || (1 <= k && (k - 1) * FILE_CHUNK_SIZE < |src|) }

  /** The first k chunks of `src`, or all of it, are at the front of `data`. */
  predicate Covers(data: Bytes, k: int, src: Bytes) {
    && InRange(k, src)
    && var m := Min(k * FILE_CHUNK_SIZE, |src|);
       m <= |data| && data[..m] == src[..m]
  }

  /** A state file and its temporary file, if that is still there, fit the source. */
  predicate StateFits(d: Disk, id: string, cat: Catalog)
    requires id in d.states
  {
    d.states[id].Readable? ==>
      var rec := d.states[id].rec;
      && rec.fileId == id
      && InRange(rec.nextIndex, cat(id))
      && (rec.temp in d.temps ==> Covers(d.temps[rec.temp], rec.nextIndex, cat(id)))
  }

  /** Only the transfer `id`, if any, has a state file that mentions this temporary file. */
  predicate Mentions(d: Disk, t: nat, id: Option<string>) {
    forall i <- d.states :: d.states[i].Readable? && d.states[i].rec.temp == t ==> id == Some(i)
  }

  predicate Unshared(d: Disk) {
    forall i <- d.states :: d.states[i].Readable? ==> Mentions(d, d.states[i].rec.temp, Some(i))
  }

  predicate DiskOk(d: Disk, cat: Catalog) {
    && FreshOk(d)
    && Unshared(d)
    && forall id <- d.states :: StateFits(d, id, cat)
  }

  predicate HasTemp(pc: ReceiverPc) { Holding(pc) || pc in {Truncate, Rehash, Finish, Abort} }

  function Owner(r: Receiver): Option<string> {
    if r.state.Some? then Some(r.start.fileId) else None
  }

  /** What the hasher may have absorbed after k chunks: the front of the source,
      or all of it followed by padding. */
  predicate Good(h: Bytes, k: int, src: Bytes) {
    && Covers(h, k, src)
    && (|h| == Min(k * FILE_CHUNK_SIZE, |src|) || |h| == k * FILE_CHUNK_SIZE)
  }

  predicate IsChunk(data: Bytes, k: int, src: Bytes) {
    && 0 <= k
    && k * FILE_CHUNK_SIZE < |src|
    && data == src[k * FILE_CHUNK_SIZE..Min((k + 1) * FILE_CHUNK_SIZE, |src|)]
  }

  predicate ChunksOk(q: seq<Message>, src: Bytes) {
    forall i | 0 <= i < |q| :: q[i].kind == FileChunk ==> IsChunk(q[i].chunk, q[i].index, src)
  }

  predicate OffsetsOk(q: seq<Message>) {
    forall i | 0 <= i < |q| :: q[i].kind == FileResume ==> q[i].offset % FILE_CHUNK_SIZE == 0
  }

  predicate SenderOk(s: Sender) {
    && (s.pc == Begin ==> s.pos == s.index == 0)
    && (s.pc == Reading ==> 0 <= s.index && Min(s.pos, |s.job.src|) == Min(s.index * FILE_CHUNK_SIZE, |s.job.src|))
  }

  predicate ReceiverOk(c: Config, job: Job) {
    var r := c.r;
    && (r.state.Some? ==>
          && r.start.resume
          && r.state.value.fileId == r.start.fileId)
    && (HasTemp(r.pc) ==> Mentions(c.disk, r.temp, Owner(r)))
    && (Holding(r.pc) && r.state.Some? ==> r.state.value.temp == r.temp && Good(r.hashed, r.nextIndex, job.src))
    && (r.pc == SaveNew && r.state.Some? ==> r.state.value.nextIndex == 0)
    && (r.pc == Write ==> IsChunk(r.chunk, r.nextIndex, job.src))
    && (r.pc in {Open, Truncate, Rehash} && r.state.Some? ==>
          && r.start.fileId in c.disk.states
          && c.disk.states[r.start.fileId] == Readable(r.state.value))
    && (r.pc in {Truncate, Rehash} && r.state.Some? ==> r.state.value.temp == r.temp)
  }

  ghost predicate Tracked(y: System, cat: Catalog) {
    && Faithful(y.s.job, cat)
    && DiskOk(y.c.disk, cat)
    && ChunksOk(y.c.inbox, y.s.job.src)
    && OffsetsOk(y.c.sent)
    && SenderOk(y.s)
    && ReceiverOk(y.c, y.s.job)
  }

  lemma TrackedInitial(d: Disk, job: Job, cat: Catalog)
    requires DiskOk(d, cat) && Faithful(job, cat)
    ensures Safe(Initial(d, job)) && Tracked(Initial(d, job), cat)
  {
  }

  lemma OffsetIsAtAChunk(offset: nat, n: nat)
    requires offset % FILE_CHUNK_SIZE == 0
    ensures Min(offset, n) == Min(offset / FILE_CHUNK_SIZE * FILE_CHUNK_SIZE, n)
  {
  }

  lemma FullReadIsAChunk(src: Bytes, pos: nat, index: int, n: nat)
    requires n >= FILE_CHUNK_SIZE && pos < |src| && 0 <= index
    requires pos == Min(index * FILE_CHUNK_SIZE, |src|)
    ensures IsChunk(NextRead(src, pos, n), index, src)
    ensures pos + |NextRead(src, pos, n)| == Min((index + 1) * FILE_CHUNK_SIZE, |src|)
  {
  }

  lemma AppendKeeps(q: seq<Message>, m: Message, src: Bytes)
    requires ChunksOk(q, src) && (m.kind == FileChunk ==> IsChunk(m.chunk, m.index, src))
    ensures ChunksOk(q + [m], src)
  {
  }

  lemma SenderReads(y: System, n: nat, cat: Catalog)
    requires Safe(y) && Tracked(y, cat) && n >= FILE_CHUNK_SIZE && y.s.pc == Reading
    ensures Tracked(SenderStep(y, Works, n), cat)
  {
    var job := y.s.job;
    if y.s.pos < |job.src| {
      FullReadIsAChunk(job.src, y.s.pos, y.s.index, n);
      AppendKeeps(y.c.inbox, ChunkMsg(job.fileId, y.s.index, NextRead(job.src, y.s.pos, n)), job.src);
    } else {
      AppendKeeps(y.c.inbox, CompleteMsg(job.fileId), job.src);
    }
  }

  lemma SenderAwaits(y: System, n: nat, cat: Catalog)
    requires Safe(y) && Tracked(y, cat) && y.s.pc in {AwaitAck, AwaitSum}
    ensures Tracked(SenderStep(y, Works, n), cat)
  {
    if y.c.sent != [] && y.c.sent[0].kind == FileResume && y.c.sent[0].offset >= 0 {
      OffsetIsAtAChunk(y.c.sent[0].offset, |y.s.job.src|);
    }
  }

  lemma SenderAnnounces(y: System, n: nat, cat: Catalog)
    requires Safe(y) && Tracked(y, cat) && y.s.pc in {Begin, Summing}
    ensures Tracked(SenderStep(y, Works, n), cat)
  {
    var job := y.s.job;
    AppendKeeps(y.c.inbox, Announce(job), job.src);
    AppendKeeps(y.c.inbox, ChecksumMsg(job.fileId, Sum(job.summed)), job.src);
  }

  lemma TrackedSender(y: System, io: Io, n: nat, cat: Catalog)
    requires Safe(y) && Tracked(y, cat) && n >= FILE_CHUNK_SIZE
    ensures Tracked(SenderStep(y, io, n), cat)
  {
    if io.Works? {
      match y.s.pc
      case Reading => SenderReads(y, n, cat);
      case AwaitAck => SenderAwaits(y, n, cat);
      case AwaitSum => SenderAwaits(y, n, cat);
      case Begin => SenderAnnounces(y, n, cat);
      case Summing => SenderAnnounces(y, n, cat);
      case _ =>
    }
  }

  /** Writing a temporary file that no other transfer mentions. */
  lemma SetTempKeeps(d: Disk, t: nat, data: Bytes, owner: Option<string>, cat: Catalog)
    requires DiskOk(d, cat) && t in d.temps && Mentions(d, t, owner)
    requires forall id <- d.states :: d.states[id].Readable? && d.states[id].rec.temp == t ==>
               Covers(data, d.states[id].rec.nextIndex, cat(id))
    ensures DiskOk(SetTemp(d, t, data), cat)
  {
  }

  lemma RemoveTempKeeps(d: Disk, t: nat, cat: Catalog)
    requires DiskOk(d, cat)
    ensures DiskOk(RemoveTemp(d, t), cat)
  {
  }

  lemma CreateTempKeeps(d: Disk, cat: Catalog)
    requires DiskOk(d, cat)
    ensures DiskOk(CreateTemp(d), cat)
    ensures Mentions(CreateTemp(d), d.nextTemp, None)
  {
  }

  lemma SaveKeeps(d: Disk, rec: ResumeState, io: Io, cat: Catalog)
    requires DiskOk(d, cat) && rec.temp < d.nextTemp && Mentions(d, rec.temp, Some(rec.fileId))
    requires InRange(rec.nextIndex, cat(rec.fileId))
    requires rec.temp in d.temps && Covers(d.temps[rec.temp], rec.nextIndex, cat(rec.fileId))
    ensures DiskOk(SaveState(d, rec, io), cat)
    ensures Mentions(SaveState(d, rec, io), rec.temp, Some(rec.fileId))
  {
  }

  lemma MoreStillCovers(data: Bytes, more: Bytes, k: int, src: Bytes)
    requires Covers(data, k, src)
    ensures Covers(data + more, k, src)
  {
  }

  /** One more chunk: never after padding, because a chunk has an index inside the source. */
  lemma ChunkExtends(h: Bytes, k: int, chunk: Bytes, src: Bytes)
    requires Good(h, k, src) && IsChunk(chunk, k, src)
    ensures Good(h + chunk, k + 1, src)
  {
    assert h == src[..k * FILE_CHUNK_SIZE];
    assert h + chunk == src[..Min((k + 1) * FILE_CHUNK_SIZE, |src|)];
  }

  lemma TruncationCovers(data: Bytes, k: int, src: Bytes)
    requires Covers(data, k, src)
    ensures Good(Resize(data, k * FILE_CHUNK_SIZE), k, src)
  {
    var m := Min(k * FILE_CHUNK_SIZE, |src|);
    var r := Resize(data, k * FILE_CHUNK_SIZE);
    assert r[..m] == r[..Min(k * FILE_CHUNK_SIZE, |data|)][..m];
    assert data[..m] == data[..Min(k * FILE_CHUNK_SIZE, |data|)][..m];
  }

  ghost predicate StepKeeps(c: Config, c': Config, job: Job, cat: Catalog) {
    && DiskOk(c'.disk, cat)
    && ReceiverOk(c', job)
    && (c'.inbox == c.inbox || (c.inbox != [] && c'.inbox == c.inbox[1..]))
    && (c'.sent == c.sent || (c'.sent != [] && c'.sent == c.sent + [c'.sent[|c'.sent| - 1]] && OffsetsOk(c'.sent)))
  }

  /** A step that leaves the disk and the transfer's own fields alone. */
  lemma QuietStep(c: Config, c': Config, job: Job, cat: Catalog)
    requires DiskOk(c.disk, cat) && ReceiverOk(c, job)
    requires c'.disk == c.disk
    requires c'.r == c.r.(pc := c'.r.pc, chunk := c'.r.chunk)
    requires HasTemp(c'.r.pc) ==> HasTemp(c.r.pc)
    requires Holding(c'.r.pc) ==> Holding(c.r.pc)
    requires c'.r.pc !in {SaveNew, Open, Truncate, Rehash}
    requires c'.r.pc == Write ==> IsChunk(c'.r.chunk, c.r.nextIndex, job.src)
    ensures DiskOk(c'.disk, cat) && ReceiverOk(c', job)
  {
  }

  lemma TrackedRehash(y: System, io: Io, cat: Catalog)
    requires Safe(y) && Tracked(y, cat) && y.c.r.pc == Rehash
    ensures StepKeeps(y.c, RehashStep(y.c, io), y.s.job, cat)
  {
  }

  lemma TrackedLoad(y: System, io: Io, cat: Catalog)
    requires Safe(y) && Tracked(y, cat) && y.c.r.pc == Load
    ensures StepKeeps(y.c, LoadStep(y.c, io), y.s.job, cat)
  {
  }

  lemma TrackedOpen(y: System, io: Io, cat: Catalog)
    requires Safe(y) && Tracked(y, cat) && y.c.r.pc == Open
    ensures StepKeeps(y.c, OpenStep(y.c, io), y.s.job, cat)
  {
  }

  lemma TrackedTruncate(y: System, io: Io, cat: Catalog)
    requires Safe(y) && Tracked(y, cat) && y.c.r.pc == Truncate
    ensures StepKeeps(y.c, TruncateStep(y.c, io), y.s.job, cat)
  {
    var c := y.c;
    if c.r.state.Some? && c.r.temp in c.disk.temps {
      var k := c.r.state.value.nextIndex;
      TruncationCovers(c.disk.temps[c.r.temp], k, y.s.job.src);
      SetTempKeeps(c.disk, c.r.temp, Resize(c.disk.temps[c.r.temp], k * FILE_CHUNK_SIZE), Owner(c.r), cat);
    }
  }

  lemma TrackedCreate(y: System, io: Io, cat: Catalog)
    requires Safe(y) && Tracked(y, cat) && y.c.r.pc == Create
    ensures StepKeeps(y.c, CreateStep(y.c, io), y.s.job, cat)
  {
    CreateTempKeeps(y.c.disk, cat);
  }

  lemma TrackedSave(y: System, io: Io, cat: Catalog)
    requires Safe(y) && Tracked(y, cat) && y.c.r.pc in {SaveNew, Save}
    ensures StepKeeps(y.c, ReceiverStep(y.c, SenderGone(y.s), io), y.s.job, cat)
  {
    var c := y.c;
    if c.r.state.Some? {
      SaveKeeps(c.disk, c.r.state.value.(nextIndex := c.r.nextIndex), io, cat);
    }
  }

  lemma TrackedIdle(y: System, io: Io, cat: Catalog)
    requires Safe(y) && Tracked(y, cat) && y.c.r.pc in {Idle, Saved}
    ensures StepKeeps(y.c, NextFile(y.c, SenderGone(y.s), io), y.s.job, cat)
  {
    var c := y.c;
    var c' := NextFile(c, SenderGone(y.s), io);
    if c.r.pc == Idle && c'.r.pc == Load {
      assert c'.r.state == None;
    } else {
      QuietStep(c, c', y.s.job, cat);
    }
  }

  lemma TrackedClosing(y: System, io: Io, cat: Catalog)
    requires Tracked(y, cat) && y.c.r.pc == Closing
    ensures StepKeeps(y.c, ClosingStep(y.c, SenderGone(y.s), io), y.s.job, cat)
  {
    QuietStep(y.c, ClosingStep(y.c, SenderGone(y.s), io), y.s.job, cat);
  }

  lemma TrackedAck(y: System, io: Io, cat: Catalog)
    requires Safe(y) && Tracked(y, cat) && y.c.r.pc == Ack
    ensures StepKeeps(y.c, AckStep(y.c, io), y.s.job, cat)
  {
    assert (y.c.r.nextIndex * FILE_CHUNK_SIZE) % FILE_CHUNK_SIZE == 0;
  }

  lemma TrackedLoop(y: System, io: Io, cat: Catalog)
    requires Tracked(y, cat) && y.c.r.pc == Loop
    ensures StepKeeps(y.c, LoopStep(y.c, SenderGone(y.s), io), y.s.job, cat)
  {
    QuietStep(y.c, LoopStep(y.c, SenderGone(y.s), io), y.s.job, cat);
  }

  lemma TrackedWrite(y: System, io: Io, cat: Catalog)
    requires Safe(y) && Tracked(y, cat) && y.c.r.pc == Write
    ensures StepKeeps(y.c, WriteStep(y.c, io), y.s.job, cat)
  {
    var c := y.c;
    var written := if io.Works? then c.r.chunk else CleanPrefix(c.r.chunk, io.part);
    WriteAtEnd(c.r.hashed, written);
    GrowingKeeps(c, written, cat);
    if c.r.state.Some? {
      ChunkExtends(c.r.hashed, c.r.nextIndex, c.r.chunk, y.s.job.src);
    }
  }

  /** A temporary file that grows still covers what its state file says. */
  lemma GrowingKeeps(c: Config, written: Bytes, cat: Catalog)
    requires DiskOk(c.disk, cat) && Mentions(c.disk, c.r.temp, Owner(c.r)) && TempIsHashed(c) && FreshOk(c.disk)
    ensures var d := SetTemp(c.disk, c.r.temp, c.r.hashed + written);
            DiskOk(d, cat) && Mentions(d, c.r.temp, Owner(c.r))
  {
    forall id <- c.disk.states | c.disk.states[id].Readable? && c.disk.states[id].rec.temp == c.r.temp
      ensures Covers(c.r.hashed + written, c.disk.states[id].rec.nextIndex, cat(id))
    {
      MoreStillCovers(c.r.hashed, written, c.disk.states[id].rec.nextIndex, cat(id));
    }
    SetTempKeeps(c.disk, c.r.temp, c.r.hashed + written, Owner(c.r), cat);
  }

  lemma DestIsApart(d: Disk, dest: map<string, Bytes>, dirs: set<string>, cat: Catalog)
    requires DiskOk(d, cat)
    ensures DiskOk(d.(dest := dest, dirs := dirs), cat)
  {
  }

  /** A step that at most drops the transfer's temporary file or changes destination files. */
  lemma LeavingStep(c: Config, c': Config, job: Job, cat: Catalog)
    requires DiskOk(c.disk, cat) && ReceiverOk(c, job) && HasTemp(c.r.pc)
    requires c'.r == c.r.(pc := c'.r.pc) && c'.r.pc in {Finish, Abort}
    requires || c'.disk == c.disk.(dest := c'.disk.dest, dirs := c'.disk.dirs)
             || c'.disk == RemoveTemp(c.disk, c.r.temp).(dest := c'.disk.dest, dirs := c'.disk.dirs)
    ensures DiskOk(c'.disk, cat) && ReceiverOk(c', job)
  {
    if c'.disk == c.disk.(dest := c'.disk.dest, dirs := c'.disk.dirs) {
      DestIsApart(c.disk, c'.disk.dest, c'.disk.dirs, cat);
    } else {
      RemoveTempKeeps(c.disk, c.r.temp, cat);
      DestIsApart(RemoveTemp(c.disk, c.r.temp), c'.disk.dest, c'.disk.dirs, cat);
    }
  }

  lemma TrackedPlace(y: System, io: Io, cat: Catalog)
    requires Tracked(y, cat) && y.c.r.pc == Place
    ensures StepKeeps(y.c, PlaceStep(y.c, io), y.s.job, cat)
  {
    LeavingStep(y.c, PlaceStep(y.c, io), y.s.job, cat);
  }

  lemma TrackedSumAck(y: System, io: Io, cat: Catalog)
    requires Safe(y) && Tracked(y, cat) && y.c.r.pc in {SumAck, Forget}
    ensures StepKeeps(y.c, ReceiverStep(y.c, SenderGone(y.s), io), y.s.job, cat)
  {
  }

  lemma TrackedEnding(y: System, io: Io, cat: Catalog)
    requires Tracked(y, cat) && (y.c.r.pc in {Finish, Abort} || y.c.r.pc.Exit?)
    ensures StepKeeps(y.c, ReceiverStep(y.c, SenderGone(y.s), io), y.s.job, cat)
  {
    RemoveTempKeeps(y.c.disk, y.c.r.temp, cat);
  }

  lemma TrackedReceiver(y: System, io: Io, cat: Catalog)
    requires Safe(y) && Tracked(y, cat)
    ensures StepKeeps(y.c, ReceiverStep(y.c, SenderGone(y.s), io), y.s.job, cat)
  {
    match y.c.r.pc
    case Load => TrackedLoad(y, io, cat);
    case Open => TrackedOpen(y, io, cat);
    case Rehash => TrackedRehash(y, io, cat);
    case Truncate => TrackedTruncate(y, io, cat);
    case Create => TrackedCreate(y, io, cat);
    case SaveNew => TrackedSave(y, io, cat);
    case Save => TrackedSave(y, io, cat);
    case Idle => TrackedIdle(y, io, cat);
    case Saved => TrackedIdle(y, io, cat);
    case Ack => TrackedAck(y, io, cat);
    case Loop => TrackedLoop(y, io, cat);
    case Closing => TrackedClosing(y, io, cat);
    case Write => TrackedWrite(y, io, cat);
    case SumAck => TrackedSumAck(y, io, cat);
    case Forget => TrackedSumAck(y, io, cat);
    case Place => TrackedPlace(y, io, cat);
    case _ => TrackedEnding(y, io, cat);
  }

  lemma TrackedStep(y: System, e: Event, cat: Catalog)
    requires Safe(y) && Tracked(y, cat) && e.n >= FILE_CHUNK_SIZE
    ensures Safe(Next(y, e)) && Tracked(Next(y, e), cat)
  {
    SafeStep(y, e);
    if e.who == SenderSide {
      TrackedSender(y, e.io, e.n, cat);
    } else {
      TrackedReceiver(y, e.io, cat);
    }
  }

  lemma {:induction false} TrackedRun(y: System, es: seq<Event>, cat: Catalog)
    requires Safe(y) && Tracked(y, cat) && FullReads(es)
    ensures Safe(Exec(y, es)) && Tracked(Exec(y, es), cat)
    decreases |es|
  {
    if es != [] {
      TrackedStep(y, es[0], cat);
      TrackedRun(Next(y, es[0]), es[1..], cat);
    }
  }

  /** Every disk that any history of cut attempts can leave, at every crash point of
      every attempt, fits the sources. */
  lemma {:induction false} EveryCrashLeavesAGoodDisk(d: Disk, history: seq<Attempt>, cat: Catalog)
    requires DiskOk(d, cat)
    requires forall a <- history :: Faithful(a.job, cat) && FullReads(a.events)
    ensures DiskOk(Replay(d, history), cat)
    decreases |history|
  {
    if history != [] {
      TrackedInitial(d, history[0].job, cat);
      TrackedRun(Initial(d, history[0].job), history[0].events, cat);
      EveryCrashLeavesAGoodDisk(After(d, history[0]).c.disk, history[1..], cat);
    }
  }
}
