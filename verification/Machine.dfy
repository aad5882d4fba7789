/** One transfer attempt (internal/transfer/p2p.go): the sender and the receiver as
    step machines over two FIFO channels and the receiver's disk. Every operation
    of the receiver that touches the disk or the connection is a step of its own, so
    a kill may fall between any two of them. */
module Machine {
  import opened Protocol
  import opened Storage
  import Paths

  /** What one attempt is about. The sender hashed `summed` before it sent
      anything, and its reads of the file return pieces of `src`: the two differ when the file
      was edited in between. A directory is a job that does not offer resumption and
      whose archive is both. */
  datatype Job = Job(
    fileId: string,
    name: string,
    size: int,
    src: Bytes,
    summed: Bytes,
    offers: bool,    // the sender runs with --resume
    accepts: bool)   // the receiver runs with --resume

  datatype SenderPc = Begin | AwaitAck | Reading | Summing | AwaitSum | Sent | Failed

  datatype Sender = Sender(pc: SenderPc, job: Job, pos: nat, index: int)

  datatype ReceiverPc =
    | Idle | Load | Open | Truncate | Rehash | Create | SaveNew | Ack
    | Loop | Write | Save | Closing | SumAck | Forget | Place
    | Finish | Abort | Saved | Exit(ok: bool)

  datatype Receiver = Receiver(
    pc: ReceiverPc,
    accepts: bool,
    start: Message,
    state: Option<ResumeState>,
    temp: nat,
    pos: nat,          // position of the open temporary file
    hashed: Bytes,     // what the hasher has absorbed
    nextIndex: int,
    chunk: Bytes)      // the chunk about to be written

  /** The receiving side: messages it can still read, and those it sent that are unread. */
  datatype Config = Config(r: Receiver, disk: Disk, inbox: seq<Message>, sent: seq<Message>)

  function Goto(c: Config, pc: ReceiverPc): Config { c.(r := c.r.(pc := pc)) }

  function Pop(c: Config): Config
    requires c.inbox != []
  {
    c.(inbox := c.inbox[1..])
  }

  function Send(c: Config, m: Message): Config { c.(sent := c.sent + [m]) }

  predicate Lost(c: Config, closed: bool, io: Io) { io.Fails? || (c.inbox == [] && closed) }

  predicate UsesState(r: Receiver) {
    r.accepts && r.start.resume && !Paths.IsArchive(r.start.name)
  }

  function CleanPrefix(data: Bytes, part: nat): Bytes { data[..Min(part, |data|)] }

  /** One step of receiveFiles and receiveOneFile. `closed` says that the peer is gone. */
  function ReceiverStep(c: Config, closed: bool, io: Io): Config {
    match c.r.pc
    case Idle => NextFile(c, closed, io)
    case Saved => NextFile(c, closed, io)
    case Load => LoadStep(c, io)
    case Open => OpenStep(c, io)
    case Truncate => TruncateStep(c, io)
    case Rehash => RehashStep(c, io)
    case Create => CreateStep(c, io)
    case SaveNew =>
      if c.r.state.Some? then Goto(c.(disk := SaveState(c.disk, c.r.state.value, io)), Ack) else Goto(c, Ack)
    case Ack => AckStep(c, io)
    case Loop => LoopStep(c, closed, io)
    case Write => WriteStep(c, io)
    case Save => SaveStep(c, io)
    case Closing => ClosingStep(c, closed, io)
    case SumAck =>
      if io.Fails? then Goto(c, Abort)
      else Goto(Send(c, ChecksumMsg(c.r.start.fileId, Sum(c.r.hashed))), Forget)
    case Forget =>
      if c.r.state.Some? && io.Works?
      then Goto(c.(disk := c.disk.(states := c.disk.states - {c.r.start.fileId})), Place)
      else Goto(c, Place)
    case Place => PlaceStep(c, io)
    case Finish => Goto(DeferredRemove(c, io), Saved)
    case Abort => Goto(DeferredRemove(c, io), Exit(false))
    case Exit(_) => c
  }

  /** The loop of receiveFiles: a lost connection ends it without an error. */
  function NextFile(c: Config, closed: bool, io: Io): Config {
    if Lost(c, closed, io) then Goto(c, Exit(true))
    else if c.inbox == [] then c
    else if c.inbox[0].kind != FileStart then Goto(Pop(c), Exit(false))
    else Pop(c).(r := c.r.(pc := Load, start := c.inbox[0]))
  }

  function LoadStep(c: Config, io: Io): Config {
    var state := if UsesState(c.r) && io.Works? then LoadState(c.disk, c.r.start.fileId) else None;
    c.(r := c.r.(pc := if state.Some? then Open else Create, state := state))
  }

  function OpenStep(c: Config, io: Io): Config {
    if c.r.state.Some? && c.r.state.value.temp in c.disk.temps && io.Works?
    then c.(r := c.r.(pc := Truncate, temp := c.r.state.value.temp, pos := 0))
    else Goto(c, Create)
  }

  function TruncateStep(c: Config, io: Io): Config {
    if c.r.state.Some? && c.r.temp in c.disk.temps && io.Works? && c.r.state.value.ByteOffset() >= 0
    then Goto(c.(disk := SetTemp(c.disk, c.r.temp, Resize(c.disk.temps[c.r.temp], c.r.state.value.ByteOffset()))),
              Rehash)
    else Goto(c, Create)
  }

  /** Seek, then feed the bytes already received to a new hasher. */
  function RehashStep(c: Config, io: Io): Config {
    if c.r.state.Some? && c.r.temp in c.disk.temps && io.Works? && c.r.state.value.ByteOffset() >= 0
    then
      var offset := c.r.state.value.ByteOffset();
      var data := c.disk.temps[c.r.temp];
      c.(r := c.r.(pc := Ack, pos := offset, nextIndex := c.r.state.value.nextIndex,
                   hashed := data[..Min(offset, |data|)]))
    else Goto(c, Create)
  }

  function CreateStep(c: Config, io: Io): Config {
    if io.Fails? then Goto(c, Exit(false))
    else
      var t := c.disk.nextTemp;
      var state :=
        if UsesState(c.r) then Some(ResumeState(c.r.start.fileId, c.r.start.name, c.r.start.size, 0, t)) else None;
      c.(disk := CreateTemp(c.disk),
         r := c.r.(pc := if state.Some? then SaveNew else Ack,
                   state := state, temp := t, pos := 0, hashed := [], nextIndex := 0))
  }

  function AckStep(c: Config, io: Io): Config {
    if !c.r.start.resume then Goto(c, Loop)
    else if io.Fails? then Goto(c, Abort)
    else if c.r.nextIndex > 0 then Goto(Send(c, ResumeMsg(c.r.start.fileId, c.r.nextIndex * FILE_CHUNK_SIZE)), Loop)
    else Goto(Send(c, READY), Loop)
  }

  function LoopStep(c: Config, closed: bool, io: Io): Config {
    if Lost(c, closed, io) then Goto(c, Abort)
    else if c.inbox == [] then c
    else
      var m := c.inbox[0];
      var p := Pop(c);
      if m.kind == FileChunk && m.fileId == c.r.start.fileId && m.index == c.r.nextIndex
      then p.(r := c.r.(pc := Write, chunk := m.chunk))
      else if m.kind == FileComplete && m.fileId == c.r.start.fileId then Goto(p, Closing)
      else Goto(p, Abort)
  }

  function WriteStep(c: Config, io: Io): Config {
    if c.r.temp !in c.disk.temps then Goto(c, Abort)
    else
      var data := c.disk.temps[c.r.temp];
      match io
      case Fails(part) =>
        var written := WriteAt(data, c.r.pos, CleanPrefix(c.r.chunk, part));
        Goto(c.(disk := SetTemp(c.disk, c.r.temp, written)), Abort)
      case Works =>
        c.(disk := SetTemp(c.disk, c.r.temp, WriteAt(data, c.r.pos, c.r.chunk)),
           r := c.r.(pc := Save, pos := c.r.pos + |c.r.chunk|, hashed := c.r.hashed + c.r.chunk,
                     nextIndex := c.r.nextIndex + 1))
  }

  function SaveStep(c: Config, io: Io): Config {
    match c.r.state
    case None => Goto(c, Loop)
    case Some(last) =>
      var rec := last.(nextIndex := c.r.nextIndex);
      c.(disk := SaveState(c.disk, rec, io), r := c.r.(pc := Loop, state := Some(rec)))
  }

  function ClosingStep(c: Config, closed: bool, io: Io): Config {
    if Lost(c, closed, io) then Goto(c, Abort)
    else if c.inbox == [] then c
    else if c.inbox[0].kind == FileChecksum && c.inbox[0].checksum == Sum(c.r.hashed) then Goto(Pop(c), SumAck)
    else Goto(Pop(c), Abort)
  }

  /** What a copy that fails leaves: nothing new (1), or the first part - 2 bytes. */
  function PartialCopy(dest: map<string, Bytes>, path: string, data: Bytes, part: nat): map<string, Bytes> {
    if part <= 1 then dest else dest[path := CleanPrefix(data, part - 2)]
  }

  /** Rename the temporary file to its destination. When that fails a copy is tried:
      Fails(0) is a copy that works, Fails(1) one that cannot create the destination, and
      Fails(n) one that stops after n - 2 bytes. An archive is extracted instead. */
  function PlaceStep(c: Config, io: Io): Config {
    if c.r.temp !in c.disk.temps then Goto(c, Abort)
    else if Paths.IsArchive(c.r.start.name) then ExtractStep(c, c.disk.temps[c.r.temp], io)
    else SaveFile(c, c.disk.temps[c.r.temp], io)
  }

  function ExtractStep(c: Config, data: Bytes, io: Io): Config {
    Goto(c.(disk := Extract(c.disk, data, io)), if io.Works? && Extractable(c.disk, data) then Finish else Abort)
  }

  function SaveFile(c: Config, data: Bytes, io: Io): Config {
    var path := SavePath(c.disk, c.r.start.name);
    match io
    case Works => Goto(RemoveTempOf(c.(disk := c.disk.(dest := c.disk.dest[path := data]))), Finish)
    case Fails(part) =>
      if part == 0 then Goto(c.(disk := c.disk.(dest := c.disk.dest[path := data])), Finish)
      else Goto(c.(disk := c.disk.(dest := PartialCopy(c.disk.dest, path, data, part))), Abort)
  }

  lemma {:induction false} ExtractShape(c: Config, data: Bytes, io: Io)
    ensures var q := ExtractStep(c, data, io);
            && q.r == c.r.(pc := q.r.pc) && q.r.pc in {Finish, Abort} && q.inbox == c.inbox && q.sent == c.sent
            && q.disk == c.disk.(dest := q.disk.dest, dirs := q.disk.dirs)
  {
  }

  lemma {:induction false} SaveShape(c: Config, data: Bytes, io: Io)
    ensures var q := SaveFile(c, data, io);
            && q.r == c.r.(pc := q.r.pc) && q.r.pc in {Finish, Abort} && q.inbox == c.inbox && q.sent == c.sent
  {
  }

  /** What the last step of a transfer leaves alone. */
  lemma {:induction false} PlaceShape(c: Config, io: Io)
    ensures var q := PlaceStep(c, io);
            q.r == c.r.(pc := q.r.pc) && q.r.pc in {Finish, Abort} && q.inbox == c.inbox && q.sent == c.sent
  {
    if c.r.temp in c.disk.temps {
      ExtractShape(c, c.disk.temps[c.r.temp], io);
      SaveShape(c, c.disk.temps[c.r.temp], io);
    }
  }

  function RemoveTempOf(c: Config): Config { c.(disk := RemoveTemp(c.disk, c.r.temp)) }

  /** The deferred os.Remove(tmpPath), whose error is ignored. */
  function DeferredRemove(c: Config, io: Io): Config {
    if io.Works? then RemoveTempOf(c) else c
  }

  datatype System = System(s: Sender, c: Config)

  predicate SenderGone(s: Sender) { s.pc in {Sent, Failed} }

  predicate ReceiverGone(c: Config) { c.r.pc.Exit? }

  function Step(s: Sender, pc: SenderPc): Sender { s.(pc := pc) }

  /** One step of sendSingleFile and sendChunks; a read of the file returns
      between one byte and `n` bytes, never more than a chunk. */
  function SenderStep(y: System, io: Io, n: nat): System {
    var s := y.s;
    var job := s.job;
    if SenderGone(s) then y
    else if io.Fails? then y.(s := Step(s, Failed))
    else
      match s.pc
      case Begin =>
        System(Step(s, if job.offers then AwaitAck else Reading),
               y.c.(inbox := y.c.inbox + [StartMsg(job.fileId, job.name, job.size, job.offers)]))
      case AwaitAck =>
        if y.c.sent == [] then (if ReceiverGone(y.c) then y.(s := Step(s, Failed)) else y)
        else
          var m := y.c.sent[0];
          var offset := if m.kind == FileResume && m.offset >= 0 then m.offset else 0;
          System(s.(pc := Reading, pos := offset, index := offset / FILE_CHUNK_SIZE), y.c.(sent := y.c.sent[1..]))
      case Reading =>
        if s.pos < |job.src| then
          var data := NextRead(job.src, s.pos, n);
          System(s.(pos := s.pos + |data|, index := s.index + 1),
                 y.c.(inbox := y.c.inbox + [ChunkMsg(job.fileId, s.index, data)]))
        else System(Step(s, Summing), y.c.(inbox := y.c.inbox + [CompleteMsg(job.fileId)]))
      case Summing =>
        System(Step(s, AwaitSum), y.c.(inbox := y.c.inbox + [ChecksumMsg(job.fileId, Sum(job.summed))]))
      case AwaitSum =>
        if y.c.sent == [] then (if ReceiverGone(y.c) then y.(s := Step(s, Failed)) else y)
        else
          var m := y.c.sent[0];
          System(Step(s, if m.kind == FileChecksum && m.checksum == Sum(job.summed) then Sent else Failed),
                 y.c.(sent := y.c.sent[1..]))
      case _ => y
  }

  function NextRead(src: Bytes, pos: nat, n: nat): (data: Bytes)
    requires pos < |src|
    ensures 1 <= |data| <= FILE_CHUNK_SIZE
    ensures pos + |data| <= |src| && data == src[pos..pos + |data|]
  {
    var most := Min(FILE_CHUNK_SIZE, |src| - pos);
    src[pos..pos + if n < 1 then 1 else Min(n, most)]
  }

  datatype Side = SenderSide | ReceiverSide

  /** Who steps, how its operation ends and how much a read returns. */
  datatype Event = Event(who: Side, io: Io, n: nat)

  function Next(y: System, e: Event): System {
    match e.who
    case SenderSide => SenderStep(y, e.io, e.n)
    case ReceiverSide => y.(c := ReceiverStep(y.c, SenderGone(y.s), e.io))
  }

  /** Any interleaving: the events in order. The list may stop anywhere, which is
      what a kill of the receiver looks like. */
  function Exec(y: System, es: seq<Event>): System
    decreases |es|
  {
    if es == [] then y else Exec(Next(y, es[0]), es[1..])
  }

  function Initial(d: Disk, job: Job): System {
    System(Sender(Begin, job, 0, 0),
           Config(Receiver(Idle, job.accepts, BLANK, None, 0, 0, [], 0, []), d, [], []))
  }

  /** An attempt, and a history of attempts: each starts from the disk the previous one left. */
  datatype Attempt = Attempt(job: Job, events: seq<Event>)

  function After(d: Disk, a: Attempt): System { Exec(Initial(d, a.job), a.events) }

  function Replay(d: Disk, history: seq<Attempt>): Disk
    decreases |history|
  {
    if history == [] then d else Replay(After(d, history[0]).c.disk, history[1..])
  }
}
