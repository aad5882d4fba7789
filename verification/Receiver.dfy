/** receiveFiles and receiveOneFile as they are written: a message loop over a session
    and a disk that it updates in place. Each is proved to be a run of the receiver's
    step machine, under every pattern of failing operations, so that what is proved about
    the machine holds of the code. `io(n)` is how the n-th operation ends. */
module Receiver {
  import opened Protocol
  import opened Storage
  import Machine
  import Paths
  import Archive
  import Extraction
  import opened Convergence

  type Outcomes = nat -> Io

  /** The receiver's disk. */
  class Store {
    var temps: map<nat, Bytes>
    var states: map<string, StateFile>
    var dest: map<string, Bytes>
    var dirs: set<string>
    var nextTemp: nat
    const dir: seq<string>
    const tarballs: map<Bytes, Tarball>

    ghost function View(): Disk
      reads this
    {
      Disk(temps, states, dest, dirs, nextTemp, dir, tarballs)
    }

    constructor (d: Disk)
      ensures View() == d
    {
      temps, states, dest, dirs, nextTemp := d.temps, d.states, d.dest, d.dirs, d.nextTemp;
      dir, tarballs := d.dir, d.tarballs;
    }

    method Load(id: string) returns (state: Option<ResumeState>)
      ensures state == LoadState(View(), id)
    {
      state := None;
      if id in states && states[id].Readable? {
        state := Some(states[id].rec);
      }
    }

    method Save(rec: ResumeState, io: Io)
      modifies this
      ensures View() == SaveState(old(View()), rec, io)
    {
      match io {
        case Works => states := states[rec.fileId := Readable(rec)];
        case Fails(part) =>
          if part > 0 {
            states := states[rec.fileId := Torn];
          }
      }
    }

    method Forget(id: string, io: Io)
      modifies this
      ensures View() == if io.Works? then old(View()).(states := old(View()).states - {id}) else old(View())
    {
      if io.Works? {
        states := states - {id};
      }
    }

    method Create() returns (t: nat)
      modifies this
      ensures t == old(nextTemp) && View() == CreateTemp(old(View()))
    {
      t := nextTemp;
      temps, nextTemp := temps[t := []], nextTemp + 1;
    }

    method Truncate(t: nat, size: int, io: Io) returns (ok: bool)
      requires t in temps
      modifies this
      ensures ok == (io.Works? && size >= 0)
      ensures View() == if ok then SetTemp(old(View()), t, Resize(old(temps[t]), size)) else old(View())
    {
      ok := io.Works? && size >= 0;
      if ok {
        temps := temps[t := Resize(temps[t], size)];
      }
    }

    method Write(t: nat, pos: nat, chunk: Bytes, io: Io) returns (ok: bool)
      requires t in temps
      modifies this
      ensures ok == io.Works?
      ensures View() == SetTemp(old(View()), t,
                          WriteAt(old(temps[t]), pos, if ok then chunk else Machine.CleanPrefix(chunk, io.part)))
    {
      ok := io.Works?;
      temps := temps[t := WriteAt(temps[t], pos, if ok then chunk else Machine.CleanPrefix(chunk, io.part))];
    }

    method Remove(t: nat, io: Io)
      modifies this
      ensures View() == if io.Works? then RemoveTemp(old(View()), t) else old(View())
    {
      if io.Works? {
        temps := temps - {t};
      }
    }

    /** os.Rename, or else copyFile. */
    method Place(t: nat, path: string, io: Io) returns (ok: bool)
      requires t in temps
      modifies this
      ensures ok == (io.Works? || io.part == 0)
      ensures dest == if ok then old(dest)[path := old(temps[t])]
                      else Machine.PartialCopy(old(dest), path, old(temps[t]), io.part)
      ensures temps == if io.Works? then old(temps) - {t} else old(temps)
      ensures states == old(states) && dirs == old(dirs) && nextTemp == old(nextTemp)
    {
      ok := true;
      match io {
        case Works =>
          dest := dest[path := temps[t]];
          temps := temps - {t};
        case Fails(part) =>
          ok := part == 0;
          if ok {
            dest := dest[path := temps[t]];
          } else if part > 1 {
            dest := dest[path := Machine.CleanPrefix(temps[t], part - 2)];
          }
      }
    }

    /** extractTarGz on the temporary file, entry by entry until one is refused or a write fails. */
    method Unpack(t: nat, io: Io) returns (ok: bool)
      requires t in temps
      modifies this
      ensures View() == Extract(old(View()), old(temps[t]), io)
      ensures ok == (io.Works? && Extractable(old(View()), old(temps[t])))
    {
      var tarball := if temps[t] in tarballs then tarballs[temps[t]] else Tarball([], false);
      var all := tarball.entries;
      var entries := if io.Works? then all else all[..Min(io.part, |all|)];
      var fs;
      fs, ok := Extraction.ExtractTarGz(dir, entries, Extraction.Files(dest, dirs));
      dest, dirs := fs.data, fs.dirs;
      ok := ok && io.Works? && tarball.intact;
    }
  }

  /** A session whose peer has sent `inbox` and will then close. */
  class Link {
    var inbox: seq<Message>
    var sent: seq<Message>

    constructor (inbox: seq<Message>)
      ensures this.inbox == inbox && sent == []
    {
      this.inbox, sent := inbox, [];
    }

    method ReceiveMessage(io: Io) returns (m: Option<Message>)
      modifies this
      ensures m.None? <==> io.Fails? || old(inbox) == []
      ensures m.None? ==> inbox == old(inbox)
      ensures m.Some? ==> m.value == old(inbox)[0] && inbox == old(inbox)[1..]
      ensures sent == old(sent)
    {
      if io.Fails? || inbox == [] {
        m := None;
      } else {
        m, inbox := Some(inbox[0]), inbox[1..];
      }
    }

    method SendMessage(m: Message, io: Io) returns (ok: bool)
      modifies this
      ensures ok == io.Works? && inbox == old(inbox)
      ensures sent == if ok then old(sent) + [m] else old(sent)
    {
      ok := io.Works?;
      if ok {
        sent := sent + [m];
      }
    }
  }

  /** A machine configuration after `clock` operations. */
  datatype Point = Point(c: Machine.Config, clock: nat)

  function Tick(p: Point, io: Outcomes): Point {
    Point(Machine.ReceiverStep(p.c, true, io(p.clock)), p.clock + 1)
  }

  lemma TickDescends(p: Point, io: Outcomes)
    requires !p.c.r.pc.Exit?
    ensures Descends(p.c, Tick(p, io).c)
  {
    if p.c.r.pc in {Machine.Idle, Machine.Saved, Machine.Loop, Machine.Closing} {
      ReadDescends(p.c, io(p.clock));
    } else if p.c.r.pc in {Machine.Load, Machine.Open, Machine.Truncate, Machine.Rehash, Machine.Create,
                           Machine.SaveNew} {
      OpeningDescends(p.c, io(p.clock));
    } else if p.c.r.pc in {Machine.Ack, Machine.Write, Machine.Save} {
      ChunkDescends(p.c, io(p.clock));
    } else if p.c.r.pc == Machine.Place {
      PlaceDescends(p.c, io(p.clock));
    } else {
      RestDescends(p.c, io(p.clock));
    }
  }

  predicate Descends(c: Machine.Config, d: Machine.Config) {
    |d.inbox| < |c.inbox| || (d.inbox == c.inbox && ReceiverWork(d.r.pc) < ReceiverWork(c.r.pc))
  }

  lemma ReadDescends(c: Machine.Config, io: Io)
    requires c.r.pc in {Machine.Idle, Machine.Saved, Machine.Loop, Machine.Closing}
    ensures Descends(c, Machine.ReceiverStep(c, true, io))
  {
  }

  lemma OpeningDescends(c: Machine.Config, io: Io)
    requires c.r.pc in {Machine.Load, Machine.Open, Machine.Truncate, Machine.Rehash, Machine.Create, Machine.SaveNew}
    ensures Descends(c, Machine.ReceiverStep(c, true, io))
  {
  }

  lemma ChunkDescends(c: Machine.Config, io: Io)
    requires c.r.pc in {Machine.Ack, Machine.Write, Machine.Save}
    ensures Descends(c, Machine.ReceiverStep(c, true, io))
  {
  }

  lemma PlaceDescends(c: Machine.Config, io: Io)
    requires c.r.pc == Machine.Place
    ensures Descends(c, Machine.PlaceStep(c, io))
  {
    Machine.PlaceShape(c, io);
  }

  lemma RestDescends(c: Machine.Config, io: Io)
    requires c.r.pc in {Machine.SumAck, Machine.Forget, Machine.Finish, Machine.Abort}
    ensures Descends(c, Machine.ReceiverStep(c, true, io))
  {
  }

  predicate Returned(pc: Machine.ReceiverPc) { pc == Machine.Saved || pc.Exit? }

  /** The machine, run until receiveOneFile returns. */
  function RunFile(p: Point, io: Outcomes): (q: Point)
    ensures Returned(q.c.r.pc) && |q.c.inbox| <= |p.c.inbox|
    ensures q.c.r.accepts == p.c.r.accepts
    decreases |p.c.inbox|, ReceiverWork(p.c.r.pc)
  {
    if Returned(p.c.r.pc) then p
    else
      TickDescends(p, io);
      RunFile(Tick(p, io), io)
  }

  /** A file that has been begun is saved or fails. */
  lemma {:induction false} FileEnds(p: Point, io: Outcomes)
    requires p.c.r.pc != Machine.Idle && !Returned(p.c.r.pc)
    ensures RunFile(p, io).c.r.pc in {Machine.Saved, Machine.Exit(false)}
    decreases |p.c.inbox|, ReceiverWork(p.c.r.pc)
  {
    TickDescends(p, io);
    if !Returned(Tick(p, io).c.r.pc) {
      FileEnds(Tick(p, io), io);
    }
  }

  /** The machine, run until receiveFiles returns. */
  function RunSession(p: Point, io: Outcomes): (q: Point)
    ensures q.c.r.pc.Exit?
    decreases |p.c.inbox|, ReceiverWork(p.c.r.pc)
  {
    if p.c.r.pc.Exit? then p
    else
      TickDescends(p, io);
      RunSession(Tick(p, io), io)
  }

  lemma {:induction false} FileThenRest(p: Point, io: Outcomes)
    ensures RunSession(p, io) == RunSession(RunFile(p, io), io)
    decreases |p.c.inbox|, ReceiverWork(p.c.r.pc)
  {
    if !Returned(p.c.r.pc) {
      TickDescends(p, io);
      FileThenRest(Tick(p, io), io);
    }
  }

  /** The machine is where the code is: same disk, same connection, same local variables. */
  ghost predicate At(p: Point, pc: Machine.ReceiverPc, store: Store, link: Link, clock: nat, accepts: bool,
                     start: Message, state: Option<ResumeState>, tmp: nat, pos: nat, hashed: Bytes, nextIndex: int)
    reads store, link
  {
    && p.clock == clock
    && p.c == Machine.Config(Machine.Receiver(pc, accepts, start, state, tmp, pos, hashed, nextIndex, p.c.r.chunk),
                             store.View(), link.inbox, link.sent)
  }

  /** As At, before a temporary file has been chosen. */
  ghost predicate Before(p: Point, pc: Machine.ReceiverPc, store: Store, link: Link, clock: nat, accepts: bool,
                         start: Message)
    reads store, link
  {
    && p.clock == clock
    && p.c.r.pc == pc && p.c.r.accepts == accepts && p.c.r.start == start
    && p.c.disk == store.View() && p.c.inbox == link.inbox && p.c.sent == link.sent
  }

  /** Truncate and rehash the temporary file of an earlier attempt. */
  method Restore(store: Store, link: Link, start: Message, accepts: bool, last: ResumeState, io: Outcomes,
                 first: nat, ghost from: Point)
    returns (state: Option<ResumeState>, pos: nat, hashed: Bytes, clock: nat, ghost p: Point)
    requires Before(from, Machine.Truncate, store, link, first, accepts, start)
    requires from.c.r.state == Some(last) && from.c.r.temp == last.temp && last.temp in store.temps
    modifies store
    ensures RunFile(p, io) == RunFile(from, io)
    ensures state.Some? ==> At(p, Machine.Ack, store, link, clock, accepts, start, state, last.temp, pos, hashed,
                               last.nextIndex)
                            && state == Some(last) && last.temp in store.temps
    ensures state.None? ==> Before(p, Machine.Create, store, link, clock, accepts, start)
  {
    state, pos, hashed := None, 0, [];
    var offset := last.ByteOffset();
    var truncated := store.Truncate(last.temp, offset, io(first));
    p, clock := Tick(from, io), first + 1;
    assert p.c == Machine.TruncateStep(from.c, io(first));
    if truncated {
      ghost var q := p;
      p := Tick(q, io);
      assert p.c == Machine.RehashStep(q.c, io(clock));
      if io(clock).Works? {
        state, pos, hashed := Some(last), offset, store.temps[last.temp];
      }
      clock := clock + 1;
    }
  }

  /** Open the temporary file of an earlier attempt and restore it. */
  method Reopen(store: Store, link: Link, start: Message, accepts: bool, io: Outcomes, first: nat, ghost from: Point)
    returns (state: Option<ResumeState>, tmp: nat, pos: nat, hashed: Bytes, nextIndex: int, clock: nat, ghost p: Point)
    requires Before(from, Machine.Load, store, link, first, accepts, start)
    modifies store
    ensures RunFile(p, io) == RunFile(from, io)
    ensures state.Some? ==> At(p, Machine.Ack, store, link, clock, accepts, start, state, tmp, pos, hashed, nextIndex)
                            && tmp in store.temps
    ensures state.None? ==> Before(p, Machine.Create, store, link, clock, accepts, start)
  {
    tmp, pos, hashed, nextIndex, clock := 0, 0, [], 0, first;
    state := None;
    if accepts && start.resume && !Paths.IsArchive(start.name) && io(clock).Works? {
      state := store.Load(start.fileId);
    }
    p, clock := Tick(from, io), clock + 1;
    assert p.c == Machine.LoadStep(from.c, io(first));
    if state.Some? {
      ghost var q := p;
      p := Tick(q, io);
      assert p.c == Machine.OpenStep(q.c, io(clock));
      if state.value.temp in store.temps && io(clock).Works? {
        tmp, nextIndex := state.value.temp, state.value.nextIndex;
        state, pos, hashed, clock, p := Restore(store, link, start, accepts, state.value, io, clock + 1, p);
      } else {
        state, clock := None, clock + 1;
      }
    }
  }

  /** Create a temporary file and, when resuming is on, a state file that names it. */
  method Begin(store: Store, link: Link, start: Message, accepts: bool, io: Outcomes, first: nat, ghost from: Point)
    returns (created: bool, state: Option<ResumeState>, tmp: nat, clock: nat, ghost p: Point)
    requires Before(from, Machine.Create, store, link, first, accepts, start)
    modifies store
    ensures RunFile(p, io) == RunFile(from, io)
    ensures created ==>
              At(p, Machine.Ack, store, link, clock, accepts, start, state, tmp, 0, [], 0) && tmp in store.temps
    ensures !created ==> Before(p, Machine.Exit(false), store, link, clock, accepts, start)
  {
    state, tmp, clock := None, 0, first + 1;
    created := io(first).Works?;
    p := Tick(from, io);
    assert p.c == Machine.CreateStep(from.c, io(first));
    if created {
      tmp := store.Create();
      if accepts && start.resume && !Paths.IsArchive(start.name) {
        state := Some(ResumeState(start.fileId, start.name, start.size, 0, tmp));
        clock, p := Enrol(store, link, start, accepts, state.value, tmp, io, clock, p);
      }
    }
  }

  /** The first state file of a transfer, whatever becomes of it. */
  method Enrol(store: Store, link: Link, start: Message, accepts: bool, rec: ResumeState, tmp: nat,
               io: Outcomes, first: nat, ghost from: Point)
    returns (clock: nat, ghost p: Point)
    requires At(from, Machine.SaveNew, store, link, first, accepts, start, Some(rec), tmp, 0, [], 0)
    requires tmp in store.temps
    modifies store
    ensures RunFile(p, io) == RunFile(from, io) && tmp in store.temps
    ensures At(p, Machine.Ack, store, link, clock, accepts, start, Some(rec), tmp, 0, [], 0)
  {
    store.Save(rec, io(first));
    clock, p := first + 1, Tick(from, io);
  }

  /** Everything up to and including the reply to the sender. */
  method Prepare(store: Store, link: Link, start: Message, accepts: bool, io: Outcomes, first: nat, ghost from: Point)
    returns (ready: bool, state: Option<ResumeState>, tmp: nat, pos: nat, hasher: Bytes, nextIndex: int, clock: nat,
             ghost p: Point)
    requires Before(from, Machine.Load, store, link, first, accepts, start)
    modifies store, link
    ensures RunFile(p, io) == RunFile(from, io)
    ensures ready ==> At(p, Machine.Loop, store, link, clock, accepts, start, state, tmp, pos, hasher, nextIndex)
                      && tmp in store.temps
    ensures !ready ==> Before(p, Machine.Exit(false), store, link, clock, accepts, start) && p == RunFile(from, io)
    ensures link.inbox == old(link.inbox)
  {
    state, tmp, pos, hasher, nextIndex, clock, p := Reopen(store, link, start, accepts, io, first, from);
    if state.None? {
      pos, hasher, nextIndex := 0, [], 0;
      ready, state, tmp, clock, p := Begin(store, link, start, accepts, io, clock, p);
      if !ready {
        return;
      }
    }
    ready, clock, p := Reply(store, link, start, accepts, state, tmp, pos, hasher, nextIndex, io, clock, p);
  }

  /** Tell a resuming sender where to start. */
  method Reply(store: Store, link: Link, start: Message, accepts: bool, state: Option<ResumeState>, tmp: nat,
               pos: nat, hasher: Bytes, nextIndex: int, io: Outcomes, first: nat, ghost from: Point)
    returns (ready: bool, clock: nat, ghost p: Point)
    requires At(from, Machine.Ack, store, link, first, accepts, start, state, tmp, pos, hasher, nextIndex)
    requires tmp in store.temps
    modifies store, link
    ensures RunFile(p, io) == RunFile(from, io)
    ensures ready ==> At(p, Machine.Loop, store, link, clock, accepts, start, state, tmp, pos, hasher, nextIndex)
                      && tmp in store.temps
    ensures !ready ==> Before(p, Machine.Exit(false), store, link, clock, accepts, start) && p == RunFile(from, io)
    ensures link.inbox == old(link.inbox)
  {
    p, clock, ready := Tick(from, io), first + 1, true;
    assert p.c == Machine.AckStep(from.c, io(first));
    if start.resume {
      var reply := if nextIndex > 0 then ResumeMsg(start.fileId, nextIndex * FILE_CHUNK_SIZE) else READY;
      ready := link.SendMessage(reply, io(first));
      if !ready {
        var ok;
        ok, clock, p := Fail(store, link, tmp, io, clock, p);
      }
    }
  }

  /** Write a chunk at the end of the temporary file, hash it and record it. */
  method TakeChunk(store: Store, link: Link, chunk: Bytes, start: Message, accepts: bool, state: Option<ResumeState>,
                   tmp: nat, pos: nat, hasher: Bytes, nextIndex: int, io: Outcomes, first: nat, ghost from: Point)
    returns (written: bool, state': Option<ResumeState>, clock: nat, ghost p: Point)
    requires At(from, Machine.Write, store, link, first, accepts, start, state, tmp, pos, hasher, nextIndex)
    requires tmp in store.temps && from.c.r.chunk == chunk
    modifies store
    ensures RunFile(p, io) == RunFile(from, io) && tmp in store.temps
    ensures written ==> At(p, Machine.Loop, store, link, clock, accepts, start, state', tmp, pos + |chunk|,
                           hasher + chunk, nextIndex + 1)
    ensures !written ==> At(p, Machine.Abort, store, link, clock, accepts, start, state', tmp, pos, hasher, nextIndex)
  {
    state', clock, p := state, first + 1, Tick(from, io);
    written := store.Write(tmp, pos, chunk, io(first));
    assert p.c == Machine.WriteStep(from.c, io(first));
    if written {
      state', clock, p := Record(store, link, start, accepts, state, tmp, pos + |chunk|, hasher + chunk,
                                 nextIndex + 1, io, clock, p);
    }
  }

  /** Save the new index, whatever becomes of the state file. */
  method Record(store: Store, link: Link, start: Message, accepts: bool, state: Option<ResumeState>, tmp: nat,
                pos: nat, hasher: Bytes, nextIndex: int, io: Outcomes, first: nat, ghost from: Point)
    returns (state': Option<ResumeState>, clock: nat, ghost p: Point)
    requires At(from, Machine.Save, store, link, first, accepts, start, state, tmp, pos, hasher, nextIndex)
    requires tmp in store.temps
    modifies store
    ensures RunFile(p, io) == RunFile(from, io) && tmp in store.temps
    ensures At(p, Machine.Loop, store, link, clock, accepts, start, state', tmp, pos, hasher, nextIndex)
  {
    state', clock, p := state, first + 1, Tick(from, io);
    assert p.c == Machine.SaveStep(from.c, io(first));
    if state.Some? {
      state' := Some(state.value.(nextIndex := nextIndex));
      store.Save(state'.value, io(first));
    }
  }

  method ReceiveOneFile(store: Store, link: Link, start: Message, accepts: bool, io: Outcomes, first: nat,
                        ghost from: Point)
    returns (ok: bool, clock: nat)
    requires Before(from, Machine.Load, store, link, first, accepts, start)
    modifies store, link
    ensures var end := RunFile(from, io);
            && store.View() == end.c.disk && link.inbox == end.c.inbox && link.sent == end.c.sent
            && clock == end.clock && ok == (end.c.r.pc == Machine.Saved)
  {
    var state, tmp, pos, hasher, nextIndex;
    ghost var p;
    ok, state, tmp, pos, hasher, nextIndex, clock, p := Prepare(store, link, start, accepts, io, first, from);
    if ok {
      ok, clock := ReceiveChunks(store, link, start, accepts, state, tmp, pos, hasher, nextIndex, io, clock, p);
    }
  }

  /** The message loop. */
  method ReceiveChunks(store: Store, link: Link, start: Message, accepts: bool, state0: Option<ResumeState>, tmp: nat,
                       pos0: nat, hasher0: Bytes, nextIndex0: int, io: Outcomes, first: nat, ghost from: Point)
    returns (ok: bool, clock: nat)
    requires At(from, Machine.Loop, store, link, first, accepts, start, state0, tmp, pos0, hasher0, nextIndex0)
    requires tmp in store.temps
    modifies store, link
    ensures var end := RunFile(from, io);
            && store.View() == end.c.disk && link.inbox == end.c.inbox && link.sent == end.c.sent
            && clock == end.clock && ok == (end.c.r.pc == Machine.Saved)
  {
    var state, hasher, nextIndex := state0, hasher0, nextIndex0;
    var pos: nat := pos0;
    clock := first;
    ghost var p := from;
    while true
      invariant At(p, Machine.Loop, store, link, clock, accepts, start, state, tmp, pos, hasher, nextIndex)
      invariant tmp in store.temps
      invariant RunFile(p, io) == RunFile(from, io)
      decreases |link.inbox|
    {
      var msg;
      msg, p := Await(store, link, start, accepts, state, tmp, pos, hasher, nextIndex, io, clock, p);
      clock := clock + 1;
      if IsNextChunk(msg, start, nextIndex) {
        var chunk := msg.value.chunk;
        ok, state, clock, p := TakeChunk(store, link, chunk, start, accepts, state, tmp, pos, hasher, nextIndex, io,
                                         clock, p);
        if !ok {
          ok, clock, p := Fail(store, link, tmp, io, clock, p);
          return;
        }
        pos, hasher, nextIndex := pos + |chunk|, hasher + chunk, nextIndex + 1;
      } else if IsComplete(msg, start) {
        ok, clock := Conclude(store, link, start, accepts, state, tmp, pos, hasher, nextIndex, io, clock, p);
        return;
      } else {
        ok, clock, p := Fail(store, link, tmp, io, clock, p);
        return;
      }
    }
  }

  predicate IsNextChunk(msg: Option<Message>, start: Message, nextIndex: int) {
    msg.Some? && msg.value.kind == FileChunk && msg.value.fileId == start.fileId && msg.value.index == nextIndex
  }

  predicate IsComplete(msg: Option<Message>, start: Message) {
    msg.Some? && msg.value.kind == FileComplete && msg.value.fileId == start.fileId
  }

  /** The next message of the loop, and what it makes the receiver do. */
  method Await(store: Store, link: Link, start: Message, accepts: bool, state: Option<ResumeState>, tmp: nat,
               pos: nat, hasher: Bytes, nextIndex: int, io: Outcomes, first: nat, ghost from: Point)
    returns (msg: Option<Message>, ghost p: Point)
    requires At(from, Machine.Loop, store, link, first, accepts, start, state, tmp, pos, hasher, nextIndex)
    modifies link
    ensures RunFile(p, io) == RunFile(from, io)
    ensures msg.Some? ==> |link.inbox| < old(|link.inbox|)
    ensures var pc := if IsNextChunk(msg, start, nextIndex) then Machine.Write
                      else if IsComplete(msg, start) then Machine.Closing
                      else Machine.Abort;
            At(p, pc, store, link, first + 1, accepts, start, state, tmp, pos, hasher, nextIndex)
    ensures IsNextChunk(msg, start, nextIndex) ==> p.c.r.chunk == msg.value.chunk
  {
    msg := link.ReceiveMessage(io(first));
    p := Tick(from, io);
    assert p.c == Machine.LoopStep(from.c, true, io(first));
  }

  /** An error return: only the deferred removal is left. */
  method Fail(store: Store, link: Link, tmp: nat, io: Outcomes, first: nat, ghost from: Point)
    returns (ok: bool, clock: nat, ghost p: Point)
    requires from.clock == first && from.c.r.pc == Machine.Abort && from.c.r.temp == tmp
    requires from.c.disk == store.View() && from.c.inbox == link.inbox && from.c.sent == link.sent
    modifies store
    ensures !ok && p == RunFile(from, io) && p.clock == clock && p.c.r.pc == Machine.Exit(false)
    ensures p.c.disk == store.View() && p.c.inbox == link.inbox && p.c.sent == link.sent
    ensures p.c.r.accepts == from.c.r.accepts && p.c.r.start == from.c.r.start
  {
    store.Remove(tmp, io(first));
    ok, clock, p := false, first + 1, Tick(from, io);
  }

  /** Compare checksums, acknowledge, and move the file into place. */
  method Conclude(store: Store, link: Link, start: Message, accepts: bool, state: Option<ResumeState>, tmp: nat,
                  pos: nat, hasher: Bytes, nextIndex: int, io: Outcomes, first: nat, ghost from: Point)
    returns (ok: bool, clock: nat)
    requires At(from, Machine.Closing, store, link, first, accepts, start, state, tmp, pos, hasher, nextIndex)
    requires tmp in store.temps
    modifies store, link
    ensures var end := RunFile(from, io);
            && store.View() == end.c.disk && link.inbox == end.c.inbox && link.sent == end.c.sent
            && clock == end.clock && ok == (end.c.r.pc == Machine.Saved)
  {
    var msg := link.ReceiveMessage(io(first));
    ghost var p := Tick(from, io);
    assert p.c == Machine.ClosingStep(from.c, true, io(first));
    if msg.None? || msg.value.kind != FileChecksum || msg.value.checksum != Sum(hasher) {
      ok, clock, p := Fail(store, link, tmp, io, first + 1, p);
    } else {
      ok, clock := Acknowledge(store, link, start, accepts, state, tmp, pos, hasher, nextIndex, io, first + 1, p);
    }
  }

  /** Return the checksum, then move the file into place. */
  method Acknowledge(store: Store, link: Link, start: Message, accepts: bool, state: Option<ResumeState>, tmp: nat,
                     pos: nat, hasher: Bytes, nextIndex: int, io: Outcomes, first: nat, ghost from: Point)
    returns (ok: bool, clock: nat)
    requires At(from, Machine.SumAck, store, link, first, accepts, start, state, tmp, pos, hasher, nextIndex)
    requires tmp in store.temps
    modifies store, link
    ensures var end := RunFile(from, io);
            && store.View() == end.c.disk && link.inbox == end.c.inbox && link.sent == end.c.sent
            && clock == end.clock && ok == (end.c.r.pc == Machine.Saved)
  {
    var acked := link.SendMessage(ChecksumMsg(start.fileId, Sum(hasher)), io(first));
    ghost var p := Tick(from, io);
    if !acked {
      ok, clock, p := Fail(store, link, tmp, io, first + 1, p);
    } else {
      ok, clock := Deliver(store, link, start, accepts, state, tmp, pos, hasher, nextIndex, io, first + 1, p);
    }
  }

  /** Drop the state file, then rename, copy or extract. */
  method Deliver(store: Store, link: Link, start: Message, accepts: bool, state: Option<ResumeState>, tmp: nat,
                 pos: nat, hasher: Bytes, nextIndex: int, io: Outcomes, first: nat, ghost from: Point)
    returns (ok: bool, clock: nat)
    requires At(from, Machine.Forget, store, link, first, accepts, start, state, tmp, pos, hasher, nextIndex)
    requires tmp in store.temps
    modifies store
    ensures var end := RunFile(from, io);
            && store.View() == end.c.disk && link.inbox == end.c.inbox && link.sent == end.c.sent
            && clock == end.clock && ok == (end.c.r.pc == Machine.Saved)
  {
    ghost var p := from;
    clock := first;
    if state.Some? {
      store.Forget(start.fileId, io(clock));
    }
    p, clock := Tick(p, io), clock + 1;
    ok, clock := Install(store, link, start, accepts, state, tmp, pos, hasher, nextIndex, io, clock, p);
  }

  /** Rename, copy or extract. */
  method Install(store: Store, link: Link, start: Message, accepts: bool, state: Option<ResumeState>, tmp: nat,
                 pos: nat, hasher: Bytes, nextIndex: int, io: Outcomes, first: nat, ghost from: Point)
    returns (ok: bool, clock: nat)
    requires At(from, Machine.Place, store, link, first, accepts, start, state, tmp, pos, hasher, nextIndex)
    requires tmp in store.temps
    modifies store
    ensures var end := RunFile(from, io);
            && store.View() == end.c.disk && link.inbox == end.c.inbox && link.sent == end.c.sent
            && clock == end.clock && ok == (end.c.r.pc == Machine.Saved)
  {
    ghost var p := Tick(from, io);
    assert p.c == Machine.PlaceStep(from.c, io(first));
    var placed: bool;
    if Paths.IsArchive(start.name) {
      placed := store.Unpack(tmp, io(first));
    } else {
      placed := store.Place(tmp, Paths.JoinPaths(Archive.DirPath(store.dir), Paths.Base(start.name)), io(first));
    }
    ok, clock := Leave(store, link, tmp, placed, io, first + 1, p);
  }

  /** Return, with the deferred removal. */
  method Leave(store: Store, link: Link, tmp: nat, placed: bool, io: Outcomes, first: nat, ghost from: Point)
    returns (ok: bool, clock: nat)
    requires from.clock == first && from.c.r.pc == (if placed then Machine.Finish else Machine.Abort)
             && from.c.r.temp == tmp
    requires from.c.disk == store.View() && from.c.inbox == link.inbox && from.c.sent == link.sent
    modifies store
    ensures var end := RunFile(from, io);
            && store.View() == end.c.disk && link.inbox == end.c.inbox && link.sent == end.c.sent
            && clock == end.clock && ok == (end.c.r.pc == Machine.Saved)
  {
    store.Remove(tmp, io(first));
    ghost var p := Tick(from, io);
    ok, clock := placed, first + 1;
  }

  method ReceiveFiles(store: Store, link: Link, accepts: bool, io: Outcomes, ghost from: Point)
    returns (ok: bool)
    requires Before(from, Machine.Idle, store, link, 0, accepts, from.c.r.start)
    modifies store, link
    ensures var end := RunSession(from, io);
            && store.View() == end.c.disk && link.inbox == end.c.inbox && link.sent == end.c.sent
            && end.c.r.pc == Machine.Exit(ok)
  {
    var clock := 0;
    ghost var p := from;
    while true
      invariant p.c.r.pc in {Machine.Idle, Machine.Saved}
      invariant Before(p, p.c.r.pc, store, link, clock, accepts, p.c.r.start)
      invariant RunSession(p, io) == RunSession(from, io)
      decreases |link.inbox|
    {
      var msg := link.ReceiveMessage(io(clock));
      p, clock := Tick(p, io), clock + 1;
      if msg.None? {
        return true;
      }
      if msg.value.kind != FileStart {
        return false;
      }
      ghost var end := RunFile(p, io);
      FileEnds(p, io);
      FileThenRest(p, io);
      var received;
      received, clock := ReceiveOneFile(store, link, msg.value, accepts, io, clock, p);
      p := end;
      if !received {
        return false;
      }
    }
  }
}
