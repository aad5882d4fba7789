/** handleRelayConn (internal/tunnel/relay.go) as it is written: one sequential handler over shared
    state. Wherever the scheduler may switch, the handlers of other connections, their clients and
    their bridges may do anything first. */
module RelayServer {
  import opened Protocol
  import opened Relay
  import opened Pairing
  import opened RelayRuns

  /** A scheduling point: what the others do, and then how this handler's next operation ends. */
  datatype Slot = Slot(others: seq<Event>, ok: bool, part: nat, toReceiver: bool, n: nat)

  /** Without further slots the connection breaks, or the timer fires. */
  function First(slots: seq<Slot>): Slot {
    if slots == [] then Slot([], false, 0, true, 0) else slots[0]
  }

  function Rest(slots: seq<Slot>): seq<Slot> { if slots == [] then [] else slots[1..] }

  predicate OfOthers(e: Event, i: nat) {
    (e.Handle? || e.Fetch? || e.Emit? || e.Hangup?) ==> e.i != i
  }

  predicate AllOfOthers(slots: seq<Slot>, i: nat) {
    forall slot <- slots, e <- slot.others :: OfOthers(e, i)
  }

  /** The handler of a connection is at work, and has not handed it over. */
  predicate AtWork(pc: Pc) { !pc.Handed? && !pc.Bridged? && !pc.Dropped? && pc !in {Left, Ended} }

  /** What the others cannot change. */
  predicate Kept(c: Conn, c': Conn) {
    && c'.pc == c.pc && c'.code == c.code && c'.closed == c.closed
    && c'.out == c.out && c'.read == c.read && c'.held == c.held && c'.cut == c.cut && c.wrote <= c'.wrote
  }

  lemma OtherHandlerKeeps(s: State, w: Wire, e: Event, i: nat)
    requires Paired(s) && i < |s.conns| && AtWork(s.conns[i].pc) && !s.conns[i].pc.Bridging?
    requires e.Handle? && e.i != i
    ensures i < |Next(s, w, e).conns| && Kept(s.conns[i], Next(s, w, e).conns[i])
  {
    if e.i < |s.conns| {
      match s.conns[e.i].pc
      case Announcing(_) => assert SenderOk(s, e.i);
      case Reading => case LookingUp => case Handing(_) => case Accepting(_) => case Refusing(_) =>
      case _ =>
    }
  }

  lemma OtherHandlerKeepsBridge(s: State, w: Wire, e: Event, i: nat)
    requires Paired(s) && i < |s.conns| && s.conns[i].pc.Bridging? && e.Handle? && e.i != i
    ensures i < |Next(s, w, e).conns| && Next(s, w, e).conns[i] == s.conns[i]
  {
    if e.i < |s.conns| {
      match s.conns[e.i].pc
      case Announcing(_) => assert SenderOk(s, e.i);
      case Handing(_) => assert ClaimOk(s, e.i);
      case LookingUp =>
        if s.conns[e.i].code in s.pending {
          assert EntryOk(s, s.conns[e.i].code);
        }
      case Reading => case Accepting(_) => case Refusing(_) =>
      case _ =>
    }
  }

  lemma OtherBridgeKeeps(s: State, w: Wire, e: Event, i: nat)
    requires Paired(s) && i < |s.conns| && AtWork(s.conns[i].pc)
    requires (e.Fetch? || e.Emit? || e.Hangup?) && e.i != i
    ensures i < |Next(s, w, e).conns| && Kept(s.conns[i], Next(s, w, e).conns[i])
  {
    if e.i < |s.conns| {
      assert SenderOk(s, e.i);
    }
  }

  lemma OtherKeeps(s: State, w: Wire, e: Event, i: nat)
    requires Paired(s) && i < |s.conns| && AtWork(s.conns[i].pc) && OfOthers(e, i)
    ensures i < |Next(s, w, e).conns| && Kept(s.conns[i], Next(s, w, e).conns[i])
  {
    match e
    case Accept =>
    case Write(_, _) =>
    case Handle(_, _, _, _) =>
      if s.conns[i].pc.Bridging? {
        OtherHandlerKeepsBridge(s, w, e, i);
      } else {
        OtherHandlerKeeps(s, w, e, i);
      }
    case _ => OtherBridgeKeeps(s, w, e, i);
  }

  lemma {:induction false} OthersKeep(s: State, w: Wire, es: seq<Event>, i: nat)
    requires Paired(s) && i < |s.conns| && AtWork(s.conns[i].pc) && forall e <- es :: OfOthers(e, i)
    ensures var t := Exec(s, w, es);
            Paired(t) && i < |t.conns| && Kept(s.conns[i], t.conns[i])
    decreases |es|
  {
    if es != [] {
      var next := Next(s, w, es[0]);
      PairedStep(s, w, es[0]);
      OtherKeeps(s, w, es[0], i);
      OthersKeep(next, w, es[1..], i);
    }
  }

  /** A handler's last words: its connection is closed or handed over, no code leads to it any more,
      and of all receivers only the one it took, if any, still names it as its sender's handler. */
  predicate Finished(s: State, i: nat) {
    && i < |s.conns|
    && (s.conns[i].closed || s.conns[i].pc.Handed?)
    && (forall k <- s.pending :: s.pending[k] != i)
    && (forall j | 0 <= j < |s.conns| && Taken(s.conns[i].pc).Some? && Claim(s.conns[j].pc) == Some(i) ::
          Taken(s.conns[i].pc) == Some(j))
  }

  lemma LastWords(s: State, i: nat)
    requires Paired(s) && i < |s.conns| && (s.conns[i].closed || s.conns[i].pc.Handed?)
    requires s.conns[i].pc !in {WritingCode, Waiting, Withdrawing}
    ensures Finished(s, i)
  {
    forall k <- s.pending ensures s.pending[k] != i {
      assert EntryOk(s, k);
    }
    assert SenderOk(s, i);
  }

  class Server {
    const w: Wire
    var conns: seq<Conn>
    var pending: map<Code, nat>
    ghost var trace: seq<Event>

    ghost function View(): State
      reads this
    {
      State(conns, pending)
    }

    /** The shared state is one that some interleaving of the relay leads to. */
    ghost predicate Valid()
      reads this
    {
      View() == Exec(EMPTY, w, trace) && Paired(View())
    }

    constructor (w: Wire)
      ensures Valid() && this.w == w && conns == [] && trace == []
    {
      this.w, conns, pending, trace := w, [], map[], [];
    }

    /** The accept loop. */
    method Accept() returns (i: nat)
      requires Valid()
      modifies this
      ensures Valid() && i == |old(conns)| && conns == old(conns) + [NEW] && pending == old(pending)
    {
      ghost var before := View();
      i := |conns|;
      conns := conns + [NEW];
      Record(before, Relay.Accept);
    }

    /** The state has just made this step. */
    ghost method Record(before: State, e: Event)
      requires before == Exec(EMPTY, w, trace) && Paired(before) && View() == Next(before, w, e)
      modifies this`trace
      ensures Valid() && trace == old(trace) + [e]
    {
      PairedStep(before, w, e);
      One(before, w, e);
      Append(EMPTY, w, trace, [e]);
      trace := trace + [e];
    }

    /** The others' turn. */
    method Others(i: nat, es: seq<Event>)
      requires Valid() && i < |conns| && AtWork(conns[i].pc) && forall e <- es :: OfOthers(e, i)
      modifies this
      ensures Valid() && i < |conns| && Kept(old(conns)[i], conns[i]) && old(trace) <= trace
    {
      ghost var before := View();
      var n := 0;
      while n < |es|
        invariant 0 <= n <= |es| && Valid() && trace == old(trace) + es[..n]
      {
        ghost var now := View();
        var next := Next(State(conns, pending), w, es[n]);
        conns, pending := next.conns, next.pending;
        Record(now, es[n]);
        assert es[..n + 1] == es[..n] + [es[n]];
        n := n + 1;
      }
      assert es[..n] == es;
      Append(EMPTY, w, old(trace), es);
      OthersKeep(before, w, es, i);
    }

    /** relayWrite. */
    method RelayWrite(i: nat, a: Ack, slot: Slot) returns (ok: bool)
      requires i < |conns|
      modifies this`conns
      ensures ok == slot.ok && conns == old(conns)[i := Reply(old(conns)[i], w, a, slot.ok, slot.part)]
    {
      ok := slot.ok;
      var line := AckLine(w, a);
      conns := conns[i := conns[i].(out := conns[i].out + if ok then line else Part(line, slot.part))];
    }

    method CloseConn(i: nat)
      requires i < |conns|
      modifies this`conns
      ensures conns == old(conns)[i := old(conns)[i].(closed := true)]
    {
      conns := conns[i := conns[i].(closed := true)];
    }

    /** Where this handler has got to. */
    method Label(i: nat, pc: Pc)
      requires i < |conns|
      modifies this`conns
      ensures conns == old(conns)[i := old(conns)[i].(pc := pc)]
    {
      conns := conns[i := conns[i].(pc := pc)];
    }

    /** The handler of a new connection, from its first byte to its last. On every exit its
        connection is closed or handed over, its entry is gone, and it has taken one receiver at most. */
    method HandleRelayConn(i: nat, code: Code, slots: seq<Slot>)
      requires Valid() && i < |conns| && conns[i].pc == Reading && conns[i].read == 0 && AllOfOthers(slots, i)
      modifies this
      ensures Valid() && Finished(View(), i) && old(trace) <= trace
    {
      var line: Bytes := [];
      var left := slots;
      while true
        invariant Valid() && i < |conns| && conns[i].pc == Reading && AllOfOthers(left, i) && old(trace) <= trace
        invariant |line| == conns[i].read <= |conns[i].wrote| && conns[i].wrote[..|line|] == line
        decreases |left|
      {
        var slot := First(left);
        Others(i, slot.others);
        ghost var before := View();
        ghost var e := Handle(i, slot.ok, slot.part, code);
        if !slot.ok {
          CloseConn(i);
          Label(i, Ended);
          Record(before, e);
          LastWords(View(), i);
          return;
        }
        left := Rest(left);
        var c := conns[i];
        if c.read < |c.wrote| {
          var b := c.wrote[c.read];
          conns := conns[i := c.(read := c.read + 1)];
          assert c.wrote[..|line|] == line;
          if b == NEWLINE {
            Dispatch(i, w.parse(line), code, left, before, slot);
            return;
          }
          Record(before, e);
          line := line + [b];
        }
      }
    }

    /** The switch on the role. The line has been read, but the others have not yet had a turn. */
    method Dispatch(i: nat, msg: Handshake, code: Code, slots: seq<Slot>, ghost before: State, ghost last: Slot)
      requires before == Exec(EMPTY, w, trace) && Paired(before) && i < |before.conns| && AllOfOthers(slots, i)
      requires var c := before.conns[i];
               && c.pc == Reading && last.ok && c.read < |c.wrote| && c.wrote[c.read] == NEWLINE
               && msg == w.parse(c.wrote[..c.read]) && View() == Put(before, i, c.(read := c.read + 1))
      modifies this
      ensures Valid() && Finished(View(), i) && old(trace) <= trace
    {
      ghost var e := Handle(i, true, last.part, code);
      match msg {
        case AsSender =>
          conns := conns[i := conns[i].(code := code, pc := Registering)];
          Record(before, e);
          ServeSender(i, code, slots);
        case AsReceiver(asked) =>
          conns := conns[i := conns[i].(code := asked, pc := LookingUp)];
          Record(before, e);
          ServeReceiver(i, asked, slots);
        case OtherRole =>
          Label(i, Refusing(BadRole));
          Record(before, e);
          Refuse(i, BadRole, slots);
        case Malformed =>
          CloseConn(i);
          Label(i, Ended);
          Record(before, e);
          LastWords(View(), i);
      }
    }

    method Refuse(i: nat, a: Ack, slots: seq<Slot>)
      requires Valid() && i < |conns| && conns[i].pc == Refusing(a) && AllOfOthers(slots, i)
      modifies this
      ensures Valid() && Finished(View(), i) && old(trace) <= trace
    {
      var slot := First(slots);
      Others(i, slot.others);
      ghost var before := View();
      var _ := RelayWrite(i, a, slot);
      CloseConn(i);
      Label(i, Ended);
      Record(before, Handle(i, slot.ok, slot.part, ""));
      LastWords(View(), i);
    }

    /** Register, tell the code, and wait for a receiver or for the timer. */
    method ServeSender(i: nat, code: Code, slots: seq<Slot>)
      requires Valid() && i < |conns| && conns[i].pc == Registering && conns[i].code == code && AllOfOthers(slots, i)
      modifies this
      ensures Valid() && Finished(View(), i) && old(trace) <= trace
    {
      var slot := First(slots);
      Others(i, slot.others);
      ghost var before := View();
      pending := pending[code := i];
      Label(i, WritingCode);
      Record(before, Handle(i, slot.ok, slot.part, ""));
      TellCode(i, code, Rest(slots));
    }

    method TellCode(i: nat, code: Code, slots: seq<Slot>)
      requires Valid() && i < |conns| && conns[i].pc == WritingCode && conns[i].code == code && AllOfOthers(slots, i)
      modifies this
      ensures Valid() && Finished(View(), i) && old(trace) <= trace
    {
      var slot, left := First(slots), Rest(slots);
      Others(i, slot.others);
      ghost var before := View();
      var ok := RelayWrite(i, CodeAck(code), slot);
      if ok {
        Label(i, Waiting);
        Record(before, Handle(i, slot.ok, slot.part, ""));
        Select(i, code, left);
      } else {
        CloseConn(i);
        Label(i, Withdrawing);
        Record(before, Handle(i, slot.ok, slot.part, ""));
        Withdraw(i, code, left);
      }
    }

    /** delete(pending, code) under the mutex: of the code, whoever is registered under it. */
    method Withdraw(i: nat, code: Code, slots: seq<Slot>)
      requires Valid() && i < |conns| && conns[i].pc == Withdrawing && conns[i].code == code && conns[i].closed
      requires AllOfOthers(slots, i)
      modifies this
      ensures Valid() && Finished(View(), i) && old(trace) <= trace && code !in pending
    {
      var slot := First(slots);
      Others(i, slot.others);
      ghost var before := View();
      pending := pending - {code};
      Label(i, Left);
      Record(before, Handle(i, slot.ok, slot.part, ""));
      LastWords(View(), i);
    }

    /** The select on the channel and the timer. */
    method Select(i: nat, code: Code, slots: seq<Slot>)
      requires Valid() && i < |conns| && conns[i].pc == Waiting && conns[i].code == code && AllOfOthers(slots, i)
      modifies this
      ensures Valid() && Finished(View(), i) && old(trace) <= trace
    {
      var left := slots;
      while true
        invariant Valid() && i < |conns| && conns[i].pc == Waiting && conns[i].code == code
        invariant AllOfOthers(left, i) && old(trace) <= trace
        decreases |left|
      {
        var slot := First(left);
        Others(i, slot.others);
        ghost var before := View();
        if !slot.ok {
          CloseConn(i);
          Label(i, Withdrawing);
          Record(before, Handle(i, slot.ok, slot.part, ""));
          Withdraw(i, code, Rest(left));
          return;
        }
        left := Rest(left);
        var c := conns[i];
        if c.ch.Some? {
          conns := conns[i := c.(ch := None, pc := Announcing(c.ch.value))];
          Record(before, Handle(i, slot.ok, slot.part, ""));
          Join(i, c.ch.value, left);
          return;
        }
      }
    }

    /** A receiver has come: tell the sender, and bridge the two. */
    method Join(i: nat, receiver: nat, slots: seq<Slot>)
      requires Valid() && i < |conns| && conns[i].pc == Announcing(receiver) && AllOfOthers(slots, i)
      modifies this
      ensures Valid() && Finished(View(), i) && old(trace) <= trace
    {
      var slot := First(slots);
      Others(i, slot.others);
      ghost var before := View();
      assert SenderOk(before, i);
      var ok := RelayWrite(i, OkAck, slot);
      if ok {
        Label(i, Bridging(receiver));
        Record(before, Handle(i, slot.ok, slot.part, ""));
        Pipe(i, receiver, Rest(slots));
      } else {
        CloseConn(i);
        CloseConn(receiver);
        Label(i, Dropped(receiver));
        Record(before, Handle(i, slot.ok, slot.part, ""));
        LastWords(View(), i);
      }
    }

    /** pipe: two copies, until one of them ends. */
    method Pipe(i: nat, receiver: nat, slots: seq<Slot>)
      requires Valid() && i < |conns| && conns[i].pc == Bridging(receiver) && AllOfOthers(slots, i)
      modifies this
      ensures Valid() && Finished(View(), i) && old(trace) <= trace
      ensures conns[i].pc == Bridged(receiver) && receiver < |conns| && conns[receiver].closed
    {
      var left := slots;
      var running := true;
      while running
        invariant Valid() && i < |conns| && conns[i].pc == Bridging(receiver)
        invariant AllOfOthers(left, i) && old(trace) <= trace
        decreases |left|, running
      {
        var slot := First(left);
        Others(i, slot.others);
        running := Copy(i, receiver, slot);
        running := running && left != [];
        left := Rest(left);
      }
      ghost var before := View();
      assert SenderOk(before, i);
      CloseConn(i);
      CloseConn(receiver);
      Label(i, Bridged(receiver));
      Record(before, Hangup(i));
      LastWords(View(), i);
    }

    /** One step of io.Copy in one direction: a read into the empty buffer, or the write of what is in
        it. The copy ends when either of them fails. */
    method Copy(i: nat, receiver: nat, slot: Slot) returns (goesOn: bool)
      requires Valid() && i < |conns| && conns[i].pc == Bridging(receiver)
      modifies this
      ensures Valid() && i < |conns| && conns[i].pc == Bridging(receiver) && old(trace) <= trace
    {
      assert SenderOk(View(), i);
      var from := if slot.toReceiver then i else receiver;
      var a := conns[from];
      if a.held == 0 {
        goesOn := slot.ok && !a.closed && !a.cut;
        if goesOn && a.read + slot.n <= |a.wrote| {
          ghost var before := View();
          conns := conns[from := a.(held := slot.n)];
          Record(before, Fetch(i, slot.toReceiver, slot.n));
        }
      } else {
        goesOn := !a.cut && a.read <= |a.wrote|;
        if goesOn {
          goesOn := WriteOn(i, receiver, from, if slot.toReceiver then receiver else i, slot);
        }
      }
    }

    method WriteOn(i: nat, receiver: nat, from: nat, to: nat, slot: Slot) returns (works: bool)
      requires Valid() && i < |conns| && conns[i].pc == Bridging(receiver) && receiver < |conns| && receiver != i
      requires from == (if slot.toReceiver then i else receiver) && to == (if slot.toReceiver then receiver else i)
      requires !conns[from].cut && conns[from].read <= |conns[from].wrote|
      modifies this
      ensures Valid() && i < |conns| && conns[i].pc == Bridging(receiver) && old(trace) <= trace
      ensures works ==> slot.ok
    {
      ghost var before, e := View(), Emit(i, slot.toReceiver, slot.ok, slot.part);
      assert Next(before, w, e) == EmitStep(before, from, to, slot.ok, slot.part);
      var a := conns[from];
      var data := Cut(a.wrote[a.read..], a.held);
      works := slot.ok && !conns[to].closed;
      if !works {
        data := Cut(data, slot.part);
      }
      conns := conns[from := a.(read := a.read + |data|, held := 0, cut := !works)];
      conns := conns[to := conns[to].(out := conns[to].out + data)];
      assert View() == EmitStep(before, from, to, slot.ok, slot.part);
      Record(before, e);
    }

    /** Claim the sender, acknowledge, and hand this connection over. */
    method ServeReceiver(i: nat, code: Code, slots: seq<Slot>)
      requires Valid() && i < |conns| && conns[i].pc == LookingUp && conns[i].code == code && AllOfOthers(slots, i)
      modifies this
      ensures Valid() && Finished(View(), i) && old(trace) <= trace
    {
      var slot := First(slots);
      Others(i, slot.others);
      ghost var before := View();
      if code !in pending {
        Label(i, Refusing(UnknownCode));
        Record(before, Handle(i, slot.ok, slot.part, ""));
        Refuse(i, UnknownCode, Rest(slots));
        return;
      }
      var p := ClaimSender(i, code, slot);
      Accepted(i, p, Rest(slots));
    }

    /** Look the code up and take it from the map, in one critical section. */
    method ClaimSender(i: nat, code: Code, slot: Slot) returns (p: nat)
      requires Valid() && i < |conns| && conns[i].pc == LookingUp && conns[i].code == code && code in pending
      modifies this
      ensures Valid() && i < |conns| && conns[i].pc == Accepting(p) && old(trace) <= trace
      ensures p == old(pending)[code] && pending == old(pending) - {code}
    {
      ghost var before := View();
      assert EntryOk(before, code);
      p := pending[code];
      pending := pending - {code};
      conns := conns[p := conns[p].(claimed := true)];
      Label(i, Accepting(p));
      Record(before, Handle(i, slot.ok, slot.part, ""));
    }

    /** The sender is this receiver's: acknowledge. */
    method Accepted(i: nat, p: nat, slots: seq<Slot>)
      requires Valid() && i < |conns| && conns[i].pc == Accepting(p) && AllOfOthers(slots, i)
      modifies this
      ensures Valid() && Finished(View(), i) && old(trace) <= trace
    {
      var slot := First(slots);
      Others(i, slot.others);
      ghost var before := View();
      var ok := RelayWrite(i, OkAck, slot);
      if !ok {
        CloseConn(i);
        Label(i, Ended);
        Record(before, Handle(i, slot.ok, slot.part, ""));
        LastWords(View(), i);
        return;
      }
      Label(i, Handing(p));
      Record(before, Handle(i, slot.ok, slot.part, ""));
      HandOver(i, p, Rest(slots));
    }

    /** p.ch <- conn. The channel is empty, so this never blocks. */
    method HandOver(i: nat, p: nat, slots: seq<Slot>)
      requires Valid() && i < |conns| && conns[i].pc == Handing(p) && AllOfOthers(slots, i)
      modifies this
      ensures Valid() && Finished(View(), i) && old(trace) <= trace
      ensures conns[i].pc == Handed(p) && p < |conns| && conns[p].ch == Some(i)
    {
      var slot := First(slots);
      Others(i, slot.others);
      ghost var before := View();
      assert ClaimOk(before, i);
      assert conns[p].ch == None;
      conns := conns[p := conns[p].(ch := Some(i))];
      Label(i, Handed(p));
      Record(before, Handle(i, slot.ok, slot.part, ""));
      LastWords(View(), i);
    }
  }
}
