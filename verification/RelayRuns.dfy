/** Runs of the relay put together from smaller ones. */
module RelayRuns {
  import opened Protocol
  import opened Relay

  lemma {:induction false} Append(s: State, w: Wire, es: seq<Event>, more: seq<Event>)
    ensures Exec(s, w, es + more) == Exec(Exec(s, w, es), w, more)
    decreases |es|
  {
    if es == [] {
      assert es + more == more;
    } else {
      assert (es + more)[1..] == es[1..] + more;
      Append(Next(s, w, es[0]), w, es[1..], more);
    }
  }

  lemma One(s: State, w: Wire, e: Event)
    ensures Exec(s, w, [e]) == Next(s, w, e)
  {
    assert [e][1..] == [];
    assert Exec(Next(s, w, e), w, []) == Next(s, w, e);
  }

  lemma Two(s: State, w: Wire, e: Event, f: Event)
    ensures Exec(s, w, [e, f]) == Next(Next(s, w, e), w, f)
  {
    assert [e, f][1..] == [f];
    One(Next(s, w, e), w, f);
  }

  /** A step in which nothing fails. */
  function Turn(i: nat, code: Code): Event { Handle(i, true, 0, code) }

  /** relayRead, one byte a step. */
  lemma {:induction false} ReadsLine(s: State, w: Wire, i: nat, line: Bytes, code: Code) returns (es: seq<Event>)
    requires i < |s.conns| && s.conns[i].pc == Reading && s.conns[i].read <= |line|
    requires NEWLINE !in line && s.conns[i].wrote == line + [NEWLINE]
    ensures Exec(s, w, es) == ReadStep(Put(s, i, s.conns[i].(read := |line|)), w, i, true, code)
    decreases |line| - s.conns[i].read
  {
    var c := s.conns[i];
    var e := Turn(i, code);
    if c.read == |line| {
      assert Put(s, i, c.(read := |line|)) == s;
      One(s, w, e);
      es := [e];
    } else {
      assert c.wrote[c.read] == line[c.read] != NEWLINE;
      var next := Put(s, i, c.(read := c.read + 1));
      assert Next(s, w, e) == next;
      assert Put(next, i, next.conns[i].(read := |line|)) == Put(s, i, c.(read := |line|));
      var rest := ReadsLine(next, w, i, line, code);
      es := [e] + rest;
      assert es[1..] == rest;
    }
  }

  /** A client whose handshake line has been read. */
  function Arrived(line: Bytes, pc: Pc, code: Code): Conn {
    NEW.(pc := pc, code := code, wrote := line + [NEWLINE], read := |line| + 1)
  }

  function Joined(s: State, c: Conn): State { s.(conns := s.conns + [c]) }

  /** A client connects and writes its line. */
  function Connected(line: Bytes): Conn { NEW.(wrote := line + [NEWLINE]) }

  lemma Connects(s: State, w: Wire, line: Bytes)
    ensures Exec(s, w, [Accept, Write(|s.conns|, line + [NEWLINE])]) == Joined(s, Connected(line))
  {
    Two(s, w, Accept, Write(|s.conns|, line + [NEWLINE]));
    var s1 := Joined(s, NEW);
    assert Next(s, w, Accept) == s1;
    assert NEW.wrote + (line + [NEWLINE]) == line + [NEWLINE];
    assert s1.conns[|s.conns| := Connected(line)] == s.conns + [Connected(line)];
  }

  /** What relayRead makes of the line. */
  function Dispatched(w: Wire, line: Bytes, code: Code): Conn {
    if w.parse(line).AsReceiver? then Arrived(line, LookingUp, w.parse(line).code) else Arrived(line, Registering, code)
  }

  lemma ReadsAll(s: State, w: Wire, line: Bytes, code: Code)
    requires w.parse(line) == AsSender || w.parse(line).AsReceiver?
    ensures ReadStep(Joined(s, Connected(line).(read := |line|)), w, |s.conns|, true, code) ==
            Joined(s, Dispatched(w, line, code))
  {
    var c := Connected(line).(read := |line|);
    assert c.wrote[..|line|] == line;
    assert (s.conns + [c])[|s.conns| := Dispatched(w, line, code)] == s.conns + [Dispatched(w, line, code)];
  }

  lemma Arrives(s: State, w: Wire, line: Bytes, code: Code) returns (es: seq<Event>)
    requires NEWLINE !in line
    requires w.parse(line) == AsSender || w.parse(line).AsReceiver?
    ensures Exec(s, w, es) == Joined(s, Dispatched(w, line, code))
  {
    var n := |s.conns|;
    var start := [Accept, Write(n, line + [NEWLINE])];
    var s1 := Joined(s, Connected(line));
    Connects(s, w, line);
    var rest := ReadsLine(s1, w, n, line, code);
    var c := Connected(line).(read := |line|);
    assert Put(s1, n, s1.conns[n].(read := |line|)).conns == s.conns + [c];
    ReadsAll(s, w, line, code);
    Append(s, w, start, rest);
    es := start + rest;
  }

  /** A sender that has its code and waits. */
  function Listed(w: Wire, line: Bytes, code: Code): Conn {
    Arrived(line, Waiting, code).(out := AckLine(w, CodeAck(code)))
  }

  lemma SenderGetsReady(s: State, w: Wire, line: Bytes, code: Code) returns (es: seq<Event>)
    requires NEWLINE !in line && w.parse(line) == AsSender
    ensures Exec(s, w, es) == State(s.conns + [Listed(w, line, code)], s.pending[code := |s.conns|])
  {
    var n := |s.conns|;
    var arrive := Arrives(s, w, line, code);
    var s1 := Exec(s, w, arrive);
    Two(s1, w, Turn(n, code), Turn(n, code));
    var s2 := Next(s1, w, Turn(n, code));
    assert s2 == State(s.conns + [Arrived(line, WritingCode, code)], s.pending[code := n]);
    assert [] + AckLine(w, CodeAck(code)) == AckLine(w, CodeAck(code));
    assert Next(s2, w, Turn(n, code)).conns == s.conns + [Listed(w, line, code)];
    Append(s, w, arrive, [Turn(n, code), Turn(n, code)]);
    es := arrive + [Turn(n, code), Turn(n, code)];
  }
}
