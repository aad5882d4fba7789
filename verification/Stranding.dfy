/** Which acknowledged receivers the relay serves. */
module Stranding {
  import opened Protocol
  import opened Relay
  import opened Pairing
  import opened RelayRuns

  /** A receiver that has been told that all is well. */
  predicate Acknowledged(pc: Pc) { pc.Handing? || pc.Handed? }

  predicate GaveUp(pc: Pc) { pc in {Withdrawing, Left} }

  /** The sender of an acknowledged receiver has left without it, because of its timer or because
      its code could not be written. */
  predicate Stranded(s: State, r: nat) {
    && r < |s.conns| && Acknowledged(s.conns[r].pc)
    && s.conns[r].pc.sender < |s.conns|
    && GaveUp(s.conns[s.conns[r].pc.sender].pc)
  }

  predicate BridgedBy(s: State, i: nat, r: nat) {
    i < |s.conns| && (s.conns[i].pc == Bridging(r) || s.conns[i].pc == Bridged(r))
  }

  /** The receiver has its bridge, or learns that there will be none. */
  predicate Served(s: State, r: nat) {
    && r < |s.conns|
    && (s.conns[r].closed || exists i :: 0 <= i < |s.conns| && BridgedBy(s, i, r))
  }

  predicate Done(pc: Pc) { pc.Bridged? || pc.Dropped? }

  /** Who is closed: nobody who still waits for its handler, nor a receiver before its bridge is over. */
  predicate OpenAt(s: State, i: nat)
    requires i < |s.conns|
  {
    var c := s.conns[i];
    && (c.pc in {Reading, LookingUp} || c.pc.Accepting? || c.pc.Handing? ==> !c.closed)
    && (c.pc.Handed? && c.closed ==>
          c.pc.sender < |s.conns| && Done(s.conns[c.pc.sender].pc) && Taken(s.conns[c.pc.sender].pc) == Some(i))
    && (Done(c.pc) ==> Taken(c.pc).value < |s.conns| && s.conns[Taken(c.pc).value].closed)
  }

  predicate Open(s: State) { forall i | 0 <= i < |s.conns| :: OpenAt(s, i) }

  lemma PutOpen(s: State, i: nat, c: Conn)
    requires Open(s) && i < |s.conns| && OpenAt(Put(s, i, c), i)
    requires s.conns[i].closed ==> c.closed
    requires Done(s.conns[i].pc) ==> c.pc == s.conns[i].pc
    ensures Open(Put(s, i, c))
  {
    var t := Put(s, i, c);
    forall j | 0 <= j < |t.conns| ensures OpenAt(t, j) {
      assert OpenAt(s, j);
    }
  }

  /** A change of bytes, flags and code only. */
  lemma SamePcOpen(s: State, i: nat, c: Conn)
    requires Open(s) && i < |s.conns| && c.pc == s.conns[i].pc && c.closed == s.conns[i].closed
    ensures Open(Put(s, i, c))
  {
    assert OpenAt(s, i);
    PutOpen(s, i, c);
  }

  lemma MapOpen(s: State, pending: map<Code, nat>)
    requires Open(s)
    ensures Open(s.(pending := pending))
  {
    forall j | 0 <= j < |s.conns| ensures OpenAt(s.(pending := pending), j) {
      assert OpenAt(s, j);
    }
  }

  /** A sender's end: it and its receiver are closed. */
  lemma EndOpen(s: State, i: nat, c: Conn)
    requires Paired(s) && Open(s) && i < |s.conns| && (s.conns[i].pc.Announcing? || s.conns[i].pc.Bridging?)
    requires Done(c.pc) && Taken(c.pc) == Taken(s.conns[i].pc) && c.closed
    ensures Open(Close(Put(s, i, c), Taken(c.pc).value))
  {
    var r := Taken(c.pc).value;
    assert SenderOk(s, i);
    var t := Close(Put(s, i, c), r);
    forall j | 0 <= j < |t.conns| ensures OpenAt(t, j) {
      assert OpenAt(s, j) && ClaimOk(s, j);
    }
  }

  lemma ReadOpen(s: State, w: Wire, i: nat, ok: bool, code: Code)
    requires Open(s) && i < |s.conns| && s.conns[i].pc == Reading
    ensures Open(ReadStep(s, w, i, ok, code))
  {
    var t := ReadStep(s, w, i, ok, code);
    assert OpenAt(s, i);
    if t != s {
      PutOpen(s, i, t.conns[i]);
    }
  }

  lemma QuietOpen(s: State, w: Wire, i: nat, ok: bool, part: nat, code: Code)
    requires Open(s) && i < |s.conns|
    requires s.conns[i].pc in {Registering, WritingCode, Waiting, Withdrawing}
             || s.conns[i].pc.Refusing? || s.conns[i].pc.Accepting?
    ensures Open(HandleStep(s, w, i, ok, part, code))
  {
    var t := HandleStep(s, w, i, ok, part, code);
    assert OpenAt(s, i);
    if t != s {
      PutOpen(s, i, t.conns[i]);
      MapOpen(Put(s, i, t.conns[i]), t.pending);
    }
  }

  lemma LookUpOpen(s: State, w: Wire, i: nat, ok: bool, part: nat, code: Code)
    requires Paired(s) && Open(s) && i < |s.conns| && s.conns[i].pc == LookingUp
    ensures Open(HandleStep(s, w, i, ok, part, code))
  {
    var c := s.conns[i];
    assert OpenAt(s, i);
    if c.code in s.pending {
      assert EntryOk(s, c.code);
      var p := s.pending[c.code];
      SamePcOpen(s, p, s.conns[p].(claimed := true));
      var s1 := Put(s, p, s.conns[p].(claimed := true));
      PutOpen(s1, i, c.(pc := Accepting(p)));
      MapOpen(Put(s1, i, c.(pc := Accepting(p))), s.pending - {c.code});
    } else {
      PutOpen(s, i, c.(pc := Refusing(UnknownCode)));
    }
  }

  lemma HandOpen(s: State, w: Wire, i: nat, ok: bool, part: nat, code: Code)
    requires Paired(s) && Open(s) && i < |s.conns| && s.conns[i].pc.Handing?
    ensures Open(HandleStep(s, w, i, ok, part, code))
  {
    var p := s.conns[i].pc.sender;
    assert OpenAt(s, i) && ClaimOk(s, i);
    SamePcOpen(s, p, s.conns[p].(ch := Some(i)));
    PutOpen(Put(s, p, s.conns[p].(ch := Some(i))), i, s.conns[i].(pc := Handed(p)));
  }

  lemma AnnounceOpen(s: State, w: Wire, i: nat, ok: bool, part: nat, code: Code)
    requires Paired(s) && Open(s) && i < |s.conns| && s.conns[i].pc.Announcing?
    ensures Open(HandleStep(s, w, i, ok, part, code))
  {
    var r := s.conns[i].pc.peer;
    var c' := Reply(s.conns[i], w, OkAck, ok, part);
    if ok {
      assert OpenAt(s, i);
      PutOpen(s, i, c'.(pc := Bridging(r)));
    } else {
      EndOpen(s, i, c'.(pc := Dropped(r), closed := true));
    }
  }

  lemma HandleOpen(s: State, w: Wire, i: nat, ok: bool, part: nat, code: Code)
    requires Paired(s) && Open(s) && i < |s.conns|
    ensures Open(HandleStep(s, w, i, ok, part, code))
  {
    match s.conns[i].pc
    case Reading => ReadOpen(s, w, i, ok, code);
    case LookingUp => LookUpOpen(s, w, i, ok, part, code);
    case Handing(_) => HandOpen(s, w, i, ok, part, code);
    case Announcing(_) => AnnounceOpen(s, w, i, ok, part, code);
    case Bridging(_) => case Bridged(_) => case Dropped(_) => case Handed(_) => case Left => case Ended =>
    case _ => QuietOpen(s, w, i, ok, part, code);
  }

  lemma CopyOpen(s: State, w: Wire, e: Event)
    requires Open(s) && (e.Fetch? || e.Emit?)
    ensures Open(Next(s, w, e))
  {
    if Bridges(s, e.i) {
      var from, to := Source(s, e.i, e.toReceiver), Source(s, e.i, !e.toReceiver);
      var t := Next(s, w, e);
      if t != s {
        SamePcOpen(s, from, t.conns[from]);
        if e.Emit? {
          SamePcOpen(Put(s, from, t.conns[from]), to, t.conns[to]);
        }
      }
    }
  }

  lemma AcceptOpen(s: State)
    requires Open(s)
    ensures Open(s.(conns := s.conns + [NEW]))
  {
    var t := s.(conns := s.conns + [NEW]);
    forall j | 0 <= j < |t.conns| ensures OpenAt(t, j) {
      assert j < |s.conns| ==> OpenAt(s, j);
    }
  }

  lemma OpenStep(s: State, w: Wire, e: Event)
    requires Paired(s) && Open(s)
    ensures Open(Next(s, w, e))
  {
    match e
    case Accept => AcceptOpen(s);
    case Write(i, data) =>
      if i < |s.conns| {
        SamePcOpen(s, i, s.conns[i].(wrote := s.conns[i].wrote + data));
      }
    case Handle(i, ok, part, code) =>
      if i < |s.conns| {
        HandleOpen(s, w, i, ok, part, code);
      }
    case Hangup(i) =>
      if i < |s.conns| && s.conns[i].pc.Bridging? {
        EndOpen(s, i, s.conns[i].(pc := Bridged(s.conns[i].pc.peer), closed := true));
      }
    case _ => CopyOpen(s, w, e);
  }

  lemma {:induction false} OpenRun(s: State, w: Wire, es: seq<Event>)
    requires Paired(s) && Open(s)
    ensures Paired(Exec(s, w, es)) && Open(Exec(s, w, es))
    decreases |es|
  {
    if es != [] {
      PairedStep(s, w, es[0]);
      OpenStep(s, w, es[0]);
      OpenRun(Next(s, w, es[0]), w, es[1..]);
    }
  }

  /** The receiver has not moved except onto its sender's channel, and has been sent nothing. */
  predicate Untouched(s: State, t: State, r: nat) {
    && r < |s.conns| && r < |t.conns|
    && Acknowledged(s.conns[r].pc) && Acknowledged(t.conns[r].pc) && t.conns[r].pc.sender == s.conns[r].pc.sender
    && t.conns[r].out == s.conns[r].out
  }

  lemma HandleTouches(s: State, w: Wire, i: nat, ok: bool, part: nat, code: Code, r: nat)
    requires i < |s.conns| && r < |s.conns| && Acknowledged(s.conns[r].pc)
    ensures Untouched(s, HandleStep(s, w, i, ok, part, code), r)
  {
  }

  lemma LeaverHandles(s: State, w: Wire, i: nat, ok: bool, part: nat, code: Code, p: nat)
    requires i < |s.conns| && p < |s.conns| && GaveUp(s.conns[p].pc)
    ensures var t := HandleStep(s, w, i, ok, part, code);
            p < |t.conns| && GaveUp(t.conns[p].pc)
  {
    if i == p {
      assert HandleStep(s, w, i, ok, part, code).conns[p].pc == Left;
    }
  }

  lemma LeaverStays(s: State, w: Wire, e: Event, p: nat)
    requires p < |s.conns| && GaveUp(s.conns[p].pc)
    ensures p < |Next(s, w, e).conns| && GaveUp(Next(s, w, e).conns[p].pc)
  {
    if e.Handle? && e.i < |s.conns| {
      LeaverHandles(s, w, e.i, e.ok, e.part, e.code, p);
    }
  }

  /** No bridge has a stranded receiver at either end. */
  lemma StrandedIsApart(s: State, i: nat, r: nat)
    requires Paired(s) && Stranded(s, r) && Bridges(s, i)
    ensures i != r && s.conns[i].pc.peer != r
  {
    assert SenderOk(s, i);
  }

  lemma CopyTouches(s: State, w: Wire, e: Event, r: nat)
    requires Paired(s) && Stranded(s, r) && (e.Fetch? || e.Emit?)
    ensures Untouched(s, Next(s, w, e), r)
  {
    if Bridges(s, e.i) {
      StrandedIsApart(s, e.i, r);
    }
  }

  lemma HangupTouches(s: State, w: Wire, i: nat, r: nat)
    requires Paired(s) && Stranded(s, r)
    ensures Untouched(s, Next(s, w, Hangup(i)), r)
  {
  }

  lemma StrandedStep(s: State, w: Wire, e: Event, r: nat)
    requires Paired(s) && Stranded(s, r)
    ensures Stranded(Next(s, w, e), r) && Untouched(s, Next(s, w, e), r)
  {
    LeaverStays(s, w, e, s.conns[r].pc.sender);
    match e
    case Handle(i, ok, part, code) =>
      if i < |s.conns| {
        HandleTouches(s, w, i, ok, part, code, r);
      }
    case Accept =>
    case Write(_, _) =>
    case Hangup(i) => HangupTouches(s, w, i, r);
    case _ => CopyTouches(s, w, e, r);
  }

  lemma {:induction false} StrandedRun(s: State, w: Wire, es: seq<Event>, r: nat)
    requires Paired(s) && Stranded(s, r)
    ensures Stranded(Exec(s, w, es), r) && Untouched(s, Exec(s, w, es), r)
    decreases |es|
  {
    if es != [] {
      StrandedStep(s, w, es[0], r);
      PairedStep(s, w, es[0]);
      StrandedRun(Next(s, w, es[0]), w, es[1..], r);
    }
  }

  lemma StrandedIsNotServed(s: State, r: nat)
    requires Paired(s) && Open(s) && Stranded(s, r)
    ensures !Served(s, r)
  {
    assert OpenAt(s, r);
    forall i | 0 <= i < |s.conns| ensures !BridgedBy(s, i, r) {
      assert SenderOk(s, i);
    }
  }

  /** From then on, in every continuation, it is neither bridged nor closed, and is sent no byte. */
  lemma StrandedForever(s: State, w: Wire, es: seq<Event>, r: nat)
    requires Paired(s) && Open(s) && Stranded(s, r)
    ensures !Served(Exec(s, w, es), r) && Untouched(s, Exec(s, w, es), r)
  {
    StrandedRun(s, w, es, r);
    OpenRun(s, w, es);
    StrandedIsNotServed(Exec(s, w, es), r);
  }

  /** What the sender's handler still has to do for a receiver that has been handed to it. */
  function Ahead(pc: Pc): nat {
    match pc
    case WritingCode => 3
    case Waiting => 2
    case Announcing(_) => 1
    case _ => 0
  }

  lemma HandlerAdvances(s: State, w: Wire, r: nat, p: nat)
    requires Paired(s) && r < |s.conns| && s.conns[r].pc == Handed(p)
    requires p < |s.conns| && !GaveUp(s.conns[p].pc) && Ahead(s.conns[p].pc) > 0
    ensures var t := Next(s, w, Turn(p, ""));
            && r < |t.conns| && t.conns[r].pc == Handed(p)
            && p < |t.conns| && !GaveUp(t.conns[p].pc) && Ahead(t.conns[p].pc) < Ahead(s.conns[p].pc)
  {
    assert ClaimOk(s, r) && SenderOk(s, p);
  }

  lemma NoneAhead(s: State, r: nat, p: nat)
    requires Paired(s) && Open(s) && r < |s.conns| && s.conns[r].pc == Handed(p)
    requires p < |s.conns| && !GaveUp(s.conns[p].pc) && Ahead(s.conns[p].pc) == 0
    ensures Served(s, r)
  {
    assert ClaimOk(s, r) && SenderOk(s, p) && OpenAt(s, p);
    assert Done(s.conns[p].pc) || s.conns[p].pc.Bridging?;
    if !s.conns[p].pc.Dropped? {
      assert BridgedBy(s, p, r);
    }
  }

  lemma {:induction false} SenderServes(s: State, w: Wire, r: nat, p: nat) returns (es: seq<Event>)
    requires Paired(s) && Open(s) && r < |s.conns| && s.conns[r].pc == Handed(p)
    requires p < |s.conns| && !GaveUp(s.conns[p].pc)
    ensures Served(Exec(s, w, es), r)
    decreases Ahead(s.conns[p].pc)
  {
    if Ahead(s.conns[p].pc) == 0 {
      NoneAhead(s, r, p);
      es := [];
    } else {
      var e := Turn(p, "");
      HandlerAdvances(s, w, r, p);
      PairedStep(s, w, e);
      OpenStep(s, w, e);
      var rest := SenderServes(Next(s, w, e), w, r, p);
      One(s, w, e);
      Append(s, w, [e], rest);
      es := [e] + rest;
    }
  }

  lemma HandsOver(s: State, w: Wire, r: nat, p: nat)
    requires Paired(s) && r < |s.conns| && s.conns[r].pc == Handing(p)
    requires p < |s.conns| && !GaveUp(s.conns[p].pc)
    ensures var t := Next(s, w, Turn(r, ""));
            && r < |t.conns| && t.conns[r].pc == Handed(p)
            && p < |t.conns| && !GaveUp(t.conns[p].pc)
  {
    assert ClaimOk(s, r);
  }

  lemma ServesUnlessStranded(s: State, w: Wire, r: nat) returns (es: seq<Event>)
    requires Paired(s) && Open(s) && r < |s.conns| && Acknowledged(s.conns[r].pc) && !Stranded(s, r)
    ensures Served(Exec(s, w, es), r)
  {
    var p := s.conns[r].pc.sender;
    assert ClaimOk(s, r);
    if s.conns[r].pc.Handed? {
      es := SenderServes(s, w, r, p);
    } else {
      var e := Turn(r, "");
      HandsOver(s, w, r, p);
      PairedStep(s, w, e);
      OpenStep(s, w, e);
      var rest := SenderServes(Next(s, w, e), w, r, p);
      One(s, w, e);
      Append(s, w, [e], rest);
      es := [e] + rest;
    }
  }

  predicate ServedAfter(s: State, w: Wire, es: seq<Event>, r: nat) { Served(Exec(s, w, es), r) }

  ghost predicate CanBeServed(s: State, w: Wire, r: nat) {
    exists es :: ServedAfter(s, w, es, r)
  }

  /** In every state of the relay, an acknowledged receiver has, or can still get, its bridge or the
      end of its connection exactly if its sender has not given up; otherwise it waits for ever. */
  lemma ServedUnlessStranded(w: Wire, es: seq<Event>, r: nat)
    requires r < |Exec(EMPTY, w, es).conns| && Acknowledged(Exec(EMPTY, w, es).conns[r].pc)
    ensures CanBeServed(Exec(EMPTY, w, es), w, r) <==> !Stranded(Exec(EMPTY, w, es), r)
  {
    OpenRun(EMPTY, w, es);
    var s := Exec(EMPTY, w, es);
    if Stranded(s, r) {
      forall more ensures !ServedAfter(s, w, more, r) {
        StrandedForever(s, w, more, r);
      }
    } else {
      var more := ServesUnlessStranded(s, w, r);
      assert ServedAfter(s, w, more, r);
    }
  }

  /** A sender waits, and a receiver has asked for it. */
  predicate Asked(s: State, w: Wire, code: Code) {
    && |s.conns| == 2 && s.pending == map[code := 0]
    && s.conns[0].pc == Waiting && s.conns[0].code == code && s.conns[0].ch == None
    && s.conns[1].pc == LookingUp && s.conns[1].code == code && s.conns[1].ch == None && s.conns[1].out == []
  }

  lemma ReceiverAsks(w: Wire, line: Bytes, request: Bytes, code: Code) returns (es: seq<Event>)
    requires NEWLINE !in line && w.parse(line) == AsSender
    requires NEWLINE !in request && w.parse(request) == AsReceiver(code)
    ensures Asked(Exec(EMPTY, w, es), w, code)
  {
    var first := SenderGetsReady(EMPTY, w, line, code);
    var s1 := Exec(EMPTY, w, first);
    var arrive := Arrives(s1, w, request, code);
    Append(EMPTY, w, first, arrive);
    es := first + arrive;
  }

  lemma ClaimThenTimer(s: State, w: Wire, code: Code)
    requires Asked(s, w, code)
    ensures var t := Exec(s, w, [Turn(1, code), Handle(0, false, 0, code)]);
            && |t.conns| == 2 && t.conns[0].pc == Withdrawing && t.conns[0].ch == None
            && t.conns[1].pc == Accepting(0) && t.conns[1].out == []
  {
    Two(s, w, Turn(1, code), Handle(0, false, 0, code));
    var mid := Next(s, w, Turn(1, code));
    assert mid.conns[0].pc == Waiting && mid.conns[1].pc == Accepting(0);
  }

  lemma AckThenHandOver(s: State, w: Wire, code: Code)
    requires |s.conns| == 2 && s.conns[0].pc == Withdrawing && s.conns[0].ch == None
    requires s.conns[1].pc == Accepting(0) && s.conns[1].out == []
    ensures var t := Exec(s, w, [Turn(1, code), Turn(1, code)]);
            && |t.conns| == 2 && t.conns[0].pc == Withdrawing
            && t.conns[1].pc == Handed(0) && t.conns[1].out == AckLine(w, OkAck)
  {
    Two(s, w, Turn(1, code), Turn(1, code));
    var mid := Next(s, w, Turn(1, code));
    assert [] + AckLine(w, OkAck) == AckLine(w, OkAck);
    assert mid.conns[1].pc == Handing(0) && mid.conns[1].out == AckLine(w, OkAck);
  }

  /** It does happen, with any lines and any code: the receiver claims the sender, the sender's timer
      fires, and only then is the receiver acknowledged and handed over. */
  lemma ReceiversAreStranded(w: Wire, line: Bytes, request: Bytes, code: Code) returns (es: seq<Event>)
    requires NEWLINE !in line && w.parse(line) == AsSender
    requires NEWLINE !in request && w.parse(request) == AsReceiver(code)
    ensures var s := Exec(EMPTY, w, es);
            Stranded(s, 1) && s.conns[1].pc == Handed(0) && s.conns[1].out == AckLine(w, OkAck)
  {
    var ask := ReceiverAsks(w, line, request, code);
    var leave := [Turn(1, code), Handle(0, false, 0, code)];
    var accept := [Turn(1, code), Turn(1, code)];
    Append(EMPTY, w, ask, leave);
    Append(EMPTY, w, ask + leave, accept);
    ClaimThenTimer(Exec(EMPTY, w, ask), w, code);
    AckThenHandOver(Exec(EMPTY, w, ask + leave), w, code);
    es := ask + leave + accept;
  }
}
