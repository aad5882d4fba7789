/** When the relay's map leads to the senders that wait in it. Codes are drawn at random, and
    nothing prevents two senders from drawing the same one. */
module Codes {
  import opened Protocol
  import opened Relay
  import opened Pairing
  import opened RelayRuns

  /** An unclaimed sender that waits for a receiver, or, with `leaving`, is about to delete its entry. */
  predicate Wants(c: Conn, leaving: bool) {
    (c.pc in {WritingCode, Waiting} || (leaving && c.pc == Withdrawing)) && !c.claimed
  }

  /** Every such sender is where its code leads. */
  predicate Reachable(s: State, leaving: bool) {
    forall i | 0 <= i < |s.conns| && Wants(s.conns[i], leaving) ::
      s.conns[i].code in s.pending && s.pending[s.conns[i].code] == i
  }

  /** Whose entry may be replaced or deleted: nobody's, one's own, or that of a sender that has given
      up, unless that one counts too. */
  predicate Free(s: State, k: Code, i: nat, leaving: bool) {
    k in s.pending ==>
      var p := s.pending[k];
      p == i || (!leaving && p < |s.conns| && s.conns[p].pc == Withdrawing)
  }

  /** A sender registers or deletes a code only if that is free. */
  predicate Guard(s: State, e: Event, leaving: bool) {
    e.Handle? && e.i < |s.conns| && s.conns[e.i].pc in {Registering, Withdrawing} ==>
      Free(s, s.conns[e.i].code, e.i, leaving)
  }

  lemma PutReaches(s: State, i: nat, c: Conn, leaving: bool)
    requires Reachable(s, leaving) && i < |s.conns|
    requires Wants(c, leaving) ==> Wants(s.conns[i], leaving) && c.code == s.conns[i].code
    ensures Reachable(Put(s, i, c), leaving)
  {
  }

  lemma TwoPutsReach(s: State, i: nat, c: Conn, j: nat, d: Conn, leaving: bool)
    requires Reachable(s, leaving) && i < |s.conns| && j < |s.conns| && i != j
    requires Wants(c, leaving) ==> Wants(s.conns[i], leaving) && c.code == s.conns[i].code
    requires Wants(d, leaving) ==> Wants(s.conns[j], leaving) && d.code == s.conns[j].code
    ensures Reachable(Put(Put(s, i, c), j, d), leaving)
  {
    PutReaches(s, i, c, leaving);
    PutReaches(Put(s, i, c), j, d, leaving);
  }

  lemma RegisterReaches(s: State, w: Wire, i: nat, ok: bool, part: nat, code: Code, leaving: bool)
    requires Paired(s) && Reachable(s, leaving) && i < |s.conns| && s.conns[i].pc == Registering
    ensures Reachable(HandleStep(s, w, i, ok, part, code), leaving) <==> Free(s, s.conns[i].code, i, leaving)
  {
    var k := s.conns[i].code;
    var t := HandleStep(s, w, i, ok, part, code);
    assert SenderOk(s, i);
    if k in s.pending {
      assert EntryOk(s, k);
    }
    if !Free(s, k, i, leaving) {
      var p := s.pending[k];
      assert t.conns[p] == s.conns[p] && Wants(t.conns[p], leaving) && t.pending[k] == i;
    } else {
      forall j | 0 <= j < |t.conns| && Wants(t.conns[j], leaving)
        ensures t.conns[j].code in t.pending && t.pending[t.conns[j].code] == j
      {
        assert j != i ==> t.conns[j] == s.conns[j];
      }
    }
  }

  lemma WithdrawReaches(s: State, w: Wire, i: nat, ok: bool, part: nat, code: Code, leaving: bool)
    requires Paired(s) && Reachable(s, leaving) && i < |s.conns| && s.conns[i].pc == Withdrawing
    ensures Reachable(HandleStep(s, w, i, ok, part, code), leaving) <==> Free(s, s.conns[i].code, i, leaving)
  {
    var k := s.conns[i].code;
    var t := HandleStep(s, w, i, ok, part, code);
    if k in s.pending {
      assert EntryOk(s, k);
    }
    if !Free(s, k, i, leaving) {
      var p := s.pending[k];
      assert t.conns[p] == s.conns[p] && Wants(t.conns[p], leaving) && k !in t.pending;
    } else {
      forall j | 0 <= j < |t.conns| && Wants(t.conns[j], leaving)
        ensures t.conns[j].code in t.pending && t.pending[t.conns[j].code] == j
      {
        assert t.conns[j] == s.conns[j];
      }
    }
  }

  lemma LookUpReaches(s: State, w: Wire, i: nat, ok: bool, part: nat, code: Code, leaving: bool)
    requires Paired(s) && Reachable(s, leaving) && i < |s.conns| && s.conns[i].pc == LookingUp
    ensures Reachable(HandleStep(s, w, i, ok, part, code), leaving)
  {
    var k := s.conns[i].code;
    var t := HandleStep(s, w, i, ok, part, code);
    if k in s.pending {
      assert EntryOk(s, k);
      forall j | 0 <= j < |t.conns| && Wants(t.conns[j], leaving)
        ensures t.conns[j].code in t.pending && t.pending[t.conns[j].code] == j
      {
        assert t.conns[j] == s.conns[j];
      }
    } else {
      PutReaches(s, i, t.conns[i], leaving);
    }
  }

  /** The steps that leave the map alone and change one connection. */
  lemma QuietReaches(s: State, w: Wire, i: nat, ok: bool, part: nat, code: Code, leaving: bool)
    requires Paired(s) && Reachable(s, leaving) && i < |s.conns|
    requires s.conns[i].pc in {WritingCode, Waiting} || s.conns[i].pc.Refusing? || s.conns[i].pc.Accepting?
    ensures Reachable(HandleStep(s, w, i, ok, part, code), leaving)
  {
    var t := HandleStep(s, w, i, ok, part, code);
    if t != s {
      PutReaches(s, i, t.conns[i], leaving);
    }
  }

  lemma ReadReaches(s: State, w: Wire, i: nat, ok: bool, code: Code, leaving: bool)
    requires Reachable(s, leaving) && i < |s.conns| && s.conns[i].pc == Reading
    ensures Reachable(ReadStep(s, w, i, ok, code), leaving)
  {
    var t := ReadStep(s, w, i, ok, code);
    if t != s {
      PutReaches(s, i, t.conns[i], leaving);
    }
  }

  lemma PairReaches(s: State, w: Wire, i: nat, ok: bool, part: nat, code: Code, leaving: bool)
    requires Paired(s) && Reachable(s, leaving) && i < |s.conns|
    requires s.conns[i].pc.Announcing? || s.conns[i].pc.Handing?
    ensures Reachable(HandleStep(s, w, i, ok, part, code), leaving)
  {
    var t := HandleStep(s, w, i, ok, part, code);
    var p := if s.conns[i].pc.Handing? then s.conns[i].pc.sender else s.conns[i].pc.peer;
    assert ClaimOk(s, i) && SenderOk(s, i);
    assert t == Put(Put(s, i, t.conns[i]), p, t.conns[p]);
    TwoPutsReach(s, i, t.conns[i], p, t.conns[p], leaving);
  }

  lemma HandleReaches(s: State, w: Wire, i: nat, ok: bool, part: nat, code: Code, leaving: bool)
    requires Paired(s) && Reachable(s, leaving) && i < |s.conns|
    ensures Reachable(HandleStep(s, w, i, ok, part, code), leaving) <==> Guard(s, Handle(i, ok, part, code), leaving)
  {
    match s.conns[i].pc
    case Registering => RegisterReaches(s, w, i, ok, part, code, leaving);
    case Withdrawing => WithdrawReaches(s, w, i, ok, part, code, leaving);
    case LookingUp => LookUpReaches(s, w, i, ok, part, code, leaving);
    case Announcing(_) => PairReaches(s, w, i, ok, part, code, leaving);
    case Handing(_) => PairReaches(s, w, i, ok, part, code, leaving);
    case Reading => ReadReaches(s, w, i, ok, code, leaving);
    case WritingCode => QuietReaches(s, w, i, ok, part, code, leaving);
    case Waiting => QuietReaches(s, w, i, ok, part, code, leaving);
    case Refusing(_) => QuietReaches(s, w, i, ok, part, code, leaving);
    case Accepting(_) => QuietReaches(s, w, i, ok, part, code, leaving);
    case _ =>
  }

  lemma BridgeReaches(s: State, w: Wire, e: Event, leaving: bool)
    requires Reachable(s, leaving) && (e.Fetch? || e.Emit? || e.Hangup?)
    ensures Reachable(Next(s, w, e), leaving)
  {
    var t := Next(s, w, e);
    forall j | 0 <= j < |t.conns|
      ensures Wants(t.conns[j], leaving) ==> Wants(s.conns[j], leaving) && t.conns[j].code == s.conns[j].code
    {
    }
  }

  /** Exactly which steps keep every such sender reachable. */
  lemma GuardIsExact(s: State, w: Wire, e: Event, leaving: bool)
    requires Paired(s) && Reachable(s, leaving)
    ensures Reachable(Next(s, w, e), leaving) <==> Guard(s, e, leaving)
  {
    match e
    case Handle(i, ok, part, code) =>
      if i < |s.conns| {
        HandleReaches(s, w, i, ok, part, code, leaving);
      }
    case Accept =>
    case Write(i, data) =>
      if i < |s.conns| {
        PutReaches(s, i, Next(s, w, e).conns[i], leaving);
      }
    case _ => BridgeReaches(s, w, e, leaving);
  }

  predicate AlwaysReachable(s: State, w: Wire, es: seq<Event>, leaving: bool)
    decreases |es|
  {
    Reachable(s, leaving) && (es != [] ==> AlwaysReachable(Next(s, w, es[0]), w, es[1..], leaving))
  }

  predicate Guarded(s: State, w: Wire, es: seq<Event>, leaving: bool)
    decreases |es|
  {
    es == [] || (Guard(s, es[0], leaving) && Guarded(Next(s, w, es[0]), w, es[1..], leaving))
  }

  lemma {:induction false} GuardedRun(s: State, w: Wire, es: seq<Event>, leaving: bool)
    requires Paired(s) && Reachable(s, leaving)
    ensures AlwaysReachable(s, w, es, leaving) <==> Guarded(s, w, es, leaving)
    ensures Guarded(s, w, es, leaving) ==> Reachable(Exec(s, w, es), leaving)
    decreases |es|
  {
    if es != [] {
      GuardIsExact(s, w, es[0], leaving);
      if Guard(s, es[0], leaving) {
        PairedStep(s, w, es[0]);
        GuardedRun(Next(s, w, es[0]), w, es[1..], leaving);
      }
    }
  }

  /** In a run of the relay, every unclaimed sender that waits for a receiver can be reached by its
      code at every moment if and only if no sender registers or deletes a code whose entry belongs
      to another sender that has not given up. */
  lemma ReachableExactly(w: Wire, es: seq<Event>)
    ensures AlwaysReachable(EMPTY, w, es, false) <==> Guarded(EMPTY, w, es, false)
  {
    GuardedRun(EMPTY, w, es, false);
  }

  predicate Registered(c: Conn) { Wants(c, true) }

  /** If moreover the entries of senders that have given up are left to themselves, the codes in the
      map are exactly those of the senders that have registered, have not been claimed and have not
      finished giving up. */
  lemma MapIsExact(w: Wire, es: seq<Event>, k: Code)
    requires Guarded(EMPTY, w, es, true)
    ensures var s := Exec(EMPTY, w, es);
            k in s.pending <==> exists i :: 0 <= i < |s.conns| && s.conns[i].code == k && Registered(s.conns[i])
  {
    GuardedRun(EMPTY, w, es, true);
    PairedRun(EMPTY, w, es);
    var s := Exec(EMPTY, w, es);
    if k in s.pending {
      assert EntryOk(s, k) && Registered(s.conns[s.pending[k]]);
    }
  }

  predicate UsesMap(c: Conn) { c.pc in {Registering, WritingCode, Waiting, Withdrawing} }

  /** No two senders that may use the map have the same code. */
  predicate Distinct(s: State) {
    forall i, j | 0 <= i < |s.conns| && 0 <= j < |s.conns| && i != j && UsesMap(s.conns[i]) && UsesMap(s.conns[j]) ::
      s.conns[i].code != s.conns[j].code
  }

  /** Distinct codes are enough. They are not necessary: a sender that has been claimed may share
      its code with a later one, as long as it does not leave before that one is claimed. */
  lemma DistinctIsEnough(s: State, e: Event, leaving: bool)
    requires Paired(s) && Distinct(s)
    ensures Guard(s, e, leaving)
  {
    if e.Handle? && e.i < |s.conns| && s.conns[e.i].code in s.pending {
      assert EntryOk(s, s.conns[e.i].code);
    }
  }

  /** For every line that announces a sender, and every code: when two waiting senders draw it, the
      first is no longer in the map although it is waiting and unclaimed, and when it times out it
      takes the second one's entry with it. */
  lemma CollisionHidesSenders(w: Wire, line: Bytes, code: Code) returns (es: seq<Event>, more: seq<Event>)
    requires NEWLINE !in line && w.parse(line) == AsSender
    ensures var s := Exec(EMPTY, w, es);
            && |s.conns| == 2 && s.pending == map[code := 1]
            && forall i | 0 <= i < 2 :: s.conns[i].pc == Waiting && s.conns[i].code == code && !s.conns[i].claimed
    ensures var s := Exec(EMPTY, w, es);
            var t := Exec(s, w, more);
            |t.conns| == 2 && t.conns[1] == s.conns[1] && t.pending == map[]
  {
    var first := SenderGetsReady(EMPTY, w, line, code);
    var s1 := Exec(EMPTY, w, first);
    var second := SenderGetsReady(s1, w, line, code);
    var s2 := Exec(s1, w, second);
    Append(EMPTY, w, first, second);
    es := first + second;
    assert s2.conns == [Listed(w, line, code), Listed(w, line, code)] && s2.pending == map[code := 1];
    var gone, delete := Handle(0, false, 0, code), Turn(0, code);
    more := [gone, delete];
    Two(s2, w, gone, delete);
  }

  /** The other way to fail: the first sender has been claimed, so the second registers a free code;
      then the first gives up, and deletes the entry of the second. */
  lemma LeaverHidesSender(w: Wire, line: Bytes, request: Bytes, code: Code) returns (es: seq<Event>)
    requires NEWLINE !in line && w.parse(line) == AsSender
    requires NEWLINE !in request && w.parse(request) == AsReceiver(code)
    ensures var s := Exec(EMPTY, w, es);
            && |s.conns| == 3 && s.conns[2].pc == Waiting && s.conns[2].code == code && !s.conns[2].claimed
            && s.pending == map[]
  {
    var first := SenderGetsReady(EMPTY, w, line, code);
    var s1 := Exec(EMPTY, w, first);
    var arrive := Arrives(s1, w, request, code);
    var s2 := Exec(s1, w, arrive);
    var s3 := Next(s2, w, Turn(1, code));
    One(s2, w, Turn(1, code));
    assert s3.conns[0] == s1.conns[0].(claimed := true) && s3.pending == map[] && |s3.conns| == 2;
    var second := SenderGetsReady(s3, w, line, code);
    var s4 := Exec(s3, w, second);
    assert s4.conns[0] == s3.conns[0] && s4.pending == map[code := 2];
    var gone, delete := Handle(0, false, 0, code), Turn(0, code);
    Two(s4, w, gone, delete);
    Append(EMPTY, w, first, arrive);
    Append(EMPTY, w, first + arrive, [Turn(1, code)]);
    Append(EMPTY, w, first + arrive + [Turn(1, code)], second);
    Append(EMPTY, w, first + arrive + [Turn(1, code)] + second, [gone, delete]);
    es := first + arrive + [Turn(1, code)] + second + [gone, delete];
  }
}
