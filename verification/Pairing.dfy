/** What every interleaving of the relay's handlers keeps. */
module Pairing {
  import opened Protocol
  import opened Relay

  /** The sender this connection has claimed. */
  function Claim(pc: Pc): Option<nat> {
    match pc
    case Accepting(p) => Some(p)
    case Handing(p) => Some(p)
    case Handed(p) => Some(p)
    case _ => None
  }

  /** The receiver this sender has taken from its channel. */
  function Taken(pc: Pc): Option<nat> {
    match pc
    case Announcing(r) => Some(r)
    case Bridging(r) => Some(r)
    case Bridged(r) => Some(r)
    case Dropped(r) => Some(r)
    case _ => None
  }

  /** A registered sender that has not taken a receiver. */
  predicate Untaken(pc: Pc) { pc in {WritingCode, Waiting, Withdrawing, Left} }

  predicate EntryOk(s: State, k: Code)
    requires k in s.pending
  {
    var p := s.pending[k];
    && p < |s.conns|
    && s.conns[p].code == k
    && s.conns[p].pc in {WritingCode, Waiting, Withdrawing}
    && !s.conns[p].claimed
  }

  predicate ClaimOk(s: State, i: nat)
    requires i < |s.conns|
  {
    Claim(s.conns[i].pc).Some? ==>
      var p := Claim(s.conns[i].pc).value;
      && p < |s.conns| && p != i
      && s.conns[p].claimed
      && s.conns[p].code == s.conns[i].code
      && (Untaken(s.conns[p].pc) || Taken(s.conns[p].pc).Some?)
      && (if s.conns[i].pc.Handed? then s.conns[p].ch == Some(i) || Taken(s.conns[p].pc) == Some(i)
          else s.conns[p].ch == None && Untaken(s.conns[p].pc))
  }

  /** Whom a sender has on its channel or has taken. */
  predicate SenderOk(s: State, i: nat)
    requires i < |s.conns|
  {
    var c := s.conns[i];
    && (c.claimed ==> Untaken(c.pc) || Taken(c.pc).Some?)
    && (c.ch.Some? ==> Untaken(c.pc) && c.ch.value < |s.conns| && s.conns[c.ch.value].pc == Handed(i))
    && (Taken(c.pc).Some? ==>
          Taken(c.pc).value < |s.conns| && s.conns[Taken(c.pc).value].pc == Handed(i) && c.ch == None)
  }

  predicate Unique(s: State) {
    forall i, j | 0 <= i < j < |s.conns| ::
      Claim(s.conns[i].pc).Some? ==> Claim(s.conns[i].pc) != Claim(s.conns[j].pc)
  }

  predicate Paired(s: State) {
    && (forall k <- s.pending :: EntryOk(s, k))
    && (forall i | 0 <= i < |s.conns| :: ClaimOk(s, i))
    && (forall i | 0 <= i < |s.conns| :: SenderOk(s, i))
    && Unique(s)
  }

  predicate QuietPc(pc: Pc) { Claim(pc) == None && Taken(pc) == None && !Untaken(pc) }

  /** A change of a connection that leaves its pairing alone. */
  predicate SameRole(a: Conn, c: Conn) {
    && c.ch == a.ch && c.claimed == a.claimed
    && (|| (QuietPc(a.pc) && QuietPc(c.pc))
        || (c.code == a.code
            && (|| c.pc == a.pc
                || (Untaken(a.pc) && c.pc in {Waiting, Withdrawing})
                || (Taken(c.pc).Some? && Taken(a.pc) == Taken(c.pc)))))
  }

  lemma PutKeepsEntries(s: State, i: nat, c: Conn)
    requires Paired(s) && i < |s.conns| && SameRole(s.conns[i], c)
    ensures forall k <- s.pending :: EntryOk(Put(s, i, c), k)
  {
    forall k <- s.pending ensures EntryOk(Put(s, i, c), k) {
      assert EntryOk(s, k);
    }
  }

  lemma PutKeepsClaims(s: State, i: nat, c: Conn, j: nat)
    requires Paired(s) && i < |s.conns| && SameRole(s.conns[i], c) && j < |s.conns|
    ensures ClaimOk(Put(s, i, c), j)
  {
    assert ClaimOk(s, j) && ClaimOk(s, i);
  }

  lemma PutKeepsSenders(s: State, i: nat, c: Conn, j: nat)
    requires Paired(s) && i < |s.conns| && SameRole(s.conns[i], c) && j < |s.conns|
    ensures SenderOk(Put(s, i, c), j)
  {
    assert SenderOk(s, j) && SenderOk(s, i);
  }

  lemma PutKeeps(s: State, i: nat, c: Conn)
    requires Paired(s) && i < |s.conns| && SameRole(s.conns[i], c)
    ensures Paired(Put(s, i, c))
  {
    PutKeepsEntries(s, i, c);
    forall j | 0 <= j < |s.conns| ensures ClaimOk(Put(s, i, c), j) && SenderOk(Put(s, i, c), j) {
      PutKeepsClaims(s, i, c, j);
      PutKeepsSenders(s, i, c, j);
    }
    assert Unique(Put(s, i, c));
  }

  lemma AcceptKeeps(s: State)
    requires Paired(s)
    ensures Paired(s.(conns := s.conns + [NEW]))
  {
    var t := s.(conns := s.conns + [NEW]);
    forall k <- t.pending ensures EntryOk(t, k) {
      assert EntryOk(s, k);
    }
    forall j | 0 <= j < |t.conns| ensures ClaimOk(t, j) && SenderOk(t, j) {
      if j < |s.conns| {
        assert ClaimOk(s, j) && SenderOk(s, j);
      }
    }
  }

  lemma RegisterKeeps(s: State, i: nat)
    requires Paired(s) && i < |s.conns| && s.conns[i].pc == Registering
    ensures Paired(Put(s, i, s.conns[i].(pc := WritingCode)).(pending := s.pending[s.conns[i].code := i]))
  {
    var t := Put(s, i, s.conns[i].(pc := WritingCode)).(pending := s.pending[s.conns[i].code := i]);
    assert SenderOk(s, i);
    forall k <- t.pending ensures EntryOk(t, k) {
      if k != s.conns[i].code {
        assert EntryOk(s, k);
      }
    }
    forall j | 0 <= j < |t.conns| ensures ClaimOk(t, j) && SenderOk(t, j) {
      assert ClaimOk(s, j) && SenderOk(s, j);
    }
  }

  lemma TakeKeeps(s: State, i: nat)
    requires Paired(s) && i < |s.conns| && s.conns[i].pc == Waiting && s.conns[i].ch.Some?
    ensures Paired(Put(s, i, s.conns[i].(pc := Announcing(s.conns[i].ch.value), ch := None)))
  {
    var r := s.conns[i].ch.value;
    var t := Put(s, i, s.conns[i].(pc := Announcing(r), ch := None));
    assert SenderOk(s, i) && ClaimOk(s, r);
    forall k <- t.pending ensures EntryOk(t, k) {
      assert EntryOk(s, k);
    }
    forall j | 0 <= j < |t.conns| ensures ClaimOk(t, j) && SenderOk(t, j) {
      assert ClaimOk(s, j) && SenderOk(s, j);
    }
  }

  lemma LeaveKeeps(s: State, i: nat)
    requires Paired(s) && i < |s.conns| && s.conns[i].pc == Withdrawing
    ensures Paired(Put(s, i, s.conns[i].(pc := Left)).(pending := s.pending - {s.conns[i].code}))
  {
    var t := Put(s, i, s.conns[i].(pc := Left)).(pending := s.pending - {s.conns[i].code});
    forall k <- t.pending ensures EntryOk(t, k) {
      assert EntryOk(s, k);
    }
    forall j | 0 <= j < |t.conns| ensures ClaimOk(t, j) && SenderOk(t, j) {
      assert ClaimOk(s, j) && SenderOk(s, j);
    }
  }

  /** A sender in the map has no claimant. */
  lemma EntryIsUnclaimed(s: State, k: Code, j: nat)
    requires Paired(s) && k in s.pending && j < |s.conns|
    ensures Claim(s.conns[j].pc) != Some(s.pending[k])
  {
    assert EntryOk(s, k) && ClaimOk(s, j);
  }

  lemma EntryHasEmptyChannel(s: State, k: Code)
    requires Paired(s) && k in s.pending
    ensures s.pending[k] < |s.conns| && s.conns[s.pending[k]].ch == None
  {
    assert EntryOk(s, k) && SenderOk(s, s.pending[k]);
    if s.conns[s.pending[k]].ch.Some? {
      EntryIsUnclaimed(s, k, s.conns[s.pending[k]].ch.value);
    }
  }

  function Claimed(s: State, i: nat, p: nat): State
    requires i < |s.conns| && p < |s.conns|
  {
    Put(Put(s, p, s.conns[p].(claimed := true)), i, s.conns[i].(pc := Accepting(p)))
      .(pending := s.pending - {s.conns[i].code})
  }

  lemma ClaimKeepsConn(s: State, i: nat, p: nat, j: nat)
    requires Paired(s) && i < |s.conns| && s.conns[i].pc == LookingUp && s.conns[i].code in s.pending
    requires p == s.pending[s.conns[i].code] && p < |s.conns| && p != i && j < |s.conns|
    ensures ClaimOk(Claimed(s, i, p), j)
  {
    assert EntryOk(s, s.conns[i].code) && SenderOk(s, i) && SenderOk(s, p);
    EntryHasEmptyChannel(s, s.conns[i].code);
    assert ClaimOk(s, j) && SenderOk(s, j);
    EntryIsUnclaimed(s, s.conns[i].code, j);
  }

  lemma ClaimKeepsSender(s: State, i: nat, p: nat, j: nat)
    requires Paired(s) && i < |s.conns| && s.conns[i].pc == LookingUp && s.conns[i].code in s.pending
    requires p == s.pending[s.conns[i].code] && p < |s.conns| && p != i && j < |s.conns|
    ensures SenderOk(Claimed(s, i, p), j)
  {
    assert EntryOk(s, s.conns[i].code) && SenderOk(s, j);
  }

  lemma ClaimKeeps(s: State, i: nat)
    requires Paired(s) && i < |s.conns| && s.conns[i].pc == LookingUp && s.conns[i].code in s.pending
    ensures var p := s.pending[s.conns[i].code];
            p < |s.conns| && p != i && Paired(Claimed(s, i, p))
  {
    var code := s.conns[i].code;
    var p := s.pending[code];
    assert EntryOk(s, code);
    var t := Claimed(s, i, p);
    forall k <- t.pending ensures EntryOk(t, k) {
      assert EntryOk(s, k);
    }
    forall j | 0 <= j < |t.conns| ensures ClaimOk(t, j) && SenderOk(t, j) {
      ClaimKeepsConn(s, i, p, j);
      ClaimKeepsSender(s, i, p, j);
    }
    assert Unique(t) by {
      forall j | 0 <= j < |s.conns| ensures Claim(s.conns[j].pc) != Some(p) {
        EntryIsUnclaimed(s, code, j);
      }
    }
  }

  function HandedOver(s: State, i: nat, p: nat): State
    requires i < |s.conns| && p < |s.conns|
  {
    Put(Put(s, p, s.conns[p].(ch := Some(i))), i, s.conns[i].(pc := Handed(p)))
  }

  lemma HandKeepsClaim(s: State, i: nat, p: nat, j: nat)
    requires Paired(s) && i < |s.conns| && s.conns[i].pc == Handing(p) && p < |s.conns| && p != i && j < |s.conns|
    ensures ClaimOk(HandedOver(s, i, p), j)
  {
    assert ClaimOk(s, j) && ClaimOk(s, i);
  }

  lemma HandKeepsSender(s: State, i: nat, p: nat, j: nat)
    requires Paired(s) && i < |s.conns| && s.conns[i].pc == Handing(p) && p < |s.conns| && p != i && j < |s.conns|
    ensures SenderOk(HandedOver(s, i, p), j)
  {
    assert SenderOk(s, j) && ClaimOk(s, i);
  }

  lemma HandKeeps(s: State, i: nat)
    requires Paired(s) && i < |s.conns| && s.conns[i].pc.Handing?
    ensures var p := s.conns[i].pc.sender;
            && p < |s.conns| && p != i && s.conns[p].ch == None
            && Paired(HandedOver(s, i, p))
  {
    assert ClaimOk(s, i);
    var p := s.conns[i].pc.sender;
    var t := HandedOver(s, i, p);
    forall k <- t.pending ensures EntryOk(t, k) {
      assert EntryOk(s, k);
    }
    forall j | 0 <= j < |t.conns| ensures ClaimOk(t, j) && SenderOk(t, j) {
      HandKeepsClaim(s, i, p, j);
      HandKeepsSender(s, i, p, j);
    }
  }

  /** A receiver that could not be acknowledged gives up its claim. */
  lemma AbandonKeeps(s: State, i: nat, c: Conn)
    requires Paired(s) && i < |s.conns| && s.conns[i].pc.Accepting?
    requires c.code == s.conns[i].code && c.ch == s.conns[i].ch && c.claimed == s.conns[i].claimed
    requires c.pc == Ended || c.pc == Handing(s.conns[i].pc.sender)
    ensures Paired(Put(s, i, c))
  {
    var t := Put(s, i, c);
    forall k <- t.pending ensures EntryOk(t, k) {
      assert EntryOk(s, k);
    }
    forall j | 0 <= j < |t.conns| ensures ClaimOk(t, j) && SenderOk(t, j) {
      assert ClaimOk(s, j) && SenderOk(s, j) && ClaimOk(s, i);
    }
  }

  lemma CloseKeeps(s: State, r: nat)
    requires Paired(s)
    ensures Paired(Close(s, r))
  {
    if r < |s.conns| {
      PutKeeps(s, r, s.conns[r].(closed := true));
    }
  }

  lemma ReadKeeps(s: State, w: Wire, i: nat, ok: bool, code: Code)
    requires Paired(s) && i < |s.conns| && s.conns[i].pc == Reading
    ensures Paired(ReadStep(s, w, i, ok, code))
  {
    var t := ReadStep(s, w, i, ok, code);
    if t != s {
      assert t == Put(s, i, t.conns[i]);
      PutKeeps(s, i, t.conns[i]);
    }
  }

  lemma ReplyKeeps(s: State, w: Wire, i: nat, ok: bool, part: nat, code: Code)
    requires Paired(s) && i < |s.conns| && (s.conns[i].pc in {WritingCode} || s.conns[i].pc.Refusing?)
    ensures Paired(HandleStep(s, w, i, ok, part, code))
  {
    var t := HandleStep(s, w, i, ok, part, code);
    assert t == Put(s, i, t.conns[i]);
    PutKeeps(s, i, t.conns[i]);
  }

  lemma WaitKeeps(s: State, w: Wire, i: nat, ok: bool, part: nat, code: Code)
    requires Paired(s) && i < |s.conns| && s.conns[i].pc == Waiting
    ensures Paired(HandleStep(s, w, i, ok, part, code))
  {
    if !ok {
      PutKeeps(s, i, s.conns[i].(pc := Withdrawing, closed := true));
    } else if s.conns[i].ch.Some? {
      TakeKeeps(s, i);
    }
  }

  lemma AnnounceKeeps(s: State, w: Wire, i: nat, ok: bool, part: nat, code: Code)
    requires Paired(s) && i < |s.conns| && s.conns[i].pc.Announcing?
    ensures Paired(HandleStep(s, w, i, ok, part, code))
  {
    var r := s.conns[i].pc.peer;
    var c' := Reply(s.conns[i], w, OkAck, ok, part);
    if ok {
      PutKeeps(s, i, c'.(pc := Bridging(r)));
    } else {
      PutKeeps(s, i, c'.(pc := Dropped(r), closed := true));
      CloseKeeps(Put(s, i, c'.(pc := Dropped(r), closed := true)), r);
    }
  }

  lemma LookUpKeeps(s: State, w: Wire, i: nat, ok: bool, part: nat, code: Code)
    requires Paired(s) && i < |s.conns| && s.conns[i].pc == LookingUp
    ensures Paired(HandleStep(s, w, i, ok, part, code))
  {
    if s.conns[i].code in s.pending {
      ClaimKeeps(s, i);
    } else {
      PutKeeps(s, i, s.conns[i].(pc := Refusing(UnknownCode)));
    }
  }

  lemma HandleKeeps(s: State, w: Wire, i: nat, ok: bool, part: nat, code: Code)
    requires Paired(s) && i < |s.conns|
    ensures Paired(HandleStep(s, w, i, ok, part, code))
  {
    match s.conns[i].pc
    case Reading => ReadKeeps(s, w, i, ok, code);
    case Registering => RegisterKeeps(s, i);
    case WritingCode => ReplyKeeps(s, w, i, ok, part, code);
    case Refusing(_) => ReplyKeeps(s, w, i, ok, part, code);
    case Waiting => WaitKeeps(s, w, i, ok, part, code);
    case Withdrawing => LeaveKeeps(s, i);
    case Announcing(_) => AnnounceKeeps(s, w, i, ok, part, code);
    case LookingUp => LookUpKeeps(s, w, i, ok, part, code);
    case Accepting(_) => AbandonKeeps(s, i, HandleStep(s, w, i, ok, part, code).conns[i]);
    case Handing(_) => HandKeeps(s, i);
    case _ =>
  }

  lemma EmitKeeps(s: State, from: nat, to: nat, ok: bool, part: nat)
    requires Paired(s) && from < |s.conns|
    ensures Paired(EmitStep(s, from, to, ok, part))
  {
    var t := EmitStep(s, from, to, ok, part);
    if t != s {
      PutKeeps(s, from, t.conns[from]);
      PutKeeps(Put(s, from, t.conns[from]), to, t.conns[to]);
    }
  }

  lemma FetchKeeps(s: State, from: nat, n: nat)
    requires Paired(s) && from < |s.conns|
    ensures Paired(FetchStep(s, from, n))
  {
    var t := FetchStep(s, from, n);
    if t != s {
      PutKeeps(s, from, t.conns[from]);
    }
  }

  lemma PairedStep(s: State, w: Wire, e: Event)
    requires Paired(s)
    ensures Paired(Next(s, w, e))
  {
    match e
    case Accept => AcceptKeeps(s);
    case Write(i, data) =>
      if i < |s.conns| {
        PutKeeps(s, i, s.conns[i].(wrote := s.conns[i].wrote + data));
      }
    case Handle(i, ok, part, code) =>
      if i < |s.conns| {
        HandleKeeps(s, w, i, ok, part, code);
      }
    case Fetch(i, toReceiver, n) =>
      if Bridges(s, i) {
        FetchKeeps(s, Source(s, i, toReceiver), n);
      }
    case Emit(i, toReceiver, ok, part) =>
      if Bridges(s, i) {
        EmitKeeps(s, Source(s, i, toReceiver), Source(s, i, !toReceiver), ok, part);
      }
    case Hangup(i) =>
      if i < |s.conns| && s.conns[i].pc.Bridging? {
        var c := s.conns[i].(pc := Bridged(s.conns[i].pc.peer), closed := true);
        PutKeeps(s, i, c);
        CloseKeeps(Put(s, i, c), s.conns[i].pc.peer);
      }
  }

  lemma {:induction false} PairedRun(s: State, w: Wire, es: seq<Event>)
    requires Paired(s)
    ensures Paired(Exec(s, w, es))
    decreases |es|
  {
    if es != [] {
      PairedStep(s, w, es[0]);
      PairedRun(Next(s, w, es[0]), w, es[1..]);
    }
  }

  predicate InBridge(s: State, i: nat, c: nat) {
    i < |s.conns| && s.conns[i].pc.Bridging? && (c == i || s.conns[i].pc.peer == c)
  }

  /** Over every interleaving, with any codes: handing a connection over never blocks; a pending
      sender is claimed by at most one receiver; a bridge joins a sender to a receiver that presented that
      sender's code; and no connection is in two bridges. */
  lemma PairingHolds(w: Wire, es: seq<Event>)
    ensures var s := Exec(EMPTY, w, es);
            && (forall i | 0 <= i < |s.conns| && s.conns[i].pc.Handing? ::
                  s.conns[i].pc.sender < |s.conns| && s.conns[s.conns[i].pc.sender].ch == None)
            && (forall i, j | 0 <= i < |s.conns| && 0 <= j < |s.conns| && i != j && Claim(s.conns[i].pc).Some? ::
                  Claim(s.conns[i].pc) != Claim(s.conns[j].pc))
            && (forall i | 0 <= i < |s.conns| && s.conns[i].pc.Bridging? ::
                  var r := s.conns[i].pc.peer;
                  r < |s.conns| && r != i && s.conns[r].pc == Handed(i) && s.conns[r].code == s.conns[i].code)
            && (forall i, j, c | InBridge(s, i, c) && InBridge(s, j, c) :: i == j)
  {
    PairedRun(EMPTY, w, es);
    var s := Exec(EMPTY, w, es);
    forall i | 0 <= i < |s.conns| && s.conns[i].pc.Handing? ensures ClaimOk(s, i) {
    }
    forall i | 0 <= i < |s.conns| && s.conns[i].pc.Bridging?
      ensures var r := s.conns[i].pc.peer;
              r < |s.conns| && r != i && s.conns[r].pc == Handed(i) && s.conns[r].code == s.conns[i].code
    {
      assert SenderOk(s, i) && ClaimOk(s, s.conns[i].pc.peer);
    }
  }
}
