/** The bytes that cross the relay: each peer gets its ack lines, then exactly what the
    other peer wrote after its own handshake line. */
module RelayStreams {
  import opened Protocol
  import opened Relay
  import opened Pairing

  /** The length of the first line with its newline; of everything if there is none. */
  function Head(b: Bytes): (h: nat)
    ensures h <= |b|
    ensures NEWLINE in b ==> h > 0 && b[h - 1] == NEWLINE && NEWLINE !in b[..h - 1]
    ensures NEWLINE !in b ==> h == |b|
  {
    if b == [] then 0
    else if b[0] == NEWLINE then 1
    else
      var h := Head(b[1..]);
      assert NEWLINE in b ==> NEWLINE in b[1..];
      assert b[1..][..if h > 0 then h - 1 else 0] == b[1..if h > 0 then h else 1];
      1 + h
  }

  lemma {:induction false} HeadIs(b: Bytes, h: nat)
    requires 0 < h <= |b| && b[h - 1] == NEWLINE && NEWLINE !in b[..h - 1]
    ensures Head(b) == h
  {
    if h > 1 {
      assert b[0] == b[..h - 1][0];
      assert b[1..][..h - 2] == b[..h - 1][1..];
      HeadIs(b[1..], h - 1);
    }
  }

  lemma HeadOfMore(b: Bytes, more: Bytes)
    requires NEWLINE in b
    ensures Head(b + more) == Head(b)
  {
    assert (b + more)[..Head(b) - 1] == b[..Head(b) - 1];
    HeadIs(b + more, Head(b));
  }

  /** relayRead, as written: byte by byte up to the first newline, and not one byte further. */
  method RelayRead(conn: Bytes) returns (line: Bytes, rest: Bytes, ok: bool)
    ensures ok <==> NEWLINE in conn
    ensures ok ==> line == conn[..Head(conn) - 1] && rest == conn[Head(conn)..]
  {
    line, rest, ok := [], conn, false;
    while rest != []
      invariant conn == line + rest && NEWLINE !in line && !ok
      decreases |rest|
    {
      var b := rest[0];
      rest := rest[1..];
      if b == NEWLINE {
        assert conn[..|line|] == line;
        HeadIs(conn, |line| + 1);
        assert rest == conn[|line| + 1..];
        ok := true;
        return;
      }
      line := line + [b];
    }
    assert conn == line;
  }

  /** What the relay has taken from a client after its handshake line, and passed on. */
  function Raw(c: Conn): Bytes {
    if Head(c.wrote) <= c.read <= |c.wrote| then c.wrote[Head(c.wrote)..c.read] else []
  }

  predicate AtHead(c: Conn) { c.read == Head(c.wrote) && NEWLINE in c.wrote }

  predicate PastHead(c: Conn) { Head(c.wrote) <= c.read <= |c.wrote| && NEWLINE in c.wrote }

  predicate Flowing(pc: Pc) { pc.Bridging? || pc.Bridged? }

  function RawOf(s: State, i: nat): Bytes { if i < |s.conns| then Raw(s.conns[i]) else [] }

  predicate AckPrefix(w: Wire, a: Ack, out: Bytes) { out <= AckLine(w, a) }

  ghost predicate StreamOk(s: State, w: Wire, i: nat)
    requires i < |s.conns|
  {
    var c := s.conns[i];
    var codeLine := AckLine(w, CodeAck(c.code));
    var okLine := AckLine(w, OkAck);
    match c.pc
    case Reading => c.read <= |c.wrote| && NEWLINE !in c.wrote[..c.read] && c.out == []
    case Registering => AtHead(c) && c.out == []
    case WritingCode => AtHead(c) && c.out == []
    case Waiting => AtHead(c) && c.out == codeLine
    case Withdrawing => AtHead(c) && c.out <= codeLine
    case Left => AtHead(c) && c.out <= codeLine
    case Announcing(r) => AtHead(c) && c.out == codeLine
    case Bridging(r) => PastHead(c) && c.out == codeLine + okLine + RawOf(s, r)
    case Bridged(r) => PastHead(c) && c.out == codeLine + okLine + RawOf(s, r)
    case Dropped(r) => AtHead(c) && codeLine <= c.out <= codeLine + okLine && c.out != codeLine + okLine
    case LookingUp => AtHead(c) && c.out == []
    case Refusing(a) => AtHead(c) && c.out == [] && a in {UnknownCode, BadRole}
    case Accepting(_) => AtHead(c) && c.out == []
    case Handing(_) => AtHead(c) && c.out == okLine
    case Handed(p) =>
      if p < |s.conns| && Flowing(s.conns[p].pc) then PastHead(c) && c.out == okLine + Raw(s.conns[p])
      else AtHead(c) && c.out == okLine
    case Ended =>
      || AckPrefix(w, UnknownCode, c.out) || AckPrefix(w, BadRole, c.out)
      || (AckPrefix(w, OkAck, c.out) && c.out != okLine)
  }

  ghost predicate Streams(s: State, w: Wire) {
    forall i | 0 <= i < |s.conns| :: StreamOk(s, w, i)
  }

  /** What the stream condition of a connection depends on besides itself. */
  predicate SamePeer(s: State, t: State, c: Conn) {
    match c.pc
    case Bridging(r) => RawOf(s, r) == RawOf(t, r)
    case Bridged(r) => RawOf(s, r) == RawOf(t, r)
    case Handed(p) =>
      && (p < |s.conns| <==> p < |t.conns|)
      && (p < |s.conns| ==> Flowing(s.conns[p].pc) == Flowing(t.conns[p].pc))
      && (p < |s.conns| && Flowing(s.conns[p].pc) ==> Raw(s.conns[p]) == Raw(t.conns[p]))
    case _ => true
  }

  lemma FrameStream(s: State, t: State, w: Wire, j: nat)
    requires j < |s.conns| && j < |t.conns| && t.conns[j] == s.conns[j]
    requires StreamOk(s, w, j) && SamePeer(s, t, s.conns[j])
    ensures StreamOk(t, w, j)
  {
  }

  /** A change of one connection that moves no raw byte. */
  lemma PutStreams(s: State, w: Wire, i: nat, c: Conn)
    requires Paired(s) && Streams(s, w) && i < |s.conns|
    requires Raw(c) == Raw(s.conns[i]) || !(Flowing(s.conns[i].pc) || s.conns[i].pc.Handed?)
    requires Flowing(c.pc) == Flowing(s.conns[i].pc)
    requires StreamOk(Put(s, i, c), w, i)
    ensures Streams(Put(s, i, c), w)
  {
    var t := Put(s, i, c);
    forall j | 0 <= j < |t.conns| ensures StreamOk(t, w, j) {
      assert StreamOk(s, w, j) && SenderOk(s, j);
    }
  }

  lemma CutIsPrefix(data: Bytes, n: nat)
    ensures Cut(data, n) <= data
  {
  }

  lemma ReadByteStreams(s: State, w: Wire, i: nat)
    requires Paired(s) && Streams(s, w) && i < |s.conns| && s.conns[i].pc == Reading
    requires s.conns[i].read < |s.conns[i].wrote| && s.conns[i].wrote[s.conns[i].read] != NEWLINE
    ensures Streams(Put(s, i, s.conns[i].(read := s.conns[i].read + 1)), w)
  {
    var c := s.conns[i];
    assert StreamOk(s, w, i);
    assert c.wrote[..c.read + 1] == c.wrote[..c.read] + [c.wrote[c.read]];
    PutStreams(s, w, i, c.(read := c.read + 1));
  }

  lemma ReadLineStreams(s: State, w: Wire, i: nat, pc: Pc, code: Code, closed: bool)
    requires Paired(s) && Streams(s, w) && i < |s.conns| && s.conns[i].pc == Reading
    requires s.conns[i].read < |s.conns[i].wrote| && s.conns[i].wrote[s.conns[i].read] == NEWLINE
    requires pc in {Registering, LookingUp, Ended, Refusing(BadRole)}
    ensures Streams(Put(s, i, s.conns[i].(pc := pc, code := code, closed := closed, read := s.conns[i].read + 1)), w)
  {
    var c := s.conns[i];
    assert StreamOk(s, w, i);
    HeadIs(c.wrote, c.read + 1);
    assert AckPrefix(w, OkAck, c.out);
    PutStreams(s, w, i, c.(pc := pc, code := code, closed := closed, read := c.read + 1));
  }

  lemma ReadFailStreams(s: State, w: Wire, i: nat)
    requires Paired(s) && Streams(s, w) && i < |s.conns| && s.conns[i].pc == Reading
    ensures Streams(Put(s, i, s.conns[i].(pc := Ended, closed := true)), w)
  {
    var c := s.conns[i];
    assert StreamOk(s, w, i);
    assert AckPrefix(w, OkAck, c.out);
    PutStreams(s, w, i, c.(pc := Ended, closed := true));
  }

  lemma ReadStreams(s: State, w: Wire, i: nat, ok: bool, code: Code)
    requires Paired(s) && Streams(s, w) && i < |s.conns| && s.conns[i].pc == Reading
    ensures Streams(ReadStep(s, w, i, ok, code), w)
  {
    var c := s.conns[i];
    if !ok {
      ReadFailStreams(s, w, i);
    } else if c.read < |c.wrote| {
      if c.wrote[c.read] != NEWLINE {
        ReadByteStreams(s, w, i);
      } else {
        match w.parse(c.wrote[..c.read])
        case AsSender => ReadLineStreams(s, w, i, Registering, code, c.closed);
        case AsReceiver(k) => ReadLineStreams(s, w, i, LookingUp, k, c.closed);
        case OtherRole => ReadLineStreams(s, w, i, Refusing(BadRole), c.code, c.closed);
        case Malformed => ReadLineStreams(s, w, i, Ended, c.code, true);
      }
    }
  }

  lemma WriteKeepsRaw(c: Conn, data: Bytes)
    requires NEWLINE in c.wrote && c.read <= |c.wrote|
    ensures var c' := c.(wrote := c.wrote + data);
            && Raw(c') == Raw(c) && NEWLINE in c'.wrote
            && (AtHead(c) ==> AtHead(c')) && (PastHead(c) ==> PastHead(c'))
  {
    HeadOfMore(c.wrote, data);
  }

  lemma WriteOwnStream(s: State, w: Wire, i: nat, data: Bytes)
    requires Paired(s) && Streams(s, w) && i < |s.conns| && s.conns[i].pc !in {Reading, Ended}
    ensures var c' := s.conns[i].(wrote := s.conns[i].wrote + data);
            Raw(c') == Raw(s.conns[i]) && StreamOk(Put(s, i, c'), w, i)
  {
    var c := s.conns[i];
    var t := Put(s, i, c.(wrote := c.wrote + data));
    assert StreamOk(s, w, i) && SenderOk(s, i) && ClaimOk(s, i);
    WriteKeepsRaw(c, data);
    assert SamePeer(s, t, c);
  }

  lemma WriteStreams(s: State, w: Wire, i: nat, data: Bytes)
    requires Paired(s) && Streams(s, w) && i < |s.conns|
    ensures Streams(Put(s, i, s.conns[i].(wrote := s.conns[i].wrote + data)), w)
  {
    var c := s.conns[i];
    var c' := c.(wrote := c.wrote + data);
    if c.pc in {Reading, Ended} {
      assert StreamOk(s, w, i);
      if c.pc == Reading {
        assert c'.wrote[..c'.read] == c.wrote[..c.read];
      }
    } else {
      WriteOwnStream(s, w, i, data);
    }
    PutStreams(s, w, i, c');
  }

  /** The handlers' steps before a receiver is taken, and failures. */
  lemma PartialReply(c: Conn, w: Wire, a: Ack, ok: bool, part: nat)
    requires c.out == []
    ensures Reply(c, w, a, ok, part).out <= AckLine(w, a)
    ensures ok ==> Reply(c, w, a, ok, part).out == AckLine(w, a)
    ensures AckPrefix(w, a, Reply(c, w, a, ok, part).out)
  {
  }

  lemma ReplyStreams(s: State, w: Wire, i: nat, ok: bool, part: nat, code: Code)
    requires Paired(s) && Streams(s, w) && i < |s.conns|
             && (s.conns[i].pc in {WritingCode} || s.conns[i].pc.Refusing? || s.conns[i].pc.Accepting?)
    ensures Streams(HandleStep(s, w, i, ok, part, code), w)
  {
    var c := s.conns[i];
    assert StreamOk(s, w, i);
    match c.pc {
      case WritingCode =>
        PartialReply(c, w, CodeAck(c.code), ok, part);
        var r := Reply(c, w, CodeAck(c.code), ok, part);
        PutSame(s, w, i, if ok then r.(pc := Waiting) else r.(pc := Withdrawing, closed := true));
      case Refusing(a) =>
        PartialReply(c, w, a, ok, part);
        PutSame(s, w, i, Reply(c, w, a, ok, part).(pc := Ended, closed := true));
      case Accepting(p) =>
        PartialReply(c, w, OkAck, ok, part);
        var r := Reply(c, w, OkAck, ok, part);
        PutSame(s, w, i, if ok then r.(pc := Handing(p)) else r.(pc := Ended, closed := true));
      case _ =>
    }
  }

  /** A change of the map and of flags has no effect on the streams. */
  lemma MapStreams(s: State, w: Wire, pending: map<Code, nat>)
    requires Streams(s, w)
    ensures Streams(s.(pending := pending), w)
  {
    forall j | 0 <= j < |s.conns| ensures StreamOk(s.(pending := pending), w, j) {
      assert StreamOk(s, w, j);
    }
  }

  lemma WaitStreams(s: State, w: Wire, i: nat, ok: bool, part: nat, code: Code)
    requires Paired(s) && Streams(s, w) && i < |s.conns| && s.conns[i].pc in {Registering, Waiting, Withdrawing}
    ensures Streams(HandleStep(s, w, i, ok, part, code), w)
  {
    var t := HandleStep(s, w, i, ok, part, code);
    assert StreamOk(s, w, i);
    if t != s {
      PutStreams(s, w, i, t.conns[i]);
      MapStreams(Put(s, i, t.conns[i]), w, t.pending);
    }
  }

  /** A change that leaves bytes, and who is bridged, alone. */
  lemma PutSame(s: State, w: Wire, i: nat, c: Conn)
    requires Streams(s, w) && i < |s.conns|
    requires c.wrote == s.conns[i].wrote && c.read == s.conns[i].read
    requires Flowing(c.pc) == Flowing(s.conns[i].pc)
    requires StreamOk(Put(s, i, c), w, i)
    ensures Streams(Put(s, i, c), w)
  {
    var t := Put(s, i, c);
    forall j | 0 <= j < |t.conns| ensures StreamOk(t, w, j) {
      assert StreamOk(s, w, j);
      if j != i {
        FrameStream(s, t, w, j);
      }
    }
  }

  lemma FlagStreams(s: State, w: Wire, p: nat, c: Conn)
    requires Streams(s, w) && p < |s.conns|
    requires c == s.conns[p].(ch := c.ch, claimed := c.claimed)
    ensures Streams(Put(s, p, c), w)
  {
    assert StreamOk(s, w, p);
    PutSame(s, w, p, c);
  }

  lemma ClaimStreams(s: State, w: Wire, i: nat, p: nat)
    requires Streams(s, w) && i < |s.conns| && s.conns[i].pc == LookingUp
    ensures Streams(Put(s, i, s.conns[i].(pc := Accepting(p))), w)
  {
    assert StreamOk(s, w, i);
    PutSame(s, w, i, s.conns[i].(pc := Accepting(p)));
  }

  lemma LookUpStreams(s: State, w: Wire, i: nat, ok: bool, part: nat, code: Code)
    requires Paired(s) && Streams(s, w) && i < |s.conns| && s.conns[i].pc == LookingUp
    ensures Streams(HandleStep(s, w, i, ok, part, code), w)
  {
    var c := s.conns[i];
    if c.code in s.pending {
      assert EntryOk(s, c.code);
      var p := s.pending[c.code];
      var flagged := Put(s, p, s.conns[p].(claimed := true));
      FlagStreams(s, w, p, s.conns[p].(claimed := true));
      ClaimStreams(flagged, w, i, p);
      MapStreams(Put(flagged, i, c.(pc := Accepting(p))), w, s.pending - {c.code});
    } else {
      assert StreamOk(s, w, i);
      PutSame(s, w, i, c.(pc := Refusing(UnknownCode)));
    }
  }

  lemma HandStreams(s: State, w: Wire, i: nat, ok: bool, part: nat, code: Code)
    requires Paired(s) && Streams(s, w) && i < |s.conns| && s.conns[i].pc.Handing?
    ensures Streams(HandleStep(s, w, i, ok, part, code), w)
  {
    var p := s.conns[i].pc.sender;
    assert StreamOk(s, w, i) && ClaimOk(s, i);
    var flagged := Put(s, p, s.conns[p].(ch := Some(i)));
    FlagStreams(s, w, p, s.conns[p].(ch := Some(i)));
    PutSame(flagged, w, i, s.conns[i].(pc := Handed(p)));
  }

  /** Before the bridge starts neither side has given up a raw byte. */
  lemma NothingRawYet(s: State, w: Wire, i: nat)
    requires Paired(s) && Streams(s, w) && i < |s.conns| && s.conns[i].pc.Announcing?
    ensures var r := s.conns[i].pc.peer;
            && r < |s.conns| && r != i && s.conns[r].pc == Handed(i) && AtHead(s.conns[i]) && AtHead(s.conns[r])
            && s.conns[i].out == AckLine(w, CodeAck(s.conns[i].code)) && s.conns[r].out == AckLine(w, OkAck)
            && Raw(s.conns[i]) == [] && Raw(s.conns[r]) == []
  {
    assert SenderOk(s, i) && StreamOk(s, w, i) && StreamOk(s, w, s.conns[i].pc.peer);
  }

  lemma AnnounceStreams(s: State, w: Wire, i: nat, part: nat, code: Code)
    requires Paired(s) && Streams(s, w) && i < |s.conns| && s.conns[i].pc.Announcing?
    ensures Streams(HandleStep(s, w, i, true, part, code), w)
  {
    var t := HandleStep(s, w, i, true, part, code);
    var r := s.conns[i].pc.peer;
    NothingRawYet(s, w, i);
    assert t.conns[i].out == AckLine(w, CodeAck(s.conns[i].code)) + AckLine(w, OkAck) + [];
    assert s.conns[r].out == AckLine(w, OkAck) + [];
    forall j | 0 <= j < |t.conns| ensures StreamOk(t, w, j) {
      if j != r && j != i {
        assert StreamOk(s, w, j) && SenderOk(s, j) && ClaimOk(s, j) && SenderOk(s, i);
        assert s.conns[j].pc != Handed(i);
        FrameStream(s, t, w, j);
      }
    }
  }

  lemma DropStreams(s: State, w: Wire, i: nat, part: nat, code: Code)
    requires Paired(s) && Streams(s, w) && i < |s.conns| && s.conns[i].pc.Announcing?
    ensures Streams(HandleStep(s, w, i, false, part, code), w)
  {
    var c := s.conns[i];
    var r := c.pc.peer;
    var d := Reply(c, w, OkAck, false, part).(pc := Dropped(r), closed := true);
    CutIsPrefix(AckLine(w, OkAck), part);
    assert StreamOk(s, w, i);
    assert d.out <= AckLine(w, CodeAck(c.code)) + AckLine(w, OkAck);
    PutStreams(s, w, i, d);
    PutKeeps(s, i, d);
    CloseStreams(Put(s, i, d), w, r);
  }

  lemma CloseStreams(s: State, w: Wire, r: nat)
    requires Paired(s) && Streams(s, w)
    ensures Streams(Close(s, r), w)
  {
    if r < |s.conns| {
      assert StreamOk(s, w, r);
      PutSame(s, w, r, s.conns[r].(closed := true));
    }
  }

  /** `data` has gone from one connection to the other. */
  predicate Moved(s: State, t: State, from: nat, to: nat, data: Bytes) {
    && |t.conns| == |s.conns| && from < |s.conns| && to < |s.conns| && from != to
    && (forall j | 0 <= j < |s.conns| && j != from && j != to :: t.conns[j] == s.conns[j])
    && SameButTaken(s.conns[from], t.conns[from]) && t.conns[from].read == s.conns[from].read + |data|
    && s.conns[from].read + |data| <= |s.conns[from].wrote|
    && data == s.conns[from].wrote[s.conns[from].read..s.conns[from].read + |data|]
    && t.conns[to] == s.conns[to].(out := s.conns[to].out + data)
  }

  predicate SameButTaken(c: Conn, c': Conn) {
    c' == c.(read := c'.read, held := c'.held, cut := c'.cut)
  }

  lemma MovedOther(s: State, t: State, w: Wire, from: nat, to: nat, data: Bytes, j: nat)
    requires Paired(s) && Joined(s, from, to) && Moved(s, t, from, to, data)
    requires j < |s.conns| && j != from && j != to && StreamOk(s, w, j)
    ensures StreamOk(t, w, j)
  {
    BridgesAreApart(s, from, to, j);
    FrameStream(s, t, w, j);
  }

  lemma MovedRaw(s: State, t: State, from: nat, to: nat, data: Bytes)
    requires Moved(s, t, from, to, data) && PastHead(s.conns[from])
    ensures Raw(t.conns[from]) == Raw(s.conns[from]) + data
    ensures Raw(t.conns[to]) == Raw(s.conns[to])
  {
    RawGrows(s.conns[from], t.conns[from], |data|);
  }

  lemma MovedStreams(s: State, t: State, w: Wire, from: nat, to: nat, data: Bytes, j: nat)
    requires Paired(s) && Streams(s, w) && Joined(s, from, to) && Moved(s, t, from, to, data) && j < |s.conns|
    ensures StreamOk(t, w, j)
  {
    assert StreamOk(s, w, j);
    if j != from && j != to {
      MovedOther(s, t, w, from, to, data, j);
    } else {
      JoinedPastHead(s, w, from, to);
      MovedRaw(s, t, from, to, data);
      if j == to {
        ForwardedOut(s, t, w, from, to, data);
      } else {
        ForwardedIn(s, t, w, from, to);
      }
    }
  }

  lemma EmitMoves(s: State, from: nat, to: nat, ok: bool, part: nat) returns (data: Bytes)
    requires from < |s.conns| && EmitStep(s, from, to, ok, part) != s
    ensures Moved(s, EmitStep(s, from, to, ok, part), from, to, data)
  {
    var a := s.conns[from];
    var all := Cut(a.wrote[a.read..], a.held);
    data := if ok && !s.conns[to].closed then all else Cut(all, part);
    CutIsPrefix(a.wrote[a.read..], a.held);
    CutIsPrefix(all, part);
  }

  lemma EmitStreams(s: State, w: Wire, from: nat, to: nat, ok: bool, part: nat)
    requires Paired(s) && Streams(s, w) && Joined(s, from, to)
    ensures Streams(EmitStep(s, from, to, ok, part), w)
  {
    var t := EmitStep(s, from, to, ok, part);
    if t != s {
      var data := EmitMoves(s, from, to, ok, part);
      forall j | 0 <= j < |t.conns| ensures StreamOk(t, w, j) {
        MovedStreams(s, t, w, from, to, data, j);
      }
    }
  }

  lemma FetchStreams(s: State, w: Wire, from: nat, n: nat)
    requires Streams(s, w) && from < |s.conns|
    ensures Streams(FetchStep(s, from, n), w)
  {
    var t := FetchStep(s, from, n);
    if t != s {
      assert StreamOk(s, w, from);
      PutSame(s, w, from, t.conns[from]);
    }
  }

  lemma JoinedPastHead(s: State, w: Wire, a: nat, b: nat)
    requires Paired(s) && Streams(s, w) && Joined(s, a, b)
    ensures PastHead(s.conns[a]) && PastHead(s.conns[b])
  {
    assert SenderOk(s, a) && SenderOk(s, b) && StreamOk(s, w, a) && StreamOk(s, w, b);
  }

  lemma SliceSplits(b: Bytes, h: nat, m: nat, e: nat)
    requires h <= m <= e <= |b|
    ensures b[h..e] == b[h..m] + b[m..e]
  {
  }

  lemma RawGrows(a: Conn, a': Conn, k: nat)
    requires Head(a.wrote) <= a.read && a.read + k <= |a.wrote|
    requires SameButTaken(a, a') && a'.read == a.read + k
    ensures Raw(a') == Raw(a) + a.wrote[a.read..a.read + k]
  {
    SliceSplits(a.wrote, Head(a.wrote), a.read, a.read + k);
  }

  predicate Joined(s: State, a: nat, b: nat) {
    a < |s.conns| && b < |s.conns|
    && ((s.conns[a].pc.Bridging? && s.conns[a].pc.peer == b) || (s.conns[b].pc.Bridging? && s.conns[b].pc.peer == a))
  }

  /** No third connection looks at either end of a bridge. */
  lemma BridgesAreApart(s: State, a: nat, b: nat, j: nat)
    requires Paired(s) && Joined(s, a, b) && j < |s.conns| && j != a && j != b
    ensures Taken(s.conns[j].pc) != Some(a) && Taken(s.conns[j].pc) != Some(b)
    ensures s.conns[j].pc != Handed(a) && s.conns[j].pc != Handed(b)
  {
    assert SenderOk(s, a) && SenderOk(s, b) && SenderOk(s, j) && ClaimOk(s, j);
  }

  lemma Assoc(a: Bytes, b: Bytes, c: Bytes)
    ensures a + (b + c) == a + b + c
  {
  }

  lemma ForwardedOut(s: State, t: State, w: Wire, from: nat, to: nat, data: Bytes)
    requires Paired(s) && Joined(s, from, to) && from != to && StreamOk(s, w, to)
    requires |t.conns| == |s.conns|
    requires t.conns[to] == s.conns[to].(out := s.conns[to].out + data)
    requires t.conns[from].pc == s.conns[from].pc && Raw(t.conns[from]) == Raw(s.conns[from]) + data
    ensures StreamOk(t, w, to)
  {
    assert SenderOk(s, from) && SenderOk(s, to);
    var codeLine, okLine := AckLine(w, CodeAck(s.conns[to].code)), AckLine(w, OkAck);
    Assoc(codeLine + okLine, Raw(s.conns[from]), data);
    Assoc(okLine, Raw(s.conns[from]), data);
  }

  lemma ForwardedIn(s: State, t: State, w: Wire, from: nat, to: nat)
    requires Paired(s) && Joined(s, from, to) && from != to && StreamOk(s, w, from)
    requires |t.conns| == |s.conns|
    requires SameButTaken(s.conns[from], t.conns[from])
    requires s.conns[from].read <= t.conns[from].read <= |s.conns[from].wrote|
    requires t.conns[to].pc == s.conns[to].pc && Raw(t.conns[to]) == Raw(s.conns[to])
    ensures StreamOk(t, w, from)
  {
    assert SenderOk(s, from) && SenderOk(s, to);
  }

  lemma HandleStreams(s: State, w: Wire, i: nat, ok: bool, part: nat, code: Code)
    requires Paired(s) && Streams(s, w) && i < |s.conns|
    ensures Streams(HandleStep(s, w, i, ok, part, code), w)
  {
    match s.conns[i].pc
    case Reading => ReadStreams(s, w, i, ok, code);
    case Registering => WaitStreams(s, w, i, ok, part, code);
    case Waiting => WaitStreams(s, w, i, ok, part, code);
    case Withdrawing => WaitStreams(s, w, i, ok, part, code);
    case WritingCode => ReplyStreams(s, w, i, ok, part, code);
    case Refusing(_) => ReplyStreams(s, w, i, ok, part, code);
    case Accepting(_) => ReplyStreams(s, w, i, ok, part, code);
    case LookingUp => LookUpStreams(s, w, i, ok, part, code);
    case Handing(_) => HandStreams(s, w, i, ok, part, code);
    case Announcing(_) =>
      if ok {
        AnnounceStreams(s, w, i, part, code);
      } else {
        DropStreams(s, w, i, part, code);
      }
    case _ =>
  }

  lemma AcceptStreams(s: State, w: Wire)
    requires Paired(s) && Streams(s, w)
    ensures Streams(s.(conns := s.conns + [NEW]), w)
  {
    var t := s.(conns := s.conns + [NEW]);
    forall j | 0 <= j < |t.conns| ensures StreamOk(t, w, j) {
      if j < |s.conns| {
        assert StreamOk(s, w, j) && SenderOk(s, j) && ClaimOk(s, j);
        FrameStream(s, t, w, j);
      }
    }
  }

  lemma HangupStreams(s: State, w: Wire, i: nat)
    requires Paired(s) && Streams(s, w) && i < |s.conns| && s.conns[i].pc.Bridging?
    ensures Streams(Next(s, w, Hangup(i)), w)
  {
    var c := s.conns[i].(pc := Bridged(s.conns[i].pc.peer), closed := true);
    assert StreamOk(s, w, i) && SenderOk(s, i);
    PutStreams(s, w, i, c);
    PutKeeps(s, i, c);
    CloseStreams(Put(s, i, c), w, s.conns[i].pc.peer);
  }

  lemma StreamsStep(s: State, w: Wire, e: Event)
    requires Paired(s) && Streams(s, w)
    ensures Streams(Next(s, w, e), w)
  {
    match e
    case Accept => AcceptStreams(s, w);
    case Write(i, data) =>
      if i < |s.conns| {
        WriteStreams(s, w, i, data);
      }
    case Handle(i, ok, part, code) =>
      if i < |s.conns| {
        HandleStreams(s, w, i, ok, part, code);
      }
    case Fetch(i, toReceiver, n) =>
      if Bridges(s, i) {
        FetchStreams(s, w, Source(s, i, toReceiver), n);
      }
    case Emit(i, toReceiver, ok, part) =>
      if Bridges(s, i) {
        EmitStreams(s, w, Source(s, i, toReceiver), Source(s, i, !toReceiver), ok, part);
      }
    case Hangup(i) =>
      if i < |s.conns| && s.conns[i].pc.Bridging? {
        HangupStreams(s, w, i);
      }
  }

  lemma {:induction false} StreamsRun(s: State, w: Wire, es: seq<Event>)
    requires Paired(s) && Streams(s, w)
    ensures Paired(Exec(s, w, es)) && Streams(Exec(s, w, es), w)
    decreases |es|
  {
    if es != [] {
      StreamsStep(s, w, es[0]);
      PairedStep(s, w, es[0]);
      StreamsRun(Next(s, w, es[0]), w, es[1..]);
    }
  }

  /** Everything after the first line. */
  function Rest(b: Bytes): Bytes { b[Head(b)..] }

  lemma AfterLine(w: Wire, a: Ack, more: Bytes)
    requires WireOk(w)
    ensures Rest(AckLine(w, a) + more) == more
  {
    var b := AckLine(w, a) + more;
    assert b[..|w.line(a)|] == w.line(a);
    HeadIs(b, |w.line(a)| + 1);
  }

  lemma RawIsPrefix(c: Conn)
    requires PastHead(c)
    ensures Raw(c) <= Rest(c.wrote)
  {
    assert Raw(c) == Rest(c.wrote)[..c.read - Head(c.wrote)];
  }

  lemma TwoLines(w: Wire, a: Ack, b: Ack, raw: Bytes)
    requires WireOk(w)
    ensures Rest(Rest(AckLine(w, a) + AckLine(w, b) + raw)) == raw
  {
    Assoc(AckLine(w, a), AckLine(w, b), raw);
    AfterLine(w, a, AckLine(w, b) + raw);
    AfterLine(w, b, raw);
  }

  /** End to end: a sender that reads two lines and a receiver that reads one (each with relayRead) are
      left with exactly what the relay has read of the other one beyond its own handshake line, which is a
      prefix of what that one has written there. */
  lemma NoiseStreamsAreClean(w: Wire, es: seq<Event>, i: nat)
    requires WireOk(w)
    requires i < |Exec(EMPTY, w, es).conns| && Flowing(Exec(EMPTY, w, es).conns[i].pc)
    ensures var s := Exec(EMPTY, w, es);
            var r := s.conns[i].pc.peer;
            && r < |s.conns| && s.conns[r].pc == Handed(i)
            && Rest(Rest(s.conns[i].out)) == Raw(s.conns[r]) <= Rest(s.conns[r].wrote)
            && Rest(s.conns[r].out) == Raw(s.conns[i]) <= Rest(s.conns[i].wrote)
  {
    StreamsRun(EMPTY, w, es);
    CleanState(Exec(EMPTY, w, es), w, i);
  }

  lemma BridgedOutputs(s: State, w: Wire, i: nat)
    requires Paired(s) && Streams(s, w) && i < |s.conns| && Flowing(s.conns[i].pc)
    ensures var r := s.conns[i].pc.peer;
            && r < |s.conns| && s.conns[r].pc == Handed(i)
            && PastHead(s.conns[i]) && PastHead(s.conns[r])
            && s.conns[i].out == AckLine(w, CodeAck(s.conns[i].code)) + AckLine(w, OkAck) + Raw(s.conns[r])
            && s.conns[r].out == AckLine(w, OkAck) + Raw(s.conns[i])
  {
    assert SenderOk(s, i) && StreamOk(s, w, i) && StreamOk(s, w, s.conns[i].pc.peer);
  }

  lemma CleanState(s: State, w: Wire, i: nat)
    requires WireOk(w) && Paired(s) && Streams(s, w)
    requires i < |s.conns| && Flowing(s.conns[i].pc)
    ensures var r := s.conns[i].pc.peer;
            && r < |s.conns| && s.conns[r].pc == Handed(i)
            && Rest(Rest(s.conns[i].out)) == Raw(s.conns[r]) <= Rest(s.conns[r].wrote)
            && Rest(s.conns[r].out) == Raw(s.conns[i]) <= Rest(s.conns[i].wrote)
  {
    var c := s.conns[i];
    var r := c.pc.peer;
    BridgedOutputs(s, w, i);
    TwoLines(w, CodeAck(c.code), OkAck, Raw(s.conns[r]));
    AfterLine(w, OkAck, Raw(c));
    RawIsPrefix(c);
    RawIsPrefix(s.conns[r]);
  }
}
