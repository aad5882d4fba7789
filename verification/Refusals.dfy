/** Whom the relay tells what. */
module Refusals {
  import opened Protocol
  import opened Relay
  import opened RelayRuns
  import opened RelayStreams
  import opened Pairing
  import opened Stranding

  /** The first line of a stream determines the ack. */
  lemma {:induction false} LinesDiffer(w: Wire, a: Ack, b: Ack, out: Bytes)
    requires WireOk(w) && AckLine(w, a) <= out && AckLine(w, b) <= out
    ensures a == b
  {
    var n, m := |w.line(a)|, |w.line(b)|;
    assert out[..n + 1] == AckLine(w, a) && out[..m + 1] == AckLine(w, b);
    assert out[..n] == w.line(a) && out[..m] == w.line(b);
    assert out[n] == AckLine(w, a)[n] == NEWLINE && out[m] == AckLine(w, b)[m] == NEWLINE;
    HeadIs(out, n + 1);
    HeadIs(out, m + 1);
  }

  lemma {:induction false} PartOfOther(w: Wire, a: Ack, b: Ack, out: Bytes)
    requires WireOk(w) && a != b && out <= AckLine(w, b)
    ensures !(AckLine(w, a) <= out)
  {
    if AckLine(w, a) <= out {
      assert AckLine(w, a) <= AckLine(w, b);
      LinesDiffer(w, a, b, AckLine(w, b));
    }
  }

  /** What a connection has been sent begins with the line that says OK. */
  predicate HeardOk(w: Wire, c: Conn) { AckLine(w, OkAck) <= c.out }

  /** A sender has been sent its code, and then that line. */
  predicate HeardPeer(w: Wire, c: Conn) { AckLine(w, CodeAck(c.code)) + AckLine(w, OkAck) <= c.out }

  lemma {:induction false} SenderHearsNoOk(w: Wire, c: Conn)
    requires WireOk(w) && (c.out <= AckLine(w, CodeAck(c.code)) || AckLine(w, CodeAck(c.code)) <= c.out)
    ensures !HeardOk(w, c)
  {
    if c.out <= AckLine(w, CodeAck(c.code)) {
      PartOfOther(w, OkAck, CodeAck(c.code), c.out);
    } else if HeardOk(w, c) {
      LinesDiffer(w, OkAck, CodeAck(c.code), c.out);
    }
  }

  lemma {:induction false} OthersHearNoOk(w: Wire, s: State, i: nat)
    requires WireOk(w) && Paired(s) && Streams(s, w) && i < |s.conns| && !Acknowledged(s.conns[i].pc)
    ensures !HeardOk(w, s.conns[i])
  {
    var c := s.conns[i];
    assert StreamOk(s, w, i);
    match c.pc
    case Waiting => SenderHearsNoOk(w, c);
    case Withdrawing => SenderHearsNoOk(w, c);
    case Left => SenderHearsNoOk(w, c);
    case Announcing(_) => SenderHearsNoOk(w, c);
    case Bridging(_) => SenderHearsNoOk(w, c);
    case Bridged(_) => SenderHearsNoOk(w, c);
    case Dropped(_) => SenderHearsNoOk(w, c);
    case Ended =>
      if AckPrefix(w, UnknownCode, c.out) {
        PartOfOther(w, OkAck, UnknownCode, c.out);
      } else if AckPrefix(w, BadRole, c.out) {
        PartOfOther(w, OkAck, BadRole, c.out);
      }
    case _ =>
  }

  /** In every reachable state, a connection has been told OK, as its first line, exactly if it is a receiver
      that has claimed a sender and goes to it, or has gone. */
  lemma {:induction false} OkIsForReceivers(w: Wire, es: seq<Event>, i: nat)
    requires WireOk(w) && i < |Exec(EMPTY, w, es).conns|
    ensures var c := Exec(EMPTY, w, es).conns[i];
            HeardOk(w, c) <==> Acknowledged(c.pc)
  {
    StreamsRun(EMPTY, w, es);
    var s := Exec(EMPTY, w, es);
    if Acknowledged(s.conns[i].pc) {
      assert StreamOk(s, w, i);
    } else {
      OthersHearNoOk(w, s, i);
    }
  }

  /** And it has been told a code and then OK exactly if it is a sender that is or was bridged to a receiver. */
  lemma {:induction false} PeerIsForSenders(w: Wire, es: seq<Event>, i: nat)
    requires WireOk(w) && i < |Exec(EMPTY, w, es).conns|
    ensures var c := Exec(EMPTY, w, es).conns[i];
            HeardPeer(w, c) <==> Flowing(c.pc)
  {
    StreamsRun(EMPTY, w, es);
    var s := Exec(EMPTY, w, es);
    var c := s.conns[i];
    var code := AckLine(w, CodeAck(c.code));
    assert StreamOk(s, w, i);
    if HeardPeer(w, c) {
      assert code <= c.out;
      match c.pc
      case Handing(_) => LinesDiffer(w, OkAck, CodeAck(c.code), c.out);
      case Handed(_) => LinesDiffer(w, OkAck, CodeAck(c.code), c.out);
      case Ended => EndedHearsNoCode(w, c);
      case _ =>
    }
  }

  lemma {:induction false} EndedHearsNoCode(w: Wire, c: Conn)
    requires WireOk(w)
    requires AckPrefix(w, UnknownCode, c.out) || AckPrefix(w, BadRole, c.out) || AckPrefix(w, OkAck, c.out)
    ensures !(AckLine(w, CodeAck(c.code)) <= c.out)
  {
    var a := if AckPrefix(w, UnknownCode, c.out) then UnknownCode
             else if AckPrefix(w, BadRole, c.out) then BadRole
             else OkAck;
    PartOfOther(w, CodeAck(c.code), a, c.out);
  }

  /** A connection that is being refused, or has been. */
  predicate Refused(s: State, w: Wire, i: nat, a: Ack) {
    && i < |s.conns|
    && (|| (s.conns[i].pc == Refusing(a) && s.conns[i].out == [])
        || (s.conns[i].pc == Ended && s.conns[i].closed && s.conns[i].out <= AckLine(w, a)))
  }

  /** A connection that has no part in any pairing. */
  predicate Apart(pc: Pc) { pc == Ended || pc.Refusing? }

  lemma {:induction false} ApartFromHandler(s: State, w: Wire, j: nat, ok: bool, part: nat, code: Code, i: nat)
    requires Paired(s) && i < |s.conns| && Apart(s.conns[i].pc) && j < |s.conns| && j != i
    ensures i < |HandleStep(s, w, j, ok, part, code).conns|
            && HandleStep(s, w, j, ok, part, code).conns[i] == s.conns[i]
  {
    match s.conns[j].pc
    case Announcing(_) => assert SenderOk(s, j);
    case Handing(_) => assert ClaimOk(s, j);
    case LookingUp =>
      if s.conns[j].code in s.pending {
        assert EntryOk(s, s.conns[j].code);
      }
    case Reading => case Accepting(_) => case Refusing(_) =>
    case _ =>
  }

  lemma {:induction false} ApartFromBridge(s: State, w: Wire, e: Event, i: nat)
    requires Paired(s) && i < |s.conns| && Apart(s.conns[i].pc) && (e.Fetch? || e.Emit? || e.Hangup?)
    ensures i < |Next(s, w, e).conns| && Next(s, w, e).conns[i] == s.conns[i]
  {
    if e.i < |s.conns| {
      assert SenderOk(s, e.i);
    }
  }

  lemma {:induction false} RefusedHandle(s: State, w: Wire, j: nat, ok: bool, part: nat, code: Code, i: nat, a: Ack)
    requires Paired(s) && Refused(s, w, i, a) && j < |s.conns|
    ensures Refused(HandleStep(s, w, j, ok, part, code), w, i, a)
  {
    if j != i {
      ApartFromHandler(s, w, j, ok, part, code, i);
    } else if s.conns[i].pc == Refusing(a) {
      assert [] + AckLine(w, a) == AckLine(w, a) && [] + Part(AckLine(w, a), part) == Part(AckLine(w, a), part);
    }
  }

  lemma {:induction false} RefusedRun(s: State, w: Wire, es: seq<Event>, i: nat, a: Ack)
    requires Paired(s) && Refused(s, w, i, a)
    ensures Refused(Exec(s, w, es), w, i, a)
    decreases |es|
  {
    if es != [] {
      match es[0] {
        case Handle(j, ok, part, code) =>
          if j < |s.conns| {
            RefusedHandle(s, w, j, ok, part, code, i, a);
          }
        case Accept =>
        case Write(_, _) =>
        case _ => ApartFromBridge(s, w, es[0], i);
      }
      PairedStep(s, w, es[0]);
      RefusedRun(Next(s, w, es[0]), w, es[1..], i, a);
    }
  }

  /** In every reachable state: a receiver whose code is not in the map when it is looked up hears nothing but
      the line that says so, or a part of it, and is closed when its handler ends, whatever follows. */
  lemma {:induction false} UnknownCodesAreRefused(w: Wire, es: seq<Event>, i: nat, ok: bool, part: nat, code: Code,
                                                  more: seq<Event>)
    requires var s := Exec(EMPTY, w, es);
             i < |s.conns| && s.conns[i].pc == LookingUp && s.conns[i].code !in s.pending
    ensures Refused(Exec(Next(Exec(EMPTY, w, es), w, Handle(i, ok, part, code)), w, more), w, i, UnknownCode)
  {
    StreamsRun(EMPTY, w, es);
    var s := Exec(EMPTY, w, es);
    assert StreamOk(s, w, i);
    PairedStep(s, w, Handle(i, ok, part, code));
    RefusedRun(Next(s, w, Handle(i, ok, part, code)), w, more, i, UnknownCode);
  }

  /** The same for a client that is neither sender nor receiver, when its line has been read. */
  lemma {:induction false} OtherRolesAreRefused(w: Wire, es: seq<Event>, i: nat, part: nat, code: Code,
                                                more: seq<Event>)
    requires var s := Exec(EMPTY, w, es);
             && i < |s.conns| && s.conns[i].pc == Reading
             && s.conns[i].read < |s.conns[i].wrote| && s.conns[i].wrote[s.conns[i].read] == NEWLINE
             && w.parse(s.conns[i].wrote[..s.conns[i].read]) == OtherRole
    ensures Refused(Exec(Next(Exec(EMPTY, w, es), w, Handle(i, true, part, code)), w, more), w, i, BadRole)
  {
    StreamsRun(EMPTY, w, es);
    var s := Exec(EMPTY, w, es);
    assert StreamOk(s, w, i);
    PairedStep(s, w, Handle(i, true, part, code));
    RefusedRun(Next(s, w, Handle(i, true, part, code)), w, more, i, BadRole);
  }

  /** A connection that has ended without a word. */
  predicate Silent(s: State, i: nat) {
    i < |s.conns| && s.conns[i].pc == Ended && s.conns[i].closed && s.conns[i].out == []
  }

  lemma {:induction false} SilenceStep(s: State, w: Wire, e: Event, i: nat)
    requires Paired(s) && Silent(s, i)
    ensures Silent(Next(s, w, e), i)
  {
    match e
    case Accept =>
    case Write(_, _) =>
    case Handle(j, ok, part, code) =>
      if j < |s.conns| && j != i {
        ApartFromHandler(s, w, j, ok, part, code, i);
      }
    case _ => ApartFromBridge(s, w, e, i);
  }

  lemma {:induction false} SilenceRun(s: State, w: Wire, es: seq<Event>, i: nat)
    requires Paired(s) && Silent(s, i)
    ensures Silent(Exec(s, w, es), i)
    decreases |es|
  {
    if es != [] {
      SilenceStep(s, w, es[0], i);
      PairedStep(s, w, es[0]);
      SilenceRun(Next(s, w, es[0]), w, es[1..], i);
    }
  }

  /** And one whose connection breaks before the end of its line, or whose line does not parse, hears
      nothing at all. */
  lemma {:induction false} MalformedHearNothing(w: Wire, es: seq<Event>, i: nat, ok: bool, part: nat, code: Code,
                                                more: seq<Event>)
    requires var s := Exec(EMPTY, w, es);
             && i < |s.conns| && s.conns[i].pc == Reading
             && (ok ==>
                   && s.conns[i].read < |s.conns[i].wrote| && s.conns[i].wrote[s.conns[i].read] == NEWLINE
                   && w.parse(s.conns[i].wrote[..s.conns[i].read]) == Malformed)
    ensures Silent(Exec(Next(Exec(EMPTY, w, es), w, Handle(i, ok, part, code)), w, more), i)
  {
    StreamsRun(EMPTY, w, es);
    var s := Exec(EMPTY, w, es);
    assert StreamOk(s, w, i);
    PairedStep(s, w, Handle(i, ok, part, code));
    SilenceRun(Next(s, w, Handle(i, ok, part, code)), w, more, i);
  }
}
