/** The code of receiveFiles, run on what one attempt delivers to it, ends with the disk
    that the interleaved two-party run ends with. */
module Refinement {
  import opened Protocol
  import opened Storage
  import opened Machine
  import Receiver

  /** Messages that reach the receiver's channel during a run. */
  function Later(y: System, es: seq<Event>): seq<Message>
    decreases |es|
  {
    if es == [] then []
    else (if es[0].who == SenderSide then Added(y, es[0]) else []) + Later(Next(y, es[0]), es[1..])
  }

  function Added(y: System, e: Event): seq<Message> {
    var after := Next(y, e).c.inbox;
    if |y.c.inbox| <= |after| then after[|y.c.inbox|..] else []
  }

  /** The same configuration, with the messages still to come already in its inbox. */
  function Widen(c: Config, more: seq<Message>, sent: seq<Message>): Config {
    c.(inbox := c.inbox + more, sent := sent)
  }

  function Ticks(c: Config, ios: seq<Io>): Config
    decreases |ios|
  {
    if ios == [] then c else Ticks(ReceiverStep(c, true, ios[0]), ios[1..])
  }

  lemma {:induction false} GoneIsSilent(y: System, es: seq<Event>)
    requires SenderGone(y.s)
    ensures Later(y, es) == []
    decreases |es|
  {
    if es != [] {
      GoneIsSilent(Next(y, es[0]), es[1..]);
    }
  }

  predicate Blocked(c: Config, closed: bool, io: Io) {
    c.r.pc in {Idle, Saved, Loop, Closing} && c.inbox == [] && !closed && io.Works?
  }

  function NewlySent(c: Config, c': Config): seq<Message> {
    if |c.sent| <= |c'.sent| then c'.sent[|c.sent|..] else []
  }

  predicate Waits(pc: ReceiverPc) { pc in {Idle, Saved, Loop, Closing} }

  lemma WideRead(c: Config, closed: bool, io: Io, more: seq<Message>, sent: seq<Message>)
    requires Waits(c.r.pc) && !Blocked(c, closed, io) && (closed ==> more == [])
    ensures ReceiverStep(Widen(c, more, sent), true, io) == Widen(ReceiverStep(c, closed, io), more, sent)
  {
    if c.inbox != [] {
      assert (c.inbox + more)[1..] == c.inbox[1..] + more;
      assert (c.inbox + more)[0] == c.inbox[0];
    }
  }

  lemma WideSend(c: Config, io: Io, more: seq<Message>, sent: seq<Message>)
    requires c.r.pc in {Ack, SumAck}
    ensures var c' := ReceiverStep(c, true, io);
            ReceiverStep(Widen(c, more, sent), true, io) == Widen(c', more, sent + NewlySent(c, c'))
  {
  }

  lemma WideOpening(c: Config, io: Io, more: seq<Message>, sent: seq<Message>)
    requires c.r.pc in {Load, Open, Truncate, Rehash, Create, SaveNew}
    ensures ReceiverStep(Widen(c, more, sent), true, io) == Widen(ReceiverStep(c, true, io), more, sent)
    ensures ReceiverStep(c, true, io).sent == c.sent
  {
  }

  lemma WideWriting(c: Config, io: Io, more: seq<Message>, sent: seq<Message>)
    requires c.r.pc in {Write, Save, Forget, Place, Finish, Abort} || c.r.pc.Exit?
    ensures ReceiverStep(Widen(c, more, sent), true, io) == Widen(ReceiverStep(c, true, io), more, sent)
    ensures ReceiverStep(c, true, io).sent == c.sent
  {
  }

  lemma WideStep(c: Config, closed: bool, io: Io, more: seq<Message>, sent: seq<Message>)
    requires !Blocked(c, closed, io) && (closed ==> more == [])
    ensures var c' := ReceiverStep(c, closed, io);
            ReceiverStep(Widen(c, more, sent), true, io) == Widen(c', more, sent + NewlySent(c, c'))
  {
    if Waits(c.r.pc) {
      WideRead(c, closed, io, more, sent);
    } else if c.r.pc in {Ack, SumAck} {
      WideSend(c, io, more, sent);
    } else if c.r.pc in {Load, Open, Truncate, Rehash, Create, SaveNew} {
      WideOpening(c, io, more, sent);
    } else {
      WideWriting(c, io, more, sent);
    }
  }

  lemma SenderOnlyAdds(y: System, io: Io, n: nat, more: seq<Message>)
    ensures var e := Event(SenderSide, io, n);
            Next(y, e).c.r == y.c.r && Next(y, e).c.disk == y.c.disk && Next(y, e).c.inbox == y.c.inbox + Added(y, e)
  {
  }

  lemma {:induction false} RunIsTicks(y: System, es: seq<Event>, sent: seq<Message>)
    returns (ios: seq<Io>, sent': seq<Message>)
    ensures Ticks(Widen(y.c, Later(y, es), sent), ios) == Widen(Exec(y, es).c, [], sent')
    decreases |es|
  {
    if es == [] {
      ios, sent' := [], sent;
      assert Later(y, es) == [];
      assert y.c.inbox + [] == y.c.inbox;
    } else {
      var e := es[0];
      var next := Next(y, e);
      var more := Later(next, es[1..]);
      if e.who == SenderSide {
        SenderOnlyAdds(y, e.io, e.n, more);
        assert Widen(y.c, Later(y, es), sent) == Widen(next.c, more, sent);
        ios, sent' := RunIsTicks(next, es[1..], sent);
      } else if Blocked(y.c, SenderGone(y.s), e.io) {
        assert next == y && Later(y, es) == more;
        ios, sent' := RunIsTicks(next, es[1..], sent);
      } else {
        if SenderGone(y.s) {
          GoneIsSilent(next, es[1..]);
        }
        WideStep(y.c, SenderGone(y.s), e.io, more, sent);
        var rest;
        rest, sent' := RunIsTicks(next, es[1..], sent + NewlySent(y.c, next.c));
        ios := [e.io] + rest;
        assert Later(y, es) == more;
        assert ios[1..] == rest;
      }
    }
  }

  lemma {:induction false} TicksAreTheSession(c: Config, ios: seq<Io>, clock: nat, io: Receiver.Outcomes)
    requires forall i | 0 <= i < |ios| :: io(clock + i) == ios[i]
    requires Ticks(c, ios).r.pc.Exit?
    ensures Receiver.RunSession(Receiver.Point(c, clock), io).c == Ticks(c, ios)
    decreases |ios|
  {
    if c.r.pc.Exit? {
      ExitStays(c, ios);
    } else {
      TicksAreTheSession(ReceiverStep(c, true, ios[0]), ios[1..], clock + 1, io);
    }
  }

  lemma {:induction false} ExitStays(c: Config, ios: seq<Io>)
    requires c.r.pc.Exit?
    ensures Ticks(c, ios) == c
    decreases |ios|
  {
    if ios != [] {
      ExitStays(c, ios[1..]);
    }
  }

  /** For every attempt in which receiveFiles returns there is a pattern of failing operations under
      which ReceiveFiles, started on the same disk with the messages of that attempt, computes
      the attempt's result and leaves the attempt's disk. */
  lemma CodeFollowsTheProtocol(d: Disk, a: Attempt) returns (io: Receiver.Outcomes)
    requires After(d, a).c.r.pc.Exit?
    ensures var c := Initial(d, a.job).c.(inbox := Later(Initial(d, a.job), a.events));
            var end := Receiver.RunSession(Receiver.Point(c, 0), io).c;
            end.r == After(d, a).c.r && end.disk == After(d, a).c.disk
  {
    var y := Initial(d, a.job);
    var ios, sent := RunIsTicks(y, a.events, []);
    io := (n: nat) => if n < |ios| then ios[n] else Works;
    TicksAreTheSession(Widen(y.c, Later(y, a.events), []), ios, 0, io);
    assert Widen(y.c, Later(y, a.events), []) == y.c.(inbox := Later(y, a.events));
  }
}
