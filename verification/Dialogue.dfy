/** The sender's end of a session, with the receiver at work at the other end: before each operation
    of the sender, the receiver makes as many steps as it likes. */
module Dialogue {
  import opened Protocol
  import opened Storage
  import opened Machine
  import Safety

  const FAULT := Event(SenderSide, Fails(0), 0)

  /** The receiver's steps while the sender is connected. */
  function Acted(c: Config, ios: seq<Io>): Config
    decreases |ios|
  {
    if ios == [] then c else Acted(ReceiverStep(c, false, ios[0]), ios[1..])
  }

  function Steps(ios: seq<Io>): seq<Event> { seq(|ios|, i requires 0 <= i < |ios| => Event(ReceiverSide, ios[i], 0)) }

  lemma {:induction false} ActedIsRun(s: Sender, c: Config, ios: seq<Io>)
    requires !SenderGone(s)
    ensures Exec(System(s, c), Steps(ios)) == System(s, Acted(c, ios))
    decreases |ios|
  {
    if ios != [] {
      assert Steps(ios)[1..] == Steps(ios[1..]);
      assert Next(System(s, c), Steps(ios)[0]) == System(s, ReceiverStep(c, false, ios[0]));
      ActedIsRun(s, ReceiverStep(c, false, ios[0]), ios[1..]);
    }
  }

  predicate Speaks(s: Sender) { s.pc in {Begin, Reading, Summing} }

  /** What a sender that is about to send says, when a read returns up to n bytes. */
  function Says(s: Sender, n: nat): Message
    requires Speaks(s)
  {
    var job := s.job;
    match s.pc
    case Begin => StartMsg(job.fileId, job.name, job.size, job.offers)
    case Reading =>
      if s.pos < |job.src| then ChunkMsg(job.fileId, s.index, NextRead(job.src, s.pos, n)) else CompleteMsg(job.fileId)
    case Summing => ChecksumMsg(job.fileId, Sum(job.summed))
  }

  function Said(s: Sender, n: nat): Sender
    requires Speaks(s)
  {
    match s.pc
    case Begin => Step(s, if s.job.offers then AwaitAck else SenderPc.Reading)
    case Reading =>
      if s.pos < |s.job.src| then
        var data := NextRead(s.job.src, s.pos, n);
        s.(pos := s.pos + |data|, index := s.index + 1)
      else Step(s, Summing)
    case Summing => Step(s, AwaitSum)
  }

  lemma SayingIsAStep(s: Sender, c: Config, n: nat)
    requires Speaks(s)
    ensures Next(System(s, c), Event(SenderSide, Works, n)) == System(Said(s, n), c.(inbox := c.inbox + [Says(s, n)]))
  {
  }

  /** What an answer makes of a sender that waits for it. */
  function Answered(s: Sender, m: Message): Sender
    requires s.pc in {AwaitAck, AwaitSum}
  {
    if s.pc == AwaitAck then
      var offset := if m.kind == FileResume && m.offset >= 0 then m.offset else 0;
      s.(pc := SenderPc.Reading, pos := offset, index := offset / FILE_CHUNK_SIZE)
    else Step(s, if m.kind == FileChecksum && m.checksum == Sum(s.job.summed) then Sent else Failed)
  }

  class Dialogue {
    var c: Config
    var turns: seq<seq<Io>>
    ghost const start: System
    ghost var s: Sender
    ghost var trace: seq<Event>

    /** What has happened so far is a run of the two machines, in just this interleaving. */
    ghost predicate Valid()
      reads this
    {
      Exec(start, trace) == System(s, c)
    }

    constructor (y: System, turns: seq<seq<Io>>)
      ensures Valid() && start == y && s == y.s && c == y.c && trace == []
    {
      c, this.turns, start, s, trace := y.c, turns, y, y.s, [];
    }

    /** The two machines have just made these steps. */
    ghost method Record(es: seq<Event>, before: System, next: Sender)
      requires Exec(start, trace) == before && Exec(before, es) == System(next, c)
      modifies this`s, this`trace
      ensures Valid() && s == next && trace == old(trace) + es
    {
      Safety.ExecAppend(start, trace, es);
      s, trace := next, trace + es;
    }

    /** The receiver's turn. */
    method Yield()
      requires Valid() && !SenderGone(s)
      modifies this
      ensures Valid() && s == old(s) && old(trace) <= trace
      ensures |turns| < |old(turns)| || (turns == old(turns) == [] && c == old(c))
    {
      if turns != [] {
        ghost var before := System(s, c);
        ghost var ios := turns[0];
        ActedIsRun(s, c, ios);
        var left := turns[0];
        while left != []
          invariant Acted(c, left) == Acted(before.c, ios)
          invariant s == before.s && trace == old(trace) && turns == old(turns)
          decreases |left|
        {
          c := ReceiverStep(c, false, left[0]);
          left := left[1..];
        }
        turns := turns[1..];
        Record(Steps(ios), before, s);
      }
    }

    method SendMessage(m: Message, io: Io, ghost n: nat) returns (ok: bool)
      requires Valid() && Speaks(s) && m == Says(s, n)
      modifies this
      ensures Valid() && ok == io.Works? && old(trace) <= trace
      ensures s == if ok then Said(old(s), n) else Step(old(s), Failed)
    {
      Yield();
      ghost var before, e := System(s, c), Event(SenderSide, io, n);
      ok := io.Works?;
      Safety.OneStep(before, e);
      if ok {
        c := c.(inbox := c.inbox + [m]);
        SayingIsAStep(before.s, before.c, n);
        Record([e], before, Said(before.s, n));
      } else {
        Record([e], before, Step(before.s, Failed));
      }
    }

    /** Blocks until the receiver has answered; fails when it has gone, or the connection has. */
    method ReceiveMessage(io: Io) returns (m: Option<Message>)
      requires Valid() && s.pc in {AwaitAck, AwaitSum}
      modifies this
      ensures Valid() && old(trace) <= trace
      ensures s == if m.Some? then Answered(old(s), m.value) else Step(old(s), Failed)
    {
      Yield();
      while c.sent == [] && turns != []
        invariant Valid() && s == old(s) && old(trace) <= trace
        decreases |turns|
      {
        Yield();
      }
      ghost var before := System(s, c);
      if c.sent != [] && io.Works? {
        m := Some(c.sent[0]);
        c := c.(sent := c.sent[1..]);
        Safety.OneStep(before, Event(SenderSide, io, 0));
        Record([Event(SenderSide, io, 0)], before, Answered(before.s, m.value));
      } else {
        m := None;
        Safety.OneStep(before, FAULT);
        Record([FAULT], before, Step(before.s, Failed));
      }
    }

    /** The sender returns an error of its own. */
    ghost method Abandon()
      requires Valid() && !SenderGone(s)
      modifies this`s, this`trace
      ensures Valid() && s == Step(old(s), Failed) && old(trace) <= trace
    {
      ghost var before := System(s, c);
      Safety.OneStep(before, FAULT);
      Record([FAULT], before, Step(s, Failed));
    }
  }
}
