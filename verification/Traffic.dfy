/** Every message of a transfer is one that the session accepts. */
module Traffic {
  import opened Protocol
  import opened Machine
  import opened Storage
  import opened Session
  import Frame
  import Safety

  predicate Sendable(m: Message, job: Job) {
    Valid(m) && Carries(m) && |m.chunk| <= FILE_CHUNK_SIZE && m.checksum in {NoSum, Sum(job.summed)}
  }

  predicate AllSendable(ms: seq<Message>, job: Job) { forall i | 0 <= i < |ms| :: Sendable(ms[i], job) }

  predicate Proper(job: Job) { job.fileId != "" && job.name != "" && job.size >= -1 }

  predicate Clean(y: System) {
    && Proper(y.s.job)
    && AllSendable(y.c.inbox, y.s.job) && AllSendable(y.c.sent, y.s.job)
    && (y.s.pc in {Begin, Reading} ==> y.s.index >= 0)
    && (y.c.r.pc == SumAck ==> y.c.r.hashed == y.s.job.summed)
    && (y.c.r.pc in {Idle} || y.c.r.pc.Exit? || y.c.r.start.fileId != "")
  }

  lemma CleanSender(y: System, io: Io, n: nat)
    requires Clean(y)
    ensures Clean(SenderStep(y, io, n))
  {
  }

  lemma CleanReading(y: System, closed: bool, io: Io)
    requires Clean(y) && y.c.r.pc in {Idle, Saved, Loop, Closing}
    ensures Clean(y.(c := ReceiverStep(y.c, closed, io)))
  {
  }

  lemma CleanSending(y: System, closed: bool, io: Io)
    requires Clean(y) && y.c.r.pc in {Ack, SumAck}
    ensures Clean(y.(c := ReceiverStep(y.c, closed, io)))
  {
  }

  /** The other steps leave the channels alone. */
  lemma CleanWorking(y: System, closed: bool, io: Io)
    requires Clean(y) && y.c.r.pc in {Load, Open, Truncate, Rehash, Create, SaveNew}
    ensures Clean(y.(c := ReceiverStep(y.c, closed, io)))
  {
  }

  lemma CleanEnding(y: System, closed: bool, io: Io)
    requires Clean(y) && y.c.r.pc in {Write, Save, Forget, Place, Finish, Abort}
    ensures Clean(y.(c := ReceiverStep(y.c, closed, io)))
  {
  }

  lemma CleanReceiver(y: System, closed: bool, io: Io)
    requires Clean(y)
    ensures Clean(y.(c := ReceiverStep(y.c, closed, io)))
  {
    var pc := y.c.r.pc;
    if pc in {Idle, Saved, Loop, Closing} {
      CleanReading(y, closed, io);
    } else if pc in {Ack, SumAck} {
      CleanSending(y, closed, io);
    } else if pc in {Load, Open, Truncate, Rehash, Create, SaveNew} {
      CleanWorking(y, closed, io);
    } else if !pc.Exit? {
      CleanEnding(y, closed, io);
    }
  }

  lemma {:induction false} CleanRun(y: System, es: seq<Event>)
    requires Clean(y)
    ensures Clean(Exec(y, es))
    decreases |es|
  {
    if es != [] {
      if es[0].who == SenderSide {
        CleanSender(y, es[0].io, es[0].n);
      } else {
        CleanReceiver(y, SenderGone(y.s), es[0].io);
      }
      CleanRun(Next(y, es[0]), es[1..]);
    }
  }

  /** In every run, cut or not, each message on either channel is valid, carries chunk bytes only as a
      file_chunk, has a chunk that fits a frame, and no checksum but that of the sender. */
  lemma EveryMessageIsSendable(d: Disk, a: Attempt)
    requires Proper(a.job)
    ensures AllSendable(After(d, a).c.inbox, a.job) && AllSendable(After(d, a).c.sent, a.job)
  {
    CleanRun(Initial(d, a.job), a.events);
    Safety.JobStays(Initial(d, a.job), a.events);
  }

  /** The JSON of every message, without its chunk, leaves room in a frame for the tag. */
  ghost predicate HeadersFit(c: Codec, ms: seq<Message>) {
    forall i | 0 <= i < |ms| :: |c.marshal(ToFields(c, ms[i].(chunk := [])))| + TAG_SIZE <= Frame.MAX_FRAME_SIZE
  }

  lemma HeadersSplit(c: Codec, ms: seq<Message>)
    requires ms != []
    ensures HeadersFit(c, ms) <==> HeadersFit(c, ms[..1]) && HeadersFit(c, ms[1..])
  {
    if HeadersFit(c, ms[..1]) && HeadersFit(c, ms[1..]) {
      forall i | 0 <= i < |ms|
        ensures |c.marshal(ToFields(c, ms[i].(chunk := [])))| + TAG_SIZE <= Frame.MAX_FRAME_SIZE
      {
        if i > 0 {
          assert ms[i] == ms[1..][i - 1];
        } else {
          assert ms[i] == ms[..1][i];
        }
      }
    }
  }

  lemma {:induction false} SentExactly(c: Codec, key: Key, nonce: nat, ms: seq<Message>, ios: nat -> Writes,
                                       i: nat, job: Job)
    requires Ideal(c) && AllSendable(ms, job) && (forall k :: ios(k) == Writes(Works, Works))
    ensures SendAll(c, key, nonce, ms, ios, i).count == |ms| <==> HeadersFit(c, ms)
    decreases |ms|
  {
    if ms != [] {
      assert Sendable(ms[0], job);
      assert ios(i) == Writes(Works, Works);
      SendsExactly(c, key, nonce, ms[0], ios(i));
      HeadersSplit(c, ms);
      assert ms[..1] == [ms[0]];
      SentExactly(c, key, SendSpec(c, key, nonce, ms[0], ios(i)).nonce, ms[1..], ios, i + 1, job);
    }
  }

  lemma SendableIsTransmissible(c: Codec, ms: seq<Message>, job: Job)
    requires AllSendable(ms, job) && Ideal(c) && c.unhex(c.hex(Sum(job.summed))) == Sum(job.summed)
    ensures Transmissible(c, ms)
  {
    forall m <- ms ensures Carries(m) && Distinct(c, m) {
      var i :| 0 <= i < |ms| && ms[i] == m;
      assert Sendable(ms[i], job);
    }
  }

  /** The channels of the transfer are what the secure session makes of a byte stream: in every run,
      the messages in flight in either direction are all sent, with any key from any nonce on, exactly
      if their headers fit a frame, and then come out of the stream as they are. The checksum of the
      sender's file is the only one whose text must be told from others. */
  lemma ChannelsAreExact(d: Disk, a: Attempt, c: Codec, key: Key, nonce: nat, ms: seq<Message>, ios: nat -> Writes)
    requires Proper(a.job) && Ideal(c) && c.unhex(c.hex(Sum(a.job.summed))) == Sum(a.job.summed)
    requires ms == After(d, a).c.inbox || ms == After(d, a).c.sent
    requires forall k :: ios(k) == Writes(Works, Works)
    ensures var s := SendAll(c, key, nonce, ms, ios, 0);
            && (s.count == |ms| <==> HeadersFit(c, ms))
            && (s.count == |ms| ==> ReceiveAll(c, key, nonce, s.wire, |ms| + 1) == Inbox(ms, [], s.nonce))
  {
    EveryMessageIsSendable(d, a);
    SentExactly(c, key, nonce, ms, ios, 0, a.job);
    SendableIsTransmissible(c, ms, a.job);
    SessionRoundTrips(c, key, nonce, ms, ios, 0);
  }
}
