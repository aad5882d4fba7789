/** The Noise XX handshake as newSession and runHandshake drive it (internal/session/session.go).

    The noise library is idealised: a handshake message is a function of the transcript so far and the payload, and
    after the third one both sides split the same transcript into two cipher keys, of which the first is for the
    initiator's messages (sections 5.3 and 7.5 of the Noise Protocol Framework, revision 34). */
module Handshake {
  import opened Protocol

  type Key = nat
  type Transcript = seq<Bytes>

  datatype Noise = Noise(
    message: (Transcript, Bytes) -> Bytes,
    accepts: (Transcript, Bytes) -> bool,
    split: Transcript -> (Key, Key))

  /** What one side writes the other one accepts. */
  ghost predicate Honest(noise: Noise) {
    forall t: Transcript, p: Bytes :: noise.accepts(t, noise.message(t, p))
  }

  const MESSAGES: nat := 3

  /** The two cipher states that WriteMessage and ReadMessage return: none before the last message. */
  function Ciphers(noise: Noise, transcript: Transcript): Option<(Key, Key)> {
    if |transcript| >= MESSAGES then Some(noise.split(transcript)) else None
  }

  /** In pattern XX the initiator writes the first and the third message. */
  predicate Writes(initiator: bool, transcript: Transcript) {
    initiator == (|transcript| % 2 == 0)
  }

  function Ascii(s: string): Bytes { seq(|s|, i requires 0 <= i < |s| => (s[i] as int % 128) as byte) }

  const PROLOGUE: Bytes := Ascii("github.com/JonathanInTheClouds/goxfer/v1")

  /** The payloads the two branches pass: the prologue in a side's first message, nothing in the third. */
  function PayloadOf(transcript: Transcript): Bytes { if |transcript| < 2 then PROLOGUE else [] }

  /** One side: what it has seen, and what it has sent that the other has not read. */
  datatype Side = Side(initiator: bool, transcript: Transcript, outgoing: seq<Bytes>)

  predicate Finished(s: Side) { |s.transcript| >= MESSAGES }

  datatype Pair = Pair(initiator: Side, responder: Side)

  predicate CanStep(noise: Noise, me: Side, peer: Side) {
    && !Finished(me)
    && (Writes(me.initiator, me.transcript)
        || (peer.outgoing != [] && noise.accepts(me.transcript, peer.outgoing[0])))
  }

  function Write(noise: Noise, me: Side): Side {
    var m := noise.message(me.transcript, PayloadOf(me.transcript));
    me.(transcript := me.transcript + [m], outgoing := me.outgoing + [m])
  }

  function Step(noise: Noise, me: Side, peer: Side): (Side, Side)
    requires CanStep(noise, me, peer)
  {
    if Writes(me.initiator, me.transcript) then (Write(noise, me), peer)
    else (me.(transcript := me.transcript + [peer.outgoing[0]]), peer.(outgoing := peer.outgoing[1..]))
  }

  function Next(noise: Noise, p: Pair, initiatorMoves: bool): Pair {
    if initiatorMoves then
      if CanStep(noise, p.initiator, p.responder) then
        var q := Step(noise, p.initiator, p.responder);
        Pair(q.0, q.1)
      else p
    else if CanStep(noise, p.responder, p.initiator) then
      var q := Step(noise, p.responder, p.initiator);
      Pair(q.1, q.0)
    else p
  }

  const START := Pair(Side(true, [], []), Side(false, [], []))

  function Exec(noise: Noise, p: Pair, schedule: seq<bool>): Pair
    decreases |schedule|
  {
    if schedule == [] then p else Exec(noise, Next(noise, p, schedule[0]), schedule[1..])
  }

  /** One side is ahead by what it has sent and the other has not read: at most one message. */
  predicate InStep(noise: Noise, p: Pair) {
    var a := p.initiator;
    var b := p.responder;
    && a.initiator && !b.initiator
    && |a.transcript| <= MESSAGES && |b.transcript| <= MESSAGES
    && (|| (a.transcript == b.transcript && a.outgoing == [] && b.outgoing == [])
        || (Writes(true, b.transcript) && b.outgoing == []
            && a.outgoing == [noise.message(b.transcript, PayloadOf(b.transcript))]
            && a.transcript == b.transcript + a.outgoing)
        || (Writes(false, a.transcript) && a.outgoing == []
            && b.outgoing == [noise.message(a.transcript, PayloadOf(a.transcript))]
            && b.transcript == a.transcript + b.outgoing))
  }

  lemma {:induction false} StaysInStep(noise: Noise, p: Pair, schedule: seq<bool>)
    requires InStep(noise, p)
    ensures InStep(noise, Exec(noise, p, schedule))
    decreases |schedule|
  {
    if schedule != [] {
      StaysInStep(noise, Next(noise, p, schedule[0]), schedule[1..]);
    }
  }

  /** What newSession makes of the pair that runHandshake returns: the responder swaps it. */
  function SessionKeys(noise: Noise, s: Side): (Key, Key)
    requires Finished(s)
  {
    var pair := noise.split(s.transcript);
    if s.initiator then pair else (pair.1, pair.0)
  }

  /** For every interleaving: the two sides are never both blocked before they are finished, and when they are
      finished, three frames have been exchanged, none is left over, and each side sends with the key the
      other receives with: the initiator with the first of the two, the responder with the second. */
  lemma HandshakeAgrees(noise: Noise, schedule: seq<bool>)
    requires Honest(noise)
    ensures var p := Exec(noise, START, schedule);
            && (|| (Finished(p.initiator) && Finished(p.responder))
                || CanStep(noise, p.initiator, p.responder)
                || CanStep(noise, p.responder, p.initiator))
            && (Finished(p.initiator) && Finished(p.responder) ==>
                  && |p.initiator.transcript| == |p.responder.transcript| == MESSAGES
                  && p.initiator.outgoing == p.responder.outgoing == []
                  && p.initiator.transcript == p.responder.transcript
                  && SessionKeys(noise, p.initiator).0 == noise.split(p.initiator.transcript).0
                  && SessionKeys(noise, p.responder).0 == noise.split(p.initiator.transcript).1
                  && SessionKeys(noise, p.initiator).0 == SessionKeys(noise, p.responder).1
                  && SessionKeys(noise, p.initiator).1 == SessionKeys(noise, p.responder).0)
  {
    StaysInStep(noise, START, schedule);
  }

  /** Frames still to be processed; every possible step processes one. */
  lemma StepsProcessFrames(noise: Noise, p: Pair, initiatorMoves: bool)
    requires if initiatorMoves then CanStep(noise, p.initiator, p.responder)
             else CanStep(noise, p.responder, p.initiator)
    ensures var q := Next(noise, p, initiatorMoves);
            |q.initiator.transcript| + |q.responder.transcript| ==
            |p.initiator.transcript| + |p.responder.transcript| + 1
  {
  }

  /** A connection that carries handshake frames. */
  class Conn {
    var incoming: seq<Bytes>
    var sent: seq<Bytes>

    constructor (incoming: seq<Bytes>)
      ensures this.incoming == incoming && sent == []
    {
      this.incoming, sent := incoming, [];
    }
  }

  /** noise.HandshakeState. */
  class State {
    var transcript: Transcript

    constructor ()
      ensures transcript == []
    {
      transcript := [];
    }

    /** writeHandshakeMessage; `io` says whether the write to the connection works. */
    method WriteMessage(noise: Noise, conn: Conn, payload: Bytes, io: bool)
      returns (ok: bool, ciphers: Option<(Key, Key)>)
      modifies this, conn
      ensures ok == io && conn.incoming == old(conn.incoming)
      ensures transcript == old(transcript) + [noise.message(old(transcript), payload)]
      ensures conn.sent == old(conn.sent) + if ok then [noise.message(old(transcript), payload)] else []
      ensures ok ==> ciphers == Ciphers(noise, transcript)
    {
      var m := noise.message(transcript, payload);
      transcript := transcript + [m];
      ok, ciphers := io, None;
      if ok {
        conn.sent := conn.sent + [m];
        ciphers := Ciphers(noise, transcript);
      }
    }

    /** readHandshakeMessage; it fails when the peer has closed the connection, or sends what the
        library refuses. */
    method ReadMessage(noise: Noise, conn: Conn) returns (ok: bool, ciphers: Option<(Key, Key)>)
      modifies this, conn
      ensures ok <==> old(conn.incoming) != [] && noise.accepts(old(transcript), old(conn.incoming)[0])
      ensures ok ==> transcript == old(transcript) + [old(conn.incoming)[0]] && conn.incoming == old(conn.incoming)[1..]
      ensures ok ==> ciphers == Ciphers(noise, transcript)
      ensures conn.sent == old(conn.sent)
    {
      ok, ciphers := false, None;
      if conn.incoming != [] {
        var m := conn.incoming[0];
        conn.incoming := conn.incoming[1..];
        ok := noise.accepts(transcript, m);
        if ok {
          transcript := transcript + [m];
          ciphers := Ciphers(noise, transcript);
        }
      }
    }
  }

  /** The transcript of a side that is given the frames `incoming`, if its writes work and the library
      accepts what it reads. */
  function Played(noise: Noise, works: nat -> bool, initiator: bool, transcript: Transcript, incoming: seq<Bytes>):
    Option<Transcript>
    decreases MESSAGES - |transcript|
  {
    if |transcript| >= MESSAGES then Some(transcript)
    else if Writes(initiator, transcript) then
      if !works(|transcript|) then None
      else
        var m := noise.message(transcript, PayloadOf(transcript));
        Played(noise, works, initiator, transcript + [m], incoming)
    else if incoming == [] || !noise.accepts(transcript, incoming[0]) then None
    else Played(noise, works, initiator, transcript + [incoming[0]], incoming[1..])
  }

  /** Fed with each other's frames, the two branches play the same transcript. */
  lemma BranchesAgree(noise: Noise, works: nat -> bool)
    requires Honest(noise) && forall n: nat :: works(n)
    ensures var m0 := noise.message([], PROLOGUE);
            var m1 := noise.message([m0], PROLOGUE);
            var m2 := noise.message([m0, m1], []);
            Played(noise, works, true, [], [m1]) == Played(noise, works, false, [], [m0, m2]) == Some([m0, m1, m2])
  {
    var m0 := noise.message([], PROLOGUE);
    var m1 := noise.message([m0], PROLOGUE);
    var m2 := noise.message([m0, m1], []);
    var two, three: Transcript := [m0, m1], [m0, m1, m2];
    assert [] + [m0] == [m0] && [m0] + [m1] == two && two + [m2] == three;
    assert [m0, m2][1..] == [m2] && [m1][1..] == [] && [m2][1..] == [];
    assert works(0) && works(1) && works(2);
    assert noise.accepts([], m0) && noise.accepts([m0], m1) && noise.accepts(two, m2);
    assert Played(noise, works, true, two, []) == Played(noise, works, true, three, []) == Some(three);
    assert Played(noise, works, false, two, [m2]) == Played(noise, works, false, three, []) == Some(three);
    assert Played(noise, works, true, [], [m1]) == Played(noise, works, true, [m0], [m1]);
    assert Played(noise, works, true, [m0], [m1]) == Played(noise, works, true, two, []);
    assert Played(noise, works, false, [], [m0, m2]) == Played(noise, works, false, [m0], [m2]);
    assert Played(noise, works, false, [m0], [m2]) == Played(noise, works, false, two, [m2]);
  }

  /** The frames of a transcript that one side has written. */
  function Own(initiator: bool, transcript: Transcript): seq<Bytes> {
    if transcript == [] then []
    else
      var n := |transcript| - 1;
      Own(initiator, transcript[..n]) + if Writes(initiator, transcript[..n]) then [transcript[n]] else []
  }

  lemma OwnOf(initiator: bool, transcript: Transcript, frame: Bytes)
    ensures Own(initiator, transcript + [frame]) ==
            Own(initiator, transcript) + if Writes(initiator, transcript) then [frame] else []
  {
    assert (transcript + [frame])[..|transcript|] == transcript;
  }

  /** A side that has written and read what its transcript says. */
  ghost predicate Playing(noise: Noise, works: nat -> bool, initiator: bool, state: State, conn: Conn,
                          incoming: seq<Bytes>, sent: seq<Bytes>)
    reads state, conn
  {
    && Played(noise, works, initiator, [], incoming) == Played(noise, works, initiator, state.transcript, conn.incoming)
    && conn.sent == sent + Own(initiator, state.transcript)
  }

  /** The side's turn to write. */
  method WriteTurn(noise: Noise, works: nat -> bool, initiator: bool, state: State, conn: Conn, payload: Bytes,
                   ghost incoming: seq<Bytes>, ghost sent: seq<Bytes>)
    returns (ok: bool, ciphers: Option<(Key, Key)>)
    requires Playing(noise, works, initiator, state, conn, incoming, sent)
    requires |state.transcript| < MESSAGES && Writes(initiator, state.transcript)
             && payload == PayloadOf(state.transcript)
    modifies state, conn
    ensures ok ==> Playing(noise, works, initiator, state, conn, incoming, sent)
    ensures ok ==> |state.transcript| == old(|state.transcript|) + 1 && ciphers == Ciphers(noise, state.transcript)
    ensures !ok ==> Played(noise, works, initiator, [], incoming) == None
  {
    OwnOf(initiator, state.transcript, noise.message(state.transcript, payload));
    ok, ciphers := state.WriteMessage(noise, conn, payload, works(|state.transcript|));
  }

  /** The side's turn to read. */
  method ReadTurn(noise: Noise, works: nat -> bool, initiator: bool, state: State, conn: Conn,
                  ghost incoming: seq<Bytes>, ghost sent: seq<Bytes>)
    returns (ok: bool, ciphers: Option<(Key, Key)>)
    requires Playing(noise, works, initiator, state, conn, incoming, sent)
    requires |state.transcript| < MESSAGES && !Writes(initiator, state.transcript)
    modifies state, conn
    ensures ok ==> Playing(noise, works, initiator, state, conn, incoming, sent)
    ensures ok ==> |state.transcript| == old(|state.transcript|) + 1 && ciphers == Ciphers(noise, state.transcript)
    ensures !ok ==> Played(noise, works, initiator, [], incoming) == None
  {
    if conn.incoming != [] {
      OwnOf(initiator, state.transcript, conn.incoming[0]);
    }
    ok, ciphers := state.ReadMessage(noise, conn);
  }

  /** newSession and runHandshake as written. `works` says which writes to the connection work. */
  method NewSession(noise: Noise, works: nat -> bool, conn: Conn, initiator: bool) returns (keys: Option<(Key, Key)>)
    modifies conn
    ensures var t := Played(noise, works, initiator, [], old(conn.incoming));
            && (keys.Some? <==> t.Some?)
            && (t.Some? ==> |t.value| == MESSAGES
                            && (initiator ==> keys == Some(noise.split(t.value)))
                            && (!initiator ==> keys == Some((noise.split(t.value).1, noise.split(t.value).0)))
                            && conn.sent == old(conn.sent) + Own(initiator, t.value))
  {
    var handshake := new State();
    var ciphers: Option<(Key, Key)> := None;
    var ok := true;
    ghost var all, sent := conn.incoming, conn.sent;
    assert conn.sent == sent + Own(initiator, []);
    if initiator {
      ok, ciphers := WriteTurn(noise, works, initiator, handshake, conn, PROLOGUE, all, sent);
      if ok && ciphers == None {
        ok, ciphers := ReadTurn(noise, works, initiator, handshake, conn, all, sent);
      }
      if ok && ciphers == None {
        ok, ciphers := WriteTurn(noise, works, initiator, handshake, conn, [], all, sent);
      }
    } else {
      ok, ciphers := ReadTurn(noise, works, initiator, handshake, conn, all, sent);
      if ok && ciphers == None {
        ok, ciphers := WriteTurn(noise, works, initiator, handshake, conn, PROLOGUE, all, sent);
      }
      if ok && ciphers == None {
        ok, ciphers := ReadTurn(noise, works, initiator, handshake, conn, all, sent);
      }
    }
    if !ok || ciphers == None {
      return None;
    }
    keys := if initiator then ciphers else Some((ciphers.value.1, ciphers.value.0));
  }
}
