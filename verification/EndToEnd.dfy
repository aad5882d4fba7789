/** Two sessions on the two ends of a relay's bridge. */
module EndToEnd {
  import opened Protocol
  import opened Relay
  import opened RelayStreams
  import Session

  /** What one end of a bridge has written behind its handshake line: the frames of its part of the
      handshake, and then what its SendMessage calls have written, as far as it has come. */
  predicate Speaks(wrote: Bytes, hello: Bytes, wire: Bytes) { Rest(wrote) <= hello + wire }

  lemma PrefixOfPrefix(a: Bytes, b: Bytes, hello: Bytes, wire: Bytes)
    requires a <= b && b <= hello + wire && |hello| <= |a|
    ensures a[|hello|..] <= wire
  {
    assert a == (hello + wire)[..|a|];
  }

  /** In every interleaving of the relay, for either end of every bridge: once the frames of the handshake
      have come through, the ReceiveMessage calls of one end return a prefix of the messages that the
      SendMessage calls of the other have accepted. */
  lemma BridgesCarryMessages(w: Wire, es: seq<Event>, i: nat, toReceiver: bool, c: Session.Codec, key: Session.Key,
                             nonce: nat, hello: Bytes, ms: seq<Message>, ios: nat -> Session.Writes)
    requires WireOk(w) && Session.Ideal(c) && Session.Transmissible(c, ms)
    requires i < |Exec(EMPTY, w, es).conns| && Flowing(Exec(EMPTY, w, es).conns[i].pc)
    requires var s := Exec(EMPTY, w, es);
             var r := s.conns[i].pc.peer;
             r < |s.conns| ==>
               && Speaks(s.conns[if toReceiver then i else r].wrote, hello,
                         Session.SendAll(c, key, nonce, ms, ios, 0).wire)
               && |hello| <= |if toReceiver then Rest(s.conns[r].out) else Rest(Rest(s.conns[i].out))|
    ensures var s := Exec(EMPTY, w, es);
            var r := s.conns[i].pc.peer;
            && r < |s.conns|
            && var heard := if toReceiver then Rest(s.conns[r].out) else Rest(Rest(s.conns[i].out));
               |hello| <= |heard| &&
               Session.ReceiveAll(c, key, nonce, heard[|hello|..], |ms| + 1).msgs
               <= ms[..Session.SendAll(c, key, nonce, ms, ios, 0).count]
  {
    NoiseStreamsAreClean(w, es, i);
    var s := Exec(EMPTY, w, es);
    var r := s.conns[i].pc.peer;
    var heard := if toReceiver then Rest(s.conns[r].out) else Rest(Rest(s.conns[i].out));
    var wire := Session.SendAll(c, key, nonce, ms, ios, 0).wire;
    PrefixOfPrefix(heard, Rest(s.conns[if toReceiver then i else r].wrote), hello, wire);
    Session.CutSessionIsPrefix(c, key, nonce, ms, ios, 0, heard[|hello|..]);
  }
}
