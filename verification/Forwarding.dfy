/** Bridges forward everything, if nothing fails. */
module Forwarding {
  import opened Protocol
  import opened Relay
  import opened RelayRuns
  import opened RelayStreams
  import opened Pairing

  /** Reads and writes of bridges, none of which fails. */
  predicate Copies(es: seq<Event>) { forall i | 0 <= i < |es| :: es[i].Fetch? || (es[i].Emit? && es[i].ok) }

  predicate BothOpen(s: State, i: nat) { Bridges(s, i) && !s.conns[i].closed && !s.conns[s.conns[i].pc.peer].closed }

  /** The buffer of this direction is written on. */
  lemma {:induction false} Empties(s: State, w: Wire, i: nat, toReceiver: bool) returns (es: seq<Event>)
    requires BothOpen(s, i) && s.conns[i].pc.peer != i && !s.conns[Source(s, i, toReceiver)].cut
    requires s.conns[Source(s, i, toReceiver)].read <= |s.conns[Source(s, i, toReceiver)].wrote|
    ensures Copies(es)
    ensures var from := Source(s, i, toReceiver);
            var t := Exec(s, w, es);
            && BothOpen(t, i) && t.conns[i].pc == s.conns[i].pc && Source(t, i, toReceiver) == from
            && t.conns[from].wrote == s.conns[from].wrote && t.conns[from].read <= |t.conns[from].wrote|
            && t.conns[from].held == 0 && !t.conns[from].cut
  {
    var from := Source(s, i, toReceiver);
    if s.conns[from].held == 0 {
      es := [];
    } else {
      var e := Emit(i, toReceiver, true, 0);
      es := [e];
      One(s, w, e);
      CutIsPrefix(s.conns[from].wrote[s.conns[from].read..], s.conns[from].held);
    }
  }

  /** With an empty buffer, one read and one write take all that is left. */
  lemma {:induction false} TakesAll(s: State, w: Wire, i: nat, toReceiver: bool) returns (es: seq<Event>)
    requires BothOpen(s, i) && s.conns[i].pc.peer != i && !s.conns[Source(s, i, toReceiver)].cut
    requires s.conns[Source(s, i, toReceiver)].held == 0
    requires s.conns[Source(s, i, toReceiver)].read <= |s.conns[Source(s, i, toReceiver)].wrote|
    ensures Copies(es)
    ensures var from := Source(s, i, toReceiver);
            var t := Exec(s, w, es);
            && Bridges(t, i) && t.conns[i].pc == s.conns[i].pc
            && t.conns[from].wrote == s.conns[from].wrote && t.conns[from].read == |t.conns[from].wrote|
  {
    var from := Source(s, i, toReceiver);
    var n := |s.conns[from].wrote| - s.conns[from].read;
    var fetch, emit := Fetch(i, toReceiver, n), Emit(i, toReceiver, true, 0);
    es := [fetch, emit];
    Two(s, w, fetch, emit);
    var mid := Next(s, w, fetch);
    assert mid == Put(s, from, s.conns[from].(held := n));
    assert Source(mid, i, toReceiver) == from && Source(mid, i, !toReceiver) == Source(s, i, !toReceiver);
    assert Cut(s.conns[from].wrote[s.conns[from].read..], n) == s.conns[from].wrote[s.conns[from].read..];
  }

  /** When all has been passed on, all has been heard. */
  lemma {:induction false} HeardAll(w: Wire, es: seq<Event>, i: nat, toReceiver: bool)
    requires WireOk(w) && Bridges(Exec(EMPTY, w, es), i)
    requires var c := Exec(EMPTY, w, es).conns[Source(Exec(EMPTY, w, es), i, toReceiver)];
             c.read == |c.wrote|
    ensures var t := Exec(EMPTY, w, es);
            if toReceiver then Rest(t.conns[t.conns[i].pc.peer].out) == Rest(t.conns[i].wrote)
            else Rest(Rest(t.conns[i].out)) == Rest(t.conns[t.conns[i].pc.peer].wrote)
  {
    NoiseStreamsAreClean(w, es, i);
    var t := Exec(EMPTY, w, es);
    var c := t.conns[Source(t, i, toReceiver)];
    assert Raw(c) == Rest(c.wrote);
  }

  /** In every reachable state, for every bridge between two open connections and either direction in which no
      write has failed: a run of its reads and writes alone gives the other end, behind its ack lines, all
      that this end has written behind its handshake line. */
  lemma {:induction false} BridgesForwardAll(w: Wire, es: seq<Event>, i: nat, toReceiver: bool)
    returns (more: seq<Event>)
    requires WireOk(w) && BothOpen(Exec(EMPTY, w, es), i)
    requires var s := Exec(EMPTY, w, es);
             !s.conns[Source(s, i, toReceiver)].cut
    ensures Copies(more)
    ensures var s := Exec(EMPTY, w, es);
            var t := Exec(s, w, more);
            var r := s.conns[i].pc.peer;
            && i < |t.conns| && r < |t.conns|
            && (if toReceiver then Rest(t.conns[r].out) == Rest(s.conns[i].wrote)
                else Rest(Rest(t.conns[i].out)) == Rest(s.conns[r].wrote))
  {
    var s := Exec(EMPTY, w, es);
    StreamsRun(EMPTY, w, es);
    var r := s.conns[i].pc.peer;
    BridgedOutputs(s, w, i);
    assert SenderOk(s, i);
    var empty := Empties(s, w, i, toReceiver);
    var rest := TakesAll(Exec(s, w, empty), w, i, toReceiver);
    more := empty + rest;
    Append(s, w, empty, rest);
    Append(EMPTY, w, es, more);
    HeardAll(w, es + more, i, toReceiver);
  }
}
