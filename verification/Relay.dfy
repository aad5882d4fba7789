/** The self-hosted relay (internal/tunnel/relay.go). Each accepted connection has a handler
    goroutine, here a program counter; the handlers share the `pending` map under a mutex and hand
    connections over on channels of capacity one. An interleaving is a list of events. */
module Relay {
  import opened Protocol

  type Code = string

  /** What relayRead makes of a handshake line. */
  datatype Handshake = AsSender | AsReceiver(code: Code) | OtherRole | Malformed

  datatype Ack = CodeAck(code: Code) | OkAck | UnknownCode | BadRole

  const NEWLINE: byte := 10

  /** The JSON encoding is a parameter: `line` renders an ack without its newline. */
  datatype Wire = Wire(parse: Bytes -> Handshake, line: Ack -> Bytes)

  ghost predicate WireOk(w: Wire) {
    && (forall a: Ack :: NEWLINE !in w.line(a))
    && (forall a: Ack, b: Ack :: w.line(a) == w.line(b) ==> a == b)
  }

  function AckLine(w: Wire, a: Ack): Bytes { w.line(a) + [NEWLINE] }

  datatype Pc =
    | Reading                            // relayRead of the handshake
    | Registering                        // a sender, with its code drawn
    | WritingCode
    | Waiting                            // select on the channel and the timer
    | Withdrawing                        // timed out, or its code could not be written
    | Left
    | Announcing(peer: nat)              // took a receiver from the channel
    | Bridging(peer: nat)                // pipe
    | Bridged(peer: nat)                 // pipe has returned
    | Dropped(peer: nat)                 // the announcement failed; both connections closed
    | LookingUp                          // a receiver
    | Refusing(ack: Ack)
    | Accepting(sender: nat)             // claimed a pending sender
    | Handing(sender: nat)               // about to send itself on the sender's channel
    | Handed(sender: nat)
    | Ended

  /** A connection and its handler. `claimed` records that a receiver took this sender from the map. */
  datatype Conn = Conn(
    pc: Pc,
    code: Code,
    ch: Option<nat>,
    claimed: bool,
    closed: bool,
    wrote: Bytes,      // what the client has written
    read: nat,         // how much of it is consumed: parsed, or written on to the peer
    held: nat,         // how much more a bridge has read and not yet written on
    cut: bool,         // writing on has failed, and nothing more will be copied from this client
    out: Bytes)        // what the relay has written to the client

  datatype State = State(conns: seq<Conn>, pending: map<Code, nat>)

  const NEW := Conn(Reading, "", None, false, false, [], 0, 0, false, [])

  /** What the scheduler may do next. */
  datatype Event =
    | Accept
    | Write(i: nat, data: Bytes)                            // by the client
    | Handle(i: nat, ok: bool, part: nat, code: Code)       // a step of a handler: how its write or wait ends,
                                                            // how much of a failing write got through, what is drawn
    | Fetch(i: nat, toReceiver: bool, n: nat)               // a bridge reads at most n bytes
    | Emit(i: nat, toReceiver: bool, ok: bool, part: nat)   // and writes them on
    | Hangup(i: nat)                                        // a bridge ends

  function Put(s: State, i: nat, c: Conn): State
    requires i < |s.conns|
  {
    s.(conns := s.conns[i := c])
  }

  function Cut(data: Bytes, n: nat): Bytes { if n <= |data| then data[..n] else data }

  /** What gets through of a write that fails: less than all. */
  function Part(data: Bytes, n: nat): Bytes {
    if n < |data| then data[..n] else if data == [] then [] else data[..|data| - 1]
  }

  /** relayWrite: the whole line, or a part of it and an error. */
  function Reply(c: Conn, w: Wire, a: Ack, ok: bool, part: nat): Conn {
    c.(out := c.out + if ok then AckLine(w, a) else Part(AckLine(w, a), part))
  }

  /** One byte of relayRead; at the newline the line is parsed and dispatched. */
  function ReadStep(s: State, w: Wire, i: nat, ok: bool, code: Code): State
    requires i < |s.conns|
  {
    var c := s.conns[i];
    if !ok then Put(s, i, c.(pc := Ended, closed := true))
    else if c.read >= |c.wrote| then s
    else if c.wrote[c.read] != NEWLINE then Put(s, i, c.(read := c.read + 1))
    else
      var c' := c.(read := c.read + 1);
      match w.parse(c.wrote[..c.read])
      case AsSender => Put(s, i, c'.(pc := Registering, code := code))
      case AsReceiver(k) => Put(s, i, c'.(pc := LookingUp, code := k))
      case OtherRole => Put(s, i, c'.(pc := Refusing(BadRole)))
      case Malformed => Put(s, i, c'.(pc := Ended, closed := true))
  }

  function HandleStep(s: State, w: Wire, i: nat, ok: bool, part: nat, code: Code): State
    requires i < |s.conns|
  {
    var c := s.conns[i];
    match c.pc
    case Reading => ReadStep(s, w, i, ok, code)
    case Registering => Put(s, i, c.(pc := WritingCode)).(pending := s.pending[c.code := i])
    case WritingCode =>
      var c' := Reply(c, w, CodeAck(c.code), ok, part);
      Put(s, i, if ok then c'.(pc := Waiting) else c'.(pc := Withdrawing, closed := true))
    case Waiting =>
      if ok then
        match c.ch
        case Some(r) => Put(s, i, c.(pc := Announcing(r), ch := None))
        case None => s
      else Put(s, i, c.(pc := Withdrawing, closed := true))
    case Withdrawing => Put(s, i, c.(pc := Left)).(pending := s.pending - {c.code})
    case Announcing(r) =>
      var c' := Reply(c, w, OkAck, ok, part);
      if ok then Put(s, i, c'.(pc := Bridging(r)))
      else Close(Put(s, i, c'.(pc := Dropped(r), closed := true)), r)
    case LookingUp =>
      if c.code in s.pending && s.pending[c.code] < |s.conns| && s.pending[c.code] != i then
        var p := s.pending[c.code];
        var claim := s.conns[p].(claimed := true);
        Put(Put(s, p, claim), i, c.(pc := Accepting(p))).(pending := s.pending - {c.code})
      else Put(s, i, c.(pc := Refusing(UnknownCode)))
    case Refusing(a) => Put(s, i, Reply(c, w, a, ok, part).(pc := Ended, closed := true))
    case Accepting(p) =>
      var c' := Reply(c, w, OkAck, ok, part);
      Put(s, i, if ok then c'.(pc := Handing(p)) else c'.(pc := Ended, closed := true))
    case Handing(p) =>
      if p < |s.conns| && p != i && s.conns[p].ch == None
      then Put(Put(s, p, s.conns[p].(ch := Some(i))), i, c.(pc := Handed(p)))
      else s
    case _ => s
  }

  function Close(s: State, r: nat): State {
    if r < |s.conns| then Put(s, r, s.conns[r].(closed := true)) else s
  }

  /** io.Copy: a read into its buffer. */
  function FetchStep(s: State, from: nat, n: nat): State
    requires from < |s.conns|
  {
    var a := s.conns[from];
    if a.closed || a.cut || a.held > 0 || a.read + n > |a.wrote| then s
    else Put(s, from, a.(held := n))
  }

  /** io.Copy: the write of what is in its buffer. When it fails, the rest is lost. */
  function EmitStep(s: State, from: nat, to: nat, ok: bool, part: nat): State
    requires from < |s.conns|
  {
    var a := s.conns[from];
    if to >= |s.conns| || to == from || a.cut || a.read > |a.wrote| then s
    else
      var all := Cut(a.wrote[a.read..], a.held);
      var works := ok && !s.conns[to].closed;
      var data := if works then all else Cut(all, part);
      Put(Put(s, from, a.(read := a.read + |data|, held := 0, cut := !works)),
          to, s.conns[to].(out := s.conns[to].out + data))
  }

  predicate Bridges(s: State, i: nat) {
    i < |s.conns| && s.conns[i].pc.Bridging? && s.conns[i].pc.peer < |s.conns|
  }

  function Source(s: State, i: nat, toReceiver: bool): nat
    requires Bridges(s, i)
  {
    if toReceiver then i else s.conns[i].pc.peer
  }

  function Next(s: State, w: Wire, e: Event): State {
    match e
    case Accept => s.(conns := s.conns + [NEW])
    case Write(i, data) => if i < |s.conns| then Put(s, i, s.conns[i].(wrote := s.conns[i].wrote + data)) else s
    case Handle(i, ok, part, code) => if i < |s.conns| then HandleStep(s, w, i, ok, part, code) else s
    case Fetch(i, toReceiver, n) => if Bridges(s, i) then FetchStep(s, Source(s, i, toReceiver), n) else s
    case Emit(i, toReceiver, ok, part) =>
      if Bridges(s, i) then EmitStep(s, Source(s, i, toReceiver), Source(s, i, !toReceiver), ok, part) else s
    case Hangup(i) =>
      if i < |s.conns| && s.conns[i].pc.Bridging?
      then Close(Put(s, i, s.conns[i].(pc := Bridged(s.conns[i].pc.peer), closed := true)), s.conns[i].pc.peer)
      else s
  }

  const EMPTY := State([], map[])

  function Exec(s: State, w: Wire, es: seq<Event>): State
    decreases |es|
  {
    if es == [] then s else Exec(Next(s, w, es[0]), w, es[1..])
  }
}
