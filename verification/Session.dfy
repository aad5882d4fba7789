/** The encrypted message session (internal/session/session.go over internal/protocol/message.go). */
module Session {
  import opened Protocol
  import opened Frame
  import opened Storage

  type Key = nat

  /** The JSON object of a message: a field is absent when it has its zero value. */
  datatype Fields = Fields(
    kind: Kind,
    fileId: Option<string>,
    name: Option<string>,
    size: Option<int>,
    index: Option<int>,
    checksum: Option<string>,
    resume: Option<bool>,
    offset: Option<int>)

  function Omit<T(==)>(x: T, zero: T): Option<T> { if x == zero then None else Some(x) }

  function Or<T>(x: Option<T>, zero: T): T { if x.Some? then x.value else zero }

  /** The libraries underneath: JSON text, checksums as hexadecimal text, and an AEAD that takes a
      key and a nonce. */
  datatype Codec = Codec(
    marshal: Fields -> Bytes,
    unmarshal: Bytes -> Option<Fields>,
    hex: Checksum -> string,
    unhex: string -> Checksum,
    seal: (Key, nat, Bytes) -> Bytes,
    open: (Key, nat, Bytes) -> Option<Bytes>)

  /** The tags of type Message: everything but the type is omitempty, and Chunk is not encoded. */
  function ToFields(c: Codec, m: Message): Fields {
    Fields(m.kind, Omit(m.fileId, ""), Omit(m.name, ""), Omit(m.size, 0), Omit(m.index, 0),
           Omit(c.hex(m.checksum), ""), Omit(m.resume, false), Omit(m.offset, 0))
  }

  function FromFields(c: Codec, f: Fields): Message {
    Message(f.kind, Or(f.fileId, ""), Or(f.name, ""), Or(f.size, 0), Or(f.index, 0), [],
            c.unhex(Or(f.checksum, "")), Or(f.resume, false), Or(f.offset, 0))
  }

  const SUM_LENGTH: nat := 64
  const TAG_SIZE: nat := 16

  ghost predicate Ideal(c: Codec) {
    && (forall f :: c.unmarshal(c.marshal(f)) == Some(f))
    && c.hex(NoSum) == "" && (forall b :: |c.hex(Sum(b))| == SUM_LENGTH)
    && (forall t :: c.unhex(t) == NoSum <==> t == "")
    && (forall k, n: nat, p :: |c.seal(k, n, p)| == |p| + TAG_SIZE)
    && (forall k, n: nat, p :: c.open(k, n, c.seal(k, n, p)) == Some(p))
  }

  /** The checksum of this message, if it has one, is not taken for that of other bytes. */
  predicate Distinct(c: Codec, m: Message) { c.unhex(c.hex(m.checksum)) == m.checksum }

  function EncodeMessage(c: Codec, m: Message): Option<Bytes> {
    if Valid(m) then Some(c.marshal(ToFields(c, m))) else None
  }

  function DecodeMessage(c: Codec, payload: Bytes): Option<Message> {
    match c.unmarshal(payload)
    case None => None
    case Some(f) => if Valid(FromFields(c, f)) then Some(FromFields(c, f)) else None
  }

  datatype Field = FileId | Name | CheckSum

  /** The fields without which a message of this type makes no sense. */
  function Required(kind: Kind): set<Field> {
    match kind
    case FileStart => {FileId, Name}
    case FileChecksum => {FileId, CheckSum}
    case Ready => {}
    case _ => {FileId}
  }

  predicate Present(f: Fields, field: Field) {
    match field
    case FileId => f.fileId.Some? && f.fileId.value != ""
    case Name => f.name.Some? && f.name.value != ""
    case CheckSum => f.checksum.Some? && f.checksum.value != ""
  }

  predicate AtLeast(x: Option<int>, least: int) { x.Some? ==> x.value >= least }

  /** What a JSON object must be to be taken for a message. */
  predicate Sensible(f: Fields) {
    && !f.kind.Unknown?
    && (forall field <- Required(f.kind) :: Present(f, field))
    && (f.kind == FileStart ==> AtLeast(f.size, -1))
    && (f.kind == FileChunk ==> AtLeast(f.index, 0))
    && (f.kind == FileResume ==> AtLeast(f.offset, 0))
  }

  /** Exactly which payloads DecodeMessage takes. */
  lemma {:induction false} DecodesExactly(c: Codec, payload: Bytes)
    requires Ideal(c)
    ensures DecodeMessage(c, payload).Some? <==> c.unmarshal(payload).Some? && Sensible(c.unmarshal(payload).value)
  {
    if c.unmarshal(payload).Some? {
      var f := c.unmarshal(payload).value;
      assert FileId in Required(FileChunk) && FileId in Required(FileComplete) && FileId in Required(FileResume);
      assert FileId in Required(FileStart) && Name in Required(FileStart);
      assert FileId in Required(FileChecksum) && CheckSum in Required(FileChecksum);
    }
  }

  /** What SendMessage does with a nonce: how far it gets, what it writes, the next nonce. */
  datatype Sending = Sending(ok: bool, wire: Bytes, nonce: nat)

  /** How the writes of a message to the connection end: of its frame, and of the frame of its chunk. */
  datatype Writes = Writes(header: Io, chunk: Io)

  /** What conn.Write gets through: all, or, when it fails, less than all. */
  function Through(frame: Bytes, io: Io): (w: Bytes)
    requires frame != []
    ensures if io.Works? then w == frame else w <= frame && |w| < |frame|
  {
    match io
    case Works => frame
    case Fails(part) => frame[..Min(part, |frame| - 1)]
  }

  function SendFrame(c: Codec, key: Key, nonce: nat, plain: Bytes, io: Io): Sending {
    var sealed := c.seal(key, nonce, plain);
    if Fits(sealed) then Sending(io.Works?, Through(Encoded(sealed), io), nonce + 1) else Sending(false, [], nonce + 1)
  }

  function SendSpec(c: Codec, key: Key, nonce: nat, m: Message, ios: Writes): Sending {
    match EncodeMessage(c, m.(chunk := []))
    case None => Sending(false, [], nonce)
    case Some(payload) =>
      var first := SendFrame(c, key, nonce, payload, ios.header);
      if !first.ok || m.kind != FileChunk then first
      else
        var second := SendFrame(c, key, first.nonce, m.chunk, ios.chunk);
        Sending(second.ok, first.wire + second.wire, second.nonce)
  }

  datatype Receiving = Receiving(msg: Option<Message>, rest: Bytes, nonce: nat)

  /** Read and open one frame. A frame that is not there, or does not open, leaves the nonce alone. */
  function OpenFrame(c: Codec, key: Key, nonce: nat, stream: Bytes): Option<(Bytes, Bytes)> {
    match Decode(stream)
    case Payload(sealed, rest) =>
      (match c.open(key, nonce, sealed)
       case Some(plain) => Some((plain, rest))
       case None => None)
    case _ => None
  }

  function ReceiveSpec(c: Codec, key: Key, nonce: nat, stream: Bytes): Receiving {
    match OpenFrame(c, key, nonce, stream)
    case None => Receiving(None, stream, nonce)
    case Some((payload, rest)) =>
      match DecodeMessage(c, payload)
      case None => Receiving(None, rest, nonce + 1)
      case Some(m) =>
        if m.kind != FileChunk then Receiving(Some(m), rest, nonce + 1)
        else
          match OpenFrame(c, key, nonce + 1, rest)
          case None => Receiving(None, rest, nonce + 1)
          case Some((chunk, more)) => Receiving(Some(m.(chunk := chunk)), more, nonce + 2)
  }

  /** Zero values that the encoding leaves out come back. */
  lemma FieldsRoundTrip(c: Codec, m: Message)
    requires Distinct(c, m)
    ensures FromFields(c, ToFields(c, m)) == m.(chunk := [])
  {
  }

  lemma MessageRoundTrips(c: Codec, m: Message)
    requires Ideal(c) && Valid(m) && Distinct(c, m)
    ensures EncodeMessage(c, m).Some? && DecodeMessage(c, EncodeMessage(c, m).value) == Some(m.(chunk := []))
  {
    FieldsRoundTrip(c, m);
    var f := ToFields(c, m);
    assert c.unmarshal(c.marshal(f)) == Some(f);
  }

  lemma OneFrame(c: Codec, key: Key, nonce: nat, plain: Bytes, io: Io, rest: Bytes)
    requires Ideal(c) && SendFrame(c, key, nonce, plain, io).ok
    ensures OpenFrame(c, key, nonce, SendFrame(c, key, nonce, plain, io).wire + rest) == Some((plain, rest))
  {
    FrameRoundTrips(c.seal(key, nonce, plain), rest);
  }

  /** Whatever the stream: a message that is received is valid, and its frames, first in the stream, are ones
      that the key opens with the next nonces. */
  lemma {:induction false} ReceivesOnlyAuthentic(c: Codec, key: Key, nonce: nat, stream: Bytes)
    returns (header: Bytes, body: Bytes)
    requires ReceiveSpec(c, key, nonce, stream).msg.Some?
    ensures var r := ReceiveSpec(c, key, nonce, stream);
            var m := r.msg.value;
            && Valid(m) && Fits(header) && Fits(body)
            && stream == Encoded(header) + (if m.kind == FileChunk then Encoded(body) else []) + r.rest
            && c.open(key, nonce, header).Some?
            && DecodeMessage(c, c.open(key, nonce, header).value) == Some(m.(chunk := []))
            && (if m.kind == FileChunk then c.open(key, nonce + 1, body) == Some(m.chunk) else m.chunk == [])
            && r.nonce == nonce + Frames(m)
  {
    var r := ReceiveSpec(c, key, nonce, stream);
    header := Decode(stream).payload;
    body := [];
    var rest := Decode(stream).rest;
    Frame.DecodesExactly(stream, header, rest);
    if r.msg.value.kind == FileChunk {
      body := Decode(rest).payload;
      Frame.DecodesExactly(rest, body, r.rest);
      assert Encoded(header) + (Encoded(body) + r.rest) == Encoded(header) + Encoded(body) + r.rest;
    } else {
      assert Encoded(header) + [] == Encoded(header);
    }
  }

  predicate Carries(m: Message) { m.kind == FileChunk || m.chunk == [] }

  function Frames(m: Message): nat { if m.kind == FileChunk then 2 else 1 }

  lemma OneBareMessage(c: Codec, key: Key, nonce: nat, m: Message, ios: Writes, rest: Bytes)
    requires Ideal(c) && Distinct(c, m) && m.kind != FileChunk && m.chunk == [] && SendSpec(c, key, nonce, m, ios).ok
    ensures var s := SendSpec(c, key, nonce, m, ios);
            && ReceiveSpec(c, key, nonce, s.wire + rest) == Receiving(Some(m), rest, s.nonce)
            && s.nonce == nonce + 1
  {
    MessageRoundTrips(c, m);
    assert m.(chunk := []) == m;
    OneFrame(c, key, nonce, EncodeMessage(c, m).value, ios.header, rest);
  }

  /** The header of a chunk is read, and then its frame. */
  lemma HeaderOpens(c: Codec, key: Key, nonce: nat, bare: Message, io: Io, rest: Bytes)
    requires Ideal(c) && Distinct(c, bare) && Valid(bare) && bare.kind == FileChunk && bare.chunk == []
    requires SendFrame(c, key, nonce, c.marshal(ToFields(c, bare)), io).ok
    ensures ReceiveSpec(c, key, nonce, SendFrame(c, key, nonce, c.marshal(ToFields(c, bare)), io).wire + rest) ==
            match OpenFrame(c, key, nonce + 1, rest)
            case None => Receiving(None, rest, nonce + 1)
            case Some((chunk, more)) => Receiving(Some(bare.(chunk := chunk)), more, nonce + 2)
  {
    MessageRoundTrips(c, bare);
    assert bare.(chunk := []) == bare;
    OneFrame(c, key, nonce, c.marshal(ToFields(c, bare)), io, rest);
  }

  lemma Regroup(a: Bytes, b: Bytes, c: Bytes)
    ensures a + b + c == a + (b + c)
  {
  }

  function HeaderOf(c: Codec, key: Key, nonce: nat, m: Message, io: Io): Sending {
    SendFrame(c, key, nonce, c.marshal(ToFields(c, m.(chunk := []))), io)
  }

  lemma ChunkIsTwoFrames(c: Codec, key: Key, nonce: nat, m: Message, ios: Writes)
    requires m.kind == FileChunk && SendSpec(c, key, nonce, m, ios).ok
    ensures var first := HeaderOf(c, key, nonce, m, ios.header);
            var second := SendFrame(c, key, nonce + 1, m.chunk, ios.chunk);
            && Valid(m) && first.ok && second.ok
            && SendSpec(c, key, nonce, m, ios) == Sending(true, first.wire + second.wire, nonce + 2)
  {
  }

  lemma TwoFramesArrive(c: Codec, key: Key, nonce: nat, m: Message, ios: Writes, rest: Bytes)
    requires Ideal(c) && Distinct(c, m) && m.kind == FileChunk && Valid(m)
    requires HeaderOf(c, key, nonce, m, ios.header).ok && SendFrame(c, key, nonce + 1, m.chunk, ios.chunk).ok
    ensures var first := HeaderOf(c, key, nonce, m, ios.header);
            var second := SendFrame(c, key, nonce + 1, m.chunk, ios.chunk);
            ReceiveSpec(c, key, nonce, first.wire + (second.wire + rest)) == Receiving(Some(m), rest, nonce + 2)
  {
    var bare := m.(chunk := []);
    var tail := SendFrame(c, key, nonce + 1, m.chunk, ios.chunk).wire + rest;
    OneFrame(c, key, nonce + 1, m.chunk, ios.chunk, rest);
    HeaderOpens(c, key, nonce, bare, ios.header, tail);
    assert bare.(chunk := m.chunk) == m;
  }

  lemma OneChunkMessage(c: Codec, key: Key, nonce: nat, m: Message, ios: Writes, rest: Bytes)
    requires Ideal(c) && Distinct(c, m) && m.kind == FileChunk && SendSpec(c, key, nonce, m, ios).ok
    ensures var s := SendSpec(c, key, nonce, m, ios);
            && ReceiveSpec(c, key, nonce, s.wire + rest) == Receiving(Some(m), rest, s.nonce)
            && s.nonce == nonce + 2
  {
    ChunkIsTwoFrames(c, key, nonce, m, ios);
    TwoFramesArrive(c, key, nonce, m, ios, rest);
    Regroup(HeaderOf(c, key, nonce, m, ios.header).wire, SendFrame(c, key, nonce + 1, m.chunk, ios.chunk).wire, rest);
  }

  /** One message: the peer gets it back, reads not one byte more, and its nonce follows. */
  lemma OneMessage(c: Codec, key: Key, nonce: nat, m: Message, ios: Writes, rest: Bytes)
    requires Ideal(c) && Carries(m) && Distinct(c, m)
    requires SendSpec(c, key, nonce, m, ios).ok
    ensures var s := SendSpec(c, key, nonce, m, ios);
            && ReceiveSpec(c, key, nonce, s.wire + rest) == Receiving(Some(m), rest, s.nonce)
            && s.nonce == nonce + Frames(m)
  {
    if m.kind == FileChunk {
      OneChunkMessage(c, key, nonce, m, ios, rest);
    } else {
      OneBareMessage(c, key, nonce, m, ios, rest);
    }
  }

  /** A valid message whose encoding fits a frame is sent if its writes work; a chunk of the transfer's
      size always fits. */
  lemma SendsExactly(c: Codec, key: Key, nonce: nat, m: Message, ios: Writes)
    requires Ideal(c) && |m.chunk| <= FILE_CHUNK_SIZE
    ensures SendSpec(c, key, nonce, m, ios).ok <==>
            && Valid(m) && |c.marshal(ToFields(c, m.(chunk := [])))| + TAG_SIZE <= MAX_FRAME_SIZE
            && ios.header.Works? && (m.kind == FileChunk ==> ios.chunk.Works?)
  {
  }

  /** A stream that ends within a frame, or before it. */
  lemma CutFrameStaysShut(c: Codec, key: Key, nonce: nat, sealed: Bytes, stream: Bytes)
    requires Fits(sealed) && stream <= Encoded(sealed) && stream != Encoded(sealed)
    ensures OpenFrame(c, key, nonce, stream) == None
  {
    CutFrameIsShort(sealed, |stream|);
    assert stream == Encoded(sealed)[..|stream|];
  }

  /** The frame of a file_chunk, whose chunk does not follow. */
  lemma HeaderAlone(c: Codec, key: Key, nonce: nat, m: Message, io: Io, rest: Bytes)
    requires Ideal(c) && m.kind == FileChunk && EncodeMessage(c, m.(chunk := [])).Some?
    requires SendFrame(c, key, nonce, EncodeMessage(c, m.(chunk := [])).value, io).ok
    requires OpenFrame(c, key, nonce + 1, rest) == None
    ensures var first := SendFrame(c, key, nonce, EncodeMessage(c, m.(chunk := [])).value, io);
            ReceiveSpec(c, key, nonce, first.wire + rest).msg == None
  {
    var f := ToFields(c, m.(chunk := []));
    OneFrame(c, key, nonce, EncodeMessage(c, m.(chunk := [])).value, io, rest);
    assert c.unmarshal(c.marshal(f)) == Some(f);
  }

  /** A message of which not all has been written, or not all has come through, is not received: neither
      when SendMessage fails, whatever it has written by then, nor when the stream is cut. */
  lemma PartIsSilent(c: Codec, key: Key, nonce: nat, m: Message, ios: Writes, stream: Bytes)
    requires Ideal(c) && stream <= SendSpec(c, key, nonce, m, ios).wire
    requires SendSpec(c, key, nonce, m, ios).ok ==> stream != SendSpec(c, key, nonce, m, ios).wire
    ensures ReceiveSpec(c, key, nonce, stream).msg == None
  {
    var s := SendSpec(c, key, nonce, m, ios);
    var payload := EncodeMessage(c, m.(chunk := []));
    if payload.Some? && Fits(c.seal(key, nonce, payload.value)) {
      var sealed := c.seal(key, nonce, payload.value);
      var first := SendFrame(c, key, nonce, payload.value, ios.header);
      if stream != Encoded(sealed) && stream <= Encoded(sealed) {
        CutFrameStaysShut(c, key, nonce, sealed, stream);
      } else {
        PartOfChunk(c, key, nonce, m, ios, stream);
      }
    } else {
      assert stream == [];
    }
  }

  lemma PartOfChunk(c: Codec, key: Key, nonce: nat, m: Message, ios: Writes, stream: Bytes)
    requires Ideal(c) && EncodeMessage(c, m.(chunk := [])).Some?
    requires stream <= SendSpec(c, key, nonce, m, ios).wire
    requires SendSpec(c, key, nonce, m, ios).ok ==> stream != SendSpec(c, key, nonce, m, ios).wire
    requires var sealed := c.seal(key, nonce, EncodeMessage(c, m.(chunk := [])).value);
             Fits(sealed) && !(stream != Encoded(sealed) && stream <= Encoded(sealed))
    ensures ReceiveSpec(c, key, nonce, stream).msg == None
  {
    var payload := EncodeMessage(c, m.(chunk := [])).value;
    var first := SendFrame(c, key, nonce, payload, ios.header);
    var second := SendFrame(c, key, first.nonce, m.chunk, ios.chunk);
    assert first.ok && m.kind == FileChunk;
    var rest := stream[|first.wire|..];
    assert stream == first.wire + rest && rest <= second.wire;
    var sealed := c.seal(key, first.nonce, m.chunk);
    if Fits(sealed) {
      CutFrameStaysShut(c, key, first.nonce, sealed, rest);
    }
    HeaderAlone(c, key, nonce, m, ios.header, rest);
  }

  /** How many messages have been sent, what has been written, and the next nonce. */
  datatype SentAll = SentAll(count: nat, wire: Bytes, nonce: nat)

  /** SendMessage for one message after another, until it fails. `ios(i)` is for the i-th. */
  function SendAll(c: Codec, key: Key, nonce: nat, ms: seq<Message>, ios: nat -> Writes, i: nat): (s: SentAll)
    ensures s.count <= |ms|
    decreases |ms|
  {
    if ms == [] then SentAll(0, [], nonce)
    else
      var s := SendSpec(c, key, nonce, ms[0], ios(i));
      if !s.ok then SentAll(0, s.wire, s.nonce)
      else
        var more := SendAll(c, key, s.nonce, ms[1..], ios, i + 1);
        SentAll(more.count + 1, s.wire + more.wire, more.nonce)
  }

  datatype Inbox = Inbox(msgs: seq<Message>, rest: Bytes, nonce: nat)

  /** ReceiveMessage until it fails. */
  function ReceiveAll(c: Codec, key: Key, nonce: nat, stream: Bytes, most: nat): Inbox
    decreases most
  {
    if most == 0 then Inbox([], stream, nonce)
    else
      var r := ReceiveSpec(c, key, nonce, stream);
      if r.msg.None? then Inbox([], r.rest, r.nonce)
      else
        var more := ReceiveAll(c, key, r.nonce, r.rest, most - 1);
        Inbox([r.msg.value] + more.msgs, more.rest, more.nonce)
  }

  function TotalFrames(ms: seq<Message>): nat {
    if ms == [] then 0 else Frames(ms[0]) + TotalFrames(ms[1..])
  }

  predicate Transmissible(c: Codec, ms: seq<Message>) { forall m <- ms :: Carries(m) && Distinct(c, m) }

  lemma ReceivesFirst(c: Codec, key: Key, nonce: nat, m: Message, ios: Writes, rest: Bytes, most: nat)
    requires Ideal(c) && Carries(m) && Distinct(c, m) && SendSpec(c, key, nonce, m, ios).ok
    ensures var s := SendSpec(c, key, nonce, m, ios);
            var more := ReceiveAll(c, key, s.nonce, rest, most);
            && ReceiveAll(c, key, nonce, s.wire + rest, most + 1) == Inbox([m] + more.msgs, more.rest, more.nonce)
            && s.nonce == nonce + Frames(m)
  {
    OneMessage(c, key, nonce, m, ios, rest);
  }

  lemma ReceivesNone(c: Codec, key: Key, nonce: nat, m: Message, ios: Writes, stream: Bytes, most: nat)
    requires Ideal(c) && stream <= SendSpec(c, key, nonce, m, ios).wire
    requires SendSpec(c, key, nonce, m, ios).ok ==> stream != SendSpec(c, key, nonce, m, ios).wire
    ensures ReceiveAll(c, key, nonce, stream, most).msgs == []
  {
    PartIsSilent(c, key, nonce, m, ios, stream);
  }

  lemma FirstOfAll(m: Message, ms: seq<Message>, k: nat)
    requires k <= |ms|
    ensures ([m] + ms)[..k + 1] == [m] + ms[..k]
  {
  }

  /** What SendAll does first. */
  lemma SendsFirst(c: Codec, key: Key, nonce: nat, ms: seq<Message>, ios: nat -> Writes, i: nat)
    requires ms != []
    ensures var s := SendSpec(c, key, nonce, ms[0], ios(i));
            SendAll(c, key, nonce, ms, ios, i) ==
            if !s.ok then SentAll(0, s.wire, s.nonce)
            else
              var more := SendAll(c, key, s.nonce, ms[1..], ios, i + 1);
              SentAll(more.count + 1, s.wire + more.wire, more.nonce)
  {
  }

  /** The messages that SendMessage has accepted, before the first failure if there is one, are those that
      the peer's ReceiveMessage calls return. If none fails, nothing is left over, and both nonces have
      advanced by two for each file_chunk and one for each other message. */
  lemma {:induction false} SessionRoundTrips(c: Codec, key: Key, nonce: nat, ms: seq<Message>, ios: nat -> Writes,
                                             i: nat)
    requires Ideal(c) && Transmissible(c, ms)
    ensures var s := SendAll(c, key, nonce, ms, ios, i);
            var r := ReceiveAll(c, key, nonce, s.wire, |ms| + 1);
            && r.msgs == ms[..s.count]
            && (s.count == |ms| ==> r == Inbox(ms, [], s.nonce) && s.nonce == nonce + TotalFrames(ms))
    decreases |ms|
  {
    if ms != [] {
      var m, later := ms[0], ms[1..];
      var s := SendSpec(c, key, nonce, m, ios(i));
      SendsFirst(c, key, nonce, ms, ios, i);
      assert ms == [m] + later;
      if s.ok {
        var more := SendAll(c, key, s.nonce, later, ios, i + 1);
        ReceivesFirst(c, key, nonce, m, ios(i), more.wire, |ms|);
        SessionRoundTrips(c, key, s.nonce, later, ios, i + 1);
        FirstOfAll(m, later, more.count);
      } else {
        ReceivesNone(c, key, nonce, m, ios(i), s.wire, |ms| + 1);
      }
    }
  }

  lemma CutSplits(stream: Bytes, a: Bytes, b: Bytes)
    requires stream <= a + b
    ensures |a| <= |stream| ==> stream == a + stream[|a|..] && stream[|a|..] <= b
    ensures |stream| < |a| ==> stream <= a
  {
    if |a| <= |stream| {
      assert stream == (a + b)[..|stream|];
      assert stream[|a|..] == b[..|stream| - |a|];
    }
  }

  lemma PrefixGrows(m: Message, some: seq<Message>, ms: seq<Message>, k: nat)
    requires k <= |ms| && some <= ms[..k]
    ensures [m] + some <= ([m] + ms)[..k + 1]
  {
    FirstOfAll(m, ms, k);
  }

  /** Of a stream that is cut anywhere, the peer gets a prefix of the messages, and no other. */
  lemma {:induction false} CutSessionIsPrefix(c: Codec, key: Key, nonce: nat, ms: seq<Message>, ios: nat -> Writes,
                                              i: nat, stream: Bytes)
    requires Ideal(c) && Transmissible(c, ms)
    requires stream <= SendAll(c, key, nonce, ms, ios, i).wire
    ensures ReceiveAll(c, key, nonce, stream, |ms| + 1).msgs <= ms[..SendAll(c, key, nonce, ms, ios, i).count]
    decreases |ms|
  {
    if ms != [] {
      var m, later := ms[0], ms[1..];
      var s := SendSpec(c, key, nonce, m, ios(i));
      SendsFirst(c, key, nonce, ms, ios, i);
      assert ms == [m] + later;
      if s.ok && |s.wire| <= |stream| {
        var more := SendAll(c, key, s.nonce, later, ios, i + 1);
        var rest := stream[|s.wire|..];
        CutSplits(stream, s.wire, more.wire);
        assert stream == s.wire + rest;
        ReceivesFirst(c, key, nonce, m, ios(i), rest, |ms|);
        CutSessionIsPrefix(c, key, s.nonce, later, ios, i + 1, rest);
        PrefixGrows(m, ReceiveAll(c, key, s.nonce, rest, |ms|).msgs, later, more.count);
      } else {
        if s.ok {
          CutSplits(stream, s.wire, SendAll(c, key, s.nonce, later, ios, i + 1).wire);
        }
        ReceivesNone(c, key, nonce, m, ios(i), stream, |ms| + 1);
      }
    }
  }

  /** noise.CipherState: a key and the nonce of the next message. */
  class CipherState {
    const key: Key
    var nonce: nat

    constructor (key: Key)
      ensures this.key == key && nonce == 0
    {
      this.key, nonce := key, 0;
    }

    method Encrypt(c: Codec, plain: Bytes) returns (sealed: Bytes)
      modifies this
      ensures sealed == c.seal(key, old(nonce), plain) && nonce == old(nonce) + 1
    {
      sealed := c.seal(key, nonce, plain);
      nonce := nonce + 1;
    }

    /** The nonce moves only when the ciphertext is authentic. */
    method Decrypt(c: Codec, sealed: Bytes) returns (plain: Option<Bytes>)
      modifies this
      ensures plain == c.open(key, old(nonce), sealed)
      ensures nonce == if plain.Some? then old(nonce) + 1 else old(nonce)
    {
      plain := c.open(key, nonce, sealed);
      if plain.Some? {
        nonce := nonce + 1;
      }
    }
  }

  class SecureSession {
    var written: Bytes
    const conn: Reader
    const send: CipherState
    const receive: CipherState

    constructor (conn: Reader, send: CipherState, receive: CipherState)
      ensures this.conn == conn && this.send == send && this.receive == receive && written == []
    {
      this.conn, this.send, this.receive, written := conn, send, receive, [];
    }

    /** Encrypt and write one frame. */
    method WriteFrame(c: Codec, plain: Bytes, io: Io) returns (ok: bool)
      modifies this, send
      ensures var s := SendFrame(c, send.key, old(send.nonce), plain, io);
              ok == s.ok && written == old(written) + s.wire && send.nonce == s.nonce
    {
      var sealed := send.Encrypt(c, plain);
      var frame := EncodeFrame(sealed);
      ok := frame != null && io.Works?;
      if frame != null {
        written := written + Through(frame[..], io);
      }
    }

    method SendMessage(c: Codec, m: Message, ios: Writes) returns (ok: bool)
      modifies this, send
      ensures var s := SendSpec(c, send.key, old(send.nonce), m, ios);
              ok == s.ok && written == old(written) + s.wire && send.nonce == s.nonce
    {
      var payload := EncodeMessage(c, m.(chunk := []));
      if payload.None? {
        return false;
      }
      ok := WriteFrame(c, payload.value, ios.header);
      ghost var first := SendFrame(c, send.key, old(send.nonce), payload.value, ios.header);
      if ok && m.kind == FileChunk {
        ok := WriteFrame(c, m.chunk, ios.chunk);
        Regroup(old(written), first.wire, SendFrame(c, send.key, first.nonce, m.chunk, ios.chunk).wire);
      }
    }

    method ReceiveMessage(c: Codec) returns (msg: Option<Message>)
      requires conn != this as object
      modifies conn, receive
      ensures var r := ReceiveSpec(c, receive.key, old(receive.nonce), old(conn.data));
              && msg == r.msg && receive.nonce == r.nonce
              && (msg.Some? ==> conn.data == r.rest)
    {
      var frame := conn.DecodeFrame();
      if frame.None? {
        return None;
      }
      var payload := receive.Decrypt(c, frame.value);
      if payload.None? {
        return None;
      }
      msg := DecodeMessage(c, payload.value);
      if msg.Some? && msg.value.kind == FileChunk {
        frame := conn.DecodeFrame();
        if frame.None? {
          return None;
        }
        var chunk := receive.Decrypt(c, frame.value);
        if chunk.None? {
          return None;
        }
        msg := Some(msg.value.(chunk := chunk.value));
      }
    }
  }
}
