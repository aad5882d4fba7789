/** Length-prefixed frames (internal/protocol/frame.go). */
module Frame {
  import opened Protocol

  const MAX_FRAME_SIZE: nat := 64 * 1024

  /** An unsigned 32-bit number, most significant byte first. */
  function BigEndian(n: nat): (b: Bytes)
    requires n < 0x1_0000_0000
    ensures |b| == 4
  {
    [(n / 0x100_0000) as byte, (n / 0x1_0000 % 0x100) as byte, (n / 0x100 % 0x100) as byte, (n % 0x100) as byte]
  }

  function FromBigEndian(b: Bytes): nat
    requires |b| == 4
  {
    b[0] as nat * 0x100_0000 + b[1] as nat * 0x1_0000 + b[2] as nat * 0x100 + b[3] as nat
  }

  lemma LengthRoundTrips(n: nat)
    requires n < 0x1_0000_0000
    ensures FromBigEndian(BigEndian(n)) == n
  {
    var a, b, c := n / 0x100, n / 0x1_0000, n / 0x100_0000;
    assert b == a / 0x100;
    assert c == b / 0x100;
    assert n == a * 0x100 + n % 0x100;
    assert a == b * 0x100 + a % 0x100;
    assert b == c * 0x100 + b % 0x100;
  }

  predicate Fits(payload: Bytes) { |payload| <= MAX_FRAME_SIZE }

  function Encoded(payload: Bytes): Bytes
    requires Fits(payload)
  {
    BigEndian(|payload|) + payload
  }

  datatype Decoded = Payload(payload: Bytes, rest: Bytes) | Short | TooLong

  /** The first frame of a byte stream. */
  function Decode(s: Bytes): (d: Decoded)
    ensures d.Payload? ==> |d.rest| < |s| && Fits(d.payload)
  {
    if |s| < 4 then Short
    else
      var size := FromBigEndian(s[..4]);
      if size > MAX_FRAME_SIZE then TooLong
      else if |s| - 4 < size then Short
      else Payload(s[4..4 + size], s[4 + size..])
  }

  lemma FrameRoundTrips(payload: Bytes, rest: Bytes)
    requires Fits(payload)
    ensures Decode(Encoded(payload) + rest) == Payload(payload, rest)
  {
    LengthRoundTrips(|payload|);
    var s := Encoded(payload) + rest;
    assert s[..4] == BigEndian(|payload|);
    assert s[4..4 + |payload|] == payload;
    assert s[4 + |payload|..] == rest;
  }

  lemma {:induction false} BytesRoundTrip(b: Bytes)
    requires |b| == 4
    ensures FromBigEndian(b) < 0x1_0000_0000 && BigEndian(FromBigEndian(b)) == b
  {
    var n := FromBigEndian(b);
    assert n == ((b[0] as nat * 0x100 + b[1] as nat) * 0x100 + b[2] as nat) * 0x100 + b[3] as nat;
    assert n / 0x100 == (b[0] as nat * 0x100 + b[1] as nat) * 0x100 + b[2] as nat;
    assert n / 0x1_0000 == n / 0x100 / 0x100 == b[0] as nat * 0x100 + b[1] as nat;
    assert n / 0x100_0000 == n / 0x1_0000 / 0x100 == b[0] as nat;
  }

  /** Exactly which streams begin with a frame, and which are refused. */
  lemma {:induction false} DecodesExactly(s: Bytes, payload: Bytes, rest: Bytes)
    ensures Decode(s) == Payload(payload, rest) <==> Fits(payload) && s == Encoded(payload) + rest
    ensures Decode(s) == TooLong <==> |s| >= 4 && FromBigEndian(s[..4]) > MAX_FRAME_SIZE
  {
    if Fits(payload) && s == Encoded(payload) + rest {
      FrameRoundTrips(payload, rest);
    }
    if Decode(s) == Payload(payload, rest) {
      BytesRoundTrip(s[..4]);
      assert s == s[..4] + s[4..4 + |payload|] + s[4 + |payload|..];
    }
  }

  function Stream(payloads: seq<Bytes>): Bytes
    requires forall p <- payloads :: Fits(p)
  {
    if payloads == [] then [] else Encoded(payloads[0]) + Stream(payloads[1..])
  }

  /** All frames of a stream, and how it ends. */
  datatype Frames = Frames(payloads: seq<Bytes>, end: Decoded)

  function DecodeAll(s: Bytes): Frames
    decreases |s|
  {
    match Decode(s)
    case Payload(p, rest) =>
      var more := DecodeAll(rest);
      Frames([p] + more.payloads, more.end)
    case bad => Frames([], bad)
  }

  lemma {:induction false} StreamRoundTrips(payloads: seq<Bytes>)
    requires forall p <- payloads :: Fits(p)
    ensures DecodeAll(Stream(payloads)) == Frames(payloads, Short)
    decreases |payloads|
  {
    if payloads != [] {
      FrameRoundTrips(payloads[0], Stream(payloads[1..]));
      StreamRoundTrips(payloads[1..]);
    }
  }

  /** A frame that is cut is never decoded, to this or any other payload. */
  lemma CutFrameIsShort(payload: Bytes, n: nat)
    requires Fits(payload) && n < |Encoded(payload)|
    ensures Decode(Encoded(payload)[..n]) == Short
  {
    LengthRoundTrips(|payload|);
    if n >= 4 {
      assert Encoded(payload)[..n][..4] == BigEndian(|payload|);
    }
  }

  /** Cutting a stream anywhere loses its last frames and nothing else: what decodes is a prefix of what was
      sent, followed by an error, and it is everything exactly when nothing was cut. */
  lemma {:induction false} TruncationLosesOnlyTheEnd(payloads: seq<Bytes>, n: nat)
    requires forall p <- payloads :: Fits(p)
    requires n <= |Stream(payloads)|
    ensures var d := DecodeAll(Stream(payloads)[..n]);
            && d.end == Short
            && d.payloads <= payloads
            && (d.payloads == payloads <==> n == |Stream(payloads)|)
    decreases |payloads|
  {
    if payloads != [] {
      var first := Encoded(payloads[0]);
      var s := Stream(payloads)[..n];
      if n < |first| {
        assert s == first[..n];
        CutFrameIsShort(payloads[0], n);
      } else {
        var tail := Stream(payloads[1..])[..n - |first|];
        assert s == first + tail;
        FrameRoundTrips(payloads[0], tail);
        TruncationLosesOnlyTheEnd(payloads[1..], n - |first|);
        var d := DecodeAll(tail);
        assert ([payloads[0]] + d.payloads)[1..] == d.payloads;
        assert payloads == [payloads[0]] + payloads[1..];
      }
    } else {
      assert Stream(payloads)[..n] == [];
    }
  }

  method EncodeFrame(payload: Bytes) returns (frame: array?<byte>)
    ensures frame == null <==> !Fits(payload)
    ensures frame != null ==> fresh(frame) && frame[..] == Encoded(payload)
  {
    if |payload| > MAX_FRAME_SIZE {
      return null;
    }
    var size := |payload|;
    var f := new byte[4 + size];
    f[0], f[1], f[2], f[3] :=
      (size / 0x100_0000) as byte, (size / 0x1_0000 % 0x100) as byte, (size / 0x100 % 0x100) as byte,
      (size % 0x100) as byte;
    var i := 0;
    while i < size
      invariant 0 <= i <= size
      invariant f[..4] == BigEndian(size)
      invariant f[4..4 + i] == payload[..i]
    {
      f[4 + i] := payload[i];
      i := i + 1;
    }
    assert f[..] == f[..4] + f[4..4 + size];
    frame := f;
  }

  /** A connection whose reads return as few bytes as they like, but at least one. */
  class Reader {
    var data: Bytes
    var sizes: seq<nat>

    constructor (data: Bytes, sizes: seq<nat>)
      ensures this.data == data
    {
      this.data, this.sizes := data, sizes;
    }

    /** conn.Read(buf[from..]): zero bytes only at the end of the stream. */
    method Read(buf: array<byte>, from: nat) returns (n: nat)
      requires from < buf.Length
      modifies this, buf
      ensures n <= |old(data)| && from + n <= buf.Length && (n == 0 <==> old(data) == [])
      ensures data == old(data)[n..]
      ensures buf[..] == old(buf[..from]) + old(data)[..n] + old(buf[from..])[n..]
    {
      var most := if |data| < buf.Length - from then |data| else buf.Length - from;
      n := most;
      if sizes != [] {
        if 1 <= sizes[0] < most {
          n := sizes[0];
        }
        sizes := sizes[1..];
      }
      forall i | 0 <= i < n {
        buf[from + i] := data[i];
      }
      data := data[n..];
    }

    /** io.ReadFull. */
    method ReadFull(buf: array<byte>) returns (ok: bool)
      modifies this, buf
      ensures ok <==> |old(data)| >= buf.Length
      ensures ok ==> buf[..] == old(data)[..buf.Length] && data == old(data)[buf.Length..]
    {
      var got := 0;
      ghost var all := data;
      while got < buf.Length
        invariant got <= buf.Length && got <= |all|
        invariant buf[..got] == all[..got]
        invariant data == all[got..]
      {
        var n := Read(buf, got);
        if n == 0 {
          return false;
        }
        got := got + n;
      }
      ok := true;
    }

    /** DecodeFrame, whatever the sizes of the reads. */
    method DecodeFrame() returns (payload: Option<Bytes>)
      modifies this
      ensures payload.Some? <==> Decode(old(data)).Payload?
      ensures payload.Some? ==> Decode(old(data)) == Payload(payload.value, data)
    {
      ghost var all := data;
      var header := new byte[4];
      var ok := ReadFull(header);
      if !ok {
        return None;
      }
      var size := FromBigEndian(header[..]);
      if size > MAX_FRAME_SIZE {
        return None;
      }
      var body := new byte[size];
      ok := ReadFull(body);
      if !ok {
        return None;
      }
      assert all[4..][..size] == all[4..4 + size];
      assert all[4..][size..] == all[4 + size..];
      payload := Some(body[..]);
    }
  }
}
