/** Length-prefixed messages on the guest connection: four bytes little-endian length, then the body.
    Bodies are opaque bytes; turning them into messages is left to the serialiser. */
module Framing {
  import opened Protocol

  newtype Byte = x: int | 0 <= x < 256
  type Bytes = seq<Byte>

  const PREFIX: int := 4

  function LittleEndian(n: int): (b: Bytes)
    requires 0 <= n < TWO_32
    ensures |b| == PREFIX
  {
    [(n % 256) as Byte, (n / 256 % 256) as Byte, (n / 65536 % 256) as Byte, (n / 16777216) as Byte]
  }

  function FromLittleEndian(b: Bytes): (n: nat)
    requires |b| == PREFIX
    ensures n < TWO_32
  {
    b[0] as int + 256 * b[1] as int + 65536 * b[2] as int + 16777216 * b[3] as int
  }

  lemma LengthRoundTrip(n: int)
    requires 0 <= n < TWO_32
    ensures FromLittleEndian(LittleEndian(n)) == n
  {
    assert n == 256 * (n / 256) + n % 256;
    assert n / 256 == 256 * (n / 65536) + n / 256 % 256;
    assert n / 65536 == 256 * (n / 16777216) + n / 65536 % 256;
  }

  lemma PrefixRoundTrip(b: Bytes)
    requires |b| == PREFIX
    ensures LittleEndian(FromLittleEndian(b)) == b
  {
    var n := FromLittleEndian(b);
    var b0, b1, b2, b3 := b[0] as int, b[1] as int, b[2] as int, b[3] as int;
    assert n == 256 * (b1 + 256 * (b2 + 256 * b3)) + b0;
    assert n / 256 == b1 + 256 * (b2 + 256 * b3) && n % 256 == b0;
    assert n / 65536 == b2 + 256 * b3 && n / 16777216 == b3;
  }

  /** The least significant byte comes first. */
  lemma LeastSignificantFirst(n: int)
    requires 0 <= n < TWO_32
    ensures LittleEndian(n)[0] as int == n % 0x100
    ensures LittleEndian(n)[..2] == LittleEndian(n % 0x1_0000)[..2]
    ensures LittleEndian(n)[3] as int == n / 0x100_0000
    ensures LittleEndian(0x0403_0201) == [1, 2, 3, 4]
  {
    assert n % 0x1_0000 % 256 == n % 256;
    assert n % 0x1_0000 / 256 == n / 256 % 256;
    assert LittleEndian(n % 0x1_0000)[1] == LittleEndian(n)[1];
  }

  /** The length is cast to 32 bits, so a longer body gets the wrong prefix. */
  function Encode(body: Bytes): Bytes {
    LittleEndian(|body| % TWO_32) + body
  }

  datatype Reading = Read(body: Bytes, rest: Bytes) | TooShort

  function Decode(s: Bytes): Reading {
    if |s| < PREFIX then TooShort
    else
      var n := FromLittleEndian(s[..PREFIX]);
      if |s| < PREFIX + n then TooShort else Read(s[PREFIX..PREFIX + n], s[PREFIX + n..])
  }

  function EncodeAll(bodies: seq<Bytes>): Bytes {
    if bodies == [] then [] else Encode(bodies[0]) + EncodeAll(bodies[1..])
  }

  /** Reads until a read fails: the bodies and what is left over. */
  function DecodeAll(s: Bytes): (seq<Bytes>, Bytes)
    decreases |s|
  {
    match Decode(s)
    case TooShort => ([], s)
    case Read(body, rest) => var (bodies, left) := DecodeAll(rest); ([body] + bodies, left)
  }

  predicate Fits(body: Bytes) {
    |body| < TWO_32
  }

  // ---------- One message ----------

  /** What a reader makes of a frame, whatever follows: a body of 2^32 bytes or more is cut to its length
      modulo 2^32 and the rest is left in the stream. */
  lemma DecodeFrame(body: Bytes, after: Bytes)
    ensures Decode(Encode(body) + after) == Read(body[..|body| % TWO_32], body[|body| % TWO_32..] + after)
  {
    var n := |body| % TWO_32;
    var s := Encode(body) + after;
    assert s[..PREFIX] == LittleEndian(n);
    LengthRoundTrip(n);
    assert s[PREFIX..PREFIX + n] == body[..n];
    assert s[PREFIX + n..] == body[n..] + after;
  }

  /** A message arrives whole, and the stream stays in step, exactly if its body is shorter than 2^32 bytes. */
  lemma ArrivesIffFits(body: Bytes, after: Bytes)
    ensures Decode(Encode(body) + after) == Read(body, after) <==> Fits(body)
  {
    DecodeFrame(body, after);
    var n := |body| % TWO_32;
    if Fits(body) {
      assert body[..n] == body && body[n..] + after == after;
    } else {
      assert |body[..n]| < |body|;
    }
  }

  /** A frame cut short anywhere is not read. */
  lemma CutFrameFails(body: Bytes, cut: nat)
    requires Fits(body) && cut < |Encode(body)|
    ensures Decode(Encode(body)[..cut]) == TooShort
  {
    var s := Encode(body)[..cut];
    if cut >= PREFIX {
      assert |body| % TWO_32 == |body|;
      assert s[..PREFIX] == Encode(body)[..PREFIX] == LittleEndian(|body|);
      LengthRoundTrip(|body|);
    }
  }

  /** No frame is a prefix of another. */
  lemma PrefixFree(a: Bytes, b: Bytes)
    requires Fits(a) && Fits(b) && Encode(a) <= Encode(b)
    ensures a == b
  {
    hide Encode, Decode;
    var tail := Encode(b)[|Encode(a)|..];
    assert Encode(a) + tail == Encode(b) + [];
    ArrivesIffFits(a, tail);
    ArrivesIffFits(b, []);
  }

  // ---------- A whole connection ----------

  /** Any messages that fit, followed by any cut frame, are read as exactly these messages and then a failure. */
  lemma {:induction false} RoundTrip(bodies: seq<Bytes>, last: Bytes, cut: nat)
    requires forall i | 0 <= i < |bodies| :: Fits(bodies[i])
    requires Fits(last) && cut < |Encode(last)|
    ensures DecodeAll(EncodeAll(bodies) + Encode(last)[..cut]) == (bodies, Encode(last)[..cut])
    decreases |bodies|
  {
    hide Encode, Decode, Fits;
    var tail := Encode(last)[..cut];
    CutFrameFails(last, cut);
    if bodies == [] {
      assert EncodeAll(bodies) + tail == tail;
    } else {
      ArrivesIffFits(bodies[0], EncodeAll(bodies[1..]) + tail);
      RoundTrip(bodies[1..], last, cut);
      assert EncodeAll(bodies) + tail == Encode(bodies[0]) + (EncodeAll(bodies[1..]) + tail);
      assert [bodies[0]] + bodies[1..] == bodies;
    }
  }

  lemma DecodeIsFrame(s: Bytes)
    requires Decode(s).Read?
    ensures var r := Decode(s); Fits(r.body) && |r.rest| < |s| && Encode(r.body) + r.rest == s
  {
    var r := Decode(s);
    PrefixRoundTrip(s[..PREFIX]);
    assert |r.body| % TWO_32 == |r.body| == FromLittleEndian(s[..PREFIX]);
    assert s == s[..PREFIX] + r.body + r.rest;
  }

  /** The other way round: whatever the bytes are, the messages read from them are the only ones that encode to
      the part consumed, and the rest is not a message. */
  lemma {:induction false} DecodeIsExact(s: Bytes)
    ensures var (bodies, left) := DecodeAll(s);
            && EncodeAll(bodies) + left == s
            && Decode(left) == TooShort
            && forall i | 0 <= i < |bodies| :: Fits(bodies[i])
    decreases |s|
  {
    hide Encode, Decode, Fits;
    match Decode(s)
    case TooShort => assert EncodeAll([]) + s == s;
    case Read(body, rest) =>
      DecodeIsFrame(s);
      DecodeIsExact(rest);
      var (bodies, left) := DecodeAll(rest);
      var all := [body] + bodies;
      assert all[1..] == bodies;
      assert EncodeAll(all) + left == Encode(body) + (EncodeAll(bodies) + left);
  }

  // ---------- The stream ----------

  function Joined(chunks: seq<Bytes>): Bytes {
    if chunks == [] then [] else chunks[0] + Joined(chunks[1..])
  }

  /** One end of a connection: bytes arrive in chunks of any size until the other side closes. */
  class MessageStream {
    var arriving: seq<Bytes>
    var sent: Bytes

    ghost predicate Valid()
      reads this
    {
      forall i | 0 <= i < |arriving| :: arriving[i] != []
    }

    function Incoming(): Bytes
      reads this
    {
      Joined(arriving)
    }

    constructor (chunks: seq<Bytes>)
      requires forall i | 0 <= i < |chunks| :: chunks[i] != []
      ensures Valid() && Incoming() == Joined(chunks) && sent == []
    {
      arriving, sent := chunks, [];
    }

    /** Fills a buffer of n bytes from as many chunks as it takes; at the end of the stream it fails. */
    method ReadExact(n: nat) returns (r: Option<Bytes>)
      requires Valid()
      modifies this`arriving
      ensures Valid()
      ensures n <= |old(Incoming())| ==> r == Some(old(Incoming())[..n]) && Incoming() == old(Incoming())[n..]
      ensures n > |old(Incoming())| ==> r == None && Incoming() == []
    {
      var buffer: Bytes := [];
      ghost var all := Incoming();
      while |buffer| < n && arriving != []
        invariant Valid() && |buffer| <= n && buffer + Incoming() == all
        decreases n - |buffer|
      {
        var chunk := arriving[0];
        var take := if |chunk| <= n - |buffer| then |chunk| else n - |buffer|;
        ghost var before, filled := arriving, buffer;
        buffer := buffer + chunk[..take];
        if take == |chunk| {
          arriving := arriving[1..];
        } else {
          arriving := [chunk[take..]] + arriving[1..];
          assert arriving[1..] == before[1..];
        }
        assert chunk[..take] + Incoming() == Joined(before);
        assert buffer + Incoming() == filled + (chunk[..take] + Incoming());
      }
      r := if |buffer| == n then Some(buffer) else None;
      assert |buffer| == n ==> all[..n] == buffer && all[n..] == Incoming();
    }

    method ReadMessage() returns (r: Option<Bytes>)
      requires Valid()
      modifies this`arriving
      ensures Valid()
      ensures match Decode(old(Incoming()))
              case Read(body, rest) => r == Some(body) && Incoming() == rest
              case TooShort => r == None
    {
      ghost var s := Incoming();
      var prefix := ReadExact(PREFIX);
      if prefix.None? {
        return None;
      }
      var n := FromLittleEndian(prefix.value);
      r := ReadExact(n);
      assert |s| >= PREFIX + n ==> s[PREFIX..][..n] == s[PREFIX..PREFIX + n] && s[PREFIX..][n..] == s[PREFIX + n..];
    }

    method WriteMessage(body: Bytes)
      modifies this`sent
      ensures sent == old(sent) + Encode(body)
    {
      sent := sent + LittleEndian(|body| % TWO_32);
      sent := sent + body;
    }
  }
}
