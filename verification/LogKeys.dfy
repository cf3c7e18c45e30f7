/** Fixed-width text keys of log lines. */
module LogKeys {
  import opened Protocol

  const TWO_128: int := TWO_64 * TWO_64

  /** A session id: 128 bits, printed as in section 4 of RFC 9562. */
  type SessionId = x: int | 0 <= x < TWO_128

  /** The last line number is the exclusive end of every scan. */
  const MAX_LINE: UInt64 := TWO_64 - 1

  function Digit(d: nat): char
    requires d < 16
  {
    "0123456789abcdef"[d]
  }

  /** Exactly `width` lowercase hexadecimal digits. */
  function Hex(n: nat, width: nat): seq<char> {
    if width == 0 then [] else Hex(n / 16, width - 1) + [Digit(n % 16)]
  }

  function Pow16(width: nat): nat {
    if width == 0 then 1 else 16 * Pow16(width - 1)
  }

  /** Groups of 8, 4, 4, 4 and 12 digits. */
  function Hyphenate(h: seq<char>): seq<char>
    requires |h| == 32
  {
    h[0..8] + "-" + h[8..12] + "-" + h[12..16] + "-" + h[16..20] + "-" + h[20..32]
  }

  function UuidText(id: SessionId): seq<char> {
    HexLength(id, 32);
    Hyphenate(Hex(id, 32))
  }

  function FormatKey(id: SessionId, line: UInt64): seq<char> {
    UuidText(id) + "-" + Hex(line, 16)
  }

  // ---------- Byte order ----------

  predicate Less(a: seq<char>, b: seq<char>) {
    if b == [] then false
    else if a == [] then true
    else a[0] < b[0] || (a[0] == b[0] && Less(a[1..], b[1..]))
  }

  lemma {:induction false} LessAsymmetric(a: seq<char>, b: seq<char>)
    requires Less(a, b)
    ensures !Less(b, a)
  {
    if a == [] || a[0] != b[0] {
    } else {
      LessAsymmetric(a[1..], b[1..]);
    }
  }

  /** Equal prefixes do not matter; different ones of the same length decide. */
  lemma {:induction false} LessAfterPrefix(p: seq<char>, a: seq<char>, b: seq<char>)
    ensures Less(p + a, p + b) <==> Less(a, b)
  {
    if p == [] {
      assert p + a == a && p + b == b;
    } else {
      assert (p + a)[1..] == p[1..] + a && (p + b)[1..] == p[1..] + b;
      LessAfterPrefix(p[1..], a, b);
    }
  }

  lemma {:induction false} LessByPrefix(p: seq<char>, q: seq<char>, a: seq<char>, b: seq<char>)
    requires |p| == |q| && p != q
    ensures Less(p + a, q + b) <==> Less(p, q)
  {
    if p == [] {
      assert false;
    } else {
      assert (p + a)[1..] == p[1..] + a && (q + b)[1..] == q[1..] + b;
      if p[0] == q[0] {
        assert p == [p[0]] + p[1..] && q == [q[0]] + q[1..];
        LessByPrefix(p[1..], q[1..], a, b);
      }
    }
  }

  // ---------- Hexadecimal text ----------

  lemma {:induction false} HexLength(n: nat, width: nat)
    ensures |Hex(n, width)| == width
  {
    if width == 0 {
    } else {
      HexLength(n / 16, width - 1);
    }
  }

  lemma DigitOrder(a: nat, b: nat)
    requires a < 16 && b < 16
    ensures Digit(a) < Digit(b) <==> a < b
    ensures Digit(a) == Digit(b) ==> a == b
  {
  }

  lemma LessSingle(a: char, b: char)
    ensures Less([a], [b]) <==> a < b
  {
  }

  /** Among numbers that fit the width, text order is numeric order. */
  lemma {:induction false} HexOrder(a: nat, b: nat, width: nat)
    requires a < Pow16(width) && b < Pow16(width)
    ensures Less(Hex(a, width), Hex(b, width)) <==> a < b
    ensures Hex(a, width) == Hex(b, width) ==> a == b
  {
    if width == 0 {
    } else {
      var p, q := Hex(a / 16, width - 1), Hex(b / 16, width - 1);
      var x, y := [Digit(a % 16)], [Digit(b % 16)];
      HexOrder(a / 16, b / 16, width - 1);
      HexLength(a / 16, width - 1);
      HexLength(b / 16, width - 1);
      DigitOrder(a % 16, b % 16);
      LessSingle(x[0], y[0]);
      assert Hex(a, width)[..width - 1] == p && Hex(b, width)[..width - 1] == q;
      if p == q {
        LessAfterPrefix(p, x, y);
        assert Hex(a, width)[width - 1] == x[0] && Hex(b, width)[width - 1] == y[0];
      } else {
        LessByPrefix(p, q, x, y);
      }
    }
  }

  lemma Pow16Values()
    ensures Pow16(16) == TWO_64 && Pow16(32) == TWO_128
  {
    assert Pow16(4) == 0x1_0000;
    assert Pow16(8) == 0x1_0000_0000;
    assert Pow16(12) == 0x1_0000_0000_0000;
    assert Pow16(16) == TWO_64;
    assert Pow16(20) == TWO_64 * 0x1_0000;
    assert Pow16(24) == TWO_64 * 0x1_0000_0000;
    assert Pow16(28) == TWO_64 * 0x1_0000_0000_0000;
  }

  lemma HyphenateInjective(h: seq<char>, k: seq<char>)
    requires |h| == 32 == |k| && Hyphenate(h) == Hyphenate(k)
    ensures h == k
  {
    var s, t := Hyphenate(h), Hyphenate(k);
    forall i | 0 <= i < 32 ensures h[i] == k[i] {
      var at := if i < 8 then i else if i < 12 then i + 1 else if i < 16 then i + 2
                      else if i < 20 then i + 3 else i + 4;
      assert s[at] == h[i] && t[at] == k[i];
    }
  }

  lemma UuidTextInjective(u: SessionId, v: SessionId)
    ensures |UuidText(u)| == 36 == |UuidText(v)|
    ensures UuidText(u) == UuidText(v) ==> u == v
  {
    HexLength(u, 32);
    HexLength(v, 32);
    if UuidText(u) == UuidText(v) {
      HyphenateInjective(Hex(u, 32), Hex(v, 32));
      Pow16Values();
      HexOrder(u, v, 32);
    }
  }

  // ---------- Keys ----------

  /** Within a session, byte order of keys is numeric order of line numbers. */
  lemma KeyOrder(id: SessionId, a: UInt64, b: UInt64)
    ensures Less(FormatKey(id, a), FormatKey(id, b)) <==> a < b
    ensures FormatKey(id, a) == FormatKey(id, b) <==> a == b
  {
    Pow16Values();
    HexOrder(a, b, 16);
    var p := UuidText(id) + "-";
    LessAfterPrefix(p, Hex(a, 16), Hex(b, 16));
    assert FormatKey(id, a)[|p|..] == Hex(a, 16) && FormatKey(id, b)[|p|..] == Hex(b, 16);
  }

  /** `scan(low..high)`: at or above low, strictly below high. */
  predicate InRange(key: seq<char>, low: seq<char>, high: seq<char>) {
    !Less(key, low) && Less(key, high)
  }

  /** A scan from a cursor sees exactly this session's lines from the cursor on, except the last number. */
  lemma ScanIsExact(id: SessionId, cursor: UInt64, other: SessionId, line: UInt64)
    ensures InRange(FormatKey(other, line), FormatKey(id, cursor), FormatKey(id, MAX_LINE))
            <==> other == id && cursor <= line < 0xffff_ffff_ffff_ffff
  {
    if other == id {
      KeyOrder(id, line, cursor);
      KeyOrder(id, line, MAX_LINE);
    } else {
      UuidTextInjective(id, other);
      var p, q := UuidText(other), UuidText(id);
      LessByPrefix(p, q, "-" + Hex(line, 16), "-" + Hex(cursor, 16));
      LessByPrefix(p, q, "-" + Hex(line, 16), "-" + Hex(MAX_LINE, 16));
      assert p + ("-" + Hex(line, 16)) == FormatKey(other, line);
      assert q + ("-" + Hex(cursor, 16)) == FormatKey(id, cursor);
      assert q + ("-" + Hex(MAX_LINE, 16)) == FormatKey(id, MAX_LINE);
    }
  }

  /** The digits are those of the text form, sixteen of them for the line. */
  lemma KeyDigits(id: SessionId, line: UInt64)
    ensures |FormatKey(id, line)| == 53 && FormatKey(id, line)[..36] == UuidText(id)
    ensures FormatKey(id, line)[36] == '-'
    ensures forall i | 8 <= i < 24 && i % 5 == 3 :: UuidText(id)[i] == '-'
    ensures line % 16 < 10 ==> FormatKey(id, line)[52] == '0' + (line % 16) as char
    ensures line % 16 >= 10 ==> FormatKey(id, line)[52] == 'a' + (line % 16 - 10) as char
  {
    HexLength(id, 32);
    HexLength(line / 16, 15);
    HexLength(line, 16);
    UuidTextInjective(id, id);
  }
}
