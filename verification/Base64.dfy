/** The standard base64 encoding of section 4 of RFC 4648, decoded as strictly as the relay's engine
    does: padding is required, and the bits it leaves unused must be zero. */
module Base64 {
  import opened Wire

  function Digit(n: int): char
    requires 0 <= n < 64
  {
    if n < 26 then ('A' as int + n) as char
    else if n < 52 then ('a' as int + (n - 26)) as char
    else if n < 62 then ('0' as int + (n - 52)) as char
    else if n == 62 then '+'
    else '/'
  }

  predicate IsDigit64(c: char) {
    'A' <= c <= 'Z' || 'a' <= c <= 'z' || '0' <= c <= '9' || c == '+' || c == '/'
  }

  function Value64(c: char): (n: int)
    requires IsDigit64(c)
    ensures 0 <= n < 64 && Digit(n) == c
  {
    if 'A' <= c <= 'Z' then c as int - 'A' as int
    else if 'a' <= c <= 'z' then c as int - 'a' as int + 26
    else if '0' <= c <= '9' then c as int - '0' as int + 52
    else if c == '+' then 62
    else 63
  }

  lemma DigitIsDigit(n: int)
    requires 0 <= n < 64
    ensures IsDigit64(Digit(n)) && Value64(Digit(n)) == n
  {
  }

  /** Three bytes as four digits. */
  function Quad(a: byte, b: byte, c: byte): string {
    var x, y, z := a as int, b as int, c as int;
    [Digit(x / 4), Digit(x % 4 * 16 + y / 16), Digit(y % 16 * 4 + z / 64), Digit(z % 64)]
  }

  function Encode(bytes: Bytes): string {
    if |bytes| == 0 then ""
    else if |bytes| == 1 then Quad(bytes[0], 0, 0)[..2] + "=="
    else if |bytes| == 2 then Quad(bytes[0], bytes[1], 0)[..3] + "="
    else Quad(bytes[0], bytes[1], bytes[2]) + Encode(bytes[3..])
  }

  predicate AllDigits64(s: string) { forall i :: 0 <= i < |s| ==> IsDigit64(s[i]) }

  /** The 24 bits of four digits as three bytes. */
  function Unquad(s: string): (byte, byte, byte)
    requires |s| == 4 && AllDigits64(s)
  {
    var p, q, r, t := Value64(s[0]), Value64(s[1]), Value64(s[2]), Value64(s[3]);
    ((p * 4 + q / 16) as byte, (q % 16 * 16 + r / 4) as byte, (r % 4 * 64 + t) as byte)
  }

  function Decode(text: string): Option<Bytes> {
    if |text| == 0 then Some([])
    else if |text| < 4 then None
    else if |text| == 4 && text[2..] == "==" && AllDigits64(text[..2]) then
      var u := Unquad(text[..2] + "AA");
      if u.1 == 0 then Some([u.0]) else None
    else if |text| == 4 && text[3] == '=' && AllDigits64(text[..3]) then
      var u := Unquad(text[..3] + "A");
      if u.2 == 0 then Some([u.0, u.1]) else None
    else if AllDigits64(text[..4]) then
      var u := Unquad(text[..4]);
      match Decode(text[4..])
      case Some(rest) => Some([u.0, u.1, u.2] + rest)
      case None => None
    else None
  }

  lemma UnquadOf(s: string, p: int, q: int, r: int, t: int)
    requires |s| == 4 && AllDigits64(s)
    requires Value64(s[0]) == p && Value64(s[1]) == q && Value64(s[2]) == r && Value64(s[3]) == t
    ensures var u := Unquad(s);
      u.0 as int == p * 4 + q / 16 && u.1 as int == q % 16 * 16 + r / 4 && u.2 as int == r % 4 * 64 + t
  {
  }

  lemma DigitsOf(s: string, p: int, q: int, r: int, t: int)
    requires 0 <= p < 64 && 0 <= q < 64 && 0 <= r < 64 && 0 <= t < 64
    requires s == [Digit(p), Digit(q), Digit(r), Digit(t)]
    ensures AllDigits64(s) && Value64(s[0]) == p && Value64(s[1]) == q && Value64(s[2]) == r && Value64(s[3]) == t
  {
    DigitIsDigit(p);
    DigitIsDigit(q);
    DigitIsDigit(r);
    DigitIsDigit(t);
  }

  lemma UnquadQuad(a: byte, b: byte, c: byte)
    ensures AllDigits64(Quad(a, b, c)) && Unquad(Quad(a, b, c)) == (a, b, c)
  {
    var x, y, z := a as int, b as int, c as int;
    var p, q, r, t := x / 4, x % 4 * 16 + y / 16, y % 16 * 4 + z / 64, z % 64;
    DigitsOf(Quad(a, b, c), p, q, r, t);
    UnquadOf(Quad(a, b, c), p, q, r, t);
    Split24(x, y, z);
  }

  lemma Split24(x: int, y: int, z: int)
    requires 0 <= x < 256 && 0 <= y < 256 && 0 <= z < 256
    ensures x / 4 * 4 + (x % 4 * 16 + y / 16) / 16 == x
    ensures (x % 4 * 16 + y / 16) % 16 * 16 + (y % 16 * 4 + z / 64) / 4 == y
    ensures (y % 16 * 4 + z / 64) % 4 * 64 + z % 64 == z
  {
  }

  lemma Join24(p: int, q: int, r: int, t: int)
    requires 0 <= p < 64 && 0 <= q < 64 && 0 <= r < 64 && 0 <= t < 64
    ensures var x, y, z := p * 4 + q / 16, q % 16 * 16 + r / 4, r % 4 * 64 + t;
      x / 4 == p && x % 4 * 16 + y / 16 == q && y % 16 * 4 + z / 64 == r && z % 64 == t
  {
  }

  lemma QuadUnquad(s: string)
    requires |s| == 4 && AllDigits64(s)
    ensures var u := Unquad(s); Quad(u.0, u.1, u.2) == s
  {
    var p, q, r, t := Value64(s[0]), Value64(s[1]), Value64(s[2]), Value64(s[3]);
    UnquadOf(s, p, q, r, t);
    Join24(p, q, r, t);
    var u := Unquad(s);
    QuadOf(u.0, u.1, u.2, p, q, r, t);
    assert s == [s[0], s[1], s[2], s[3]];
  }

  lemma QuadOf(a: byte, b: byte, c: byte, p: int, q: int, r: int, t: int)
    requires 0 <= p < 64 && 0 <= q < 64 && 0 <= r < 64 && 0 <= t < 64
    requires a as int / 4 == p && a as int % 4 * 16 + b as int / 16 == q
    requires b as int % 16 * 4 + c as int / 64 == r && c as int % 64 == t
    ensures Quad(a, b, c) == [Digit(p), Digit(q), Digit(r), Digit(t)]
  {
  }

  lemma LastDigitsA(a: byte, b: byte)
    ensures Quad(a, 0, 0)[2..] == "AA" && Quad(a, b, 0)[3] == 'A'
  {
  }

  lemma DecodeOne(a: byte)
    ensures Decode(Quad(a, 0, 0)[..2] + "==") == Some([a])
  {
    var quad := Quad(a, 0, 0);
    var text := quad[..2] + "==";
    UnquadQuad(a, 0, 0);
    LastDigitsA(a, 0);
    assert text[..2] == quad[..2] && text[2..] == "==";
    assert quad[..2] + "AA" == quad;
  }

  lemma DecodeTwo(a: byte, b: byte)
    ensures Decode(Quad(a, b, 0)[..3] + "=") == Some([a, b])
  {
    var quad := Quad(a, b, 0);
    var text := quad[..3] + "=";
    UnquadQuad(a, b, 0);
    LastDigitsA(a, b);
    assert text[..3] == quad[..3] && text[3] == '=';
    assert text[2..][0] == quad[2];
    assert quad[..3] + "A" == quad;
  }

  lemma DecodeThree(a: byte, b: byte, c: byte, rest: string)
    ensures Decode(Quad(a, b, c) + rest) == match Decode(rest)
                                            case Some(more) => Some([a, b, c] + more)
                                            case None => None
  {
    var quad := Quad(a, b, c);
    var text := quad + rest;
    UnquadQuad(a, b, c);
    assert text[..4] == quad && text[4..] == rest;
    assert text[3] == quad[3] && text[2..][0] == quad[2];
  }

  /** Decoding inverts encoding. */
  lemma {:induction false} DecodeEncode(bytes: Bytes)
    ensures Decode(Encode(bytes)) == Some(bytes)
    decreases |bytes|
  {
    if |bytes| == 1 {
      DecodeOne(bytes[0]);
      assert [bytes[0]] == bytes;
    } else if |bytes| == 2 {
      DecodeTwo(bytes[0], bytes[1]);
      assert [bytes[0], bytes[1]] == bytes;
    } else if |bytes| > 2 {
      DecodeThree(bytes[0], bytes[1], bytes[2], Encode(bytes[3..]));
      DecodeEncode(bytes[3..]);
      assert [bytes[0], bytes[1], bytes[2]] + bytes[3..] == bytes;
    }
  }

  /** Only the canonical text of some bytes decodes to them. */
  lemma {:induction false} EncodeDecode(text: string)
    requires Decode(text).Some?
    ensures Encode(Decode(text).value) == text
    decreases |text|
  {
    if |text| > 0 {
      if |text| == 4 && text[2..] == "==" && AllDigits64(text[..2]) {
        QuadUnquad(text[..2] + "AA");
        LastDigitsA(Decode(text).value[0], 0);
        OneByteRest(text[..2] + "AA");
        assert text == text[..2] + "==";
      } else if |text| == 4 && text[3] == '=' && AllDigits64(text[..3]) {
        QuadUnquad(text[..3] + "A");
        assert text == text[..3] + "=";
      } else {
        var u := Unquad(text[..4]);
        var rest := Decode(text[4..]).value;
        QuadUnquad(text[..4]);
        EncodeDecode(text[4..]);
        assert ([u.0, u.1, u.2] + rest)[3..] == rest;
        assert text == text[..4] + text[4..];
      }
    }
  }

  lemma OneByteRest(s: string)
    requires |s| == 4 && AllDigits64(s) && s[2..] == "AA"
    ensures Unquad(s).2 == 0
  {
  }

  /** A text decodes exactly when it is the encoding of something, and then to that. */
  lemma DecodesExactly(text: string, bytes: Bytes)
    ensures Decode(text) == Some(bytes) <==> text == Encode(bytes)
  {
    DecodeEncode(bytes);
    if Decode(text) == Some(bytes) {
      EncodeDecode(text);
    }
  }

  lemma {:induction false} EncodedChars(bytes: Bytes)
    ensures forall c :: c in Encode(bytes) ==> IsDigit64(c) || c == '='
    decreases |bytes|
  {
    if |bytes| == 1 {
      UnquadQuad(bytes[0], 0, 0);
    } else if |bytes| == 2 {
      UnquadQuad(bytes[0], bytes[1], 0);
    } else if |bytes| > 2 {
      UnquadQuad(bytes[0], bytes[1], bytes[2]);
      EncodedChars(bytes[3..]);
    }
  }

  /* ---------- the encoding of the standard ---------- */

  const UPPER := "ABCDEFGHIJKLMNOPQRSTUVWXYZ"
  const LOWER := "abcdefghijklmnopqrstuvwxyz"
  const REST := "0123456789+/"
  const ALPHABET := UPPER + LOWER + REST

  lemma UpperTable(n: int)
    requires 0 <= n < 26
    ensures |UPPER| == 26 && UPPER[n] == ('A' as int + n) as char
  {
    assert UPPER == ['A', 'B', 'C', 'D', 'E', 'F', 'G', 'H', 'I', 'J', 'K', 'L', 'M',
                     'N', 'O', 'P', 'Q', 'R', 'S', 'T', 'U', 'V', 'W', 'X', 'Y', 'Z'];
  }

  lemma LowerTable(n: int)
    requires 0 <= n < 26
    ensures |LOWER| == 26 && LOWER[n] == ('a' as int + n) as char
  {
    assert LOWER == ['a', 'b', 'c', 'd', 'e', 'f', 'g', 'h', 'i', 'j', 'k', 'l', 'm',
                     'n', 'o', 'p', 'q', 'r', 's', 't', 'u', 'v', 'w', 'x', 'y', 'z'];
  }

  lemma RestTable(n: int)
    requires 0 <= n < 12
    ensures |REST| == 12 && REST[n] == if n < 10 then ('0' as int + n) as char else if n == 10 then '+' else '/'
  {
    assert REST == ['0', '1', '2', '3', '4', '5', '6', '7', '8', '9', '+', '/'];
  }

  lemma InTable(upper: string, lower: string, rest: string, n: int)
    requires |upper| == 26 && |lower| == 26 && |rest| == 12 && 0 <= n < 64
    ensures (upper + lower + rest)[n] == if n < 26 then upper[n] else if n < 52 then lower[n - 26] else rest[n - 52]
  {
  }

  /** Table 1 of RFC 4648. */
  lemma DigitTable(n: int)
    requires 0 <= n < 64
    ensures |ALPHABET| == 64 && Digit(n) == ALPHABET[n]
  {
    UpperTable(if n < 26 then n else 0);
    LowerTable(if 26 <= n < 52 then n - 26 else 0);
    RestTable(if 52 <= n then n - 52 else 0);
    InTable(UPPER, LOWER, REST, n);
  }

  /** The byte at `k`, or zero after the end. */
  function ByteAt(bytes: Bytes, k: nat): int {
    if k < |bytes| then bytes[k] as int else 0
  }

  /** The 24 bits of the group of three bytes that starts at `3 * i`. */
  function Group(bytes: Bytes, i: nat): int {
    (ByteAt(bytes, 3 * i) * 256 + ByteAt(bytes, 3 * i + 1)) * 256 + ByteAt(bytes, 3 * i + 2)
  }

  /** The four sextets, most significant first, that make up the number `n`. */
  predicate Sextets(n: int, p: int, q: int, r: int, t: int) {
    && 0 <= p < 64 && 0 <= q < 64 && 0 <= r < 64 && 0 <= t < 64
    && n == ((p * 64 + q) * 64 + r) * 64 + t
  }

  /** `text` is the table's characters for the sextets of `n`; padding stands for those that hold no bit of
      the `count` bytes of the group. */
  ghost predicate Shows(text: string, n: int, count: nat) {
    exists p, q, r, t :: Sextets(n, p, q, r, t)
      && text == [ALPHABET[p], ALPHABET[q], if count > 1 then ALPHABET[r] else '=',
                  if count > 2 then ALPHABET[t] else '=']
  }

  lemma ByteSextets(x: int, y: int, z: int)
    requires 0 <= x < 256 && 0 <= y < 256 && 0 <= z < 256
    ensures Sextets((x * 256 + y) * 256 + z, x / 4, x % 4 * 16 + y / 16, y % 16 * 4 + z / 64, z % 64)
  {
  }

  lemma QuadShows(a: byte, b: byte, c: byte, n: int)
    requires n == (a as int * 256 + b as int) * 256 + c as int
    ensures var quad := Quad(a, b, c);
      Shows(quad, n, 3) && Shows(quad[..3] + "=", n, 2) && Shows(quad[..2] + "==", n, 1)
  {
    var x, y, z := a as int, b as int, c as int;
    var p, q, r, t := x / 4, x % 4 * 16 + y / 16, y % 16 * 4 + z / 64, z % 64;
    ByteSextets(x, y, z);
    DigitTable(p);
    DigitTable(q);
    DigitTable(r);
    DigitTable(t);
    assert Quad(a, b, c) == [ALPHABET[p], ALPHABET[q], ALPHABET[r], ALPHABET[t]];
    assert Sextets(n, p, q, r, t);
  }

  lemma OneGroupMore(n: int)
    requires n >= 3
    ensures (n + 2) / 3 * 4 == 4 + (n - 3 + 2) / 3 * 4
  {
  }

  lemma EncodeStep(bytes: Bytes)
    requires |bytes| > 2
    ensures |Encode(bytes)| == 4 + |Encode(bytes[3..])|
  {
  }

  lemma {:induction false} EncodedLength(bytes: Bytes)
    ensures |Encode(bytes)| == (|bytes| + 2) / 3 * 4
    decreases |bytes|
  {
    if |bytes| > 2 {
      EncodeStep(bytes);
      OneGroupMore(|bytes|);
      EncodedLength(bytes[3..]);
    } else if |bytes| > 0 {
      FirstFourBegins(bytes);
    }
  }

  function Least(a: nat, b: nat): nat { if a < b then a else b }

  /** The first four characters of the text. */
  function FirstFour(bytes: Bytes): string
    requires |bytes| > 0
  {
    if |bytes| == 1 then Quad(bytes[0], 0, 0)[..2] + "=="
    else if |bytes| == 2 then Quad(bytes[0], bytes[1], 0)[..3] + "="
    else Quad(bytes[0], bytes[1], bytes[2])
  }

  lemma FirstFourBegins(bytes: Bytes)
    requires |bytes| > 0
    ensures |Encode(bytes)| >= 4 && Encode(bytes)[..4] == FirstFour(bytes)
  {
  }

  lemma FirstGroup(bytes: Bytes)
    requires |bytes| > 0
    ensures Shows(FirstFour(bytes), Group(bytes, 0), Least(3, |bytes|))
  {
    var n := Group(bytes, 0);
    if |bytes| == 1 {
      QuadShows(bytes[0], 0, 0, n);
    } else if |bytes| == 2 {
      QuadShows(bytes[0], bytes[1], 0, n);
    } else {
      QuadShows(bytes[0], bytes[1], bytes[2], n);
    }
  }

  lemma DropGroup(quad: string, rest: string, i: nat)
    requires |quad| == 4 && i > 0 && 4 * i <= |rest|
    ensures (quad + rest)[4 * i..4 * i + 4] == rest[4 * (i - 1)..4 * (i - 1) + 4]
  {
  }

  /** Every later group is one of the rest. */
  lemma LaterGroup(bytes: Bytes, i: nat)
    requires i > 0 && 3 * i < |bytes| && 4 * i <= |Encode(bytes[3..])|
    ensures Group(bytes[3..], i - 1) == Group(bytes, i)
    ensures 4 * i + 4 <= |Encode(bytes)|
    ensures Encode(bytes)[4 * i..4 * i + 4] == Encode(bytes[3..])[4 * (i - 1)..4 * (i - 1) + 4]
  {
    DropGroup(Quad(bytes[0], bytes[1], bytes[2]), Encode(bytes[3..]), i);
  }

  lemma {:induction false} GroupShown(bytes: Bytes, i: nat, text: string, n: int, count: nat)
    requires 3 * i < |bytes| && 4 * i + 4 <= |Encode(bytes)|
    requires text == Encode(bytes)[4 * i..4 * i + 4] && n == Group(bytes, i) && count == Least(3, |bytes| - 3 * i)
    ensures Shows(text, n, count)
    decreases i
  {
    if i == 0 {
      FirstGroup(bytes);
      FirstFourBegins(bytes);
      assert Encode(bytes)[0..4] == Encode(bytes)[..4];
    } else {
      EncodedLength(bytes[3..]);
      LaterGroup(bytes, i);
      GroupShown(bytes[3..], i - 1, text, n, count);
    }
  }

  /** Group by group, the text shows the bits of the bytes. */
  lemma EncodesBits(bytes: Bytes, i: nat)
    requires 3 * i < |bytes|
    ensures |Encode(bytes)| == (|bytes| + 2) / 3 * 4
    ensures Shows(Encode(bytes)[4 * i..4 * i + 4], Group(bytes, i), Least(3, |bytes| - 3 * i))
  {
    EncodedLength(bytes);
    GroupShown(bytes, i, Encode(bytes)[4 * i..4 * i + 4], Group(bytes, i), Least(3, |bytes| - 3 * i));
  }
}
