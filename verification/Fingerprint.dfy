/** The relay's certificate fingerprint: its spellings, its canonical form, and what the pinned verifier accepts. */
module Fingerprint {
  import opened Texts
  import opened Wire

  /* ---------- characters ---------- */

  predicate IsHexDigit(c: char) { '0' <= c <= '9' || 'a' <= c <= 'f' || 'A' <= c <= 'F' }

  predicate IsLowerHex(c: char) { '0' <= c <= '9' || 'a' <= c <= 'f' }

  function LowerChar(c: char): char {
    if 'A' <= c <= 'Z' then (c as int - 'A' as int + 'a' as int) as char else c
  }

  predicate HexOrColon(s: string) { forall c :: c in s ==> IsHexDigit(c) || c == ':' }

  /* ---------- the text functions the parser uses ---------- */

  function NoColons(s: string): string {
    if |s| == 0 then "" else (if s[0] == ':' then "" else [s[0]]) + NoColons(s[1..])
  }

  function Lowered(s: string): string {
    seq(|s|, i requires 0 <= i < |s| => LowerChar(s[i]))
  }

  const PREFIX := "sha256:"
  const PREFIX_UPPER := "SHA256:"

  function StripPrefix(s: string): string {
    if PREFIX <= s then s[|PREFIX|..]
    else if PREFIX_UPPER <= s then s[|PREFIX_UPPER|..]
    else s
  }

  predicate Canonical(h: string) {
    |h| == 64 && forall c :: c in h ==> IsLowerHex(c)
  }

  function Parse(value: string): Option<string> {
    var compact := NoColons(StripPrefix(Trim(value)));
    if |compact| != 64 || exists c :: c in compact && !IsHexDigit(c) then None
    else Some(Lowered(compact))
  }

  function Display(h: string): string { PREFIX + h }

  /* ---------- digests as bytes ---------- */

  const HEX := "0123456789abcdef"

  function HexDigit(n: int): char
    requires 0 <= n < 16
  {
    if n < 10 then ('0' as int + n) as char else ('a' as int + (n - 10)) as char
  }

  /** The constant table lists these digits. */
  lemma HexTable(n: int)
    requires 0 <= n < 16
    ensures HEX[n] == HexDigit(n)
  {
    assert HEX == ['0', '1', '2', '3', '4', '5', '6', '7', '8', '9', 'a', 'b', 'c', 'd', 'e', 'f'];
  }

  function DigitValue(c: char): int
    requires IsLowerHex(c)
  {
    if c <= '9' then c as int - '0' as int else c as int - 'a' as int + 10
  }

  function LowerHex(bytes: Bytes): string {
    if |bytes| == 0 then ""
    else
      var last := bytes[|bytes| - 1] as int;
      LowerHex(bytes[..|bytes| - 1]) + [HexDigit(last / 16), HexDigit(last % 16)]
  }

  /** The loop of `lower_hex`, pushing two digits per byte. */
  method LowerHexLoop(bytes: Bytes) returns (output: string)
    ensures output == LowerHex(bytes)
  {
    output := "";
    for i := 0 to |bytes|
      invariant output == LowerHex(bytes[..i])
    {
      assert bytes[..i + 1][..i] == bytes[..i];
      HexTable(bytes[i] as int / 16);
      HexTable(bytes[i] as int % 16);
      output := output + [HEX[bytes[i] as int / 16]];
      output := output + [HEX[bytes[i] as int % 16]];
    }
    assert bytes[..|bytes|] == bytes;
  }

  lemma DigitRoundTrip(n: int)
    requires 0 <= n < 16
    ensures IsLowerHex(HexDigit(n)) && DigitValue(HexDigit(n)) == n
  {
  }

  lemma ValueRoundTrip(c: char)
    requires IsLowerHex(c)
    ensures 0 <= DigitValue(c) < 16 && HexDigit(DigitValue(c)) == c
  {
  }

  predicate HexText(h: string) {
    |h| % 2 == 0 && forall c :: c in h ==> IsLowerHex(c)
  }

  function DigitsByte(hi: char, lo: char): byte
    requires IsLowerHex(hi) && IsLowerHex(lo)
  {
    ValueRoundTrip(hi);
    ValueRoundTrip(lo);
    (DigitValue(hi) * 16 + DigitValue(lo)) as byte
  }

  /** The bytes an even number of hex digits denote. */
  function BytesOf(h: string): Bytes
    requires HexText(h)
    decreases |h|
  {
    if |h| == 0 then []
    else
      var n := |h|;
      assert h[n - 2] in h && h[n - 1] in h;
      BytesOf(h[..n - 2]) + [DigitsByte(h[n - 2], h[n - 1])]
  }

  lemma {:induction false} HexShape(bytes: Bytes)
    ensures |LowerHex(bytes)| == 2 * |bytes|
    ensures forall c :: c in LowerHex(bytes) ==> IsLowerHex(c)
    decreases |bytes|
  {
    if |bytes| > 0 {
      HexShape(bytes[..|bytes| - 1]);
      DigitRoundTrip(bytes[|bytes| - 1] as int / 16);
      DigitRoundTrip(bytes[|bytes| - 1] as int % 16);
    }
  }

  lemma LowerHexAppend(bytes: Bytes, b: byte)
    ensures LowerHex(bytes + [b]) == LowerHex(bytes) + [HexDigit(b as int / 16), HexDigit(b as int % 16)]
  {
    assert (bytes + [b])[..|bytes|] == bytes;
  }

  lemma BytesOfAppend(h: string, hi: char, lo: char)
    requires HexText(h) && IsLowerHex(hi) && IsLowerHex(lo)
    ensures HexText(h + [hi, lo])
    ensures BytesOf(h + [hi, lo]) == BytesOf(h) + [DigitsByte(hi, lo)]
  {
    assert (h + [hi, lo])[..|h|] == h;
  }

  /** Printing loses nothing: the digits denote the bytes they were made from. */
  lemma {:induction false} BytesOfHex(bytes: Bytes)
    ensures HexText(LowerHex(bytes)) && BytesOf(LowerHex(bytes)) == bytes
    decreases |bytes|
  {
    if |bytes| > 0 {
      var init, b := bytes[..|bytes| - 1], bytes[|bytes| - 1];
      BytesOfHex(init);
      DigitRoundTrip(b as int / 16);
      DigitRoundTrip(b as int % 16);
      BytesOfAppend(LowerHex(init), HexDigit(b as int / 16), HexDigit(b as int % 16));
      assert bytes == init + [b];
    }
  }

  lemma DigitsOfByte(hi: char, lo: char)
    requires IsLowerHex(hi) && IsLowerHex(lo)
    ensures HexDigit(DigitsByte(hi, lo) as int / 16) == hi
    ensures HexDigit(DigitsByte(hi, lo) as int % 16) == lo
  {
    ValueRoundTrip(hi);
    ValueRoundTrip(lo);
  }

  /** Every canonical text is the print of the bytes it denotes. */
  lemma {:induction false} HexOfBytes(h: string)
    requires HexText(h)
    ensures LowerHex(BytesOf(h)) == h && 2 * |BytesOf(h)| == |h|
    decreases |h|
  {
    if |h| > 0 {
      var init, hi, lo := h[..|h| - 2], h[|h| - 2], h[|h| - 1];
      assert h == init + [hi, lo] && hi in h && lo in h;
      HexOfBytes(init);
      DigitsOfByte(hi, lo);
      BytesOfAppend(init, hi, lo);
      LowerHexAppend(BytesOf(init), DigitsByte(hi, lo));
    }
  }

  /** Different digests print differently. */
  lemma LowerHexInjective(a: Bytes, b: Bytes)
    requires LowerHex(a) == LowerHex(b)
    ensures a == b
  {
    BytesOfHex(a);
    BytesOfHex(b);
  }

  /* ---------- what digits are worth ---------- */

  const UPPER_HEX := "0123456789ABCDEF"

  /** What a digit of either case is worth: its place in one of the two tables. */
  predicate Worth(c: char, n: nat) {
    n < 16 && (c == HEX[n] || c == UPPER_HEX[n])
  }

  lemma UpperTable(n: nat)
    requires n < 16
    ensures UPPER_HEX[n] == if n < 10 then ('0' as int + n) as char else ('A' as int + (n - 10)) as char
  {
    assert UPPER_HEX == ['0', '1', '2', '3', '4', '5', '6', '7', '8', '9', 'A', 'B', 'C', 'D', 'E', 'F'];
  }

  /** Lowering a digit gives the lower-case digit of the same worth. */
  lemma LowerKeepsWorth(c: char, n: nat)
    requires Worth(c, n)
    ensures IsHexDigit(c) && LowerChar(c) == HEX[n] && HexDigit(n) == HEX[n]
  {
    HexTable(n);
    UpperTable(n);
  }

  /** The digits `text`, two for each byte and of either case, are worth the bytes. */
  predicate Spelt(text: string, bytes: Bytes) {
    && |text| == 2 * |bytes|
    && forall i :: 0 <= i < |bytes| ==>
        Worth(text[2 * i], bytes[i] as int / 16) && Worth(text[2 * i + 1], bytes[i] as int % 16)
  }

  lemma {:induction false} LowerHexAt(bytes: Bytes, i: nat)
    requires i < |bytes|
    ensures |LowerHex(bytes)| == 2 * |bytes|
    ensures LowerHex(bytes)[2 * i] == HexDigit(bytes[i] as int / 16)
    ensures LowerHex(bytes)[2 * i + 1] == HexDigit(bytes[i] as int % 16)
    decreases |bytes|
  {
    HexShape(bytes);
    HexShape(bytes[..|bytes| - 1]);
    if i < |bytes| - 1 {
      LowerHexAt(bytes[..|bytes| - 1], i);
    }
  }

  lemma LoweredSpelling(text: string, bytes: Bytes)
    requires Spelt(text, bytes)
    ensures Lowered(text) == LowerHex(bytes)
  {
    HexShape(bytes);
    forall i | 0 <= i < |bytes|
      ensures Lowered(text)[2 * i] == LowerHex(bytes)[2 * i] && Lowered(text)[2 * i + 1] == LowerHex(bytes)[2 * i + 1]
    {
      LowerHexAt(bytes, i);
      LowerKeepsWorth(text[2 * i], bytes[i] as int / 16);
      LowerKeepsWorth(text[2 * i + 1], bytes[i] as int % 16);
    }
    forall k | 0 <= k < |text| ensures Lowered(text)[k] == LowerHex(bytes)[k] {
      assert k == 2 * (k / 2) || k == 2 * (k / 2) + 1;
    }
  }

  lemma LowerIsWorth(c: char, n: nat)
    requires n < 16 && IsHexDigit(c) && LowerChar(c) == HexDigit(n)
    ensures Worth(c, n)
  {
    HexTable(n);
    UpperTable(n);
  }

  /* ---------- which spellings are accepted ---------- */

  predicate IsPrefix(prefix: string) { prefix == "" || prefix == PREFIX || prefix == PREFIX_UPPER }

  /** `value` spells the canonical digest `h`: optional blanks around an optional prefix and digits of either
      case worth its bytes, with colons anywhere among the digits. */
  ghost predicate Spells(value: string, h: string) {
    exists pre, prefix, digits, post :: SpellsAs(value, h, pre, prefix, digits, post)
  }

  predicate SpellsAs(value: string, h: string, pre: string, prefix: string, digits: string, post: string) {
    && value == pre + (prefix + digits) + post
    && AllSpace(pre) && AllSpace(post) && IsPrefix(prefix) && HexOrColon(digits)
    && Canonical(h) && Spelt(NoColons(digits), BytesOf(h))
  }

  lemma {:induction false} NoColonsMembers(s: string)
    ensures forall c :: c in NoColons(s) <==> c in s && c != ':'
    ensures |NoColons(s)| <= |s|
    decreases |s|
  {
    if |s| > 0 {
      NoColonsMembers(s[1..]);
      assert s == [s[0]] + s[1..];
    }
  }

  /** A string of hex digits and colons carries neither prefix. */
  lemma StripOf(prefix: string, digits: string)
    requires IsPrefix(prefix) && HexOrColon(digits)
    ensures StripPrefix(prefix + digits) == digits
  {
    if prefix == "" {
      assert prefix + digits == digits;
      assert |digits| > 0 ==> digits[0] in digits;
      assert |digits| > 0 && digits[0] == 's' ==> !IsHexDigit('s');
    } else if prefix == PREFIX_UPPER {
      assert (prefix + digits)[0] == 'S';
    }
  }

  lemma SpellingAccepted(value: string, h: string, pre: string, prefix: string, digits: string, post: string)
    requires SpellsAs(value, h, pre, prefix, digits, post)
    ensures Parse(value) == Some(h)
  {
    var core := prefix + digits;
    HexOfBytes(h);
    LoweredSpelling(NoColons(digits), BytesOf(h));
    NoColonsMembers(digits);
    assert |digits| > 0;
    assert digits[0] in digits && digits[|digits| - 1] in digits;
    assert core[|core| - 1] == digits[|digits| - 1];
    assert core[0] == if prefix == "" then digits[0] else prefix[0];
    TrimOf(pre, core, post);
    StripOf(prefix, digits);
  }

  lemma StripSplits(s: string) returns (prefix: string)
    ensures IsPrefix(prefix) && s == prefix + StripPrefix(s)
  {
    prefix := if PREFIX <= s then PREFIX else if PREFIX_UPPER <= s then PREFIX_UPPER else "";
  }

  /** Whatever is parsed is canonical. */
  lemma ParseIsCanonical(value: string)
    requires Parse(value).Some?
    ensures Canonical(Parse(value).value)
  {
    var compact := NoColons(StripPrefix(Trim(value)));
    var h := Parse(value).value;
    forall c | c in h ensures IsLowerHex(c) {
      var i :| 0 <= i < |h| && h[i] == c;
      assert compact[i] in compact && c == LowerChar(compact[i]);
    }
  }

  /** What is parsed is worth, digit by digit, the bytes it denotes. */
  lemma ParseIsWorth(value: string)
    requires Parse(value).Some?
    ensures Canonical(Parse(value).value)
    ensures Spelt(NoColons(StripPrefix(Trim(value))), BytesOf(Parse(value).value))
  {
    ParseIsCanonical(value);
    var compact, h := NoColons(StripPrefix(Trim(value))), Parse(value).value;
    HexOfBytes(h);
    var bytes := BytesOf(h);
    forall i | 0 <= i < |bytes|
      ensures Worth(compact[2 * i], bytes[i] as int / 16) && Worth(compact[2 * i + 1], bytes[i] as int % 16)
    {
      LowerHexAt(bytes, i);
      LowerIsWorth(compact[2 * i], bytes[i] as int / 16);
      LowerIsWorth(compact[2 * i + 1], bytes[i] as int % 16);
    }
  }

  /** The parser accepts exactly the spellings of a digest, and returns the digest in lower case. */
  lemma ParseExactly(value: string, h: string)
    ensures Parse(value) == Some(h) <==> Spells(value, h)
  {
    if Parse(value) == Some(h) {
      var pre, post := TrimSplits(value);
      var prefix := StripSplits(Trim(value));
      var digits := StripPrefix(Trim(value));
      NoColonsMembers(digits);
      ParseIsWorth(value);
      assert SpellsAs(value, h, pre, prefix, digits, post);
    }
    if Spells(value, h) {
      var pre, prefix, digits, post :| SpellsAs(value, h, pre, prefix, digits, post);
      SpellingAccepted(value, h, pre, prefix, digits, post);
    }
  }

  lemma {:induction false} NoColonsIdentity(s: string)
    requires ':' !in s
    ensures NoColons(s) == s
    decreases |s|
  {
    if |s| > 0 {
      assert s[0] in s;
      NoColonsIdentity(s[1..]);
      assert s == [s[0]] + s[1..];
    }
  }

  lemma CanonicalShape(h: string)
    requires Canonical(h)
    ensures HexOrColon(h) && ':' !in h
  {
  }

  lemma CanonicalIsSpelt(h: string)
    requires Canonical(h)
    ensures Spelt(h, BytesOf(h))
  {
    HexOfBytes(h);
    forall i | 0 <= i < |BytesOf(h)| ensures Worth(h[2 * i], BytesOf(h)[i] as int / 16)
                                     ensures Worth(h[2 * i + 1], BytesOf(h)[i] as int % 16)
    {
      LowerHexAt(BytesOf(h), i);
      HexTable(BytesOf(h)[i] as int / 16);
      HexTable(BytesOf(h)[i] as int % 16);
    }
  }

  /** Parsing what is displayed is the identity on canonical digests. */
  lemma ParseDisplay(h: string)
    requires Canonical(h)
    ensures Parse(Display(h)) == Some(h)
  {
    CanonicalShape(h);
    NoColonsIdentity(h);
    CanonicalIsSpelt(h);
    assert Display(h) == "" + (PREFIX + h) + "";
    SpellingAccepted(Display(h), h, "", PREFIX, h, "");
  }

  /** The pinned verifier, given the SHA-256 digest of the certificate it is shown. */
  predicate VerifyServerCert(digest: Bytes, pinned: string) {
    LowerHex(digest) == pinned
  }

  /** It accepts a certificate exactly when its digest is the one the configured text spells. */
  lemma VerifierAcceptsOnlyThePinned(value: string, digest: Bytes)
    requires Parse(value).Some?
    ensures Canonical(Parse(value).value)
    ensures VerifyServerCert(digest, Parse(value).value) <==> digest == BytesOf(Parse(value).value)
    ensures |BytesOf(Parse(value).value)| == 32
  {
    ParseIsCanonical(value);
    HexOfBytes(Parse(value).value);
    if VerifyServerCert(digest, Parse(value).value) {
      BytesOfHex(digest);
    }
  }

  /* ---------- fingerprints as other tools print them ---------- */

  /** Whatever the case of the digits, and wherever colons stand among them, the text is read as the digest
      its digits are worth; the verifier then accepts that digest and no other. */
  lemma SpellingIsRead(pre: string, prefix: string, text: string, post: string, digest: Bytes, shown: Bytes)
    requires AllSpace(pre) && AllSpace(post) && prefix in {"", "sha256:", "SHA256:"} && HexOrColon(text)
    requires |digest| == 32 && Spelt(NoColons(text), digest)
    ensures Parse(pre + (prefix + text) + post) == Some(LowerHex(digest))
    ensures VerifyServerCert(shown, LowerHex(digest)) <==> shown == digest
  {
    HexShape(digest);
    BytesOfHex(digest);
    SpellingAccepted(pre + (prefix + text) + post, LowerHex(digest), pre, prefix, text, post);
    if VerifyServerCert(shown, LowerHex(digest)) {
      LowerHexInjective(shown, digest);
    }
  }

  /** The digits of each byte taken from a table, with a separator between bytes. */
  function Printed(bytes: Bytes, table: string, separator: string): string
    requires |table| == 16
  {
    if |bytes| == 0 then ""
    else
      var n := |bytes| - 1;
      (if n == 0 then "" else Printed(bytes[..n], table, separator) + separator)
      + [table[bytes[n] as int / 16], table[bytes[n] as int % 16]]
  }

  lemma {:induction false} NoColonsConcat(a: string, b: string)
    ensures NoColons(a + b) == NoColons(a) + NoColons(b)
    decreases |a|
  {
    if |a| == 0 {
      assert a + b == b;
    } else {
      assert (a + b)[1..] == a[1..] + b;
      NoColonsConcat(a[1..], b);
    }
  }

  lemma NoColonsOfPair(hi: char, lo: char)
    requires hi != ':' && lo != ':'
    ensures NoColons([hi, lo]) == [hi, lo] && NoColons(":") == "" && NoColons("") == ""
  {
    NoColonsIdentity([hi, lo]);
    assert ":"[1..] == "";
  }

  lemma SpeltAppend(text: string, bytes: Bytes, hi: char, lo: char, b: byte)
    requires Spelt(text, bytes) && Worth(hi, b as int / 16) && Worth(lo, b as int % 16)
    ensures Spelt(text + [hi, lo], bytes + [b])
  {
  }

  /** One byte more, after the text of the bytes before it. */
  lemma PrintOneMore(before: string, separator: string, hi: char, lo: char)
    requires separator in {"", ":"} && HexOrColon(before) && IsHexDigit(hi) && IsHexDigit(lo)
    ensures HexOrColon(before + separator + [hi, lo])
    ensures NoColons(before + separator + [hi, lo]) == NoColons(before) + [hi, lo]
  {
    NoColonsOfPair(hi, lo);
    NoColonsConcat(before, separator);
    NoColonsConcat(before + separator, [hi, lo]);
  }

  lemma {:induction false} PrintedSpells(bytes: Bytes, table: string, separator: string)
    requires table in {"0123456789abcdef", "0123456789ABCDEF"} && separator in {"", ":"}
    ensures HexOrColon(Printed(bytes, table, separator)) && Spelt(NoColons(Printed(bytes, table, separator)), bytes)
    decreases |bytes|
  {
    if |bytes| > 0 {
      var n := |bytes| - 1;
      var hi, lo := table[bytes[n] as int / 16], table[bytes[n] as int % 16];
      var before := Printed(bytes[..n], table, separator);
      LowerKeepsWorth(hi, bytes[n] as int / 16);
      LowerKeepsWorth(lo, bytes[n] as int % 16);
      PrintedSpells(bytes[..n], table, separator);
      PrintOneMore(before, if n == 0 then "" else separator, hi, lo);
      SpeltAppend(NoColons(before), bytes[..n], hi, lo, bytes[n]);
      assert bytes[..n] + [bytes[n]] == bytes;
      assert n == 0 ==> before + "" + [hi, lo] == "" + [hi, lo];
    }
  }

  /** A digest printed in either case, with or without colons between its bytes, after either prefix or
      none, is read as that digest in lower case. */
  lemma PrintedIsRead(digest: Bytes, table: string, separator: string, prefix: string)
    requires |digest| == 32 && prefix in {"", "sha256:", "SHA256:"}
    requires table in {"0123456789abcdef", "0123456789ABCDEF"} && separator in {"", ":"}
    ensures Parse(prefix + Printed(digest, table, separator)) == Some(LowerHex(digest))
  {
    PrintedSpells(digest, table, separator);
    SpellingIsRead("", prefix, Printed(digest, table, separator), "", digest, digest);
    assert "" + (prefix + Printed(digest, table, separator)) + "" == prefix + Printed(digest, table, separator);
  }
}
