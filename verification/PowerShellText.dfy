/** The string array the relay writes into the PowerShell join script, and how PowerShell reads it. */
module PowerShellText {
  import opened Wire

  /* ---------- the printer ---------- */

  /** `value.replace('\'', "''")` */
  function Doubled(value: string): string {
    if |value| == 0 then ""
    else (if value[0] == '\'' then "''" else [value[0]]) + Doubled(value[1..])
  }

  function PowershellQuote(value: string): string {
    "'" + Doubled(value) + "'"
  }

  /** One indented literal per line. */
  function PowershellArray(values: seq<string>): string {
    if |values| == 0 then ""
    else if |values| == 1 then "  " + PowershellQuote(values[0])
    else "  " + PowershellQuote(values[0]) + "\n" + PowershellArray(values[1..])
  }

  /* ---------- the reader ---------- */

  /** PowerShell takes four typographic quotes for single quotes too. */
  predicate IsTypographic(c: char) { '\U{2018}' <= c <= '\U{201B}' }

  predicate IsQuote(c: char) { c == '\'' || IsTypographic(c) }

  predicate IsSeparator(c: char) { c == ' ' || c == '\t' || c == '\n' || c == '\r' }

  function Prepend(value: string, values: Option<seq<string>>): Option<seq<string>> {
    if values.Some? then Some([value] + values.value) else None
  }

  /** The elements of an array body: single-quoted literals with separators between them. Inside a
      literal two quotes in a row stand for the second of them; one alone ends the literal. */
  function Read(text: string, literal: Option<string>): Option<seq<string>>
    decreases |text|
  {
    if |text| == 0 then (if literal.None? then Some([]) else None)
    else
      var c, rest := text[0], text[1..];
      match literal
      case None => if IsSeparator(c) then Read(rest, None) else if IsQuote(c) then Read(rest, Some("")) else None
      case Some(value) =>
        if !IsQuote(c) then Read(rest, Some(value + [c]))
        else if |rest| > 0 && IsQuote(rest[0]) then Read(rest[1..], Some(value + [rest[0]]))
        else Prepend(value, Read(rest, None))
  }

  function ReadArray(text: string): Option<seq<string>> {
    Read(text, None)
  }

  /* ---------- reading inverts printing ---------- */

  predicate NoTypographic(values: seq<string>) {
    forall v, c :: v in values && c in v ==> !IsTypographic(c)
  }

  predicate StartsOutside(tail: string) {
    |tail| > 0 ==> IsSeparator(tail[0])
  }

  lemma ReadPair(tail: string, collected: string)
    ensures Read("''" + tail, Some(collected)) == Read(tail, Some(collected + ['\'']))
  {
    var text := "''" + tail;
    assert text[0] == '\'' && text[1..][0] == '\'' && text[1..][1..] == tail;
  }

  lemma ReadChar(c: char, tail: string, collected: string)
    requires !IsQuote(c)
    ensures Read([c] + tail, Some(collected)) == Read(tail, Some(collected + [c]))
  {
    assert ([c] + tail)[1..] == tail;
  }

  lemma ReadClosing(tail: string, collected: string)
    requires StartsOutside(tail)
    ensures Read("'" + tail, Some(collected)) == Prepend(collected, Read(tail, None))
  {
    assert ("'" + tail)[0] == '\'' && ("'" + tail)[1..] == tail;
  }

  /** One character of a value, as printed, is read as that character. */
  lemma ReadOne(c: char, tail: string, collected: string)
    requires !IsTypographic(c)
    ensures Read((if c == '\'' then "''" else [c]) + tail, Some(collected)) == Read(tail, Some(collected + [c]))
  {
    if c == '\'' { ReadPair(tail, collected); } else { ReadChar(c, tail, collected); }
  }

  lemma DoubledHead(value: string, tail: string)
    requires |value| > 0
    ensures Doubled(value) + tail == (if value[0] == '\'' then "''" else [value[0]]) + (Doubled(value[1..]) + tail)
  {
  }

  lemma {:induction false} ReadDoubled(value: string, tail: string, collected: string)
    requires (forall c :: c in value ==> !IsTypographic(c)) && StartsOutside(tail)
    ensures Read(Doubled(value) + ("'" + tail), Some(collected)) == Prepend(collected + value, Read(tail, None))
    decreases |value|
  {
    var closing := "'" + tail;
    if |value| == 0 {
      assert Doubled(value) + closing == closing && collected + value == collected;
      ReadClosing(tail, collected);
    } else {
      var c, rest := value[0], value[1..];
      assert c in value && collected + value == (collected + [c]) + rest;
      DoubledHead(value, closing);
      ReadOne(c, Doubled(rest) + closing, collected);
      ReadDoubled(rest, tail, collected + [c]);
    }
  }

  lemma ReadSeparator(c: char, tail: string)
    requires IsSeparator(c)
    ensures Read([c] + tail, None) == Read(tail, None)
  {
    assert ([c] + tail)[1..] == tail;
  }

  lemma ReadOpening(tail: string)
    ensures Read("'" + tail, None) == Read(tail, Some(""))
  {
    assert ("'" + tail)[0] == '\'' && ("'" + tail)[1..] == tail;
  }

  lemma ReadQuoted(value: string, tail: string)
    requires (forall c :: c in value ==> !IsTypographic(c)) && StartsOutside(tail)
    ensures Read("  " + PowershellQuote(value) + tail, None) == Prepend(value, Read(tail, None))
  {
    var inside := Doubled(value) + ("'" + tail);
    assert "  " + PowershellQuote(value) + tail == [' '] + ([' '] + ("'" + inside));
    ReadSeparator(' ', [' '] + ("'" + inside));
    ReadSeparator(' ', "'" + inside);
    ReadOpening(inside);
    ReadDoubled(value, tail, "");
    assert "" + value == value;
  }

  lemma {:induction false} ReadPrinted(values: seq<string>)
    requires NoTypographic(values)
    ensures ReadArray(PowershellArray(values)) == Some(values)
    decreases |values|
  {
    if |values| == 1 {
      assert values[0] in values;
      assert "  " + PowershellQuote(values[0]) + "" == "  " + PowershellQuote(values[0]);
      ReadQuoted(values[0], "");
      assert Read("", None) == Some([]);
      assert [values[0]] + [] == values;
    } else if |values| > 1 {
      var rest := values[1..];
      var tail := "\n" + PowershellArray(rest);
      assert values[0] in values && tail[1..] == PowershellArray(rest);
      assert PowershellArray(values) == "  " + PowershellQuote(values[0]) + tail;
      ReadQuoted(values[0], tail);
      ReadPrinted(rest);
      assert values == [values[0]] + rest;
    }
  }

  /* ---------- and only then ---------- */

  function Quotes(text: string): nat {
    if |text| == 0 then 0 else (if IsQuote(text[0]) then 1 else 0) + Quotes(text[1..])
  }

  function Typographics(text: string): nat {
    if |text| == 0 then 0 else (if IsTypographic(text[0]) then 1 else 0) + Typographics(text[1..])
  }

  /** The quotes a reader must see to return these values: two for each literal and two for each quote in it. */
  function QuotesNeeded(values: seq<string>): nat {
    if |values| == 0 then 0 else 2 + 2 * Quotes(values[0]) + QuotesNeeded(values[1..])
  }

  function AllTypographics(values: seq<string>): nat {
    if |values| == 0 then 0 else Typographics(values[0]) + AllTypographics(values[1..])
  }

  lemma {:induction false} QuotesAppend(a: string, b: string)
    ensures Quotes(a + b) == Quotes(a) + Quotes(b)
    decreases |a|
  {
    if |a| == 0 {
      assert a + b == b;
    } else {
      assert (a + b)[1..] == a[1..] + b;
      QuotesAppend(a[1..], b);
    }
  }

  lemma {:induction false} QuotesOfRead(text: string, literal: Option<string>)
    requires Read(text, literal).Some?
    ensures literal.None? ==> Quotes(text) == QuotesNeeded(Read(text, literal).value)
    ensures literal.Some? ==> Quotes(text) + 1 + 2 * Quotes(literal.value) == QuotesNeeded(Read(text, literal).value)
    decreases |text|
  {
    if |text| > 0 {
      var c, rest := text[0], text[1..];
      match literal {
        case None =>
          if IsSeparator(c) {
            QuotesOfRead(rest, None);
          } else {
            QuotesOfRead(rest, Some(""));
          }
        case Some(value) =>
          if !IsQuote(c) {
            QuotesAppend(value, [c]);
            QuotesOfRead(rest, Some(value + [c]));
          } else if |rest| > 0 && IsQuote(rest[0]) {
            QuotesAppend(value, [rest[0]]);
            QuotesOfRead(rest[1..], Some(value + [rest[0]]));
          } else {
            QuotesOfRead(rest, None);
            var values := Read(rest, None).value;
            assert ([value] + values)[1..] == values;
          }
      }
    }
  }

  lemma {:induction false} QuotesOfDoubled(value: string)
    ensures Quotes(Doubled(value)) + Typographics(value) == 2 * Quotes(value)
    decreases |value|
  {
    if |value| > 0 {
      QuotesOfDoubled(value[1..]);
      QuotesAppend(if value[0] == '\'' then "''" else [value[0]], Doubled(value[1..]));
      assert Quotes("''") == 2 by { assert "''"[1..] == "'"; }
    }
  }

  lemma QuotesOfQuoted(value: string)
    ensures Quotes("  " + PowershellQuote(value)) + Typographics(value) == 2 + 2 * Quotes(value)
  {
    QuotesOfDoubled(value);
    QuotesAppend("'", Doubled(value));
    QuotesAppend("'" + Doubled(value), "'");
    QuotesAppend("  ", PowershellQuote(value));
    assert Quotes("  ") == 0 by { assert "  "[1..] == " "; }
  }

  lemma {:induction false} QuotesOfArray(values: seq<string>)
    ensures Quotes(PowershellArray(values)) + AllTypographics(values) == QuotesNeeded(values)
    decreases |values|
  {
    if |values| > 0 {
      var line, rest := "  " + PowershellQuote(values[0]), values[1..];
      QuotesOfQuoted(values[0]);
      QuotesOfArray(rest);
      if |values| > 1 {
        QuotesAppend(line, "\n");
        QuotesAppend(line + "\n", PowershellArray(rest));
      }
    }
  }

  lemma {:induction false} NoneCounted(text: string)
    ensures Typographics(text) == 0 <==> forall c :: c in text ==> !IsTypographic(c)
    decreases |text|
  {
    if |text| > 0 {
      NoneCounted(text[1..]);
      assert text == [text[0]] + text[1..];
    }
  }

  lemma {:induction false} NoneCountedInAll(values: seq<string>)
    ensures AllTypographics(values) == 0 <==> NoTypographic(values)
    decreases |values|
  {
    if |values| > 0 {
      NoneCounted(values[0]);
      NoneCountedInAll(values[1..]);
      assert values == [values[0]] + values[1..];
    }
  }

  /** PowerShell reads back exactly the original list if and only if no value holds a typographic quote. */
  lemma ArrayRoundTrip(values: seq<string>)
    ensures ReadArray(PowershellArray(values)) == Some(values) <==> NoTypographic(values)
  {
    if NoTypographic(values) {
      ReadPrinted(values);
    } else if ReadArray(PowershellArray(values)) == Some(values) {
      QuotesOfRead(PowershellArray(values), None);
      QuotesOfArray(values);
      NoneCountedInAll(values);
    }
  }

  /** A label with a typographic apostrophe is not read back. */
  lemma TypographicQuoteBreaksArray()
    ensures ReadArray(PowershellArray(["Ann\U{2019}s"])) != Some(["Ann\U{2019}s"])
  {
    var value := "Ann\U{2019}s";
    ArrayRoundTrip([value]);
    assert value[3] == '\U{2019}' && value[3] in value && value in [value];
  }
}
