/** Extraction of PEM blocks (section 3 of RFC 7468) from the relay's certificate and key files. */
module Pem {
  import opened Wire
  import opened Texts
  import Base64

  datatype PemError = Unterminated(tag: string) | InvalidBase64(tag: string) | NoSupportedBlock
  datatype PemResult<+T> = Found(value: T) | Refused(error: PemError)

  function Begin(tag: string): string { "-----BEGIN " + tag + "-----" }

  function End(tag: string): string { "-----END " + tag + "-----" }

  /** A line as the extractor sees it: trimmed, and ignored if it is then empty or a header. */
  function Kept(line: string): string {
    var t := Trim(line);
    if t == "" || ':' in t then "" else t
  }

  function KeptText(lines: seq<string>): string {
    if |lines| == 0 then "" else Kept(lines[0]) + KeptText(lines[1..])
  }

  /** What stands between the markers of a block, decoded. */
  function DecodeBody(body: string): Option<Bytes> {
    Base64.Decode(KeptText(SplitLines(body)))
  }

  /** What stands before the first occurrence of a marker, and what follows it. */
  function Cut(s: string, marker: string): (r: Option<(string, string)>)
    requires |marker| > 0
    ensures r.Some? ==> |r.value.0| + |marker| + |r.value.1| == |s|
  {
    match Find(s, marker)
    case Some(at) => Some((s[..at], s[at + |marker|..]))
    case None => None
  }

  /** All blocks between two markers, in file order, given how to decode one. */
  function BlocksBetween(input: string, begin: string, end: string, tag: string,
                         decode: string -> Option<Bytes>): PemResult<seq<Bytes>>
    requires |begin| > 0 && |end| > 0
    decreases |input|
  {
    var opening := Cut(input, begin);
    if opening.None? then Found([])
    else
      var closing := Cut(opening.value.1, end);
      if closing.None? then Refused(Unterminated(tag))
      else
        var der := decode(closing.value.0);
        if der.None? then Refused(InvalidBase64(tag))
        else After([der.value], BlocksBetween(closing.value.1, begin, end, tag, decode))
  }

  function PemBlocks(input: string, tag: string): PemResult<seq<Bytes>> {
    BlocksBetween(input, Begin(tag), End(tag), tag, DecodeBody)
  }

  /** The blocks already taken, before what the rest of the file gives. */
  function After(blocks: seq<Bytes>, rest: PemResult<seq<Bytes>>): PemResult<seq<Bytes>> {
    match rest
    case Found(more) => Found(blocks + more)
    case Refused(e) => Refused(e)
  }

  lemma NothingBefore(rest: PemResult<seq<Bytes>>)
    ensures After([], rest) == rest
  {
    match rest {
      case Found(more) => assert [] + more == more;
      case Refused(_) =>
    }
  }

  lemma AfterAfter(blocks: seq<Bytes>, der: Bytes, rest: PemResult<seq<Bytes>>)
    ensures After(blocks, After([der], rest)) == After(blocks + [der], rest)
  {
    match rest {
      case Found(more) => assert blocks + ([der] + more) == (blocks + [der]) + more;
      case Refused(_) =>
    }
  }

  /** The loop of `pem_blocks`: `rest` is a proper suffix of itself after every iteration. */
  method BlocksLoop(input: string, begin: string, end: string, tag: string, decode: string -> Option<Bytes>)
    returns (r: PemResult<seq<Bytes>>)
    requires |begin| > 0 && |end| > 0
    ensures r == BlocksBetween(input, begin, end, tag, decode)
  {
    var rest := input;
    var blocks: seq<Bytes> := [];
    var opening := Cut(rest, begin);
    NothingBefore(BlocksBetween(rest, begin, end, tag, decode));
    while opening.Some?
      invariant opening == Cut(rest, begin)
      invariant BlocksBetween(input, begin, end, tag, decode)
            == After(blocks, BlocksBetween(rest, begin, end, tag, decode))
      decreases |rest|
    {
      var closing := Cut(opening.value.1, end);
      if closing.None? {
        return Refused(Unterminated(tag));
      }
      var der := decode(closing.value.0);
      if der.None? {
        return Refused(InvalidBase64(tag));
      }
      AfterAfter(blocks, der.value, BlocksBetween(closing.value.1, begin, end, tag, decode));
      blocks := blocks + [der.value];
      rest := closing.value.1;
      opening := Cut(rest, begin);
    }
    assert blocks + [] == blocks;
    return Found(blocks);
  }

  /** `first_pem_block`: the labels are tried in turn. */
  method FirstPemBlock(input: string, tags: seq<string>) returns (r: PemResult<Bytes>)
    ensures forall i :: 0 <= i < |tags| && FirstUseful(input, tags, i) ==>
              r == match PemBlocks(input, tags[i]) case Found(blocks) => Found(blocks[0]) case Refused(e) => Refused(e)
    ensures (forall i :: 0 <= i < |tags| ==> PemBlocks(input, tags[i]) == Found([])) ==> r == Refused(NoSupportedBlock)
  {
    for k := 0 to |tags|
      invariant forall i :: 0 <= i < k ==> PemBlocks(input, tags[i]) == Found([])
    {
      var blocks := BlocksLoop(input, Begin(tags[k]), End(tags[k]), tags[k], DecodeBody);
      if blocks.Refused? {
        return Refused(blocks.error);
      }
      if |blocks.value| > 0 {
        return Found(blocks.value[0]);
      }
    }
    return Refused(NoSupportedBlock);
  }

  /** The label at `i` is the first that the file has blocks of, or cannot be read for: label order decides,
      wherever the blocks stand in the file. */
  ghost predicate FirstUseful(input: string, tags: seq<string>, i: nat)
    requires i < |tags|
  {
    && PemBlocks(input, tags[i]) != Found([])
    && forall j :: 0 <= j < i ==> PemBlocks(input, tags[j]) == Found([])
  }

  /* ---------- rendering ---------- */

  /** Lines of at most `width` characters. */
  function Folded(text: string, width: nat): seq<string>
    requires width > 0
  {
    if |text| == 0 then [] else if |text| <= width then [text] else [text[..width]] + Folded(text[width..], width)
  }

  /** One block of a file: text before it, headers, the bytes, the line width, and blanks ending each line. */
  datatype Entry = Entry(before: string, headers: seq<string>, der: Bytes, width: nat, eol: string)

  function Padded(lines: seq<string>, eol: string): seq<string> {
    seq(|lines|, i requires 0 <= i < |lines| => lines[i] + eol)
  }

  function BodyLines(e: Entry): seq<string>
    requires e.width > 0
  {
    e.headers + Padded(Folded(Base64.Encode(e.der), e.width), e.eol)
  }

  function Body(e: Entry): string
    requires e.width > 0
  {
    e.eol + "\n" + LinesText(BodyLines(e))
  }

  function RenderEntry(e: Entry, tag: string): string
    requires e.width > 0
  {
    Begin(tag) + Body(e) + End(tag)
  }

  function RenderFile(entries: seq<Entry>, tag: string, trailer: string): string
    requires forall e :: e in entries ==> e.width > 0
  {
    if |entries| == 0 then trailer
    else entries[0].before + RenderEntry(entries[0], tag) + RenderFile(entries[1..], tag, trailer)
  }

  function Ders(entries: seq<Entry>): seq<Bytes> {
    seq(|entries|, i requires 0 <= i < |entries| => entries[i].der)
  }

  /** What a file may hold besides the blocks: whole lines without the marker before each block, header
      lines with a colon and without the end marker, blanks at line ends. */
  ghost predicate EntryOk(e: Entry, tag: string) {
    && e.width > 0
    && Noise(e.before, Begin(tag))
    && (forall h :: h in e.headers ==> ':' in h && '\n' !in h && !Occurs(h, End(tag)))
    && AllSpace(e.eol) && '\n' !in e.eol
  }

  /* ---------- extraction inverts rendering ---------- */

  lemma {:induction false} FoldedLines(text: string, width: nat)
    requires width > 0 && forall c :: c in text ==> Base64.IsDigit64(c) || c == '='
    ensures forall l :: l in Folded(text, width) ==> |l| > 0 && forall c :: c in l ==> Base64.IsDigit64(c) || c == '='
    decreases |text|
  {
    if |text| > width {
      FoldedLines(text[width..], width);
    }
  }

  lemma KeptDigits(line: string, eol: string)
    requires |line| > 0 && (forall c :: c in line ==> Base64.IsDigit64(c) || c == '=') && AllSpace(eol)
    ensures Kept(line + eol) == line
  {
    assert line[0] in line && line[|line| - 1] in line;
    TrimOfVisible(line, eol);
  }

  lemma KeptHeader(h: string)
    requires ':' in h
    ensures Kept(h) == ""
  {
    TrimKeeps(h, ':');
  }

  lemma {:induction false} KeptConcat(a: seq<string>, b: seq<string>)
    ensures KeptText(a + b) == KeptText(a) + KeptText(b)
    decreases |a|
  {
    if |a| == 0 {
      assert a + b == b;
    } else {
      assert (a + b)[1..] == a[1..] + b;
      KeptConcat(a[1..], b);
    }
  }

  lemma {:induction false} KeptHeaders(headers: seq<string>)
    requires forall h :: h in headers ==> ':' in h
    ensures KeptText(headers) == ""
    decreases |headers|
  {
    if |headers| > 0 {
      assert headers[0] in headers;
      KeptHeader(headers[0]);
      KeptHeaders(headers[1..]);
    }
  }

  lemma FoldedHead(text: string, width: nat, n: nat)
    requires width > 0 && |text| > 0 && n == if |text| <= width then |text| else width
    ensures Folded(text, width) == [text[..n]] + Folded(text[n..], width)
  {
    if |text| <= width {
      assert text[..n] == text && text[n..] == "";
      assert [text] + [] == [text];
    }
  }

  lemma PaddedHead(first: string, rest: seq<string>, eol: string)
    ensures Padded([first] + rest, eol) == [first + eol] + Padded(rest, eol)
  {
  }

  lemma {:induction false} KeptFolded(text: string, width: nat, eol: string)
    requires width > 0 && AllSpace(eol) && forall c :: c in text ==> Base64.IsDigit64(c) || c == '='
    ensures KeptText(Padded(Folded(text, width), eol)) == text
    decreases |text|
  {
    if |text| > 0 {
      var n := if |text| <= width then |text| else width;
      var first, rest := text[..n], text[n..];
      FoldedHead(text, width, n);
      PaddedHead(first, Folded(rest, width), eol);
      KeptDigits(first, eol);
      KeptFolded(rest, width, eol);
      assert ([first + eol] + Padded(Folded(rest, width), eol))[1..] == Padded(Folded(rest, width), eol);
      assert text == first + rest;
    }
  }

  lemma SpaceKept(eol: string)
    requires AllSpace(eol)
    ensures Kept(eol) == "" && Kept("") == ""
  {
    TrimStartOf(eol, "");
    TrimStartOf("", "");
    assert eol + "" == eol;
  }

  /** Every body line is a line, and none holds the end marker. */
  lemma BodyLinesOk(e: Entry, tag: string)
    requires EntryOk(e, tag)
    ensures forall l :: l in BodyLines(e) ==> '\n' !in l && !Occurs(l, End(tag))
  {
    var lines := Folded(Base64.Encode(e.der), e.width);
    Base64.EncodedChars(e.der);
    FoldedLines(Base64.Encode(e.der), e.width);
    forall i | 0 <= i < |lines| ensures '\n' !in lines[i] + e.eol && !Occurs(lines[i] + e.eol, End(tag)) {
      assert lines[i] in lines;
      NoDash(lines[i] + e.eol, tag);
    }
  }

  lemma NoDash(line: string, tag: string)
    requires '-' !in line
    ensures !Occurs(line, End(tag)) && !Occurs(line, Begin(tag))
  {
    assert End(tag)[0] == '-' && Begin(tag)[0] == '-';
    forall i | 0 <= i <= |line| ensures !(End(tag) <= line[i..]) && !(Begin(tag) <= line[i..]) {
      if i < |line| {
        assert line[i..][0] in line;
      }
    }
  }

  lemma BodyIsNoise(e: Entry, tag: string)
    requires EntryOk(e, tag) && '\n' !in tag
    ensures Noise(Body(e), End(tag))
  {
    BodyLinesOk(e, tag);
    NoDash(e.eol, tag);
    LinesAreNoise([e.eol] + BodyLines(e), End(tag));
    assert LinesText([e.eol] + BodyLines(e)) == Body(e);
  }

  /** The extractor recovers the encoded text of a rendered body. */
  lemma BodyText(e: Entry, tag: string)
    requires EntryOk(e, tag)
    ensures KeptText(SplitLines(Body(e))) == Base64.Encode(e.der)
  {
    var lines := BodyLines(e);
    BodyLinesOk(e, tag);
    SplitFirstLine(e.eol, LinesText(lines));
    SplitLinesOf(lines);
    KeptConcat([e.eol], lines + [""]);
    KeptConcat(lines, [""]);
    SpaceKept(e.eol);
    KeptConcat(e.headers, Padded(Folded(Base64.Encode(e.der), e.width), e.eol));
    KeptHeaders(e.headers);
    Base64.EncodedChars(e.der);
    KeptFolded(Base64.Encode(e.der), e.width, e.eol);
    assert KeptText([e.eol]) == "" && KeptText([""]) == "";
  }

  /** One rendered block is taken off the front of the file. */
  lemma OneBlock(e: Entry, tag: string, rest: string)
    requires EntryOk(e, tag) && '\n' !in tag
    ensures PemBlocks(e.before + RenderEntry(e, tag) + rest, tag) == After([e.der], PemBlocks(rest, tag))
  {
    BodyIsNoise(e, tag);
    MarkersAreLines(tag);
    BodyText(e, tag);
    Base64.DecodeEncode(e.der);
    BlockBetween(e.before, Begin(tag), Body(e), End(tag), rest, tag, e.der, DecodeBody);
  }

  lemma Regrouped(a: string, b: string, c: string, d: string, e: string)
    ensures a + (b + c + d) + e == a + b + (c + d + e)
  {
  }

  lemma CutAt(before: string, marker: string, after: string)
    requires Noise(before, marker) && |marker| > 0 && '\n' !in marker
    ensures Cut(before + marker + after, marker) == Some((before, after))
  {
    NoiseHidesNothing(before, marker, after);
    var s := before + marker + after;
    assert s[..|before|] == before && s[|before| + |marker|..] == after;
  }

  lemma BlockBetween(before: string, begin: string, body: string, end: string, rest: string, tag: string, der: Bytes,
                     decode: string -> Option<Bytes>)
    requires |begin| > 0 && |end| > 0 && '\n' !in begin && '\n' !in end && Noise(before, begin) && Noise(body, end)
    requires decode(body) == Some(der)
    ensures BlocksBetween(before + (begin + body + end) + rest, begin, end, tag, decode)
         == After([der], BlocksBetween(rest, begin, end, tag, decode))
  {
    Regrouped(before, begin, body, end, rest);
    CutAt(before, begin, body + end + rest);
    CutAt(body, end, rest);
  }

  lemma MarkersAreLines(tag: string)
    requires '\n' !in tag
    ensures '\n' !in Begin(tag) && '\n' !in End(tag)
  {
  }

  lemma {:induction false} RenderedThen(entries: seq<Entry>, tag: string, trailer: string)
    requires '\n' !in tag && forall e :: e in entries ==> e.width > 0 && EntryOk(e, tag)
    ensures PemBlocks(RenderFile(entries, tag, trailer), tag) == After(Ders(entries), PemBlocks(trailer, tag))
    decreases |entries|
  {
    if |entries| == 0 {
      NothingBefore(PemBlocks(trailer, tag));
    } else {
      assert entries[0] in entries;
      RenderedThen(entries[1..], tag, trailer);
      OneBlock(entries[0], tag, RenderFile(entries[1..], tag, trailer));
      assert Ders(entries) == [entries[0].der] + Ders(entries[1..]);
      AfterBoth([entries[0].der], Ders(entries[1..]), PemBlocks(trailer, tag));
    }
  }

  /** The extractor returns exactly the bytes that were rendered, in order. */
  lemma ExtractionInvertsRendering(entries: seq<Entry>, tag: string, trailer: string)
    requires '\n' !in tag && !Occurs(trailer, Begin(tag))
    requires forall e :: e in entries ==> e.width > 0 && EntryOk(e, tag)
    ensures PemBlocks(RenderFile(entries, tag, trailer), tag) == Found(Ders(entries))
  {
    RenderedThen(entries, tag, trailer);
    FindNone(trailer, Begin(tag));
    assert Ders(entries) + [] == Ders(entries);
  }

  /** A file cut off inside its last block is refused, however many whole blocks stand before it. */
  lemma TruncatedIsRefused(entries: seq<Entry>, tag: string, before: string, cutOff: string)
    requires '\n' !in tag && forall e :: e in entries ==> e.width > 0 && EntryOk(e, tag)
    requires Noise(before, Begin(tag)) && !Occurs(cutOff, End(tag))
    ensures PemBlocks(RenderFile(entries, tag, before + Begin(tag) + cutOff), tag) == Refused(Unterminated(tag))
  {
    RenderedThen(entries, tag, before + Begin(tag) + cutOff);
    MarkersAreLines(tag);
    CutAt(before, Begin(tag), cutOff);
    FindNone(cutOff, End(tag));
  }

  /** The body is the encoding of no bytes. */
  ghost predicate Undecodable(body: string) {
    forall der :: Base64.Encode(der) != KeptText(SplitLines(body))
  }

  /** A file with an undecodable block is refused, whatever stands before and after it. */
  lemma UndecodableIsRefused(entries: seq<Entry>, tag: string, before: string, body: string, rest: string)
    requires '\n' !in tag && forall e :: e in entries ==> e.width > 0 && EntryOk(e, tag)
    requires Noise(before, Begin(tag)) && Noise(body, End(tag)) && Undecodable(body)
    ensures PemBlocks(RenderFile(entries, tag, before + Begin(tag) + (body + End(tag) + rest)), tag)
         == Refused(InvalidBase64(tag))
  {
    RenderedThen(entries, tag, before + Begin(tag) + (body + End(tag) + rest));
    MarkersAreLines(tag);
    CutAt(before, Begin(tag), body + End(tag) + rest);
    CutAt(body, End(tag), rest);
    DecodesOrNot(body);
  }

  lemma DecodesOrNot(body: string)
    ensures DecodeBody(body).None? <==> Undecodable(body)
    ensures forall der :: DecodeBody(body) == Some(der) <==> Base64.Encode(der) == KeptText(SplitLines(body))
  {
    var text := KeptText(SplitLines(body));
    forall der ensures Base64.Decode(text) == Some(der) <==> text == Base64.Encode(der) {
      Base64.DecodesExactly(text, der);
    }
    if DecodeBody(body).Some? {
      assert Base64.Encode(DecodeBody(body).value) == text;
    }
  }

  /* ---------- any file at all ---------- */

  /** The first occurrence of `marker` in `s` is between `before` and `after`. */
  ghost predicate FirstAt(s: string, before: string, marker: string, after: string) {
    s == before + marker + after && forall i :: 0 <= i < |before| ==> !(marker <= s[i..])
  }

  lemma CutIsFirst(s: string, marker: string)
    requires |marker| > 0
    ensures Cut(s, marker).None? <==> !Occurs(s, marker)
    ensures Cut(s, marker).Some? ==> FirstAt(s, Cut(s, marker).value.0, marker, Cut(s, marker).value.1)
  {
    FindNone(s, marker);
    if Find(s, marker).Some? {
      FindSome(s, marker);
      var at := Find(s, marker).value;
      assert s[at..][..|marker|] == marker;
      assert s == s[..at] + marker + s[at + |marker|..];
    }
  }

  lemma FirstIsCut(s: string, before: string, marker: string, after: string)
    requires |marker| > 0 && FirstAt(s, before, marker, after)
    ensures Cut(s, marker) == Some((before, after))
  {
    FindAfter(before, marker, after);
    assert s[..|before|] == before && s[|before| + |marker|..] == after;
  }

  /** The next block of `input` has this body, and `next` follows it. */
  ghost predicate NextBlock(input: string, tag: string, body: string, next: string) {
    exists before, after :: FirstAt(input, before, Begin(tag), after) && FirstAt(after, body, End(tag), next)
  }

  /** The blocks of `input` have these bodies, in order, and `rest` follows the last. */
  ghost predicate Blocks(input: string, tag: string, bodies: seq<string>, rest: string)
    decreases |bodies|
  {
    if |bodies| == 0 then rest == input
    else exists next :: NextBlock(input, tag, bodies[0], next) && Blocks(next, tag, bodies[1..], rest)
  }

  /** Body by body, the kept text is the encoding of these bytes. */
  predicate Encodes(bodies: seq<string>, ders: seq<Bytes>) {
    |bodies| == |ders| && forall i :: 0 <= i < |bodies| ==> KeptText(SplitLines(bodies[i])) == Base64.Encode(ders[i])
  }

  /** A begin marker is reached after which no end marker comes. */
  ghost predicate Unclosed(rest: string, tag: string) {
    exists before, after :: FirstAt(rest, before, Begin(tag), after) && !Occurs(after, End(tag))
  }

  /** The next block is the encoding of nothing. */
  ghost predicate Spoilt(rest: string, tag: string) {
    exists body, next :: NextBlock(rest, tag, body, next) && Undecodable(body)
  }

  lemma TakeBlock(input: string, tag: string, body: string, next: string)
    requires NextBlock(input, tag, body, next)
    ensures PemBlocks(input, tag) ==
              match DecodeBody(body)
              case Some(der) => After([der], PemBlocks(next, tag))
              case None => Refused(InvalidBase64(tag))
  {
    var before, after :| FirstAt(input, before, Begin(tag), after) && FirstAt(after, body, End(tag), next);
    FirstIsCut(input, before, Begin(tag), after);
    FirstIsCut(after, body, End(tag), next);
  }

  lemma AfterBoth(first: seq<Bytes>, second: seq<Bytes>, rest: PemResult<seq<Bytes>>)
    ensures After(first, After(second, rest)) == After(first + second, rest)
  {
    match rest {
      case Found(more) => assert first + (second + more) == (first + second) + more;
      case Refused(_) =>
    }
  }

  lemma TakeOneMore(input: string, tag: string, body: string, der: Bytes, next: string, ders: seq<Bytes>, rest: string)
    requires NextBlock(input, tag, body, next) && KeptText(SplitLines(body)) == Base64.Encode(der)
    requires PemBlocks(next, tag) == After(ders, PemBlocks(rest, tag))
    ensures PemBlocks(input, tag) == After([der] + ders, PemBlocks(rest, tag))
  {
    TakeBlock(input, tag, body, next);
    DecodesOrNot(body);
    AfterBoth([der], ders, PemBlocks(rest, tag));
  }

  /** The first body encodes the first bytes, and the others the others. */
  lemma EncodesRest(bodies: seq<string>, ders: seq<Bytes>)
    requires Encodes(bodies, ders) && |bodies| > 0
    ensures KeptText(SplitLines(bodies[0])) == Base64.Encode(ders[0]) && Encodes(bodies[1..], ders[1..])
    ensures [ders[0]] + ders[1..] == ders
  {
  }

  /** Whole blocks at the beginning are taken off one by one. */
  lemma {:induction false} TakeBlocks(input: string, tag: string, bodies: seq<string>, ders: seq<Bytes>, rest: string)
    requires Blocks(input, tag, bodies, rest) && Encodes(bodies, ders)
    ensures PemBlocks(input, tag) == After(ders, PemBlocks(rest, tag))
    decreases |bodies|
  {
    if |bodies| == 0 {
      NothingBefore(PemBlocks(rest, tag));
    } else {
      var next :| NextBlock(input, tag, bodies[0], next) && Blocks(next, tag, bodies[1..], rest);
      EncodesRest(bodies, ders);
      TakeBlocks(next, tag, bodies[1..], ders[1..], rest);
      TakeOneMore(input, tag, bodies[0], ders[0], next, ders[1..], rest);
    }
  }

  /** What the extractor gives where it stops. */
  lemma StopsAt(rest: string, tag: string)
    ensures !Occurs(rest, Begin(tag)) ==> PemBlocks(rest, tag) == Found([])
    ensures Unclosed(rest, tag) ==> PemBlocks(rest, tag) == Refused(Unterminated(tag))
    ensures Spoilt(rest, tag) ==> PemBlocks(rest, tag) == Refused(InvalidBase64(tag))
  {
    FindNone(rest, Begin(tag));
    if Unclosed(rest, tag) {
      var before, after :| FirstAt(rest, before, Begin(tag), after) && !Occurs(after, End(tag));
      FirstIsCut(rest, before, Begin(tag), after);
      FindNone(after, End(tag));
    }
    if Spoilt(rest, tag) {
      var body, next :| NextBlock(rest, tag, body, next) && Undecodable(body);
      TakeBlock(rest, tag, body, next);
      DecodesOrNot(body);
    }
  }

  lemma OneMoreBlock(input: string, tag: string, body: string, der: Bytes, next: string, bodies: seq<string>,
                     ders: seq<Bytes>, rest: string)
    requires NextBlock(input, tag, body, next) && KeptText(SplitLines(body)) == Base64.Encode(der)
    requires Blocks(next, tag, bodies, rest) && Encodes(bodies, ders)
    ensures Blocks(input, tag, [body] + bodies, rest) && Encodes([body] + bodies, [der] + ders)
  {
    assert ([body] + bodies)[1..] == bodies;
  }

  /** Every file begins with whole blocks, after which the extractor stops for one of the three reasons. */
  lemma {:induction false} EveryFileSplits(input: string, tag: string)
    returns (bodies: seq<string>, ders: seq<Bytes>, rest: string)
    ensures Blocks(input, tag, bodies, rest) && Encodes(bodies, ders)
    ensures !Occurs(rest, Begin(tag)) || Unclosed(rest, tag) || Spoilt(rest, tag)
    decreases |input|
  {
    var opening := Cut(input, Begin(tag));
    CutIsFirst(input, Begin(tag));
    bodies, ders, rest := [], [], input;
    if opening.Some? {
      var closing := Cut(opening.value.1, End(tag));
      CutIsFirst(opening.value.1, End(tag));
      if closing.Some? {
        var body, next := closing.value.0, closing.value.1;
        assert NextBlock(input, tag, body, next);
        DecodesOrNot(body);
        var der := DecodeBody(body);
        if der.Some? {
          var more, moreDers;
          more, moreDers, rest := EveryFileSplits(next, tag);
          bodies, ders := [body] + more, [der.value] + moreDers;
          OneMoreBlock(input, tag, body, der.value, next, more, moreDers, rest);
        }
      }
    }
  }

  /** The file is whole blocks encoding `ders`, followed by text without a begin marker. */
  ghost predicate Whole(input: string, tag: string, ders: seq<Bytes>) {
    exists bodies, rest :: Blocks(input, tag, bodies, rest) && Encodes(bodies, ders) && !Occurs(rest, Begin(tag))
  }

  /** After whole blocks comes a begin marker without an end marker. */
  ghost predicate Truncated(input: string, tag: string) {
    exists bodies, ders, rest :: Blocks(input, tag, bodies, rest) && Encodes(bodies, ders) && Unclosed(rest, tag)
  }

  /** After whole blocks comes one that is the encoding of nothing. */
  ghost predicate Corrupt(input: string, tag: string) {
    exists bodies, ders, rest :: Blocks(input, tag, bodies, rest) && Encodes(bodies, ders) && Spoilt(rest, tag)
  }

  lemma WholeIsFound(input: string, tag: string, ders: seq<Bytes>)
    requires Whole(input, tag, ders)
    ensures PemBlocks(input, tag) == Found(ders)
  {
    var bodies, rest :| Blocks(input, tag, bodies, rest) && Encodes(bodies, ders) && !Occurs(rest, Begin(tag));
    TakeBlocks(input, tag, bodies, ders, rest);
    StopsAt(rest, tag);
    assert ders + [] == ders;
  }

  lemma TruncatedIsUnterminated(input: string, tag: string)
    requires Truncated(input, tag)
    ensures PemBlocks(input, tag) == Refused(Unterminated(tag))
  {
    var bodies, ders, rest :| Blocks(input, tag, bodies, rest) && Encodes(bodies, ders) && Unclosed(rest, tag);
    TakeBlocks(input, tag, bodies, ders, rest);
    StopsAt(rest, tag);
  }

  lemma CorruptIsInvalid(input: string, tag: string)
    requires Corrupt(input, tag)
    ensures PemBlocks(input, tag) == Refused(InvalidBase64(tag))
  {
    var bodies, ders, rest :| Blocks(input, tag, bodies, rest) && Encodes(bodies, ders) && Spoilt(rest, tag);
    TakeBlocks(input, tag, bodies, ders, rest);
    StopsAt(rest, tag);
  }

  lemma EveryFileIsOne(input: string, tag: string)
    ensures Truncated(input, tag) || Corrupt(input, tag) || exists ders :: Whole(input, tag, ders)
  {
    var bodies, ders, rest := EveryFileSplits(input, tag);
    assert !Occurs(rest, Begin(tag)) ==> Whole(input, tag, ders);
  }

  /** The extractor's answer for any file: the bytes of its blocks exactly if every begin marker it reaches
      is followed by an end marker and a decodable body; refused as unterminated exactly if it reaches a
      begin marker without an end marker, and as invalid exactly if it reaches an undecodable body. */
  lemma ExtractsExactly(input: string, tag: string, ders: seq<Bytes>)
    ensures PemBlocks(input, tag) == Found(ders) <==> Whole(input, tag, ders)
    ensures PemBlocks(input, tag) == Refused(Unterminated(tag)) <==> Truncated(input, tag)
    ensures PemBlocks(input, tag) == Refused(InvalidBase64(tag)) <==> Corrupt(input, tag)
    ensures PemBlocks(input, tag).Found? || Truncated(input, tag) || Corrupt(input, tag)
  {
    EveryFileIsOne(input, tag);
    if Truncated(input, tag) {
      TruncatedIsUnterminated(input, tag);
    } else if Corrupt(input, tag) {
      CorruptIsInvalid(input, tag);
    } else {
      var found :| Whole(input, tag, found);
      WholeIsFound(input, tag, found);
    }
    if Whole(input, tag, ders) { WholeIsFound(input, tag, ders); }
    if Corrupt(input, tag) { CorruptIsInvalid(input, tag); }
  }

  /* ---------- blocks of other labels ---------- */

  /** Five dashes, an upper-case word, a label of `n` characters, five dashes. */
  predicate BeginShape(b: string, n: nat) {
    && |b| == 16 + n && b[5] == 'B'
    && (forall k :: 0 <= k < 5 ==> b[k] == '-')
    && (forall k :: 5 <= k < 11 + n ==> b[k] != '-')
    && (forall k :: 11 + n <= k < |b| ==> b[k] == '-')
  }

  /** Five characters at each end, and no dash between. */
  predicate MarkerShape(m: string) {
    |m| > 10 && forall k :: 5 <= k < |m| - 5 ==> m[k] != '-'
  }

  lemma BeginHasShape(tag: string)
    requires '-' !in tag
    ensures BeginShape(Begin(tag), |tag|) && Begin(tag)[11..11 + |tag|] == tag
  {
    var b := Begin(tag);
    assert b[..11] == "-----BEGIN " && b[11 + |tag|..] == "-----";
    forall k | 0 <= k < |b|
      ensures b[k] == if k < 11 then "-----BEGIN "[k] else if k < 11 + |tag| then tag[k - 11] else '-'
    {
    }
  }

  lemma EndHasShape(tag: string)
    requires '-' !in tag
    ensures MarkerShape(End(tag)) && End(tag)[5] == 'E'
  {
    var b := End(tag);
    assert b[..9] == "-----END ";
    forall k | 0 <= k < |b| - 5 ensures b[k] == if k < 9 then "-----END "[k] else tag[k - 9] {
    }
  }

  predicate NoMarkerChar(eol: string) {
    forall k :: 0 <= k < |eol| ==> eol[k] != '-' && eol[k] != 'B'
  }

  /** A begin marker found in a marker line is found at its start. */
  lemma BeginInMarker(b: string, n: nat, m: string, eol: string, i: nat)
    requires BeginShape(b, n) && MarkerShape(m) && NoMarkerChar(eol) && i <= |m + eol| && b <= (m + eol)[i..]
    ensures i == 0 && m[5] == 'B'
  {
    var line := m + eol;
    assert forall k :: 0 <= k < |b| ==> line[i..][k] == line[i + k];
    assert line[i + 0] == b[0] && line[i + 4] == b[4] && line[i + 5] == b[5];
    assert 0 <= i <= 5 ==> line[i + (5 - i)] == b[5 - i];
  }

  /** A begin marker that starts the line of another is the same marker. */
  lemma BeginInBegin(b: string, n: nat, m: string, o: nat, eol: string)
    requires BeginShape(b, n) && BeginShape(m, o) && NoMarkerChar(eol) && b <= m + eol
    ensures b == m
  {
    var shorter := 11 + (if n < o then n else o);
    assert (m + eol)[shorter] == b[shorter];
    assert n == o;
    assert (m + eol)[..|b|] == b;
  }

  lemma OtherMarkerLine(other: string, tag: string, marker: string, eol: string)
    requires '-' !in other && '-' !in tag && other != tag && AllSpace(eol)
    requires marker == Begin(other) || marker == End(other)
    ensures !Occurs(marker + eol, Begin(tag))
  {
    BeginHasShape(tag);
    BeginHasShape(other);
    EndHasShape(other);
    assert Begin(tag) == Begin(other) ==> tag == other;
    assert forall k :: 0 <= k < |eol| ==> eol[k] in eol;
    forall i | 0 <= i <= |marker + eol|
      ensures Begin(tag) <= (marker + eol)[i..] ==> i == 0 && marker[5] == 'B'
    {
      if Begin(tag) <= (marker + eol)[i..] {
        BeginInMarker(Begin(tag), |tag|, marker, eol, i);
      }
    }
    if Begin(tag) <= marker + eol && marker == Begin(other) {
      BeginInBegin(Begin(tag), |tag|, marker, |other|, eol);
    }
  }

  /** The lines of a block, with a line end after it. */
  function BlockLines(e: Entry, other: string): seq<string>
    requires e.width > 0
  {
    [Begin(other) + e.eol] + BodyLines(e) + [End(other)]
  }

  lemma {:induction false} LinesTextConcat(a: seq<string>, b: seq<string>)
    ensures LinesText(a + b) == LinesText(a) + LinesText(b)
    decreases |a|
  {
    if |a| == 0 {
      assert a + b == b;
    } else {
      assert (a + b)[1..] == a[1..] + b;
      LinesTextConcat(a[1..], b);
    }
  }

  lemma BlockIsLines(e: Entry, other: string)
    requires e.width > 0
    ensures RenderEntry(e, other) + "\n" == LinesText(BlockLines(e, other))
  {
    var first, last := Begin(other) + e.eol, End(other);
    LinesTextConcat([first] + BodyLines(e), [last]);
    LinesTextConcat([first], BodyLines(e));
    OneLine(first);
    OneLine(last);
    SixParts(Begin(other), e.eol, LinesText(BodyLines(e)), End(other));
  }

  lemma OneLine(line: string)
    ensures LinesText([line]) == line + "\n"
  {
    assert [line][1..] == [];
    assert line + "\n" + "" == line + "\n";
  }

  lemma SixParts(a: string, b: string, c: string, d: string)
    ensures a + (b + "\n" + c) + d + "\n" == ((a + b) + "\n") + c + (d + "\n")
  {
  }

  /** A block of another label, between lines, is noise: it hides nothing and yields nothing. */
  lemma OtherBlockIsNoise(e: Entry, other: string, tag: string)
    requires EntryOk(e, other) && other != tag && '-' !in other && '-' !in tag && '\n' !in tag
    requires Noise(e.before, Begin(tag)) && forall h :: h in e.headers ==> !Occurs(h, Begin(tag))
    ensures Noise(e.before + (RenderEntry(e, other) + "\n"), Begin(tag))
  {
    var lines := Folded(Base64.Encode(e.der), e.width);
    Base64.EncodedChars(e.der);
    FoldedLines(Base64.Encode(e.der), e.width);
    forall i | 0 <= i < |lines| ensures !Occurs(lines[i] + e.eol, Begin(tag)) {
      assert lines[i] in lines;
      NoDash(lines[i] + e.eol, tag);
    }
    OtherMarkerLine(other, tag, Begin(other), e.eol);
    OtherMarkerLine(other, tag, End(other), "");
    assert End(other) + "" == End(other);
    BlockIsLines(e, other);
    MarkersAreLines(tag);
    LinesAreNoise(BlockLines(e, other), Begin(tag));
    NoiseConcat(e.before, RenderEntry(e, other) + "\n", Begin(tag));
  }

  /** Asked for two labels, the extractor prefers the first label, not the first block of the file. */
  lemma LabelOrderDecides(first: Entry, firstTag: string, second: Entry, secondTag: string)
    requires EntryOk(first, firstTag) && EntryOk(second, secondTag) && second.before == ""
    requires firstTag != secondTag && '-' !in firstTag && '-' !in secondTag && '\n' !in firstTag && '\n' !in secondTag
    requires Noise(first.before, Begin(secondTag)) && forall h :: h in first.headers ==> !Occurs(h, Begin(secondTag))
    ensures var file := first.before + (RenderEntry(first, firstTag) + "\n") + RenderEntry(second, secondTag) + "\n";
      FirstUseful(file, [secondTag, firstTag], 0) && PemBlocks(file, secondTag) == Found([second.der])
  {
    var before := first.before + (RenderEntry(first, firstTag) + "\n");
    OtherBlockIsNoise(first, firstTag, secondTag);
    var e := second.(before := before);
    assert RenderEntry(e, secondTag) == RenderEntry(second, secondTag);
    NoDash("\n", secondTag);
    assert [e][1..] == [];
    assert RenderFile([e], secondTag, "\n") == before + RenderEntry(second, secondTag) + "\n";
    ExtractionInvertsRendering([e], secondTag, "\n");
    assert Ders([e]) == [second.der];
  }
}
