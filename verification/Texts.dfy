/** Text functions of the standard library the parsers are written with: trimming, searching, lines. */
module Texts {
  import opened Wire

  /* ---------- trimming ---------- */

  /** The characters of Unicode's White_Space property, which `str::trim` removes. */
  predicate IsSpace(c: char) {
    '\U{9}' <= c <= '\r' || c == ' ' || c == '\U{85}' || c == '\U{A0}' || c == '\U{1680}'
    || '\U{2000}' <= c <= '\U{200A}' || c == '\U{2028}' || c == '\U{2029}' || c == '\U{202F}' || c == '\U{205F}'
        || c == '\U{3000}'
  }

  predicate AllSpace(s: string) { forall c :: c in s ==> IsSpace(c) }

  function TrimStart(s: string): string {
    if |s| > 0 && IsSpace(s[0]) then TrimStart(s[1..]) else s
  }

  function TrimEnd(s: string): string {
    if |s| > 0 && IsSpace(s[|s| - 1]) then TrimEnd(s[..|s| - 1]) else s
  }

  function Trim(s: string): string { TrimEnd(TrimStart(s)) }

  lemma {:induction false} TrimStartSplits(s: string)
    ensures |TrimStart(s)| <= |s| && s[|s| - |TrimStart(s)|..] == TrimStart(s)
    ensures AllSpace(s[..|s| - |TrimStart(s)|])
    ensures |TrimStart(s)| > 0 ==> !IsSpace(TrimStart(s)[0])
    decreases |s|
  {
    if |s| > 0 && IsSpace(s[0]) {
      TrimStartSplits(s[1..]);
      var n := |s| - |TrimStart(s)|;
      assert s[..n] == [s[0]] + s[1..][..n - 1];
      assert s[n..] == s[1..][n - 1..];
    }
  }

  lemma {:induction false} TrimEndSplits(s: string)
    ensures |TrimEnd(s)| <= |s| && s[..|TrimEnd(s)|] == TrimEnd(s)
    ensures AllSpace(s[|TrimEnd(s)|..])
    ensures |TrimEnd(s)| > 0 ==> !IsSpace(TrimEnd(s)[|TrimEnd(s)| - 1])
    decreases |s|
  {
    if |s| > 0 && IsSpace(s[|s| - 1]) {
      var init, n := s[..|s| - 1], |TrimEnd(s)|;
      TrimEndSplits(init);
      assert s[..n] == init[..n];
      assert s[n..] == init[n..] + [s[|s| - 1]];
    }
  }

  lemma {:induction false} TrimStartOf(pre: string, core: string)
    requires AllSpace(pre) && (|core| > 0 ==> !IsSpace(core[0]))
    ensures TrimStart(pre + core) == core
    decreases |pre|
  {
    if |pre| == 0 {
      assert pre + core == core;
    } else {
      assert pre[0] in pre;
      assert (pre + core)[1..] == pre[1..] + core;
      TrimStartOf(pre[1..], core);
    }
  }

  lemma {:induction false} TrimEndOf(core: string, post: string)
    requires AllSpace(post) && (|core| > 0 ==> !IsSpace(core[|core| - 1]))
    ensures TrimEnd(core + post) == core
    decreases |post|
  {
    if |post| == 0 {
      assert core + post == core;
    } else {
      assert post[|post| - 1] in post;
      assert (core + post)[..|core + post| - 1] == core + post[..|post| - 1];
      TrimEndOf(core, post[..|post| - 1]);
    }
  }

  lemma TrimOf(pre: string, core: string, post: string)
    requires AllSpace(pre) && AllSpace(post)
    requires |core| > 0 && !IsSpace(core[0]) && !IsSpace(core[|core| - 1])
    ensures Trim(pre + core + post) == core
  {
    assert pre + core + post == pre + (core + post);
    TrimStartOf(pre, core + post);
    TrimEndOf(core, post);
  }

  lemma TrimSplits(s: string) returns (pre: string, post: string)
    ensures s == pre + Trim(s) + post && AllSpace(pre) && AllSpace(post)
  {
    var right := TrimStart(s);
    TrimStartSplits(s);
    TrimEndSplits(right);
    pre, post := s[..|s| - |right|], right[|Trim(s)|..];
  }

  lemma TrimKeeps(s: string, c: char)
    requires c in s && !IsSpace(c)
    ensures c in Trim(s)
  {
    var pre, post := TrimSplits(s);
  }

  /** A text that begins and ends with visible characters, between blanks. */
  lemma TrimOfVisible(core: string, post: string)
    requires AllSpace(post) && |core| > 0 && !IsSpace(core[0]) && !IsSpace(core[|core| - 1])
    ensures Trim(core + post) == core
  {
    TrimOf("", core, post);
    assert "" + core + post == core + post;
  }

  /* ---------- searching ---------- */

  /** `find`: the first index at which `pattern` starts. */
  function Find(s: string, pattern: string): (r: Option<nat>)
    ensures r.Some? ==> r.value + |pattern| <= |s|
    decreases |s|
  {
    if pattern <= s then Some(0)
    else if |s| == 0 then None
    else match Find(s[1..], pattern)
      case Some(i) => Some(i + 1)
      case None => None
  }

  predicate Occurs(s: string, pattern: string) {
    exists i :: 0 <= i <= |s| && pattern <= s[i..]
  }

  lemma {:induction false} FindNone(s: string, pattern: string)
    ensures Find(s, pattern).None? <==> !Occurs(s, pattern)
    decreases |s|
  {
    if pattern <= s {
      assert s[0..] == s;
    } else if |s| > 0 {
      FindNone(s[1..], pattern);
      forall i | 0 <= i <= |s| && pattern <= s[i..] ensures Occurs(s[1..], pattern) {
        assert i > 0 by { assert s[0..] == s; }
        assert s[1..][i - 1..] == s[i..];
      }
      forall i | 0 <= i <= |s[1..]| && pattern <= s[1..][i..] ensures Occurs(s, pattern) {
        assert s[i + 1..] == s[1..][i..];
      }
    } else {
      assert forall i :: 0 <= i <= |s| ==> s[i..] == s;
    }
  }

  /** What is found is an occurrence, and the first. */
  lemma {:induction false} FindSome(s: string, pattern: string)
    requires Find(s, pattern).Some?
    ensures pattern <= s[Find(s, pattern).value..]
    ensures forall i :: 0 <= i < Find(s, pattern).value ==> !(pattern <= s[i..])
    decreases |s|
  {
    assert s[0..] == s;
    if !(pattern <= s) {
      FindSome(s[1..], pattern);
      assert forall i :: 0 < i <= |s| ==> s[i..] == s[1..][i - 1..];
    }
  }

  /** If the pattern starts nowhere inside `before`, it is found right after it. */
  lemma {:induction false} FindAfter(before: string, pattern: string, after: string)
    requires forall i :: 0 <= i < |before| ==> !(pattern <= (before + pattern + after)[i..])
    ensures Find(before + pattern + after, pattern) == Some(|before|)
    decreases |before|
  {
    var s := before + pattern + after;
    if |before| == 0 {
      assert s == pattern + after;
    } else {
      assert s[0..] == s;
      assert s[1..] == before[1..] + pattern + after;
      forall i | 0 <= i < |before[1..]| ensures !(pattern <= s[1..][i..]) {
        assert s[1..][i..] == s[i + 1..];
      }
      FindAfter(before[1..], pattern, after);
    }
  }

  /** Whole lines that do not hold the pattern. */
  ghost predicate Noise(s: string, pattern: string) {
    (s == "" || s[|s| - 1] == '\n') && !Occurs(s, pattern)
  }

  /** A pattern that starts inside whole lines ends inside them, or spans a newline. */
  lemma StartInLines(before: string, rest: string, i: nat, pattern: string)
    requires i < |before| && before[|before| - 1] == '\n' && pattern <= (before + rest)[i..]
    ensures '\n' in pattern || pattern <= before[i..]
  {
    var s := before + rest;
    if i + |pattern| <= |before| {
      assert before[i..][..|pattern|] == s[i..][..|pattern|];
    } else {
      assert pattern[|before| - 1 - i] == s[i..][|before| - 1 - i] == '\n';
    }
  }

  /** A one-line pattern starts nowhere inside noise. */
  lemma NoiseHidesNothing(before: string, pattern: string, after: string)
    requires Noise(before, pattern) && '\n' !in pattern && |pattern| > 0
    ensures Find(before + pattern + after, pattern) == Some(|before|)
  {
    var s := before + pattern + after;
    assert s == before + (pattern + after);
    forall i | 0 <= i < |before| ensures pattern <= s[i..] ==> Occurs(before, pattern) {
      if pattern <= s[i..] {
        StartInLines(before, pattern + after, i, pattern);
      }
    }
    FindAfter(before, pattern, after);
  }

  /** A pattern found in two texts on separate lines is found in one of them, or spans a newline. */
  lemma OccursAcrossLines(a: string, b: string, pattern: string)
    requires |pattern| > 0 && Occurs(a + "\n" + b, pattern)
    ensures '\n' in pattern || Occurs(a, pattern) || Occurs(b, pattern)
  {
    var s := a + "\n" + b;
    var i :| 0 <= i <= |s| && pattern <= s[i..];
    if i <= |a| {
      assert s == (a + "\n") + b;
      StartInLines(a + "\n", b, i, pattern);
      if pattern <= (a + "\n")[i..] {
        StartBeforeNewline(a, i, pattern);
      }
    } else {
      assert b[i - |a| - 1..] == s[i..];
    }
  }

  lemma StartBeforeNewline(a: string, i: nat, pattern: string)
    requires i <= |a| && |pattern| > 0 && pattern <= (a + "\n")[i..]
    ensures '\n' in pattern || Occurs(a, pattern)
  {
    var s := a + "\n";
    if i + |pattern| <= |a| {
      assert a[i..][..|pattern|] == s[i..][..|pattern|];
    } else {
      assert pattern[|a| - i] == s[i..][|a| - i] == '\n';
    }
  }

  lemma OccursInWhole(a: string, rest: string, pattern: string)
    requires Occurs(a, pattern)
    ensures Occurs(a + rest, pattern)
  {
    var i :| 0 <= i <= |a| && pattern <= a[i..];
    assert (a + rest)[i..][..|pattern|] == a[i..][..|pattern|];
  }

  lemma NoiseConcat(a: string, b: string, pattern: string)
    requires Noise(a, pattern) && Noise(b, pattern) && '\n' !in pattern && |pattern| > 0
    ensures Noise(a + b, pattern)
  {
    if a == "" {
      assert a + b == b;
    } else {
      var init := a[..|a| - 1];
      assert a == init + "\n" && a + b == init + "\n" + b;
      if Occurs(a + b, pattern) {
        OccursAcrossLines(init, b, pattern);
        if Occurs(init, pattern) { OccursInWhole(init, "\n", pattern); }
      }
    }
  }

  /* ---------- lines ---------- */

  /** The lines of a text, split at newlines. */
  function SplitLines(s: string): seq<string>
    decreases |s|
  {
    if |s| == 0 then [""]
    else if s[0] == '\n' then [""] + SplitLines(s[1..])
    else var rest := SplitLines(s[1..]); [[s[0]] + rest[0]] + rest[1..]
  }

  function LinesText(lines: seq<string>): string {
    if |lines| == 0 then "" else lines[0] + "\n" + LinesText(lines[1..])
  }

  lemma {:induction false} SplitFirstLine(line: string, rest: string)
    requires '\n' !in line
    ensures SplitLines(line + "\n" + rest) == [line] + SplitLines(rest)
    decreases |line|
  {
    var s := line + "\n" + rest;
    if |line| == 0 {
      assert s[1..] == rest;
    } else {
      assert line[0] in line && s[0] == line[0];
      assert s[1..] == line[1..] + "\n" + rest;
      SplitFirstLine(line[1..], rest);
      assert [line[0]] + line[1..] == line;
      assert ([line[1..]] + SplitLines(rest))[1..] == SplitLines(rest);
    }
  }

  lemma {:induction false} SplitLinesOf(lines: seq<string>)
    requires forall l :: l in lines ==> '\n' !in l
    ensures SplitLines(LinesText(lines)) == lines + [""]
    decreases |lines|
  {
    if |lines| > 0 {
      assert lines[0] in lines;
      SplitFirstLine(lines[0], LinesText(lines[1..]));
      SplitLinesOf(lines[1..]);
      assert lines + [""] == [lines[0]] + (lines[1..] + [""]);
    }
  }

  lemma {:induction false} LinesAreNoise(lines: seq<string>, pattern: string)
    requires '\n' !in pattern && |pattern| > 0 && forall l :: l in lines ==> !Occurs(l, pattern)
    ensures Noise(LinesText(lines), pattern)
    decreases |lines|
  {
    if |lines| == 0 {
      assert forall i :: 0 <= i <= 0 ==> ""[i..] == "";
    } else {
      assert lines[0] in lines;
      LinesAreNoise(lines[1..], pattern);
      if Occurs(LinesText(lines), pattern) {
        OccursAcrossLines(lines[0], LinesText(lines[1..]), pattern);
      }
    }
  }
}
