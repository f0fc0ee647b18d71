/** Shell quoting against a lexer for the simple commands of the POSIX shell: quoting as in sections
    2.2.1 to 2.2.3 of the Shell Command Language of IEEE Std 1003.1-2017, tokens as in section 2.3. */
module ShellWords {
  import opened Wire

  /* ---------- the lexer ---------- */

  datatype Quoting = Bare | Single | Double

  predicate IsBlank(c: char) { c == ' ' || c == '\t' }

  /** Characters that start an operator, an expansion, a pattern or a comment when they are not quoted. */
  predicate IsSpecial(c: char) { c in "|&;<>()$`\n*?[#~!" }

  predicate IsPlain(c: char) { !IsBlank(c) && !IsSpecial(c) && c !in "'\"\\" }

  function Text(word: Option<string>): string {
    if word.Some? then word.value else ""
  }

  function Prepend(word: Option<string>, words: Option<seq<string>>): Option<seq<string>> {
    if word.Some? && words.Some? then Some([word.value] + words.value) else words
  }

  /** The words of a line: `word` is the token being collected. None if a quote is left open or if the
      line is not a plain list of words. */
  function Lex(line: string, quoting: Quoting, word: Option<string>): Option<seq<string>>
    decreases |line|
  {
    if |line| == 0 then (if quoting.Bare? then Some(if word.Some? then [word.value] else []) else None)
    else
      var c, rest := line[0], line[1..];
      match quoting
      case Single => if c == '\'' then Lex(rest, Bare, word) else Lex(rest, Single, Some(Text(word) + [c]))
      case Double =>
        if c == '"' then Lex(rest, Bare, word)
        else if c == '$' || c == '`' then None
        else if c == '\\' && |rest| > 0 && rest[0] == '\n' then Lex(rest[1..], Double, word)
        else if c == '\\' && |rest| > 0 && rest[0] in "$`\"\\" then Lex(rest[1..], Double, Some(Text(word) + [rest[0]]))
        else Lex(rest, Double, Some(Text(word) + [c]))
      case Bare =>
        if IsBlank(c) then Prepend(word, Lex(rest, Bare, None))
        else if c == '\'' then Lex(rest, Single, Some(Text(word)))
        else if c == '"' then Lex(rest, Double, Some(Text(word)))
        else if c == '\\' then
          if |rest| == 0 then None
          else if rest[0] == '\n' then Lex(rest[1..], Bare, word)
          else Lex(rest[1..], Bare, Some(Text(word) + [rest[0]]))
        else if IsSpecial(c) then None
        else Lex(rest, Bare, Some(Text(word) + [c]))
  }

  function Words(line: string): Option<seq<string>> {
    Lex(line, Bare, None)
  }

  /* ---------- the printer ---------- */

  /** `value.replace('\'', "'\\''")` */
  function Escaped(value: string): string {
    if |value| == 0 then ""
    else (if value[0] == '\'' then "'\\''" else [value[0]]) + Escaped(value[1..])
  }

  function Quote(value: string): string {
    "'" + Escaped(value) + "'"
  }

  /** Each word quoted, joined with single spaces. */
  function Joined(words: seq<string>): string {
    if |words| == 0 then ""
    else if |words| == 1 then Quote(words[0])
    else Quote(words[0]) + " " + Joined(words[1..])
  }

  datatype ExternalCommandPlan = ExternalCommandPlan(program: string, args: seq<string>) {
    function Display(): string {
      Joined([program] + args)
    }
  }

  /* ---------- quoting is inverted ---------- */

  lemma StepOver(c: char, tail: string)
    ensures ([c] + tail)[0] == c && ([c] + tail)[1..] == tail
  {
  }

  lemma LexClose(tail: string, word: Option<string>)
    ensures Lex(['\''] + tail, Single, word) == Lex(tail, Bare, word)
  {
    StepOver('\'', tail);
  }

  lemma LexOpen(tail: string, word: Option<string>)
    ensures Lex(['\''] + tail, Bare, word) == Lex(tail, Single, Some(Text(word)))
  {
    StepOver('\'', tail);
  }

  lemma LexBackslashQuote(tail: string, word: Option<string>)
    ensures Lex(['\\'] + (['\''] + tail), Bare, word) == Lex(tail, Bare, Some(Text(word) + ['\'']))
  {
    StepOver('\\', ['\''] + tail);
    StepOver('\'', tail);
  }

  lemma LexEscapedQuote(tail: string, collected: string)
    ensures Lex("'\\''" + tail, Single, Some(collected)) == Lex(tail, Single, Some(collected + ['\'']))
  {
    var again := ['\''] + tail;
    assert "'\\''" + tail == ['\''] + (['\\'] + (['\''] + again));
    LexClose(['\\'] + (['\''] + again), Some(collected));
    LexBackslashQuote(again, Some(collected));
    LexOpen(tail, Some(collected + ['\'']));
  }

  /** Inside single quotes an escaped value is read as the value. */
  lemma {:induction false} LexEscaped(value: string, tail: string, collected: string)
    ensures Lex(Escaped(value) + tail, Single, Some(collected)) == Lex(tail, Single, Some(collected + value))
    decreases |value|
  {
    if |value| == 0 {
      assert Escaped(value) + tail == tail && collected + value == collected;
    } else {
      var c, rest := value[0], value[1..];
      var more := Escaped(rest) + tail;
      assert collected + value == (collected + [c]) + rest;
      if c == '\'' {
        assert Escaped(value) + tail == "'\\''" + more;
        LexEscapedQuote(more, collected);
      } else {
        assert Escaped(value) + tail == [c] + more;
        StepOver(c, more);
      }
      LexEscaped(rest, tail, collected + [c]);
    }
  }

  /** Outside quotes a quoted value is read as the value, whatever follows it. */
  lemma LexQuoted(value: string, tail: string, word: Option<string>)
    ensures Lex(Quote(value) + tail, Bare, word) == Lex(tail, Bare, Some(Text(word) + value))
  {
    var inside := Escaped(value) + (['\''] + tail);
    assert Quote(value) + tail == ['\''] + inside;
    LexOpen(inside, word);
    LexEscaped(value, ['\''] + tail, Text(word));
    LexClose(tail, Some(Text(word) + value));
  }

  /** Plain characters stand for themselves. */
  lemma {:induction false} LexPlain(plain: string, tail: string, word: Option<string>)
    requires |plain| > 0 && forall c :: c in plain ==> IsPlain(c)
    ensures Lex(plain + tail, Bare, word) == Lex(tail, Bare, Some(Text(word) + plain))
    decreases |plain|
  {
    var c, rest := plain[0], plain[1..];
    assert plain + tail == [c] + (rest + tail) && c in plain;
    StepOver(c, rest + tail);
    assert Text(word) + plain == (Text(word) + [c]) + rest;
    if |rest| > 0 {
      LexPlain(rest, tail, Some(Text(word) + [c]));
    } else {
      assert rest + tail == tail && Text(word) + plain == Text(word) + [c];
    }
  }

  lemma LexBlank(tail: string, word: Option<string>)
    ensures Lex(" " + tail, Bare, word) == Prepend(word, Lex(tail, Bare, None))
  {
    StepOver(' ', tail);
  }

  lemma {:induction false} LexJoined(words: seq<string>)
    requires |words| > 0
    ensures Words(Joined(words)) == Some(words)
    decreases |words|
  {
    if |words| == 1 {
      assert Quote(words[0]) + "" == Quote(words[0]);
      LexQuoted(words[0], "", None);
      assert "" + words[0] == words[0];
      assert words == [words[0]];
    } else {
      var more := Joined(words[1..]);
      assert Joined(words) == Quote(words[0]) + (" " + more);
      LexQuoted(words[0], " " + more, None);
      assert "" + words[0] == words[0];
      LexBlank(more, Some(words[0]));
      LexJoined(words[1..]);
      assert words == [words[0]] + words[1..];
    }
  }

  /** A displayed command, typed into a shell, runs exactly the program with exactly the arguments. */
  lemma DisplayRoundTrip(plan: ExternalCommandPlan)
    ensures Words(plan.Display()) == Some([plan.program] + plan.args)
  {
    LexJoined([plan.program] + plan.args);
  }

  /** Different commands are displayed differently. */
  lemma DisplayInjective(p: ExternalCommandPlan, q: ExternalCommandPlan)
    requires p.Display() == q.Display()
    ensures p == q
  {
    DisplayRoundTrip(p);
    DisplayRoundTrip(q);
    assert ([p.program] + p.args)[0] == ([q.program] + q.args)[0];
    assert ([p.program] + p.args)[1..] == ([q.program] + q.args)[1..];
  }

  /* ---------- nesting ---------- */

  /** A script wrapped in `depth` further commands, each the quoted last argument of the next. */
  function Nested(prefix: seq<string>, script: string, depth: nat): string {
    if depth == 0 then script else Joined(prefix + [Nested(prefix, script, depth - 1)])
  }

  /** Lexing `depth` times, each time going on with the last word. */
  function Unnested(line: string, depth: nat): Option<string>
    decreases depth
  {
    if depth == 0 then Some(line)
    else
      var words := Words(line);
      if words.Some? && |words.value| > 0 then Unnested(words.value[|words.value| - 1], depth - 1) else None
  }

  /** Quoting is inverted at every nesting depth. */
  lemma {:induction false} NestedRoundTrip(prefix: seq<string>, script: string, depth: nat)
    ensures Unnested(Nested(prefix, script, depth), depth) == Some(script)
  {
    if depth > 0 {
      LexJoined(prefix + [Nested(prefix, script, depth - 1)]);
      NestedRoundTrip(prefix, script, depth - 1);
    }
  }

  /* ---------- scripts inside commands ---------- */

  lemma LexWord(plain: string, tail: string)
    requires |plain| > 0 && forall c :: c in plain ==> IsPlain(c)
    ensures Lex(plain + " " + tail, Bare, None) == Prepend(Some(plain), Lex(tail, Bare, None))
  {
    assert plain + " " + tail == plain + (" " + tail);
    LexPlain(plain, " " + tail, None);
    assert "" + plain == plain;
    LexBlank(tail, Some(plain));
  }

  lemma PlainWords()
    ensures forall c :: c in "sudo" ==> IsPlain(c)
    ensures forall c :: c in "sh" ==> IsPlain(c)
    ensures forall c :: c in "-c" ==> IsPlain(c)
  {
  }

  lemma LexLast(value: string)
    ensures Lex(Quote(value), Bare, None) == Some([value])
  {
    assert Quote(value) + "" == Quote(value);
    LexQuoted(value, "", None);
    assert "" + value == value;
  }

  /** With sudo, the shell on the remote host hands `sh -c` the script verbatim. */
  lemma SudoShRoundTrip(script: string)
    ensures Words("sudo sh -c " + Quote(script)) == Some(["sudo", "sh", "-c", script])
  {
    var q := Quote(script);
    var c := "-c" + " " + q;
    var sh := "sh" + " " + c;
    PlainWords();
    LexLast(script);
    OneMoreWord("-c", q, [script]);
    OneMoreWord("sh", c, ["-c"] + [script]);
    OneMoreWord("sudo", sh, ["sh"] + (["-c"] + [script]));
    assert "sudo sh -c " + q == "sudo" + " " + sh;
    assert ["sudo"] + (["sh"] + (["-c"] + [script])) == ["sudo", "sh", "-c", script];
  }

  lemma OneMoreWord(plain: string, tail: string, words: seq<string>)
    requires |plain| > 0 && (forall c :: c in plain ==> IsPlain(c)) && Lex(tail, Bare, None) == Some(words)
    ensures Lex(plain + " " + tail, Bare, None) == Some([plain] + words)
  {
    LexWord(plain, tail);
  }

  lemma SudoChecksumRoundTrip(artifactDir: string, artifact: string)
    ensures Words(ArtifactChecksumCommand(SUDO, artifactDir, artifact))
         == Some(["sudo", "sh", "-c", ChecksumScript(artifactDir, artifact)])
  {
    SudoShRoundTrip(ChecksumScript(artifactDir, artifact));
  }

  lemma SshRoundTrip(ssh: string, host: string, remote: string)
    ensures Words(ExternalCommandPlan(ssh, [host, remote]).Display()) == Some([ssh, host, remote])
  {
    var plan := ExternalCommandPlan(ssh, [host, remote]);
    DisplayRoundTrip(plan);
    assert [plan.program] + plan.args == [ssh, host, remote];
  }

  /** The script survives both shells: the one that reads the displayed ssh command, and the one the
      remote host starts. */
  lemma ChecksumThroughSsh(ssh: string, host: string, artifactDir: string, artifact: string)
    ensures var remote := ArtifactChecksumCommand(SUDO, artifactDir, artifact);
      && Words(ExternalCommandPlan(ssh, [host, remote]).Display()) == Some([ssh, host, remote])
      && Words(remote) == Some(["sudo", "sh", "-c", ChecksumScript(artifactDir, artifact)])
  {
    SshRoundTrip(ssh, host, ArtifactChecksumCommand(SUDO, artifactDir, artifact));
    SudoChecksumRoundTrip(artifactDir, artifact);
  }

  /** The command run on the remote host to verify an artifact. */
  function ChecksumScript(artifactDir: string, artifact: string): string {
    var name := artifact + ".sha256";
    "cd " + Quote(artifactDir) + " && test -s " + Quote(name)
    + " && (if command -v sha256sum >/dev/null 2>&1; then sha256sum -c " + Quote(name)
    + "; elif command -v shasum >/dev/null 2>&1; then shasum -a 256 -c " + Quote(name)
    + "; else echo 'sha256 verifier missing' >&2; exit 1; fi)"
  }

  const SUDO := "sudo "

  /** `sudo` is the empty string or the prefix above. */
  function ArtifactChecksumCommand(sudo: string, artifactDir: string, artifact: string): string {
    var inner := ChecksumScript(artifactDir, artifact);
    if sudo == "" then inner else "sudo sh -c " + Quote(inner)
  }
}
