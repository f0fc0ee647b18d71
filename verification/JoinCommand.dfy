/** The join command a relay prints, read back by the shell, the agent's flag parser and the relay's check. */
module JoinCommand {
  import opened Wire
  import opened RelayRules
  import AgentProcess
  import Fingerprint
  import opened ShellWords

  /* ---------- numbers and splits ---------- */

  predicate IsDigit(c: char) { '0' <= c <= '9' }

  function DigitOf(c: char): nat
    requires IsDigit(c)
  {
    c as int - '0' as int
  }

  function Decimal(n: nat): string {
    (if n < 10 then "" else Decimal(n / 10)) + [DigitChar(n % 10)]
  }

  predicate AllDigits(s: string) { forall c :: c in s ==> IsDigit(c) }

  function DecimalValue(s: string): nat
    requires AllDigits(s)
  {
    if |s| == 0 then 0
    else
      assert s[|s| - 1] in s;
      DecimalValue(s[..|s| - 1]) * 10 + DigitOf(s[|s| - 1])
  }

  const U16_LIMIT: nat := 65536

  /** `parse::<u16>()`: decimal digits, with an optional plus sign, below 65536. */
  function ParseU16(s: string): Option<nat> {
    var digits := if |s| > 0 && s[0] == '+' then s[1..] else s;
    if |digits| > 0 && AllDigits(digits) && DecimalValue(digits) < U16_LIMIT then Some(DecimalValue(digits)) else None
  }

  /** `split_once`: at the first `c`. */
  function SplitOnce(s: string, c: char): Option<(string, string)> {
    if |s| == 0 then None
    else if s[0] == c then Some(("", s[1..]))
    else match SplitOnce(s[1..], c)
      case None => None
      case Some(p) => Some(([s[0]] + p.0, p.1))
  }

  /** `rsplit_once`: at the last `c`. */
  function RSplitOnce(s: string, c: char): Option<(string, string)> {
    if |s| == 0 then None
    else if s[|s| - 1] == c then Some((s[..|s| - 1], ""))
    else match RSplitOnce(s[..|s| - 1], c)
      case None => None
      case Some(p) => Some((p.0, p.1 + [s[|s| - 1]]))
  }

  function DigitChar(d: nat): char
    requires d < 10
  {
    ('0' as int + d) as char
  }

  lemma DigitCharRoundTrip(d: nat)
    requires d < 10
    ensures IsDigit(DigitChar(d)) && DigitOf(DigitChar(d)) == d
  {
  }

  lemma DecimalValueAppend(s: string, c: char)
    requires AllDigits(s) && IsDigit(c)
    ensures AllDigits(s + [c]) && DecimalValue(s + [c]) == DecimalValue(s) * 10 + DigitOf(c)
  {
    assert (s + [c])[..|s|] == s;
  }

  /** `text` is the decimal rendering of `n`, as far as reading it back goes. */
  predicate Denotes(text: string, n: nat) {
    |text| > 0 && AllDigits(text) && DecimalValue(text) == n
  }

  lemma DenotesAppend(text: string, q: nat, d: nat)
    requires AllDigits(text) && DecimalValue(text) == q && d < 10
    ensures Denotes(text + [DigitChar(d)], q * 10 + d)
  {
    DigitCharRoundTrip(d);
    DecimalValueAppend(text, DigitChar(d));
  }

  lemma {:induction false} DecimalRoundTrip(n: nat)
    ensures Denotes(Decimal(n), n)
  {
    if n < 10 {
      DenotesAppend("", 0, n);
    } else {
      DecimalRoundTrip(n / 10);
      DenotesAppend(Decimal(n / 10), n / 10, n % 10);
    }
  }

  lemma ParseDenoted(text: string, n: nat)
    requires Denotes(text, n) && n < U16_LIMIT
    ensures ParseU16(text) == Some(n) && ':' !in text
  {
    assert text[0] in text;
  }

  lemma PortRoundTrip(n: nat)
    requires n < U16_LIMIT
    ensures ParseU16(Decimal(n)) == Some(n) && ':' !in Decimal(n)
  {
    DecimalRoundTrip(n);
    ParseDenoted(Decimal(n), n);
  }

  lemma {:induction false} SplitOnceAt(a: string, c: char, b: string)
    requires c !in a
    ensures SplitOnce(a + [c] + b, c) == Some((a, b))
    decreases |a|
  {
    var s := a + [c] + b;
    if |a| == 0 {
      assert s[1..] == b;
    } else {
      assert a[0] in a;
      assert s[1..] == a[1..] + [c] + b;
      SplitOnceAt(a[1..], c, b);
      assert [a[0]] + a[1..] == a;
    }
  }

  lemma {:induction false} SplitOnceFirst(s: string, c: char)
    requires SplitOnce(s, c).Some?
    ensures c !in SplitOnce(s, c).value.0
    decreases |s|
  {
    if s[0] != c {
      SplitOnceFirst(s[1..], c);
    }
  }

  lemma {:induction false} RSplitOnceAt(a: string, c: char, b: string)
    requires c !in b
    ensures RSplitOnce(a + [c] + b, c) == Some((a, b))
    decreases |b|
  {
    var s := a + [c] + b;
    if |b| == 0 {
      assert s[..|s| - 1] == a;
    } else {
      var init, last := b[..|b| - 1], b[|b| - 1];
      assert last in b && s[|s| - 1] == last;
      assert s[..|s| - 1] == a + [c] + init;
      RSplitOnceAt(a, c, init);
      assert init + [last] == b;
    }
  }

  /* ---------- one exposed target as text ---------- */

  datatype ExposeRequest = ExposeRequest(name: string, target: TunnelEndpoint)

  function ParseExpose(value: string): Option<ExposeRequest> {
    match SplitOnce(value, '=')
    case None => None
    case Some(at) =>
      match RSplitOnce(at.1, ':')
      case None => None
      case Some(target) =>
        match ParseU16(target.1)
        case None => None
        case Some(port) =>
          if at.0 == "" || target.0 == "" then None
          else Some(ExposeRequest(at.0, TunnelEndpoint(target.0, port)))
  }

  function ExposeText(t: TunnelSpec): string {
    t.name + "=" + t.target.host + ":" + Decimal(t.target.port)
  }

  function RequestOf(t: TunnelSpec): ExposeRequest {
    ExposeRequest(t.name, t.target)
  }

  /** The printed text of a tunnel is read back as that tunnel exactly when its name is non-empty and
      free of '=' and its host is non-empty. */
  lemma ExposeRoundTrip(t: TunnelSpec)
    requires t.target.port < U16_LIMIT
    ensures ParseExpose(ExposeText(t)) == Some(RequestOf(t)) <==> t.name != "" && '=' !in t.name && t.target.host != ""
  {
    var target := t.target.host + ":" + Decimal(t.target.port);
    assert ExposeText(t) == t.name + ['='] + target;
    if '=' in t.name {
      if SplitOnce(ExposeText(t), '=').Some? {
        SplitOnceFirst(ExposeText(t), '=');
      }
    } else {
      SplitOnceAt(t.name, '=', target);
      PortRoundTrip(t.target.port);
      RSplitOnceAt(t.target.host, ':', Decimal(t.target.port));
    }
  }

  /** `From<ExposeRequest> for TunnelSpec`: the kind follows from the name. */
  function ToSpec(r: ExposeRequest): TunnelSpec {
    TunnelSpec(r.name, if r.name == "ssh" then Ssh else if r.name == "rdp" then Rdp else Tcp, r.target)
  }

  const SSH_TUNNEL := TunnelSpec("ssh", Ssh, TunnelEndpoint("127.0.0.1", 22))
  const RDP_TUNNEL := TunnelSpec("rdp", Rdp, TunnelEndpoint("127.0.0.1", 3389))

  function DefaultExposes(windows: bool): seq<TunnelSpec> {
    if windows then [SSH_TUNNEL, RDP_TUNNEL] else [SSH_TUNNEL]
  }

  /** `plan_join`: without any requested target the agent falls back to its defaults. */
  function PlanExposes(requests: seq<ExposeRequest>, windows: bool): seq<TunnelSpec> {
    if |requests| == 0 then DefaultExposes(windows)
    else seq(|requests|, i requires 0 <= i < |requests| => ToSpec(requests[i]))
  }

  /* ---------- the printed command ---------- */

  type Flag = (string, string)

  function TcpFlags(tunnels: seq<TunnelSpec>): seq<Flag> {
    seq(|tunnels|, i requires 0 <= i < |tunnels| => ("--tcp", ExposeText(tunnels[i])))
  }

  function OptionalFlag(name: string, value: Option<string>): seq<Flag> {
    if value.Some? then [(name, value.value)] else []
  }

  function PinText(pin: Option<string>): Option<string> {
    if pin.Some? then Some(Fingerprint.Display(pin.value)) else None
  }

  /** Everything the relay tells the agent, flag by flag. */
  function JoinFlags(url: string, code: SessionCode, device: Option<string>, tunnels: seq<TunnelSpec>,
                     pin: Option<string>): seq<Flag> {
    [("--relay", url), ("--code", code)]
    + OptionalFlag("--relay-fingerprint", PinText(pin)) + OptionalFlag("--device", device) + TcpFlags(tunnels)
  }

  function OneFlag(flag: Flag): string {
    " " + flag.0 + " " + Quote(flag.1)
  }

  function FlagText(flags: seq<Flag>): string {
    if |flags| == 0 then "" else FlagText(flags[..|flags| - 1]) + OneFlag(flags[|flags| - 1])
  }

  const JOIN := "relaykit-agent join"

  lemma SpacedFlags()
    ensures " --relay " == " " + "--relay" + " "
    ensures " --code " == " " + "--code" + " "
    ensures " --relay-fingerprint " == " " + "--relay-fingerprint" + " "
    ensures " --device " == " " + "--device" + " "
    ensures " --tcp " == " " + "--tcp" + " "
  {
  }

  lemma TcpFlagsAppend(tunnels: seq<TunnelSpec>, i: nat)
    requires i < |tunnels|
    ensures TcpFlags(tunnels[..i + 1]) == TcpFlags(tunnels[..i]) + [("--tcp", ExposeText(tunnels[i]))]
  {
  }

  lemma FlagAppend(flags: seq<Flag>, name: string, value: string, spaced: string)
    requires spaced == " " + name + " "
    ensures JOIN + FlagText(flags + [(name, value)]) == JOIN + FlagText(flags) + spaced + Quote(value)
  {
    assert (flags + [(name, value)])[..|flags|] == flags;
    assert OneFlag((name, value)) == spaced + Quote(value);
  }

  lemma HeadText(url: string, code: string, flags: seq<Flag>)
    requires flags == [("--relay", url), ("--code", code)]
    ensures JOIN + " --relay " + Quote(url) + " --code " + Quote(code) == JOIN + FlagText(flags)
  {
    var none: seq<Flag> := [];
    var relay := none + [("--relay", url)];
    var both := relay + [("--code", code)];
    SpacedFlags();
    FlagAppend(none, "--relay", url, " --relay ");
    FlagAppend(relay, "--code", code, " --code ");
    assert JOIN + FlagText(none) == JOIN;
    assert JOIN + FlagText(relay) == JOIN + " --relay " + Quote(url);
    assert JOIN + FlagText(both) == JOIN + " --relay " + Quote(url) + " --code " + Quote(code);
    assert both == flags;
  }

  /** The flags before the tunnels. */
  method AgentCommandHead(url: string, code: SessionCode, device: Option<string>, pin: Option<string>)
    returns (command: string)
    ensures command == JOIN + FlagText(JoinFlags(url, code, device, [], pin))
  {
    ghost var flags: seq<Flag> := [("--relay", url), ("--code", code)];
    command := JOIN + " --relay " + Quote(url) + " --code " + Quote(code);
    HeadText(url, code, flags);
    ghost var pinned := flags + OptionalFlag("--relay-fingerprint", PinText(pin));
    if pin.Some? {
      command := command + " --relay-fingerprint " + Quote(Fingerprint.Display(pin.value));
    }
    PinAppend(flags, pin);
    ghost var labelled := pinned + OptionalFlag("--device", device);
    if device.Some? {
      command := command + " --device " + Quote(device.value);
    }
    DeviceAppend(pinned, device);
    assert JoinFlags(url, code, device, [], pin) == labelled + TcpFlags([]) == labelled;
  }

  lemma PinAppend(flags: seq<Flag>, pin: Option<string>)
    ensures JOIN + FlagText(flags + OptionalFlag("--relay-fingerprint", PinText(pin))) ==
              if pin.Some? then JOIN + FlagText(flags) + " --relay-fingerprint " + Quote(Fingerprint.Display(pin.value))
              else JOIN + FlagText(flags)
  {
    if pin.Some? {
      SpacedFlags();
      FlagAppend(flags, "--relay-fingerprint", Fingerprint.Display(pin.value), " --relay-fingerprint ");
    } else {
      assert flags + OptionalFlag("--relay-fingerprint", PinText(pin)) == flags;
    }
  }

  lemma DeviceAppend(flags: seq<Flag>, device: Option<string>)
    ensures JOIN + FlagText(flags + OptionalFlag("--device", device)) ==
              if device.Some? then JOIN + FlagText(flags) + " --device " + Quote(device.value)
              else JOIN + FlagText(flags)
  {
    if device.Some? {
      SpacedFlags();
      FlagAppend(flags, "--device", device.value, " --device ");
    } else {
      assert flags + OptionalFlag("--device", device) == flags;
    }
  }

  /** `agent_command`, growing the command flag by flag. */
  method AgentCommand(url: string, code: SessionCode, device: Option<string>, tunnels: seq<TunnelSpec>,
                      pin: Option<string>)
    returns (command: string)
    ensures command == JOIN + FlagText(JoinFlags(url, code, device, tunnels, pin))
  {
    command := AgentCommandHead(url, code, device, pin);
    assert tunnels[..0] == [];
    for i := 0 to |tunnels|
      invariant command == JOIN + FlagText(JoinFlags(url, code, device, tunnels[..i], pin))
    {
      command := command + " --tcp " + Quote(ExposeText(tunnels[i]));
      OneMoreTunnel(url, code, device, tunnels, pin, i);
    }
    assert tunnels[..|tunnels|] == tunnels;
  }

  lemma OneMoreTunnel(url: string, code: SessionCode, device: Option<string>, tunnels: seq<TunnelSpec>,
                      pin: Option<string>, i: nat)
    requires i < |tunnels|
    ensures JOIN + FlagText(JoinFlags(url, code, device, tunnels[..i + 1], pin))
         == JOIN + FlagText(JoinFlags(url, code, device, tunnels[..i], pin)) + " --tcp " + Quote(ExposeText(tunnels[i]))
  {
    var flags := JoinFlags(url, code, device, tunnels[..i], pin);
    SpacedFlags();
    TcpFlagsAppend(tunnels, i);
    assert JoinFlags(url, code, device, tunnels[..i + 1], pin) == flags + [("--tcp", ExposeText(tunnels[i]))];
    FlagAppend(flags, "--tcp", ExposeText(tunnels[i]), " --tcp ");
  }

  /* ---------- the shell reads the command ---------- */

  function FlagWords(flags: seq<Flag>): seq<string> {
    if |flags| == 0 then [] else [flags[0].0, flags[0].1] + FlagWords(flags[1..])
  }

  predicate PlainFlags(flags: seq<Flag>) {
    forall i :: 0 <= i < |flags| ==> |flags[i].0| > 0 && forall c :: c in flags[i].0 ==> IsPlain(c)
  }

  lemma {:induction false} FlagTextHead(flags: seq<Flag>)
    requires |flags| > 0
    ensures FlagText(flags) == OneFlag(flags[0]) + FlagText(flags[1..])
    decreases |flags|
  {
    var init, last := flags[..|flags| - 1], flags[|flags| - 1];
    if |flags| == 1 {
      assert FlagText(init) == "" && FlagText(flags[1..]) == "";
    } else {
      FlagTextHead(init);
      assert flags[1..][..|flags| - 2] == init[1..];
      assert FlagText(flags[1..]) == FlagText(init[1..]) + OneFlag(last);
    }
  }

  lemma LexOneFlag(flag: Flag, tail: string, word: string)
    requires |flag.0| > 0 && forall c :: c in flag.0 ==> IsPlain(c)
    ensures Lex(OneFlag(flag) + tail, Bare, Some(word))
         == Prepend(Some(word), Prepend(Some(flag.0), Lex(tail, Bare, Some(flag.1))))
  {
    var value := Quote(flag.1) + tail;
    assert OneFlag(flag) + tail == " " + (flag.0 + (" " + value));
    LexBlank(flag.0 + (" " + value), Some(word));
    LexPlain(flag.0, " " + value, None);
    LexBlank(value, Some(flag.0));
    LexQuoted(flag.1, tail, None);
    assert "" + flag.0 == flag.0 && "" + flag.1 == flag.1;
  }

  lemma {:induction false} LexFlags(flags: seq<Flag>, word: string)
    requires PlainFlags(flags)
    ensures Lex(FlagText(flags), Bare, Some(word)) == Some([word] + FlagWords(flags))
    decreases |flags|
  {
    if |flags| == 0 {
      assert [word] + FlagWords(flags) == [word];
    } else {
      FlagTextHead(flags);
      LexOneFlag(flags[0], FlagText(flags[1..]), word);
      LexFlags(flags[1..], flags[0].1);
      TwoMoreWords(word, flags[0].0, flags[0].1, FlagWords(flags[1..]));
    }
  }

  lemma TwoMoreWords(word: string, name: string, value: string, rest: seq<string>)
    ensures Prepend(Some(word), Prepend(Some(name), Some([value] + rest))) == Some([word] + ([name, value] + rest))
  {
    assert [name] + ([value] + rest) == [name, value] + rest;
  }

  predicate IsWordChar(c: char) { 'a' <= c <= 'z' || c == '-' }

  lemma WordCharsArePlain(word: string)
    requires forall i :: 0 <= i < |word| ==> IsWordChar(word[i])
    ensures forall c :: c in word ==> IsPlain(c)
  {
  }

  lemma JoinIsPlain()
    ensures forall c :: c in "relaykit-agent" ==> IsPlain(c)
    ensures forall c :: c in "join" ==> IsPlain(c)
  {
    WordCharsArePlain("relaykit-agent");
    WordCharsArePlain("join");
  }

  lemma FlagNamesArePlain()
    ensures forall c :: c in "--relay" ==> IsPlain(c)
    ensures forall c :: c in "--code" ==> IsPlain(c)
    ensures forall c :: c in "--relay-fingerprint" ==> IsPlain(c)
    ensures forall c :: c in "--device" ==> IsPlain(c)
    ensures forall c :: c in "--tcp" ==> IsPlain(c)
  {
    WordCharsArePlain("--relay");
    WordCharsArePlain("--code");
    WordCharsArePlain("--relay-fingerprint");
    WordCharsArePlain("--device");
    WordCharsArePlain("--tcp");
  }

  lemma LexCommand(flags: seq<Flag>)
    requires PlainFlags(flags)
    ensures Words(JOIN + FlagText(flags)) == Some(["relaykit-agent", "join"] + FlagWords(flags))
  {
    JoinIsPlain();
    var program, command := "relaykit-agent", "join";
    var tail := FlagText(flags);
    assert JOIN == program + " " + command;
    assert JOIN + tail == program + " " + (command + tail);
    LexWord(program, command + tail);
    LexPlain(command, tail, None);
    assert "" + command == command;
    LexFlags(flags, command);
    assert [program, command] + FlagWords(flags) == [program] + ([command] + FlagWords(flags));
  }

  /* ---------- the agent reads the words ---------- */

  datatype JoinArgs = JoinArgs(relay: Option<string>, code: Option<SessionCode>, pin: Option<string>,
                               device: Option<string>, exposes: seq<ExposeRequest>)

  const NO_ARGS := JoinArgs(None, None, None, None, [])

  predicate IsCodeChar(c: char) {
    '0' <= c <= '9' || 'a' <= c <= 'z' || 'A' <= c <= 'Z' || c == '-' || c == '_'
  }

  predicate ValidCode(code: string) {
    4 <= |code| <= 64 && forall c :: c in code ==> IsCodeChar(c)
  }

  /** A word the flag parser takes for a flag of its own. */
  predicate LooksLikeFlag(word: string) {
    |word| > 1 && word[0] == '-'
  }

  /** One flag with its value. Only `--tcp` may be repeated. */
  function Accept(args: JoinArgs, name: string, value: string): Option<JoinArgs> {
    if LooksLikeFlag(value) then None
    else if name == "--relay" then (if args.relay.None? then Some(args.(relay := Some(value))) else None)
    else if name == "--code" then
      (if args.code.None? && ValidCode(value) then Some(args.(code := Some(value))) else None)
    else if name == "--relay-fingerprint" then
      var pin := Fingerprint.Parse(value);
      if args.pin.None? && pin.Some? then Some(args.(pin := pin)) else None
    else if name == "--device" then (if args.device.None? then Some(args.(device := Some(value))) else None)
    else if name == "--tcp" then
      match ParseExpose(value)
      case Some(request) => Some(args.(exposes := args.exposes + [request]))
      case None => None
    else None
  }

  function ParseFlags(words: seq<string>, args: JoinArgs): Option<JoinArgs> {
    if |words| == 0 then Some(args)
    else if |words| == 1 then None
    else
      match Accept(args, words[0], words[1])
      case Some(more) => ParseFlags(words[2..], more)
      case None => None
  }

  /** The program name, the subcommand, and its flags; the relay and the code are required. */
  function ParseCommand(words: seq<string>): Option<JoinArgs> {
    if |words| < 2 || words[1] != "join" then None
    else
      var args := ParseFlags(words[2..], NO_ARGS);
      if args.Some? && args.value.relay.Some? && args.value.code.Some? then args else None
  }

  /** Accepting a list of flags one after the other. */
  function AcceptAll(args: JoinArgs, flags: seq<Flag>): Option<JoinArgs> {
    if |flags| == 0 then Some(args)
    else
      match AcceptAll(args, flags[..|flags| - 1])
      case Some(more) => Accept(more, flags[|flags| - 1].0, flags[|flags| - 1].1)
      case None => None
  }

  lemma {:induction false} AcceptAllHead(args: JoinArgs, flags: seq<Flag>)
    requires |flags| > 0
    ensures AcceptAll(args, flags) ==
              match Accept(args, flags[0].0, flags[0].1)
              case Some(more) => AcceptAll(more, flags[1..])
              case None => None
    decreases |flags|
  {
    if |flags| == 1 {
      assert flags[..0] == [] && flags[1..] == [];
    } else {
      var init := flags[..|flags| - 1];
      AcceptAllHead(args, init);
      assert flags[1..][..|flags| - 2] == init[1..];
    }
  }

  lemma {:induction false} ParseFlagsAccepts(flags: seq<Flag>, args: JoinArgs)
    ensures ParseFlags(FlagWords(flags), args) == AcceptAll(args, flags)
    decreases |flags|
  {
    if |flags| > 0 {
      AcceptAllHead(args, flags);
      assert FlagWords(flags)[2..] == FlagWords(flags[1..]);
      match Accept(args, flags[0].0, flags[0].1) {
        case Some(more) => ParseFlagsAccepts(flags[1..], more);
        case None =>
      }
    }
  }

  lemma {:induction false} AcceptConcat(args: JoinArgs, a: seq<Flag>, b: seq<Flag>)
    ensures AcceptAll(args, a + b) ==
              match AcceptAll(args, a)
              case Some(more) => AcceptAll(more, b)
              case None => None
    decreases |b|
  {
    if |b| == 0 {
      assert a + b == a;
    } else {
      assert (a + b)[..|a + b| - 1] == a + b[..|b| - 1];
      AcceptConcat(args, a, b[..|b| - 1]);
    }
  }

  /* ---------- what comes back ---------- */

  function Requests(tunnels: seq<TunnelSpec>): seq<ExposeRequest> {
    seq(|tunnels|, i requires 0 <= i < |tunnels| => RequestOf(tunnels[i]))
  }

  /** What the agent must have understood. */
  function Understood(url: string, code: SessionCode, device: Option<string>, tunnels: seq<TunnelSpec>,
                      pin: Option<string>): JoinArgs {
    JoinArgs(Some(url), Some(code), pin, device, Requests(tunnels))
  }

  predicate Printable(t: TunnelSpec) {
    t.name != "" && t.name[0] != '-' && '=' !in t.name && t.target.host != ""
  }

  predicate DistinctNames(tunnels: seq<TunnelSpec>) {
    forall i, j :: 0 <= i < j < |tunnels| ==> tunnels[i].name != tunnels[j].name
  }

  /** The tunnels a caller may ask a session for if its printed command is to work. */
  predicate Joinable(url: string, code: SessionCode, device: Option<string>, tunnels: seq<TunnelSpec>) {
    && !LooksLikeFlag(url) && !LooksLikeFlag(code) && (device.Some? ==> !LooksLikeFlag(device.value))
    && |tunnels| > 0 && (forall t :: t in tunnels ==> Printable(t)) && DistinctNames(tunnels)
  }

  /** What the Rust types of the command's ingredients guarantee: a valid code, a canonical pin, 16-bit ports. */
  predicate WellTyped(code: SessionCode, tunnels: seq<TunnelSpec>, pin: Option<string>) {
    && ValidCode(code) && (pin.Some? ==> Fingerprint.Canonical(pin.value))
    && forall t :: t in tunnels ==> t.target.port < U16_LIMIT
  }

  lemma PrintableAccepted(t: TunnelSpec)
    requires t.target.port < U16_LIMIT
    ensures Printable(t) <==> !LooksLikeFlag(ExposeText(t)) && ParseExpose(ExposeText(t)) == Some(RequestOf(t))
  {
    ExposeRoundTrip(t);
    if t.name != "" {
      assert ExposeText(t)[0] == t.name[0];
    }
  }

  /** One more `--tcp` flag gives back one more tunnel exactly when it is printable. */
  lemma AcceptTunnel(args: JoinArgs, expected: seq<ExposeRequest>, t: TunnelSpec)
    requires t.target.port < U16_LIMIT
    ensures var after := Accept(args, "--tcp", ExposeText(t));
      && (after.Some? ==> after.value == args.(exposes := after.value.exposes))
      && (after == Some(args.(exposes := expected + [RequestOf(t)])) <==> args.exposes == expected && Printable(t))
  {
    PrintableAccepted(t);
    if ParseExpose(ExposeText(t)).Some? {
      AppendInjective(args.exposes, ParseExpose(ExposeText(t)).value, expected, RequestOf(t));
    }
  }

  /** The `--tcp` flags give back the tunnels exactly when each of them is printable. */
  lemma {:induction false} AcceptTunnels(args: JoinArgs, tunnels: seq<TunnelSpec>)
    requires forall t :: t in tunnels ==> t.target.port < U16_LIMIT
    ensures var after := AcceptAll(args, TcpFlags(tunnels));
      && (after.Some? ==> after.value == args.(exposes := after.value.exposes))
      && (after == Some(args.(exposes := args.exposes + Requests(tunnels))) <==>
            forall t :: t in tunnels ==> Printable(t))
    decreases |tunnels|
  {
    if |tunnels| == 0 {
      assert args.exposes + Requests(tunnels) == args.exposes;
    } else {
      var init, t := tunnels[..|tunnels| - 1], tunnels[|tunnels| - 1];
      AcceptTunnels(args, init);
      assert tunnels == init + [t];
      assert TcpFlags(tunnels)[..|tunnels| - 1] == TcpFlags(init);
      assert args.exposes + Requests(tunnels) == (args.exposes + Requests(init)) + [RequestOf(t)];
      if AcceptAll(args, TcpFlags(init)).Some? {
        AcceptTunnel(AcceptAll(args, TcpFlags(init)).value, args.exposes + Requests(init), t);
      }
    }
  }

  lemma AppendInjective(a: seq<ExposeRequest>, x: ExposeRequest, b: seq<ExposeRequest>, y: ExposeRequest)
    ensures a + [x] == b + [y] <==> a == b && x == y
  {
    if a + [x] == b + [y] {
      assert (a + [x])[..|a|] == a && (b + [y])[..|b|] == b && (a + [x])[|a|] == x && (b + [y])[|b|] == y;
    }
  }

  function HeadFlags(url: string, code: SessionCode, device: Option<string>, pin: Option<string>): seq<Flag> {
    [("--relay", url), ("--code", code)]
    + OptionalFlag("--relay-fingerprint", PinText(pin)) + OptionalFlag("--device", device)
  }

  lemma AcceptOne(args: JoinArgs, flag: Flag)
    ensures AcceptAll(args, [flag]) == Accept(args, flag.0, flag.1)
  {
    assert [flag][..0] == [];
  }

  lemma AcceptPin(args: JoinArgs, pin: Option<string>)
    requires args.pin.None? && (pin.Some? ==> Fingerprint.Canonical(pin.value))
    ensures AcceptAll(args, OptionalFlag("--relay-fingerprint", PinText(pin))) == Some(args.(pin := pin))
  {
    if pin.Some? {
      AcceptOne(args, ("--relay-fingerprint", Fingerprint.Display(pin.value)));
      Fingerprint.ParseDisplay(pin.value);
      assert Fingerprint.Display(pin.value)[0] == 's';
    }
  }

  lemma AcceptDevice(args: JoinArgs, device: Option<string>)
    requires args.device.None?
    ensures AcceptAll(args, OptionalFlag("--device", device))
         == if device.Some? && LooksLikeFlag(device.value) then None else Some(args.(device := device))
  {
    if device.Some? {
      AcceptOne(args, ("--device", device.value));
    }
  }

  lemma AcceptRelayAndCode(url: string, code: SessionCode)
    requires ValidCode(code)
    ensures AcceptAll(NO_ARGS, [("--relay", url), ("--code", code)])
         == if LooksLikeFlag(url) || LooksLikeFlag(code) then None
            else Some(NO_ARGS.(relay := Some(url), code := Some(code)))
  {
    var flags: seq<Flag> := [("--relay", url), ("--code", code)];
    assert flags[..1] == [("--relay", url)];
    AcceptOne(NO_ARGS, ("--relay", url));
  }

  lemma AcceptHead(url: string, code: SessionCode, device: Option<string>, pin: Option<string>)
    requires ValidCode(code) && (pin.Some? ==> Fingerprint.Canonical(pin.value))
    ensures AcceptAll(NO_ARGS, HeadFlags(url, code, device, pin))
         == if LooksLikeFlag(url) || LooksLikeFlag(code) || (device.Some? && LooksLikeFlag(device.value)) then None
            else Some(Understood(url, code, device, [], pin))
  {
    var base: seq<Flag> := [("--relay", url), ("--code", code)];
    var pinFlag := OptionalFlag("--relay-fingerprint", PinText(pin));
    AcceptRelayAndCode(url, code);
    AcceptConcat(NO_ARGS, base, pinFlag);
    AcceptConcat(NO_ARGS, base + pinFlag, OptionalFlag("--device", device));
    if AcceptAll(NO_ARGS, base).Some? {
      var args := AcceptAll(NO_ARGS, base).value;
      AcceptPin(args, pin);
      AcceptDevice(args.(pin := pin), device);
      assert Requests([]) == [];
    }
  }

  lemma JoinFlagsArePlain(url: string, code: SessionCode, device: Option<string>, tunnels: seq<TunnelSpec>,
                          pin: Option<string>)
    ensures PlainFlags(JoinFlags(url, code, device, tunnels, pin))
  {
    FlagNamesArePlain();
    var flags := JoinFlags(url, code, device, tunnels, pin);
    assert forall i :: 0 <= i < |TcpFlags(tunnels)| ==> TcpFlags(tunnels)[i].0 == "--tcp";
    forall i | 0 <= i < |flags| ensures |flags[i].0| > 0 && forall c :: c in flags[i].0 ==> IsPlain(c) {
      assert flags[i].0 in ["--relay", "--code", "--relay-fingerprint", "--device", "--tcp"];
    }
  }

  /** The agent understands exactly what the relay printed, as long as no value looks like a flag and
      every tunnel is printable; otherwise it does not. */
  lemma UnderstoodExactly(url: string, code: SessionCode, device: Option<string>, tunnels: seq<TunnelSpec>,
                          pin: Option<string>)
    requires WellTyped(code, tunnels, pin)
    ensures Words(JOIN + FlagText(JoinFlags(url, code, device, tunnels, pin))).Some?
    ensures ParseCommand(Words(JOIN + FlagText(JoinFlags(url, code, device, tunnels, pin))).value)
              == Some(Understood(url, code, device, tunnels, pin))
            <==> !LooksLikeFlag(url) && !LooksLikeFlag(code) && (device.Some? ==> !LooksLikeFlag(device.value))
                 && forall t :: t in tunnels ==> Printable(t)
  {
    var flags := JoinFlags(url, code, device, tunnels, pin);
    var head := HeadFlags(url, code, device, pin);
    JoinFlagsArePlain(url, code, device, tunnels, pin);
    LexCommand(flags);
    assert (["relaykit-agent", "join"] + FlagWords(flags))[2..] == FlagWords(flags);
    ParseFlagsAccepts(flags, NO_ARGS);
    assert flags == head + TcpFlags(tunnels);
    AcceptConcat(NO_ARGS, head, TcpFlags(tunnels));
    AcceptHead(url, code, device, pin);
    if AcceptAll(NO_ARGS, head).Some? {
      AcceptTunnels(Understood(url, code, device, [], pin), tunnels);
      assert Requests([]) + Requests(tunnels) == Requests(tunnels);
    }
  }

  /* ---------- the relay accepts its own command ---------- */

  lemma OwnOffersAccepted(tunnels: seq<TunnelSpec>, offers: seq<TunnelOffer>)
    requires |offers| == |tunnels|
    requires forall i :: 0 <= i < |offers| ==>
              offers[i] == TunnelOffer(tunnels[i].name, tunnels[i].target.host, tunnels[i].target.port)
    ensures OffersError(tunnels, offers).None? <==> DistinctNames(tunnels)
  {
    OffersAccepted(tunnels, offers);
    if DistinctNames(tunnels) {
      forall i | 0 <= i < |offers|
        ensures FindTunnel(tunnels, offers[i].name).Some?
        ensures FindTunnel(tunnels, offers[i].name).value.target == TunnelEndpoint(offers[i].host, offers[i].port)
      {
        FindTunnelFirst(tunnels, tunnels[i].name);
        assert FindTunnel(tunnels, tunnels[i].name) == Some(tunnels[i]);
      }
    } else {
      var i, j :| 0 <= i < j < |tunnels| && tunnels[i].name == tunnels[j].name;
      assert offers[i].name == offers[j].name;
    }
  }

  lemma DefaultsRefused(windows: bool)
    ensures OffersError([], AgentProcess.Offers(DefaultExposes(windows))).Some?
  {
    OffersAccepted([], AgentProcess.Offers(DefaultExposes(windows)));
    assert FindTunnel([], AgentProcess.Offers(DefaultExposes(windows))[0].name).None?;
  }

  /** What the agent offers after understanding the command. */
  function OffersOf(args: JoinArgs, windows: bool): seq<TunnelOffer> {
    AgentProcess.Offers(PlanExposes(args.exposes, windows))
  }

  /** The printed command works: the agent recovers the relay, the code, the label, the pin and every
      tunnel, and the relay that printed it accepts the offers made from them. */
  predicate CommandWorks(url: string, code: SessionCode, device: Option<string>, tunnels: seq<TunnelSpec>,
                         pin: Option<string>, windows: bool) {
    var words := Words(JOIN + FlagText(JoinFlags(url, code, device, tunnels, pin)));
    var args := Understood(url, code, device, tunnels, pin);
    && words.Some? && ParseCommand(words.value) == Some(args)
    && OffersError(tunnels, OffersOf(args, windows)).None?
  }

  /** The join command works exactly when the session is joinable, whatever the agent's default tunnels. */
  lemma JoinCommandWorks(url: string, code: SessionCode, device: Option<string>, tunnels: seq<TunnelSpec>,
                         pin: Option<string>, windows: bool)
    requires WellTyped(code, tunnels, pin)
    ensures CommandWorks(url, code, device, tunnels, pin, windows) <==> Joinable(url, code, device, tunnels)
  {
    var args := Understood(url, code, device, tunnels, pin);
    UnderstoodExactly(url, code, device, tunnels, pin);
    if |tunnels| == 0 {
      assert tunnels == [];
      DefaultsRefused(windows);
    } else {
      OwnOffersAccepted(tunnels, OffersOf(args, windows));
    }
  }

  predicate IsUpperHex(c: char) { '0' <= c <= '9' || 'A' <= c <= 'F' }

  /** The codes the relay makes, `RK-` and twelve digits of a UUID, are accepted by the agent. */
  lemma OwnCodesAreValid(digits: string)
    requires |digits| == 12 && forall c :: c in digits ==> IsUpperHex(c)
    ensures ValidCode("RK-" + digits) && !LooksLikeFlag("RK-" + digits)
  {
  }

  /** So the command printed for a session the relay creates works exactly if its url, label and tunnels allow it. */
  lemma OwnCommandWorks(url: string, digits: string, device: Option<string>, tunnels: seq<TunnelSpec>,
                        pin: Option<string>, windows: bool)
    requires |digits| == 12 && forall c :: c in digits ==> IsUpperHex(c)
    requires pin.Some? ==> Fingerprint.Canonical(pin.value)
    requires forall t :: t in tunnels ==> t.target.port < U16_LIMIT
    ensures CommandWorks(url, "RK-" + digits, device, tunnels, pin, windows) <==>
              !LooksLikeFlag(url) && (device.Some? ==> !LooksLikeFlag(device.value))
              && |tunnels| > 0 && (forall t :: t in tunnels ==> Printable(t)) && DistinctNames(tunnels)
  {
    OwnCodesAreValid(digits);
    JoinCommandWorks(url, "RK-" + digits, device, tunnels, pin, windows);
  }

  /** A session may be created with a tunnel named `a=b`; the command printed for it never works, because
      the agent reads the name as `a`. */
  lemma EqualsSignBreaksCommand(url: string, code: SessionCode, device: Option<string>, pin: Option<string>,
                                windows: bool)
    requires WellTyped(code, [TunnelSpec("a=b", Tcp, TunnelEndpoint("h", 22))], pin)
    ensures !CommandWorks(url, code, device, [TunnelSpec("a=b", Tcp, TunnelEndpoint("h", 22))], pin, windows)
  {
    var t := TunnelSpec("a=b", Tcp, TunnelEndpoint("h", 22));
    JoinCommandWorks(url, code, device, [t], pin, windows);
    assert t.name[1] == '=';
    assert t in [t] && !Printable(t);
  }

  /** So is one created with two tunnels of one name. */
  lemma RepeatedNameBreaksCommand(url: string, code: SessionCode, device: Option<string>, pin: Option<string>,
                                  windows: bool, t: TunnelSpec)
    requires WellTyped(code, [t, t], pin)
    ensures !CommandWorks(url, code, device, [t, t], pin, windows)
  {
    JoinCommandWorks(url, code, device, [t, t], pin, windows);
    assert [t, t][0].name == [t, t][1].name;
  }
}
