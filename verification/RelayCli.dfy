/** Two loops of the operator's command line: waiting for the agent, and checking a deployed relay. */
module RelayCli {
  import opened Wire
  import opened ShellWords

  /* ---------- waiting for the agent ---------- */

  // Times are in nanoseconds.
  const POLL_PAUSE: nat := 2_000_000_000
  const PROGRESS_INTERVAL: nat := 10_000_000_000

  datatype Poll = AgentConnected | NoAgentYet | PollFailed
  datatype WaitOutcome = Connected | TimedOut | Broken

  function Min(a: int, b: int): int { if a < b then a else b }

  /** How long the loop sleeps after reading `now`. */
  function Pause(now: nat, deadline: nat): nat {
    Min(POLL_PAUSE, if now < deadline then deadline - now else 0)
  }

  /** `clock(i)` is the reading after poll `i`: the clock never runs back, and a sleep lasts at least as
      long as asked. */
  ghost predicate ClockOk(clock: nat -> nat, started: nat, deadline: nat) {
    && started <= clock(0)
    && forall i: nat :: clock(i) + Pause(clock(i), deadline) <= clock(i + 1)
  }

  function CeilDiv(a: nat, b: nat): nat
    requires b > 0
  {
    (a + b - 1) / b
  }

  lemma PollsBound(timeout: nat, n: nat)
    requires n * POLL_PAUSE < timeout
    ensures n + 1 <= CeilDiv(timeout, POLL_PAUSE)
  {
  }

  lemma IntervalsBound(timeout: nat, n: nat)
    requires n * PROGRESS_INTERVAL < timeout
    ensures n + 1 <= CeilDiv(timeout, PROGRESS_INTERVAL)
  {
  }

  /** The inner loop: whole intervals are added until the next line lies in the future. */
  method NextProgressAfter(next: nat, now: nat, started: nat) returns (later: nat)
    requires started < next <= now && (next - started) % PROGRESS_INTERVAL == 0
    ensures now < later <= now + PROGRESS_INTERVAL && (later - started) % PROGRESS_INTERVAL == 0
  {
    later := next;
    while later <= now
      invariant next <= later <= now + PROGRESS_INTERVAL && (later - started) % PROGRESS_INTERVAL == 0
    {
      later := later + PROGRESS_INTERVAL;
    }
  }

  /** The interval a time falls into, counted from the start. */
  function Interval(time: nat, started: nat): int {
    (time - started) / PROGRESS_INTERVAL
  }

  /** `lines` are times of progress lines: line `k` at least `k + 1` intervals after the start, each
      before the deadline, no two in one interval. */
  predicate LinesOk(lines: seq<nat>, started: nat, deadline: nat) {
    && (forall k :: 0 <= k < |lines| ==> started <= lines[k] < deadline && k + 1 <= Interval(lines[k], started))
    && (forall j, k :: 0 <= j < k < |lines| ==> Interval(lines[j], started) < Interval(lines[k], started))
  }

  /** A time before a whole number of intervals lies in an earlier interval than one after it. */
  lemma IntervalsApart(earlier: nat, next: nat, now: nat, started: nat)
    requires started <= earlier < next <= now && (next - started) % PROGRESS_INTERVAL == 0
    ensures Interval(earlier, started) < Interval(next, started) <= Interval(now, started)
  {
  }

  /** One more line, printed once the previous line's interval is over. */
  lemma OneMoreLine(lines: seq<nat>, started: nat, deadline: nat, next: nat, now: nat)
    requires LinesOk(lines, started, deadline) && started < next <= now < deadline
    requires (next - started) % PROGRESS_INTERVAL == 0 && (|lines| > 0 ==> lines[|lines| - 1] < next)
    ensures LinesOk(lines + [now], started, deadline)
  {
    var n := |lines|;
    IntervalsApart(started, next, now, started);
    if n > 0 {
      IntervalsApart(lines[n - 1], next, now, started);
      assert n <= Interval(lines[n - 1], started);
      assert forall j :: 0 <= j < n - 1 ==> Interval(lines[j], started) < Interval(lines[n - 1], started);
    }
    assert forall k :: 0 <= k < n ==> (lines + [now])[k] == lines[k];
  }

  /** What the loop knows of its progress variables. */
  predicate ProgressOk(lines: seq<nat>, next: nat, started: nat, deadline: nat) {
    && LinesOk(lines, started, deadline) && (|lines| > 0 ==> lines[|lines| - 1] < next)
    && next > started && (next - started) % PROGRESS_INTERVAL == 0
  }

  /** Prints a line if one is due. */
  method ReportProgress(lines: seq<nat>, next: nat, now: nat, started: nat, deadline: nat)
    returns (more: seq<nat>, later: nat)
    requires ProgressOk(lines, next, started, deadline) && now < deadline
    ensures ProgressOk(more, later, started, deadline) && now < later
    ensures more == if now >= next then lines + [now] else lines
  {
    more, later := lines, next;
    if now >= next {
      OneMoreLine(lines, started, deadline, next, now);
      more := lines + [now];
      later := NextProgressAfter(next, now, started);
    }
  }

  lemma LinesBound(lines: seq<nat>, started: nat, timeout: nat)
    requires LinesOk(lines, started, started + timeout) && |lines| > 0
    ensures |lines| + 1 <= CeilDiv(timeout, PROGRESS_INTERVAL)
  {
    var last := lines[|lines| - 1];
    assert |lines| <= Interval(last, started);
    IntervalsBound(timeout, |lines|);
  }

  /** Polls until the agent is there or the deadline has passed. `lines` are the times at which a
      progress line was printed. */
  method WaitForAgent(poll: nat -> Poll, clock: nat -> nat, started: nat, timeout: nat)
    returns (outcome: WaitOutcome, polls: nat, lines: seq<nat>, nextProgress: nat)
    requires ClockOk(clock, started, started + timeout)
    ensures polls > 0 && forall i: nat :: i < polls - 1 ==> poll(i).NoAgentYet? && clock(i) < started + timeout
    ensures outcome == match poll(polls - 1)
                       case AgentConnected => Connected
                       case PollFailed => Broken
                       case NoAgentYet => TimedOut
    ensures outcome.TimedOut? ==> started + timeout <= clock(polls - 1)
    ensures polls <= CeilDiv(timeout, POLL_PAUSE) + 1
    ensures ProgressOk(lines, nextProgress, started, started + timeout)
    ensures |lines| > 0 ==> |lines| + 1 <= CeilDiv(timeout, PROGRESS_INTERVAL)
  {
    var deadline := started + timeout;
    nextProgress := started + PROGRESS_INTERVAL;
    polls, lines := 0, [];
    ghost var left := timeout + 1;
    while true
      invariant forall i: nat :: i < polls ==> poll(i).NoAgentYet? && clock(i) < deadline
      invariant polls > 0 ==> started + (polls - 1) * POLL_PAUSE <= clock(polls - 1)
      invariant polls <= CeilDiv(timeout, POLL_PAUSE)
      invariant ProgressOk(lines, nextProgress, started, deadline)
      invariant left == if polls == 0 then timeout + 1 else deadline - clock(polls - 1)
      decreases left
    {
      if |lines| > 0 {
        LinesBound(lines, started, timeout);
      }
      var answer := poll(polls);
      polls := polls + 1;
      if answer.PollFailed? {
        return Broken, polls, lines, nextProgress;
      }
      if answer.AgentConnected? {
        return Connected, polls, lines, nextProgress;
      }
      var now := clock(polls - 1);
      ClockAdvances(clock, started, deadline, polls - 1);
      if now >= deadline {
        return TimedOut, polls, lines, nextProgress;
      }
      lines, nextProgress := ReportProgress(lines, nextProgress, now, started, deadline);
      PollsBound(timeout, polls - 1);
      left := deadline - now;
    }
  }

  /** Consecutive readings are a pause apart, unless the deadline came first. */
  lemma ClockAdvances(clock: nat -> nat, started: nat, deadline: nat, i: nat)
    requires ClockOk(clock, started, deadline)
    ensures i == 0 ==> started <= clock(0)
    ensures i > 0 ==> clock(i - 1) + Pause(clock(i - 1), deadline) <= clock(i)
  {
    if i > 0 {
      assert clock(i - 1) + Pause(clock(i - 1), deadline) <= clock(i - 1 + 1);
    }
  }

  /* ---------- checking a deployed relay ---------- */

  /** `port` is the port of the listen address. */
  datatype StatusRequest = StatusRequest(ssh: string, host: string, serviceName: string, artifactDir: string,
                                         artifacts: seq<string>, port: string, tls: bool, noSudo: bool, dryRun: bool)

  datatype ArtifactStatus = ArtifactStatus(name: string, remotePath: string, checksumPath: string,
                                           executable: Option<bool>, checksumVerified: Option<bool>)

  datatype StatusReport = StatusReport(commands: seq<ExternalCommandPlan>, artifacts: seq<ArtifactStatus>,
                                       active: Option<bool>, healthy: Option<bool>, status: string)

  datatype StatusError = Invalid(complaint: string) | NoArtifacts | CommandFailed(index: nat)
  datatype StatusResult = Report(report: StatusReport) | StatusFailed(error: StatusError)

  function SudoPrefix(noSudo: bool): string { if noSudo then "" else SUDO }

  function OnHost(request: StatusRequest, command: string): ExternalCommandPlan {
    ExternalCommandPlan(request.ssh, [request.host, command])
  }

  function HealthUrl(request: StatusRequest): string {
    (if request.tls then "https" else "http") + "://127.0.0.1:" + request.port + "/healthz"
  }

  function ActiveCommand(request: StatusRequest): ExternalCommandPlan {
    OnHost(request, "systemctl is-active --quiet " + request.serviceName + ".service")
  }

  function HealthCommand(request: StatusRequest): ExternalCommandPlan {
    OnHost(request, "curl " + (if request.tls then "-fsSk" else "-fsS") + " " + Quote(HealthUrl(request)))
  }

  function ExecutableCommand(request: StatusRequest, artifact: string): ExternalCommandPlan {
    OnHost(request, SudoPrefix(request.noSudo) + "test -x " + request.artifactDir + "/" + artifact)
  }

  function ChecksumCommand(request: StatusRequest, artifact: string): ExternalCommandPlan {
    OnHost(request, ArtifactChecksumCommand(SudoPrefix(request.noSudo), request.artifactDir, artifact))
  }

  function PlannedArtifact(request: StatusRequest, artifact: string): ArtifactStatus {
    var path := request.artifactDir + "/" + artifact;
    ArtifactStatus(artifact, path, path + ".sha256", None, None)
  }

  /* ---------- what the remote shell makes of the commands ---------- */

  /** The characters the validators let through in service names, directories and artifact names. */
  predicate IsSafeChar(c: char) {
    '0' <= c <= '9' || 'a' <= c <= 'z' || 'A' <= c <= 'Z' || c == '/' || c == '.' || c == '_' || c == '-'
  }

  predicate Safe(s: string) { |s| > 0 && forall i :: 0 <= i < |s| ==> IsSafeChar(s[i]) }

  lemma SafeIsPlain(s: string)
    requires Safe(s)
    ensures forall c :: c in s ==> IsPlain(c)
  {
  }

  lemma SafeWords()
    ensures Safe("systemctl") && Safe("is-active") && Safe("--quiet")
    ensures Safe("curl") && Safe("-fsSk") && Safe("-fsS") && Safe("sudo") && Safe("test") && Safe("-x")
  {
  }

  /** A safe word before the rest of a command. */
  lemma SafeWord(word: string, tail: string, words: seq<string>)
    requires Safe(word) && Words(tail) == Some(words)
    ensures Words(word + " " + tail) == Some([word] + words)
  {
    SafeIsPlain(word);
    OneMoreWord(word, tail, words);
  }

  lemma SafeLast(word: string)
    requires Safe(word)
    ensures Words(word) == Some([word])
  {
    SafeIsPlain(word);
    LexPlain(word, "", None);
    assert word + "" == word && "" + word == word;
  }

  /** The service manager is asked about the service's own unit. */
  lemma ActiveCommandRuns(request: StatusRequest)
    requires Safe(request.serviceName)
    ensures Words(ActiveCommand(request).args[1])
         == Some(["systemctl", "is-active", "--quiet", request.serviceName + ".service"])
  {
    var unit := request.serviceName + ".service";
    var quiet := "--quiet" + " " + unit;
    var active := "is-active" + " " + quiet;
    SafeWords();
    SafeLast(unit);
    SafeWord("--quiet", unit, [unit]);
    SafeWord("is-active", quiet, ["--quiet"] + [unit]);
    SafeWord("systemctl", active, ["is-active"] + (["--quiet"] + [unit]));
    assert "systemctl is-active --quiet " + request.serviceName + ".service" == "systemctl" + " " + active;
    assert ["systemctl"] + (["is-active"] + (["--quiet"] + [unit])) == ["systemctl", "is-active", "--quiet", unit];
  }

  lemma CurlRuns(flags: string, url: string)
    requires Safe(flags)
    ensures Words("curl " + flags + " " + Quote(url)) == Some(["curl", flags, url])
  {
    var tail := flags + " " + Quote(url);
    SafeWords();
    LexLast(url);
    SafeWord(flags, Quote(url), [url]);
    SafeWord("curl", tail, [flags] + [url]);
    assert "curl " + flags + " " + Quote(url) == "curl" + " " + tail;
    assert ["curl"] + ([flags] + [url]) == ["curl", flags, url];
  }

  /** A relay with TLS is asked over https, its certificate not checked; one without over http. */
  lemma HealthCommandRuns(request: StatusRequest)
    ensures Words(HealthCommand(request).args[1]) ==
              if request.tls then Some(["curl", "-fsSk", "https://127.0.0.1:" + request.port + "/healthz"])
              else Some(["curl", "-fsS", "http://127.0.0.1:" + request.port + "/healthz"])
  {
    SafeWords();
    if request.tls {
      assert HealthUrl(request) == "https://127.0.0.1:" + request.port + "/healthz";
      CurlRuns("-fsSk", HealthUrl(request));
    } else {
      assert HealthUrl(request) == "http://127.0.0.1:" + request.port + "/healthz";
      CurlRuns("-fsS", HealthUrl(request));
    }
  }

  /** The file tested is the one the report names, and its checksum file the one beside it. */
  lemma ExecutableCommandRuns(request: StatusRequest, artifact: string)
    requires Safe(request.artifactDir) && Safe(artifact)
    ensures var path := request.artifactDir + "/" + artifact;
      && Words(ExecutableCommand(request, artifact).args[1])
         == Some(if request.noSudo then ["test", "-x", path] else ["sudo", "test", "-x", path])
      && PlannedArtifact(request, artifact).name == artifact
      && PlannedArtifact(request, artifact).remotePath == path
      && PlannedArtifact(request, artifact).checksumPath == request.artifactDir + "/" + (artifact + ".sha256")
  {
    var path := request.artifactDir + "/" + artifact;
    var flag := "-x" + " " + path;
    var test := "test" + " " + flag;
    SafeWords();
    SafeLast(path);
    SafeWord("-x", path, [path]);
    SafeWord("test", flag, ["-x"] + [path]);
    assert ["test"] + (["-x"] + [path]) == ["test", "-x", path];
    if request.noSudo {
      assert SudoPrefix(request.noSudo) + "test -x " + request.artifactDir + "/" + artifact == test;
    } else {
      SafeWord("sudo", test, ["test", "-x", path]);
      assert SudoPrefix(request.noSudo) + "test -x " + request.artifactDir + "/" + artifact == "sudo" + " " + test;
      assert ["sudo"] + ["test", "-x", path] == ["sudo", "test", "-x", path];
    }
    assert path + ".sha256" == request.artifactDir + "/" + (artifact + ".sha256");
  }

  /** The displayed command, typed into a shell, runs the request's ssh with the host and the remote command. */
  lemma ThroughSsh(request: StatusRequest, command: string)
    ensures Words(OnHost(request, command).Display()) == Some([request.ssh, request.host, command])
  {
    SshRoundTrip(request.ssh, request.host, command);
  }

  const TO_SUM := " && (if command -v sha256sum >/dev/null 2>&1; then "
  const TO_SHASUM := "; elif command -v shasum >/dev/null 2>&1; then "
  const TO_END := "; else echo 'sha256 verifier missing' >&2; exit 1; fi)"

  /** The four commands of the checksum script. */
  predicate ScriptOf(script: string, enter: string, present: string, sum: string, shasum: string) {
    script == enter + " && " + present + TO_SUM + sum + TO_SHASUM + shasum + TO_END
  }

  /** The script enters the artifact's directory, looks for the checksum file beside the artifact, and has
      either verifier check that very file. */
  lemma ChecksumScriptChecks(artifactDir: string, artifact: string)
    ensures var name := artifact + ".sha256";
      exists enter, present, sum, shasum ::
        && ScriptOf(ChecksumScript(artifactDir, artifact), enter, present, sum, shasum)
        && Words(enter) == Some(["cd", artifactDir]) && Words(present) == Some(["test", "-s", name])
        && Words(sum) == Some(["sha256sum", "-c", name]) && Words(shasum) == Some(["shasum", "-a", "256", "-c", name])
  {
    var name := artifact + ".sha256";
    var q := Quote(name);
    ScriptWords();
    OneQuoted("cd", artifactDir);
    assert "cd" + " " == "cd ";
    TwoWords("test", "-s", name, "test -s ");
    TwoWords("sha256sum", "-c", name, "sha256sum -c ");
    FourWords(name);
    ScriptJoined(artifactDir, artifact);
  }

  lemma TwoWords(first: string, second: string, value: string, both: string)
    requires Safe(first) && Safe(second) && both == first + " " + second + " "
    ensures Words(both + Quote(value)) == Some([first, second, value])
  {
    OneQuoted(second, value);
    SafeWord(first, second + " " + Quote(value), [second, value]);
    assert both + Quote(value) == first + " " + (second + " " + Quote(value));
    assert [first] + [second, value] == [first, second, value];
  }

  lemma FourWords(value: string)
    ensures Words("shasum -a 256 -c " + Quote(value)) == Some(["shasum", "-a", "256", "-c", value])
  {
    ScriptWords();
    var tail := "256 -c " + Quote(value);
    TwoWords("256", "-c", value, "256 -c ");
    SafeWord("-a", tail, ["256", "-c", value]);
    SafeWord("shasum", "-a" + " " + tail, ["-a"] + ["256", "-c", value]);
    assert "shasum -a 256 -c " + Quote(value) == "shasum" + " " + ("-a" + " " + tail);
    assert ["shasum"] + (["-a"] + ["256", "-c", value]) == ["shasum", "-a", "256", "-c", value];
  }

  lemma Literals()
    ensures " && test -s " == " && " + "test -s "
    ensures " && (if command -v sha256sum >/dev/null 2>&1; then sha256sum -c " == TO_SUM + "sha256sum -c "
    ensures "; elif command -v shasum >/dev/null 2>&1; then shasum -a 256 -c " == TO_SHASUM + "shasum -a 256 -c "
  {
  }

  lemma Regrouped(enter: string, a: string, b: string, q: string, c: string, d: string, e: string, f: string, g: string)
    ensures enter + (a + b) + q + (c + d) + q + (e + f) + q + g == enter + a + (b + q) + c + (d + q) + e + (f + q) + g
  {
  }

  lemma ScriptJoined(artifactDir: string, artifact: string)
    ensures var q := Quote(artifact + ".sha256");
      ScriptOf(ChecksumScript(artifactDir, artifact), "cd " + Quote(artifactDir), "test -s " + q,
               "sha256sum -c " + q, "shasum -a 256 -c " + q)
  {
    Literals();
    Regrouped("cd " + Quote(artifactDir), " && ", "test -s ", Quote(artifact + ".sha256"), TO_SUM, "sha256sum -c ",
              TO_SHASUM, "shasum -a 256 -c ", TO_END);
  }

  lemma ScriptWords()
    ensures Safe("cd") && Safe("test") && Safe("-s") && Safe("sha256sum") && Safe("-c")
    ensures Safe("shasum") && Safe("-a") && Safe("256")
  {
  }

  lemma OneQuoted(word: string, value: string)
    requires Safe(word)
    ensures Words(word + " " + Quote(value)) == Some([word, value])
  {
    LexLast(value);
    SafeWord(word, Quote(value), [value]);
    assert [word] + [value] == [word, value];
  }

  /** With sudo or without, the remote host's shell runs the checksum script of the artifact. */
  lemma ChecksumCommandRuns(request: StatusRequest, artifact: string)
    ensures var remote, script := ChecksumCommand(request, artifact).args[1],
                                  ChecksumScript(request.artifactDir, artifact);
      if request.noSudo then remote == script else Words(remote) == Some(["sudo", "sh", "-c", script])
  {
    SudoChecksumRoundTrip(request.artifactDir, artifact);
  }

  /** After two commands for the relay come two for each artifact, in the artifacts' order. */
  ghost predicate Paired(commands: seq<ExternalCommandPlan>, names: seq<string>,
                         executable: string -> ExternalCommandPlan, checksum: string -> ExternalCommandPlan) {
    && |commands| == 2 + 2 * |names|
    && forall i :: 0 <= i < |names| ==>
        commands[2 + 2 * i] == executable(names[i]) && commands[3 + 2 * i] == checksum(names[i])
  }

  /** The closure that pushes an artifact's two commands, for each artifact in turn. */
  method PlanArtifacts(names: seq<string>, first: ExternalCommandPlan, second: ExternalCommandPlan,
                       executable: string -> ExternalCommandPlan, checksum: string -> ExternalCommandPlan,
                       planned: string -> ArtifactStatus)
    returns (commands: seq<ExternalCommandPlan>, artifacts: seq<ArtifactStatus>)
    ensures Paired(commands, names, executable, checksum) && commands[0] == first && commands[1] == second
    ensures |artifacts| == |names| && forall i :: 0 <= i < |names| ==> artifacts[i] == planned(names[i])
  {
    commands := [first, second];
    artifacts := [];
    for i := 0 to |names|
      invariant Paired(commands, names[..i], executable, checksum) && commands[0] == first && commands[1] == second
      invariant |artifacts| == i && forall k :: 0 <= k < i ==> artifacts[k] == planned(names[k])
    {
      commands := commands + [executable(names[i])];
      commands := commands + [checksum(names[i])];
      artifacts := artifacts + [planned(names[i])];
    }
    assert names[..|names|] == names;
  }

  /** Every artifact of the request has its own two commands, and the relay its own. */
  ghost predicate Planned(request: StatusRequest, commands: seq<ExternalCommandPlan>) {
    && Paired(commands, request.artifacts, a => ExecutableCommand(request, a), a => ChecksumCommand(request, a))
    && commands[0] == ActiveCommand(request) && commands[1] == HealthCommand(request)
  }

  /** `plan_relay_status`; `complaint` is what the field validators object to first. */
  method PlanRelayStatus(request: StatusRequest, complaint: Option<string>) returns (r: StatusResult)
    ensures r.StatusFailed? <==> complaint.Some? || request.artifacts == []
    ensures r.Report? ==>
              && Planned(request, r.report.commands)
              && |r.report.artifacts| == |request.artifacts|
              && (forall i :: 0 <= i < |request.artifacts| ==>
                  r.report.artifacts[i] == PlannedArtifact(request, request.artifacts[i]))
              && r.report.active.None? && r.report.healthy.None? && r.report.status == "planned"
  {
    if complaint.Some? {
      return StatusFailed(Invalid(complaint.value));
    }
    if request.artifacts == [] {
      return StatusFailed(NoArtifacts);
    }
    var commands, artifacts := PlanArtifacts(request.artifacts, ActiveCommand(request), HealthCommand(request),
      a => ExecutableCommand(request, a), a => ChecksumCommand(request, a), a => PlannedArtifact(request, a));
    return Report(StatusReport(commands, artifacts, None, None, "planned"));
  }

  /** Whether each run of the commands up to `n` could be started. */
  ghost predicate AllStarted(run: (nat, ExternalCommandPlan) -> Option<bool>, commands: seq<ExternalCommandPlan>,
                             n: nat)
    requires n <= |commands|
  {
    forall k :: 0 <= k < n ==> run(k, commands[k]).Some?
  }

  /** Every command started and succeeded. */
  ghost predicate AllSucceeded(run: (nat, ExternalCommandPlan) -> Option<bool>, commands: seq<ExternalCommandPlan>) {
    forall k :: 0 <= k < |commands| ==> run(k, commands[k]) == Some(true)
  }

  /** What artifact `i` must hold after all commands have run. */
  ghost predicate HasItsResults(a: ArtifactStatus, planned: ArtifactStatus, i: nat, commands: seq<ExternalCommandPlan>,
                                run: (nat, ExternalCommandPlan) -> Option<bool>)
    requires 3 + 2 * i < |commands|
  {
    a == planned.(executable := run(2 + 2 * i, commands[2 + 2 * i]),
                  checksumVerified := run(3 + 2 * i, commands[3 + 2 * i]))
  }

  /** Runs the planned commands one after the other; the artifacts' fields are updated as their results
      come in. `failed` is the first command that could not be started. */
  method RunCommands(commands: seq<ExternalCommandPlan>, planned: seq<ArtifactStatus>,
                     run: (nat, ExternalCommandPlan) -> Option<bool>)
    returns (failed: Option<nat>, ran: seq<ExternalCommandPlan>, active: Option<bool>, healthy: Option<bool>,
             artifacts: seq<ArtifactStatus>, ok: bool)
    requires |commands| == 2 + 2 * |planned|
    ensures failed.Some? ==> failed.value < |commands| && ran == commands[..failed.value + 1]
                             && AllStarted(run, commands, failed.value)
                                 && run(failed.value, commands[failed.value]).None?
    ensures failed.None? ==> ran == commands && AllStarted(run, commands, |commands|)
                             && active == run(0, commands[0]) && healthy == run(1, commands[1])
    ensures failed.None? ==> |artifacts| == |planned|
                             && forall i :: 0 <= i < |planned| ==>
                                 HasItsResults(artifacts[i], planned[i], i, commands, run)
    ensures failed.None? ==> (ok <==> AllSucceeded(run, commands))
  {
    failed, artifacts, ok := None, planned, false;
    active, healthy := run(0, commands[0]), None;
    ran := [commands[0]];
    if active.None? {
      failed := Some(0);
      return;
    }
    healthy := run(1, commands[1]);
    ran := ran + [commands[1]];
    if healthy.None? {
      failed := Some(1);
      return;
    }
    var allArtifacts, allChecksums := true, true;
    var commandIndex := 2;
    for i := 0 to |planned|
      invariant |artifacts| == |planned| && commandIndex == 2 + 2 * i
      invariant ran == commands[..commandIndex] && AllStarted(run, commands, commandIndex)
      invariant forall k :: 0 <= k < i ==> HasItsResults(artifacts[k], planned[k], k, commands, run)
      invariant forall k :: i <= k < |planned| ==> artifacts[k] == planned[k]
      invariant allArtifacts <==> forall k :: 0 <= k < i ==> run(2 + 2 * k, commands[2 + 2 * k]) == Some(true)
      invariant allChecksums <==> forall k :: 0 <= k < i ==> run(3 + 2 * k, commands[3 + 2 * k]) == Some(true)
    {
      var executable := run(commandIndex, commands[commandIndex]);
      ran := ran + [commands[commandIndex]];
      if executable.None? {
        failed := Some(commandIndex);
        return;
      }
      commandIndex := commandIndex + 1;
      var checksumVerified := run(commandIndex, commands[commandIndex]);
      ran := ran + [commands[commandIndex]];
      if checksumVerified.None? {
        failed := Some(commandIndex);
        return;
      }
      commandIndex := commandIndex + 1;
      artifacts := artifacts[i := artifacts[i].(executable := executable, checksumVerified := checksumVerified)];
      allArtifacts := allArtifacts && executable.value;
      allChecksums := allChecksums && checksumVerified.value;
    }
    ok := active.value && healthy.value && allArtifacts && allChecksums;
    OkMeansAll(run, commands, |planned|, ok);
  }

  /** `check_relay_status`; `run(k, c)` is what running `c` as the `k`-th command gives: whether it
      succeeded, or None if it could not be started. */
  method CheckRelayStatus(request: StatusRequest, complaint: Option<string>,
                          run: (nat, ExternalCommandPlan) -> Option<bool>)
    returns (r: StatusResult, ran: seq<ExternalCommandPlan>)
    ensures complaint.Some? || request.artifacts == [] ==> r.StatusFailed? && ran == []
    ensures r.Report? ==> Planned(request, r.report.commands) && |r.report.artifacts| == |request.artifacts|
    // A dry run runs nothing; any other runs every planned command once, in order.
    ensures r.Report? && request.dryRun ==> ran == [] && r.report.status == "dry-run"
    ensures r.Report? && !request.dryRun ==> ran == r.report.commands
    // Every result lands in its own field.
    ensures r.Report? && !request.dryRun ==> r.report.active == run(0, ran[0]) && r.report.healthy == run(1, ran[1])
    ensures r.Report? && !request.dryRun ==>
              forall i :: 0 <= i < |request.artifacts| ==>
                HasItsResults(r.report.artifacts[i], PlannedArtifact(request, request.artifacts[i]), i, ran, run)
    ensures r.Report? && !request.dryRun ==> r.report.status == if AllSucceeded(run, ran) then "ok" else "degraded"
  {
    r := PlanRelayStatus(request, complaint);
    ran := [];
    if r.StatusFailed? {
      return;
    }
    var report := r.report;
    if request.dryRun {
      r := Report(report.(status := "dry-run"));
      return;
    }
    var failed, active, healthy, artifacts, ok;
    failed, ran, active, healthy, artifacts, ok := RunCommands(report.commands, report.artifacts, run);
    if failed.Some? {
      r := StatusFailed(CommandFailed(failed.value));
    } else {
      r := Report(report.(artifacts := artifacts, active := active, healthy := healthy,
                          status := if ok then "ok" else "degraded"));
    }
  }

  /** The conjunction of the four verdicts is that of all commands. */
  lemma OkMeansAll(run: (nat, ExternalCommandPlan) -> Option<bool>, commands: seq<ExternalCommandPlan>, n: nat,
                   ok: bool)
    requires |commands| == 2 + 2 * n
    requires ok <==>
               && run(0, commands[0]) == Some(true) && run(1, commands[1]) == Some(true)
               && (forall k :: 0 <= k < n ==> run(2 + 2 * k, commands[2 + 2 * k]) == Some(true))
               && (forall k :: 0 <= k < n ==> run(3 + 2 * k, commands[3 + 2 * k]) == Some(true))
    ensures ok <==> AllSucceeded(run, commands)
  {
    if ok {
      forall j | 0 <= j < |commands| ensures run(j, commands[j]) == Some(true) {
        if j >= 2 {
          var k := (j - 2) / 2;
          assert j == 2 + 2 * k || j == 3 + 2 * k;
        }
      }
    }
  }
}
