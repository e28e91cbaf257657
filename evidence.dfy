/** core/evidence.py: the process list, network connections, system information, user
    accounts and the file hashes of the usual staging directories. Each collector catches
    only `CalledProcessError` (a non-zero exit under `check=True`), so a program that does
    not exist raises past it; `hash_files` catches everything. */
module Evidence {
  import opened Wrappers
  import opened Text
  import opened Sorting
  import opened Host

  /** `str(FileNotFoundError)` for a program that does not exist. */
  function NoSuchProgram(cmd: Command): string
  {
    "[Errno 2] No such file or directory: '" + (if cmd == [] then "" else cmd[0]) + "'"
  }

  /** The two header lines every text artifact starts with. */
  function Header(title: string, now: string): string
  {
    title + " - " + now + "\n" + Rule60() + "\n"
  }

  // ---------------------------------------------------------------------------------
  // Processes
  // ---------------------------------------------------------------------------------

  const PsAux: Command := ["ps", "aux"]
  const TasklistVerbose: Command := ["tasklist", "/fo", "csv", "/v"]

  function ProcessCommand(platform: string): Command
  {
    if IsLinux(platform) then PsAux else TasklistVerbose
  }

  function ProcessPath(dir: string, stamp: string): string
  {
    PathJoin(dir, "processes_" + stamp + ".txt")
  }

  /** `collect_processes`: the listing is written verbatim under the header; a non-zero
      exit gives None and a missing program raises. */
  function CollectProcesses(env: Env, platform: string, dir: string): (r: Outcome<Artifact>)
    ensures r.Raised? <==> env.run(ProcessCommand(platform)).NotFound?
    ensures r.Returned? && r.value.None? <==> env.run(ProcessCommand(platform)).Exited? && !env.run(ProcessCommand(platform)).Succeeded()
    ensures r.Returned? && r.value.Some? ==>
      (r.value.value.path == ProcessPath(dir, env.stamp)
       && r.value.value.content == Header("Process List", env.now) + env.run(ProcessCommand(platform)).stdout)
  {
    var cmd := ProcessCommand(platform);
    match env.run(cmd)
    case NotFound => Raised(NoSuchProgram(cmd))
    case Exited(code, out) =>
      if code != 0 then Returned(None)
      else Returned(Some(Artifact(ProcessPath(dir, env.stamp), Header("Process List", env.now) + out)))
  }

  /** The header is two lines, so the listing is everything after its second line break. */
  lemma ProcessListVerbatim(env: Env, platform: string, dir: string)
    requires CollectProcesses(env, platform, dir).Returned? && CollectProcesses(env, platform, dir).value.Some?
    ensures var content := CollectProcesses(env, platform, dir).value.value.content;
      var h := |Header("Process List", env.now)|;
      h <= |content| && content[h..] == env.run(ProcessCommand(platform)).stdout
      && content[h - 1] == '\n' && content[..h] == Header("Process List", env.now)
  {
  }

  // ---------------------------------------------------------------------------------
  // Network connections
  // ---------------------------------------------------------------------------------

  const NetstatListening: Command := ["netstat", "-tuln"]
  const SsListening: Command := ["ss", "-tuln"]
  const NetstatAll: Command := ["netstat", "-an"]
  const NetstatOwners: Command := ["netstat", "-anb"]

  /** The two listings, in the order they are taken. */
  function NetworkCommands(platform: string): (Command, Command)
  {
    if IsLinux(platform) then (NetstatListening, SsListening) else (NetstatAll, NetstatOwners)
  }

  function SecondHeading(platform: string): string
  {
    if IsLinux(platform) then "SS OUTPUT:\n" else "DETAILED NETSTAT OUTPUT:\n"
  }

  function NetworkText(now: string, platform: string, first: string, second: string): string
  {
    Header("Network Connections", now)
    + "NETSTAT OUTPUT:\n" + first
    + "\n" + Rule60() + "\n"
    + SecondHeading(platform) + second
  }

  function NetworkPath(dir: string, stamp: string): string
  {
    PathJoin(dir, "network_" + stamp + ".txt")
  }

  /** `collect_network`: both listings must succeed; the second is taken only after
      the first did. */
  function CollectNetwork(env: Env, platform: string, dir: string): (r: Outcome<Artifact>)
    ensures var (c1, c2) := NetworkCommands(platform);
      r.Raised? <==> env.run(c1).NotFound? || (env.run(c1).Succeeded() && env.run(c2).NotFound?)
    ensures var (c1, c2) := NetworkCommands(platform);
      r.Returned? && r.value.Some? <==> env.run(c1).Succeeded() && env.run(c2).Succeeded()
    ensures var (c1, c2) := NetworkCommands(platform);
      r.Returned? && r.value.Some? ==>
        (r.value.value == Artifact(NetworkPath(dir, env.stamp), NetworkText(env.now, platform, env.run(c1).stdout, env.run(c2).stdout)))
  {
    var (c1, c2) := NetworkCommands(platform);
    match env.run(c1)
    case NotFound => Raised(NoSuchProgram(c1))
    case Exited(code1, first) =>
      if code1 != 0 then Returned(None)
      else
        match env.run(c2)
        case NotFound => Raised(NoSuchProgram(c2))
        case Exited(code2, second) =>
          if code2 != 0 then Returned(None)
          else Returned(Some(Artifact(NetworkPath(dir, env.stamp), NetworkText(env.now, platform, first, second))))
  }

  /** Each listing appears under its own heading: the first under `NETSTAT OUTPUT:`, the
      second under the platform's second heading. */
  lemma NetworkSections(now: string, platform: string, first: string, second: string)
    ensures Contains(NetworkText(now, platform, first, second), "NETSTAT OUTPUT:\n" + first)
    ensures Contains(NetworkText(now, platform, first, second), SecondHeading(platform) + second)
  {
    var t := NetworkText(now, platform, first, second);
    var h := Header("Network Connections", now);
    var mid := "\n" + Rule60() + "\n";
    var x, y := "NETSTAT OUTPUT:\n" + first, SecondHeading(platform) + second;
    assert t == h + x + (mid + y);
    ContainsMiddle(h, x, mid + y);
    assert t == (h + x + mid) + y + "";
    ContainsMiddle(h + x + mid, y, "");
  }

  // ---------------------------------------------------------------------------------
  // System information
  // ---------------------------------------------------------------------------------

  /** One `system_info[key] = run(cmd).stdout` step; `strip` when the source strips it. */
  datatype Probe = Probe(key: string, cmd: Command, strip: bool)

  datatype InfoSection = InfoSection(key: string, value: string)

  /** Where the steps have got to: all sections so far, or the first command that failed. */
  datatype Probed =
    | Gathered(sections: seq<InfoSection>)
    | ExitedNonZero(failed: Command, code: int)
    | ProgramMissing(failed: Command)

  const LinuxProbes: seq<Probe> := [
    Probe("hostname", ["hostname"], true),
    Probe("os_info", ["uname", "-a"], true),
    Probe("uptime", ["uptime"], true),
    Probe("ip_addresses", ["ip", "addr"], false),
    Probe("memory", ["free", "-h"], false)]

  const WindowsProbes: seq<Probe> := [
    Probe("system_info", ["systeminfo"], false),
    Probe("ip_config", ["ipconfig", "/all"], false)]

  function SystemProbes(platform: string): seq<Probe>
  {
    if IsLinux(platform) then LinuxProbes else WindowsProbes
  }

  function ProbeValue(p: Probe, out: string): string
  {
    if p.strip then Strip(out) else out
  }

  /** One step with `check=True`: once a step has failed nothing else runs. */
  function Step(prev: Probed, run: Command -> Run, p: Probe): Probed
  {
    if !prev.Gathered? then prev
    else
      match run(p.cmd)
      case NotFound => ProgramMissing(p.cmd)
      case Exited(code, out) =>
        if code != 0 then ExitedNonZero(p.cmd, code)
        else Gathered(prev.sections + [InfoSection(p.key, ProbeValue(p, out))])
  }

  /** The steps in order. */
  function ProbeAll(run: Command -> Run, ps: seq<Probe>): Probed
  {
    if ps == [] then Gathered([]) else Step(ProbeAll(run, ps[..|ps| - 1]), run, ps[|ps| - 1])
  }

  lemma ProbeSnoc(run: Command -> Run, ps: seq<Probe>, i: nat)
    requires i < |ps|
    ensures ProbeAll(run, ps[..i + 1]) == Step(ProbeAll(run, ps[..i]), run, ps[i])
  {
    assert ps[..i + 1][..i] == ps[..i];
  }

  /** All steps gather exactly when every command succeeds, and then there is one section
      per step, in step order, holding that command's (possibly stripped) output. */
  lemma {:induction false} ProbeAllGathers(run: Command -> Run, ps: seq<Probe>)
    ensures ProbeAll(run, ps).Gathered? <==> forall i :: 0 <= i < |ps| ==> run(ps[i].cmd).Succeeded()
    ensures ProbeAll(run, ps).Gathered? ==> |ProbeAll(run, ps).sections| == |ps|
    ensures ProbeAll(run, ps).Gathered? ==> forall i :: 0 <= i < |ps| ==>
      ProbeAll(run, ps).sections[i] == InfoSection(ps[i].key, ProbeValue(ps[i], run(ps[i].cmd).stdout))
  {
    if ps != [] {
      var init := ps[..|ps| - 1];
      ProbeAllGathers(run, init);
      forall i | 0 <= i < |init| ensures init[i] == ps[i] { }
    }
  }

  /** When the steps stop, they stop at the first command that did not succeed, and the
      failure says whether that program was missing or exited non-zero. */
  lemma {:induction false} ProbeAllStops(run: Command -> Run, ps: seq<Probe>) returns (k: nat)
    requires !ProbeAll(run, ps).Gathered?
    ensures k < |ps| && !run(ps[k].cmd).Succeeded()
    ensures forall j :: 0 <= j < k ==> run(ps[j].cmd).Succeeded()
    ensures ProbeAll(run, ps).failed == ps[k].cmd
    ensures ProbeAll(run, ps).ProgramMissing? <==> run(ps[k].cmd).NotFound?
  {
    var init := ps[..|ps| - 1];
    if ProbeAll(run, init).Gathered? {
      k := |ps| - 1;
      ProbeAllGathers(run, init);
      forall j | 0 <= j < k ensures run(ps[j].cmd).Succeeded() {
        assert init[j] == ps[j];
      }
    } else {
      k := ProbeAllStops(run, init);
      assert init[k] == ps[k];
      forall j | 0 <= j < k ensures run(ps[j].cmd).Succeeded() {
        assert init[j] == ps[j];
      }
    }
  }

  function InfoText(s: InfoSection): string
  {
    Upper(s.key) + ":\n" + s.value + "\n" + Dash40() + "\n"
  }

  function SystemInfoText(now: string, sections: seq<InfoSection>): string
  {
    Header("System Information", now) + Concat(Map(InfoText, sections))
  }

  /** Every gathered section appears in the file as its upper-cased key, its value and
      the dashed rule. */
  lemma SystemInfoSections(now: string, sections: seq<InfoSection>, i: nat)
    requires i < |sections|
    ensures Contains(SystemInfoText(now, sections), Upper(sections[i].key) + ":\n" + sections[i].value + "\n" + Dash40() + "\n")
  {
    MapAt(InfoText, sections, i);
    ConcatContains(Map(InfoText, sections), i);
    ContainsInSuffix(Header("System Information", now), Concat(Map(InfoText, sections)), InfoText(sections[i]));
  }

  function SystemInfoPath(dir: string, stamp: string): string
  {
    PathJoin(dir, "system_info_" + stamp + ".txt")
  }

  /** What `collect_system_info` gives for a given state of the steps. */
  function SystemInfoOutcome(env: Env, dir: string, probed: Probed): Outcome<Artifact>
  {
    match probed
    case ProgramMissing(cmd) => Raised(NoSuchProgram(cmd))
    case ExitedNonZero(_, _) => Returned(None)
    case Gathered(sections) => Returned(Some(Artifact(SystemInfoPath(dir, env.stamp), SystemInfoText(env.now, sections))))
  }

  /** `collect_system_info`: the `system_info` dictionary filled one command at a time. */
  method CollectSystemInfo(env: Env, platform: string, dir: string) returns (result: Outcome<Artifact>)
    ensures result == SystemInfoOutcome(env, dir, ProbeAll(env.run, SystemProbes(platform)))
  {
    var ps := SystemProbes(platform);
    var info := Gathered([]);
    assert ps[..0] == [];
    if IsLinux(platform) {
      ProbeSnoc(env.run, ps, 0);
      info := Step(info, env.run, ps[0]);
      ProbeSnoc(env.run, ps, 1);
      info := Step(info, env.run, ps[1]);
      ProbeSnoc(env.run, ps, 2);
      info := Step(info, env.run, ps[2]);
      ProbeSnoc(env.run, ps, 3);
      info := Step(info, env.run, ps[3]);
      ProbeSnoc(env.run, ps, 4);
      info := Step(info, env.run, ps[4]);
    } else {
      ProbeSnoc(env.run, ps, 0);
      info := Step(info, env.run, ps[0]);
      ProbeSnoc(env.run, ps, 1);
      info := Step(info, env.run, ps[1]);
    }
    assert ps[..|ps|] == ps;
    result := SystemInfoOutcome(env, dir, info);
  }

  /** Any failing command aborts: the file is written exactly when every command of the
      platform's list succeeds, with one section per command in order; otherwise the
      first failure decides between None (non-zero exit) and an escaping error. */
  lemma SystemInfoAborts(env: Env, platform: string, dir: string)
    ensures var r := SystemInfoOutcome(env, dir, ProbeAll(env.run, SystemProbes(platform)));
      var ps := SystemProbes(platform);
      (r.Returned? && r.value.Some? <==> forall i :: 0 <= i < |ps| ==> env.run(ps[i].cmd).Succeeded())
      && (r.Returned? && r.value.Some? ==> exists sections ::
            r.value.value == Artifact(SystemInfoPath(dir, env.stamp), SystemInfoText(env.now, sections))
            && |sections| == |ps|
            && forall i :: 0 <= i < |ps| ==> sections[i] == InfoSection(ps[i].key, ProbeValue(ps[i], env.run(ps[i].cmd).stdout)))
      && (!(r.Returned? && r.value.Some?) ==> exists k ::
            0 <= k < |ps| && !env.run(ps[k].cmd).Succeeded()
            && (forall j :: 0 <= j < k ==> env.run(ps[j].cmd).Succeeded())
            && (r.Raised? <==> env.run(ps[k].cmd).NotFound?))
  {
    var ps := SystemProbes(platform);
    var probed := ProbeAll(env.run, ps);
    ProbeAllGathers(env.run, ps);
    if !probed.Gathered? {
      var k := ProbeAllStops(env.run, ps);
    }
  }

  // ---------------------------------------------------------------------------------
  // User accounts
  // ---------------------------------------------------------------------------------

  const Who: Command := ["who"]
  const WhoVerbose: Command := ["w"]
  const CatPasswd: Command := ["cat", "/etc/passwd"]
  const QueryUser: Command := ["query", "user"]
  const NetUser: Command := ["net", "user"]
  const SecurityEvents: Command := ["wevtutil", "qe", "Security", "/c:10", "/f:text"]
  const LoginPlaceholder: Command := ["echo", "Login history not available - system may not have wtmp/journal logs"]

  /** The login-history candidates as the source lists them; the third is a pipeline. */
  const LoginCandidates: seq<Command> := [
    ["last", "-10"],
    ["journalctl", "-u", "ssh", "--since", "yesterday", "-n", "10"],
    ["dmesg", "|", "grep", "login"]]

  /** How a candidate is started: one with more than two words and a `|` word is joined
      and handed to the shell (`shell=True` runs `/bin/sh -c`). */
  function Launch(cmd: Command): Command
  {
    if |cmd| > 2 && "|" in cmd then ["/bin/sh", "-c", Join(" ", cmd)] else cmd
  }

  /** A candidate that `check=True` accepts. */
  function Usable(run: Command -> Run): Command -> bool
  {
    (cmd: Command) => run(Launch(cmd)).Succeeded()
  }

  /** The position of the first usable candidate from `i` on, `|cands|` if none is. */
  function FirstUsable(run: Command -> Run, cands: seq<Command>, i: nat): (k: nat)
    requires i <= |cands|
    ensures i <= k <= |cands|
    ensures k < |cands| ==> Usable(run)(cands[k])
    ensures forall j :: i <= j < k ==> !Usable(run)(cands[j])
    decreases |cands| - i
  {
    if i == |cands| then i
    else if Usable(run)(cands[i]) then i
    else FirstUsable(run, cands, i + 1)
  }

  /** The run the fallback loop keeps: the first usable candidate's, if any. */
  function LoginFound(run: Command -> Run): Option<Run>
  {
    var k := FirstUsable(run, LoginCandidates, 0);
    if k < |LoginCandidates| then Some(run(Launch(LoginCandidates[k]))) else None
  }

  /** The fallback loop over the candidates: the first run that succeeds is kept and
      ends the loop; a failure or a missing program moves on to the next. */
  method LoginHistory(run: Command -> Run) returns (last: Option<Run>)
    ensures last == LoginFound(run)
  {
    last := None;
    var i := 0;
    while i < |LoginCandidates|
      invariant 0 <= i <= |LoginCandidates|
      invariant FirstUsable(run, LoginCandidates, i) == FirstUsable(run, LoginCandidates, 0)
    {
      var result := run(Launch(LoginCandidates[i]));
      if result.Succeeded() {
        last := Some(result);
        return;
      }
      i := i + 1;
    }
  }

  /** The login-history listing: the first usable candidate's, else the placeholder echo. */
  function LoginCommand(run: Command -> Run): Command
  {
    var k := FirstUsable(run, LoginCandidates, 0);
    if k < |LoginCandidates| then Launch(LoginCandidates[k]) else LoginPlaceholder
  }

  /** The login listing's run: the kept one, or the placeholder echo. */
  function LoginRun(run: Command -> Run): Run
  {
    match LoginFound(run)
    case Some(r) => r
    case None => run(LoginPlaceholder)
  }

  /** The kept run is the run of the login command. */
  lemma LoginRunIsLoginCommand(run: Command -> Run)
    ensures LoginRun(run) == run(LoginCommand(run))
    ensures LoginRun(run).NotFound? ==> LoginCommand(run) == LoginPlaceholder
  {
  }

  /** The logged-in listing: `who`, or `w` when `who` exits non-zero (`check=False`). */
  function WhoCommand(run: Command -> Run): Command
  {
    if run(Who).Exited? && run(Who).code != 0 then WhoVerbose else Who
  }

  function UsersText(now: string, who: string, last: string, users: string): string
  {
    Header("User Account Information", now)
    + "CURRENTLY LOGGED IN:\n" + who
    + "\n" + Rule40() + "\n"
    + "RECENT LOGINS:\n" + last
    + "\n" + Rule40() + "\n"
    + "USER ACCOUNTS:\n" + users
  }

  function UsersPath(dir: string, stamp: string): string
  {
    PathJoin(dir, "users_" + stamp + ".txt")
  }

  function UsersArtifact(env: Env, dir: string, who: string, last: string, users: string): Artifact
  {
    Artifact(UsersPath(dir, env.stamp), UsersText(env.now, who, last, users))
  }

  /** What the Linux branch of `collect_users` gives: `who` (or `w`) and the placeholder
      echo run unchecked, only a missing program stops them; `cat /etc/passwd` is checked. */
  function LinuxUsers(env: Env, dir: string): Outcome<Artifact>
  {
    var who := env.run(WhoCommand(env.run));
    var last := LoginRun(env.run);
    var users := env.run(CatPasswd);
    if who.NotFound? then Raised(NoSuchProgram(WhoCommand(env.run)))
    else if last.NotFound? then Raised(NoSuchProgram(LoginPlaceholder))
    else if users.NotFound? then Raised(NoSuchProgram(CatPasswd))
    else if users.code != 0 then Returned(None)
    else Returned(Some(UsersArtifact(env, dir, who.stdout, last.stdout, users.stdout)))
  }

  /** The Windows branch: three checked runs in the order query, net user, wevtutil. */
  function WindowsUsers(env: Env, dir: string): Outcome<Artifact>
  {
    var who, users, last := env.run(QueryUser), env.run(NetUser), env.run(SecurityEvents);
    if who.NotFound? then Raised(NoSuchProgram(QueryUser))
    else if who.code != 0 then Returned(None)
    else if users.NotFound? then Raised(NoSuchProgram(NetUser))
    else if users.code != 0 then Returned(None)
    else if last.NotFound? then Raised(NoSuchProgram(SecurityEvents))
    else if last.code != 0 then Returned(None)
    else Returned(Some(UsersArtifact(env, dir, who.stdout, last.stdout, users.stdout)))
  }

  /** `collect_users`. */
  method CollectUsers(env: Env, platform: string, dir: string) returns (result: Outcome<Artifact>)
    ensures IsLinux(platform) ==> result == LinuxUsers(env, dir)
    ensures !IsLinux(platform) ==> result == WindowsUsers(env, dir)
  {
    if IsLinux(platform) {
      result := CollectLinuxUsers(env, dir);
    } else {
      result := CollectWindowsUsers(env, dir);
    }
  }

  /** The Linux branch of `collect_users`. */
  method CollectLinuxUsers(env: Env, dir: string) returns (result: Outcome<Artifact>)
    ensures result == LinuxUsers(env, dir)
  {
    var who := env.run(Who);
    if who.NotFound? {
      return Raised(NoSuchProgram(Who));
    }
    if who.code != 0 {
      who := env.run(WhoVerbose);
      if who.NotFound? {
        return Raised(NoSuchProgram(WhoVerbose));
      }
    }
    var found := LoginHistory(env.run);
    var last: Run;
    if found.Some? {
      last := found.value;
    } else {
      last := env.run(LoginPlaceholder);
      if last.NotFound? {
        return Raised(NoSuchProgram(LoginPlaceholder));
      }
    }
    var users := env.run(CatPasswd);
    if users.NotFound? {
      return Raised(NoSuchProgram(CatPasswd));
    }
    if users.code != 0 {
      return Returned(None);
    }
    result := Returned(Some(UsersArtifact(env, dir, who.stdout, last.stdout, users.stdout)));
  }

  /** The Windows branch of `collect_users`. */
  method CollectWindowsUsers(env: Env, dir: string) returns (result: Outcome<Artifact>)
    ensures result == WindowsUsers(env, dir)
  {
    var who := env.run(QueryUser);
    if who.NotFound? {
      return Raised(NoSuchProgram(QueryUser));
    }
    if who.code != 0 {
      return Returned(None);
    }
    var users := env.run(NetUser);
    if users.NotFound? {
      return Raised(NoSuchProgram(NetUser));
    }
    if users.code != 0 {
      return Returned(None);
    }
    var last := env.run(SecurityEvents);
    if last.NotFound? {
      return Raised(NoSuchProgram(SecurityEvents));
    }
    if last.code != 0 {
      return Returned(None);
    }
    result := Returned(Some(UsersArtifact(env, dir, who.stdout, last.stdout, users.stdout)));
  }

  /** Each of the three listings appears under its own heading. */
  lemma UsersSections(now: string, who: string, last: string, users: string)
    ensures Contains(UsersText(now, who, last, users), "CURRENTLY LOGGED IN:\n" + who)
    ensures Contains(UsersText(now, who, last, users), "RECENT LOGINS:\n" + last)
    ensures Contains(UsersText(now, who, last, users), "USER ACCOUNTS:\n" + users)
  {
    var t := UsersText(now, who, last, users);
    var h := Header("User Account Information", now);
    var mid := "\n" + Rule40() + "\n";
    var a, b, c := "CURRENTLY LOGGED IN:\n" + who, "RECENT LOGINS:\n" + last, "USER ACCOUNTS:\n" + users;
    assert t == h + a + mid + b + mid + c;
    ContainsAt(t, a, |h|);
    ContainsAt(t, b, |h| + |a| + |mid|);
    ContainsAt(t, c, |t| - |c|);
  }

  /** With `check=True` on every Windows command, the users file is written exactly when
      all three succeed. */
  lemma WindowsUsersAllChecked(env: Env, dir: string)
    ensures WindowsUsers(env, dir).Returned? && WindowsUsers(env, dir).value.Some? <==>
      env.run(QueryUser).Succeeded() && env.run(NetUser).Succeeded() && env.run(SecurityEvents).Succeeded()
  {
  }

  /** On Linux only `cat /etc/passwd` is checked: a non-zero exit of the other listings
      still writes the file. */
  lemma LinuxUsersOnlyPasswdChecked(env: Env, dir: string)
    ensures LinuxUsers(env, dir).Returned? && LinuxUsers(env, dir).value.Some? <==>
      env.run(WhoCommand(env.run)).Exited? && env.run(LoginCommand(env.run)).Exited? && env.run(CatPasswd).Succeeded()
  {
    LoginRunIsLoginCommand(env.run);
  }

  /** The fallbacks: the logged-in listing is `who`'s unless `who` exits non-zero, and the
      login history is the first candidate that succeeds, in list order, or the
      placeholder echo when none does. */
  lemma UsersFallbacks(run: Command -> Run)
    ensures WhoCommand(run) == WhoVerbose <==> run(Who).Exited? && run(Who).code != 0
    ensures LoginCommand(run) == LoginPlaceholder <==> forall j :: 0 <= j < |LoginCandidates| ==> !Usable(run)(LoginCandidates[j])
    ensures LoginCommand(run) != LoginPlaceholder ==> exists k ::
      0 <= k < |LoginCandidates| && LoginCommand(run) == Launch(LoginCandidates[k]) && Usable(run)(LoginCandidates[k])
      && forall j :: 0 <= j < k ==> !Usable(run)(LoginCandidates[j])
  {
    var k := FirstUsable(run, LoginCandidates, 0);
    if k < |LoginCandidates| {
      LaunchIsNotPlaceholder(LoginCandidates[k]);
    }
  }

  /** No candidate starts as the placeholder echo. */
  lemma LaunchIsNotPlaceholder(cmd: Command)
    requires cmd in LoginCandidates
    ensures Launch(cmd) != LoginPlaceholder
  {
    assert Launch(cmd)[0] != "echo" by {
      if |cmd| > 2 && "|" in cmd {
      } else {
        assert cmd[0] in {"last", "journalctl", "dmesg"};
      }
    }
  }

  /** The piped candidate is the only one the shell runs. */
  lemma OnlyPipelineUsesShell()
    ensures Launch(LoginCandidates[0]) == LoginCandidates[0]
    ensures Launch(LoginCandidates[1]) == LoginCandidates[1]
    ensures Launch(LoginCandidates[2]) == ["/bin/sh", "-c", "dmesg | grep login"]
  {
    assert LoginCandidates[2][1] == "|";
    assert Join(" ", LoginCandidates[2]) == "dmesg | grep login";
  }

  // ---------------------------------------------------------------------------------
  // File hashes
  // ---------------------------------------------------------------------------------

  datatype HashEntry = HashEntry(file: string, md5: string, sha256: string, size: nat, modified: string)

  datatype HashReport = HashReport(timestamp: string, platform: string, files: seq<HashEntry>)

  /** The suspicious locations, with `~` expanded. */
  function HashTargets(platform: string, home: string): seq<string>
  {
    if IsLinux(platform) then ["/tmp", "/var/tmp", "/dev/shm", home + "/Downloads", "/etc/crontab"]
    else ["C:\\Temp", "C:\\Windows\\Temp", home + "\\Downloads", home + "\\AppData\\Local\\Temp"]
  }

  /** At most this many files are hashed in each walked directory. */
  const PerDirectory := 10

  /** `os.path.join(root, file)`: `root` is the top itself for the top directory. */
  function WalkedPath(top: string, dir: string, file: string): string
  {
    PathJoin(if dir == "" then top else PathJoin(top, dir), file)
  }

  /** `calculate_file_hash` succeeds on a regular file exactly when it can be read. */
  predicate Hashable(n: Node)
  {
    n.ReadableFile()
  }

  /** The entry for a readable file: both digests of its content, its size in bytes and
      its modification time. */
  function EntryFor(env: Env, path: string): HashEntry
  {
    var n := env.fs(path);
    var data := if n.File? then n.data else [];
    HashEntry(path, env.hasher.md5(data), env.hasher.sha256(data), |data|, env.iso(if n.File? then n.mtime else 0))
  }

  function HashableIn(env: Env, top: string, dir: string): string -> bool
  {
    (file: string) => Hashable(env.fs(WalkedPath(top, dir, file)))
  }

  function EntryIn(env: Env, top: string, dir: string): string -> HashEntry
  {
    (file: string) => EntryFor(env, WalkedPath(top, dir, file))
  }

  /** The entries of one walked directory: its first ten files, those that hash. */
  function DirHashes(env: Env, top: string, step: WalkStep): seq<HashEntry>
  {
    Map(EntryIn(env, top, step.dir), Filter(HashableIn(env, top, step.dir), Take(step.files, PerDirectory)))
  }

  function DirPart(env: Env, top: string): (WalkStep, nat) -> seq<HashEntry>
  {
    (step: WalkStep, _: nat) => DirHashes(env, top, step)
  }

  /** One suspicious location: a file is hashed directly, a directory is walked, anything
      else (missing, or neither) contributes nothing. */
  function PathHashes(env: Env, path: string): seq<HashEntry>
  {
    var n := env.fs(path);
    if n.File? then (if Hashable(n) then [EntryFor(env, path)] else [])
    else if n.Dir? then Chain(DirPart(env, path), env.walk(path), 0)
    else []
  }

  function PathPart(env: Env): (string, nat) -> seq<HashEntry>
  {
    (path: string, _: nat) => PathHashes(env, path)
  }

  function AllHashes(env: Env, paths: seq<string>): seq<HashEntry>
  {
    Chain(PathPart(env), paths, 0)
  }

  function HashesPath(dir: string, stamp: string): string
  {
    PathJoin(dir, "file_hashes_" + stamp + ".json")
  }

  function PathIn(top: string, dir: string): string -> string
  {
    (file: string) => WalkedPath(top, dir, file)
  }

  function RegularIn(fs: string -> Node, top: string, dir: string): string -> bool
  {
    (file: string) => fs(WalkedPath(top, dir, file)).File?
  }

  /** The paths the `for file in files[:10]` loop as written opens with `open(path, 'rb')`:
      every name `os.walk` lists among the first ten, whatever kind of node it is. A FIFO
      no process writes to blocks that `open` for good, and the operation never ends. */
  function OpenedAsWritten(top: string, step: WalkStep): seq<string>
  {
    Map(PathIn(top, step.dir), Take(step.files, PerDirectory))
  }

  /** The paths the loop opens once it tests `os.path.isfile` first, as it does for the
      suspicious locations themselves: only the regular files among the first ten. */
  function Opened(fs: string -> Node, top: string, step: WalkStep): seq<string>
  {
    Map(PathIn(top, step.dir), Filter(RegularIn(fs, top, step.dir), Take(step.files, PerDirectory)))
  }

  /** Two names of one directory give the same walked path only when they are equal. */
  lemma WalkedPathInjective(top: string, dir: string, a: string, b: string)
    requires WalkedPath(top, dir, a) == WalkedPath(top, dir, b)
    ensures a == b
  {
    var d := PathJoin(if dir == "" then top else PathJoin(top, dir), "");
    assert WalkedPath(top, dir, a) == d + a && WalkedPath(top, dir, b) == d + b;
    assert a == (d + a)[|d|..];
  }

  /** As written, a listed name that is not a regular file (a FIFO, say) is opened; the
      corrected loop never opens it. */
  lemma NonFileOpenedAsWritten(fs: string -> Node, top: string, step: WalkStep, file: string)
    requires file in Take(step.files, PerDirectory) && !fs(WalkedPath(top, step.dir, file)).File?
    ensures WalkedPath(top, step.dir, file) in OpenedAsWritten(top, step)
    ensures WalkedPath(top, step.dir, file) !in Opened(fs, top, step)
  {
    var first := Take(step.files, PerDirectory);
    MapMember(PathIn(top, step.dir), first, file);
    var regular := Filter(RegularIn(fs, top, step.dir), first);
    if WalkedPath(top, step.dir, file) in Opened(fs, top, step) {
      var other := MapSource(PathIn(top, step.dir), regular, WalkedPath(top, step.dir, file));
      FilterMember(RegularIn(fs, top, step.dir), first, other);
      WalkedPathInjective(top, step.dir, other, file);
      assert false;
    }
  }

  /** The corrected loop opens exactly the regular files among the first ten names. */
  lemma OpenedOnlyRegular(fs: string -> Node, top: string, step: WalkStep, path: string)
    ensures path in Opened(fs, top, step) <==>
      exists file :: file in Take(step.files, PerDirectory) && fs(WalkedPath(top, step.dir, file)).File?
        && path == WalkedPath(top, step.dir, file)
  {
    var first := Take(step.files, PerDirectory);
    var regular := Filter(RegularIn(fs, top, step.dir), first);
    if path in Opened(fs, top, step) {
      var file := MapSource(PathIn(top, step.dir), regular, path);
      FilterMember(RegularIn(fs, top, step.dir), first, file);
    }
    forall file | file in first && fs(WalkedPath(top, step.dir, file)).File?
      ensures WalkedPath(top, step.dir, file) in Opened(fs, top, step)
    {
      FilterMember(RegularIn(fs, top, step.dir), first, file);
      MapMember(PathIn(top, step.dir), regular, file);
    }
  }

  /** Every hashed file of a walked directory is one the corrected loop opens. */
  lemma DirHashesWithinOpened(env: Env, top: string, step: WalkStep, e: HashEntry)
    requires e in DirHashes(env, top, step)
    ensures e.file in Opened(env.fs, top, step)
  {
    var file := DirHashesOnlyReadable(env, top, step, e);
    OpenedOnlyRegular(env.fs, top, step, e.file);
  }

  /** The corrected `for file in files[:10]` loop of one walked directory: it hashes the
      readable regular files among the first ten, skipping every other kind of node. */
  method HashDir(env: Env, top: string, step: WalkStep, acc: seq<HashEntry>) returns (out: seq<HashEntry>)
    ensures out == acc + DirHashes(env, top, step)
  {
    out := AppendMapped(acc, Take(step.files, PerDirectory), HashableIn(env, top, step.dir), EntryIn(env, top, step.dir));
  }

  /** The `os.walk` loop of one directory. */
  method HashTree(env: Env, top: string, acc: seq<HashEntry>) returns (out: seq<HashEntry>)
    ensures out == acc + Chain(DirPart(env, top), env.walk(top), 0)
  {
    var steps := env.walk(top);
    out := acc;
    for i := 0 to |steps|
      invariant out == acc + Chain(DirPart(env, top), steps[..i], 0)
    {
      ChainSnoc(DirPart(env, top), steps, i, 0);
      ghost var before := out;
      out := HashDir(env, top, steps[i], out);
      AppendAssoc(acc, Chain(DirPart(env, top), steps[..i], 0), DirHashes(env, top, steps[i]));
    }
    assert steps[..|steps|] == steps;
  }

  /** One suspicious location. */
  method HashPath(env: Env, path: string, acc: seq<HashEntry>) returns (out: seq<HashEntry>)
    ensures out == acc + PathHashes(env, path)
  {
    out := acc;
    var n := env.fs(path);
    if n.Exists() {
      if n.File? {
        if Hashable(n) {
          out := acc + [EntryFor(env, path)];
        }
      } else if n.Dir? {
        out := HashTree(env, path, acc);
      }
    }
  }

  /** `hash_files` with the corrected directory loop (`Opened`): the entries in discovery
      order. Nothing else it does can fail past its own handlers, so it gives the path of
      the JSON file. */
  method HashFiles(env: Env, platform: string, dir: string) returns (path: string, report: HashReport)
    ensures path == HashesPath(dir, env.stamp)
    ensures report == HashReport(env.now, platform, AllHashes(env, HashTargets(platform, env.home)))
  {
    var paths := HashTargets(platform, env.home);
    var hashes: seq<HashEntry> := [];
    for i := 0 to |paths|
      invariant hashes == Chain(PathPart(env), paths[..i], 0)
    {
      ChainSnoc(PathPart(env), paths, i, 0);
      hashes := HashPath(env, paths[i], hashes);
    }
    assert paths[..|paths|] == paths;
    report := HashReport(env.now, platform, hashes);
    path := HashesPath(dir, env.stamp);
  }

  /** Each walked directory yields at most ten entries, one per readable file among its
      first ten; each entry holds that file's path, digests, size and modification time. */
  lemma DirHashesBounded(env: Env, top: string, step: WalkStep)
    ensures |DirHashes(env, top, step)| <= PerDirectory
    ensures |DirHashes(env, top, step)| <= |step.files|
  {
  }

  lemma DirHashesExactly(env: Env, top: string, step: WalkStep, file: string)
    ensures file in Take(step.files, PerDirectory) && env.fs(WalkedPath(top, step.dir, file)).ReadableFile() ==>
      EntryFor(env, WalkedPath(top, step.dir, file)) in DirHashes(env, top, step)
  {
    var p := HashableIn(env, top, step.dir);
    FilterMember(p, Take(step.files, PerDirectory), file);
    if file in Filter(p, Take(step.files, PerDirectory)) {
      MapMember(EntryIn(env, top, step.dir), Filter(p, Take(step.files, PerDirectory)), file);
    }
  }

  lemma DirHashesOnlyReadable(env: Env, top: string, step: WalkStep, e: HashEntry) returns (file: string)
    requires e in DirHashes(env, top, step)
    ensures file in Take(step.files, PerDirectory) && env.fs(WalkedPath(top, step.dir, file)).ReadableFile()
    ensures e == EntryFor(env, WalkedPath(top, step.dir, file))
  {
    var p := HashableIn(env, top, step.dir);
    file := MapSource(EntryIn(env, top, step.dir), Filter(p, Take(step.files, PerDirectory)), e);
    FilterMember(p, Take(step.files, PerDirectory), file);
  }

  /** The entry of a readable file records its own path, both digests of its content,
      its size and its modification time. */
  lemma EntryFields(env: Env, path: string)
    requires env.fs(path).ReadableFile()
    ensures var e := EntryFor(env, path); var n := env.fs(path);
      e.file == path && e.md5 == env.hasher.md5(n.data) && e.sha256 == env.hasher.sha256(n.data)
      && e.size == |n.data| && e.modified == env.iso(n.mtime)
  {
  }

  /** A location that is a file is hashed on its own, without a walk, and only when it
      can be read; a missing location contributes nothing. */
  lemma SingleFileHashedDirectly(env: Env, path: string)
    ensures env.fs(path).File? ==> PathHashes(env, path) == if env.fs(path).readable then [EntryFor(env, path)] else []
    ensures !env.fs(path).Exists() ==> PathHashes(env, path) == []
  {
  }

  // ---------------------------------------------------------------------------------
  // Dispatch
  // ---------------------------------------------------------------------------------

  /** The keys of the `operations` table; `collect_users` is not among them. */
  datatype EvidenceOp = ProcessesOp | NetworkOp | SysInfoOp | HashOp

  function OpName(k: EvidenceOp): string
  {
    match k
    case ProcessesOp => "processes"
    case NetworkOp => "network"
    case SysInfoOp => "sysinfo"
    case HashOp => "hash"
  }

  /** `operation in operations`: the operation a name selects, if any. */
  function OpNamed(op: string): (r: Option<EvidenceOp>)
    ensures r.Some? ==> OpName(r.value) == op
    ensures r.None? ==> forall k :: OpName(k) != op
  {
    if op == "processes" then Some(ProcessesOp)
    else if op == "network" then Some(NetworkOp)
    else if op == "sysinfo" then Some(SysInfoOp)
    else if op == "hash" then Some(HashOp)
    else None
  }

  /** `users` is no key of the table, so `collect_users` cannot be reached. */
  lemma UsersUnreachable()
    ensures OpNamed("users").None?
  {
    assert "users"[0] != "processes"[0] && "users"[0] != "network"[0] && "users"[0] != "sysinfo"[0]
      && "users"[0] != "hash"[0];
  }

  /** The path a collector hands back in place of its artifact. */
  function PathOf(r: Outcome<Artifact>): Outcome<string>
  {
    match r
    case Raised(reason) => Raised(reason)
    case Returned(a) => Returned(if a.Some? then Some(a.value.path) else None)
  }

  method SystemInfoResult(env: Env, platform: string, dir: string) returns (result: Outcome<string>)
    ensures result == PathOf(SystemInfoOutcome(env, dir, ProbeAll(env.run, SystemProbes(platform))))
  {
    var r := CollectSystemInfo(env, platform, dir);
    result := PathOf(r);
  }

  method HashResult(env: Env, platform: string, dir: string) returns (result: Outcome<string>)
    ensures result == Returned(Some(HashesPath(dir, env.stamp)))
  {
    var path, report := HashFiles(env, platform, dir);
    result := Returned(Some(path));
  }

  /** What each table key gives: a path, None, or an escaping error. */
  function Expected(env: Env, platform: string, dir: string, k: EvidenceOp): Outcome<string>
  {
    match k
    case ProcessesOp => PathOf(CollectProcesses(env, platform, dir))
    case NetworkOp => PathOf(CollectNetwork(env, platform, dir))
    case SysInfoOp => PathOf(SystemInfoOutcome(env, dir, ProbeAll(env.run, SystemProbes(platform))))
    case HashOp => Returned(Some(HashesPath(dir, env.stamp)))
  }

  /** Only a collector that runs a command can raise, and a hash run, with the corrected
      directory loop, gives its path. */
  lemma OnlyCommandsRaise(env: Env, platform: string, dir: string, k: EvidenceOp)
    ensures Expected(env, platform, dir, k).Raised? ==> k != HashOp
    ensures Expected(env, platform, dir, k).Raised? ==> exists cmd :: env.run(cmd).NotFound?
  {
    if Expected(env, platform, dir, k).Raised? {
      match k
      case ProcessesOp =>
        assert env.run(ProcessCommand(platform)).NotFound?;
      case NetworkOp =>
        var (c1, c2) := NetworkCommands(platform);
        assert env.run(c1).NotFound? || env.run(c2).NotFound?;
      case SysInfoOp =>
        var j := ProbeAllStops(env.run, SystemProbes(platform));
        assert env.run(SystemProbes(platform)[j].cmd).NotFound?;
    }
  }

  /** `EvidenceCollector.run_operation`: the four table keys route to their collector,
      whose outcome (a path, None, or an escaping error) is passed on; any other name is
      logged and gives None. */
  method RunOperation(env: Env, platform: string, config: Config, op: string)
    returns (result: Outcome<string>, log: seq<string>)
    ensures OpNamed(op).Some? ==> result == Expected(env, platform, OutputDir(config), OpNamed(op).value) && log == []
    ensures OpNamed(op).None? ==> result == Returned(None) && log == ["Unknown evidence operation: " + op]
  {
    var dir := OutputDir(config);
    log := [];
    match OpNamed(op)
    case Some(ProcessesOp) => result := PathOf(CollectProcesses(env, platform, dir));
    case Some(NetworkOp) => result := PathOf(CollectNetwork(env, platform, dir));
    case Some(SysInfoOp) => result := SystemInfoResult(env, platform, dir);
    case Some(HashOp) => result := HashResult(env, platform, dir);
    case None =>
      result := Returned(None);
      log := ["Unknown evidence operation: " + op];
  }
}
