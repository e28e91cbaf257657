/** core/isolation.py: emergency firewall lockdown, the investigation whitelist, killing
    processes on suspicious ports, DNS blocking and the isolation status probe. */
module Isolation {
  import opened Wrappers
  import opened Text
  import opened Sorting
  import opened Host

  // ---------------------------------------------------------------------------------
  // Recording command results
  // ---------------------------------------------------------------------------------

  /** The transcript line for a command that ran: `SUCCESS: <cmd>` when it exited with 0,
      else `FAILED: <cmd> - <error>`. */
  function Entry(run: Command -> Run, cmd: Command): string
  {
    match run(cmd)
    case NotFound => ""
    case Exited(code, _) =>
      if code == 0 then "SUCCESS: " + Join(" ", cmd)
      else "FAILED: " + Join(" ", cmd) + " - " + ErrorText(cmd, code)
  }

  function EntryFor(run: Command -> Run): Command -> string
  {
    (cmd: Command) => Entry(run, cmd)
  }

  /** A command whose executable does not exist. */
  function Unavailable(run: Command -> Run): Command -> bool
  {
    (cmd: Command) => run(cmd).NotFound?
  }

  function Transcript(run: Command -> Run, cmds: seq<Command>): seq<string>
  {
    Map(EntryFor(run), cmds)
  }

  /** The entry says `SUCCESS:` exactly for a command that succeeded and `FAILED:`
      exactly for one that exited non-zero, followed by the command line either way. */
  lemma EntryClassifies(run: Command -> Run, cmd: Command)
    requires run(cmd).Exited?
    ensures StartsWith(Entry(run, cmd), "SUCCESS: " + Join(" ", cmd)) <==> run(cmd).Succeeded()
    ensures StartsWith(Entry(run, cmd), "FAILED: " + Join(" ", cmd)) <==> !run(cmd).Succeeded()
  {
    var e := Entry(run, cmd);
    assert e[0] == (if run(cmd).Succeeded() then 'S' else 'F');
  }

  /** The transcript has one entry per planned command, in plan order. */
  lemma TranscriptEntries(run: Command -> Run, cmds: seq<Command>, i: nat)
    requires i < |cmds|
    ensures |Transcript(run, cmds)| == |cmds|
    ensures Transcript(run, cmds)[i] == Entry(run, cmds[i])
  {
    MapAt(EntryFor(run), cmds, i);
  }

  /** The `for cmd in commands` loop: a command that exits non-zero is recorded and the
      loop goes on; a missing executable raises out of the operation. */
  method RecordResults(run: Command -> Run, cmds: seq<Command>) returns (results: Option<seq<string>>)
    ensures results.None? <==> exists i :: 0 <= i < |cmds| && run(cmds[i]).NotFound?
    ensures results.Some? ==> results.value == Transcript(run, cmds)
  {
    var done: seq<string> := [];
    AnyExists(Unavailable(run), cmds);
    for i := 0 to |cmds|
      invariant done == Transcript(run, cmds[..i])
      invariant !Any(Unavailable(run), cmds[..i])
    {
      AnySnoc(Unavailable(run), cmds, i);
      MapSnoc(EntryFor(run), cmds, i);
      if run(cmds[i]).NotFound? {
        return None;
      }
      done := done + [Entry(run, cmds[i])];
    }
    assert cmds[..|cmds|] == cmds;
    results := Some(done);
  }

  // ---------------------------------------------------------------------------------
  // Emergency isolation
  // ---------------------------------------------------------------------------------

  const LinuxLockdown: seq<Command> := [
    ["iptables", "-P", "OUTPUT", "DROP"],
    ["iptables", "-A", "OUTPUT", "-o", "lo", "-j", "ACCEPT"],
    ["iptables", "-A", "OUTPUT", "-m", "state", "--state", "ESTABLISHED,RELATED", "-j", "ACCEPT"]]

  const DnsDropRules: seq<Command> := [
    ["iptables", "-A", "OUTPUT", "-p", "udp", "--dport", "53", "-j", "DROP"],
    ["iptables", "-A", "OUTPUT", "-p", "tcp", "--dport", "53", "-j", "DROP"]]

  const WindowsLockdown: seq<Command> := [
    ["netsh", "advfirewall", "set", "allprofiles", "firewallpolicy", "blockinbound,blockoutbound"],
    ["netsh", "advfirewall", "firewall", "add", "rule", "name=IRIS_ALLOW_LOOPBACK", "dir=out",
     "action=allow", "remoteip=127.0.0.1"]]

  function AcceptRule(ip: string): Command
  {
    ["iptables", "-A", "OUTPUT", "-d", ip, "-j", "ACCEPT"]
  }

  function WindowsRuleName(i: nat): string
  {
    "name=IRIS_WHITELIST_" + NatToString(i)
  }

  function AllowRule(i: nat, ip: string): Command
  {
    ["netsh", "advfirewall", "firewall", "add", "rule", WindowsRuleName(i), "dir=out",
     "action=allow", "remoteip=" + ip]
  }

  /** The Linux plan: default-drop, loopback and established traffic, one ACCEPT per
      whitelisted address in configured order, then the two DNS drops. */
  predicate LinuxPlan(cmds: seq<Command>, whitelist: seq<string>)
  {
    |cmds| == 5 + |whitelist| && cmds[..3] == LinuxLockdown
    && (forall i :: 0 <= i < |whitelist| ==> cmds[3 + i] == AcceptRule(whitelist[i]))
    && cmds[3 + |whitelist|..] == DnsDropRules
  }

  /** The Windows plan: block-all and the loopback rule, then rule `IRIS_WHITELIST_i`
      for the `i`-th whitelisted address. */
  predicate WindowsPlan(cmds: seq<Command>, whitelist: seq<string>)
  {
    |cmds| == 2 + |whitelist| && cmds[..2] == WindowsLockdown
    && forall i :: 0 <= i < |whitelist| ==> cmds[2 + i] == AllowRule(i, whitelist[i])
  }

  /** The `commands` list of `emergency_isolation`, built by appends. */
  method PlanIsolation(platform: string, whitelist: seq<string>) returns (cmds: seq<Command>)
    ensures IsLinux(platform) ==> LinuxPlan(cmds, whitelist)
    ensures !IsLinux(platform) ==> WindowsPlan(cmds, whitelist)
  {
    if IsLinux(platform) {
      cmds := LinuxLockdown;
      for i := 0 to |whitelist|
        invariant |cmds| == 3 + i && cmds[..3] == LinuxLockdown
        invariant forall j :: 0 <= j < i ==> cmds[3 + j] == AcceptRule(whitelist[j])
      {
        cmds := cmds + [AcceptRule(whitelist[i])];
      }
      cmds := cmds + DnsDropRules;
    } else {
      cmds := WindowsLockdown;
      for i := 0 to |whitelist|
        invariant |cmds| == 2 + i && cmds[..2] == WindowsLockdown
        invariant forall j :: 0 <= j < i ==> cmds[2 + j] == AllowRule(j, whitelist[j])
      {
        cmds := cmds + [AllowRule(i, whitelist[i])];
      }
    }
  }

  /** On Linux an address gets an ACCEPT rule exactly when it is whitelisted. */
  lemma LinuxPlanAcceptsExactlyWhitelist(cmds: seq<Command>, whitelist: seq<string>, ip: string)
    requires LinuxPlan(cmds, whitelist)
    ensures AcceptRule(ip) in cmds <==> ip in whitelist
  {
    if ip in whitelist {
      var i :| 0 <= i < |whitelist| && whitelist[i] == ip;
      assert cmds[3 + i] == AcceptRule(ip);
    }
    forall m | 0 <= m < 3 ensures cmds[m] != AcceptRule(ip) {
      assert cmds[m] == cmds[..3][m];
    }
    forall m | 3 + |whitelist| <= m < |cmds| ensures cmds[m] != AcceptRule(ip) {
      assert cmds[m] == cmds[3 + |whitelist|..][m - 3 - |whitelist|];
    }
    if AcceptRule(ip) in cmds {
      var k :| 0 <= k < |cmds| && cmds[k] == AcceptRule(ip);
      if 3 <= k < 3 + |whitelist| {
        assert cmds[k] == AcceptRule(whitelist[k - 3]);
      }
    }
  }

  /** The Windows whitelist rules have pairwise different names. */
  lemma WindowsRuleNamesDistinct(i: nat, j: nat)
    requires i != j
    ensures WindowsRuleName(i) != WindowsRuleName(j)
  {
    NatToStringInjective(i, j);
    var p := "name=IRIS_WHITELIST_";
    assert (p + NatToString(i))[|p|..] == NatToString(i);
    assert (p + NatToString(j))[|p|..] == NatToString(j);
  }

  /** Some command of the platform's plan names a program that is not installed, stated
      on the parts of the plan rather than on its positions. */
  predicate PlanMissing(run: Command -> Run, platform: string, whitelist: seq<string>)
  {
    if IsLinux(platform) then
      (exists i :: 0 <= i < |LinuxLockdown| && run(LinuxLockdown[i]).NotFound?)
      || (exists ip :: ip in whitelist && run(AcceptRule(ip)).NotFound?)
      || (exists i :: 0 <= i < |DnsDropRules| && run(DnsDropRules[i]).NotFound?)
    else
      (exists i :: 0 <= i < |WindowsLockdown| && run(WindowsLockdown[i]).NotFound?)
      || (exists i :: 0 <= i < |whitelist| && run(AllowRule(i, whitelist[i])).NotFound?)
  }

  /** A plan fails on a missing program exactly when one of its parts does. */
  lemma PlanMissingExactly(run: Command -> Run, platform: string, whitelist: seq<string>, plan: seq<Command>)
    requires IsLinux(platform) ==> LinuxPlan(plan, whitelist)
    requires !IsLinux(platform) ==> WindowsPlan(plan, whitelist)
    ensures (exists i :: 0 <= i < |plan| && run(plan[i]).NotFound?) <==> PlanMissing(run, platform, whitelist)
  {
    var n := |whitelist|;
    if IsLinux(platform) {
      if i :| 0 <= i < |plan| && run(plan[i]).NotFound? {
        if i < 3 {
          assert plan[i] == plan[..3][i];
        } else if i < 3 + n {
          assert plan[i] == AcceptRule(whitelist[i - 3]);
        } else {
          assert plan[i] == plan[3 + n..][i - 3 - n];
        }
      }
      if i :| 0 <= i < |LinuxLockdown| && run(LinuxLockdown[i]).NotFound? {
        assert plan[i] == plan[..3][i];
      }
      if ip :| ip in whitelist && run(AcceptRule(ip)).NotFound? {
        var k :| 0 <= k < n && whitelist[k] == ip;
        assert plan[3 + k] == AcceptRule(ip);
      }
      if i :| 0 <= i < |DnsDropRules| && run(DnsDropRules[i]).NotFound? {
        assert plan[3 + n + i] == plan[3 + n..][i];
      }
    } else {
      if i :| 0 <= i < |plan| && run(plan[i]).NotFound? {
        if i < 2 {
          assert plan[i] == plan[..2][i];
        } else {
          assert plan[i] == AllowRule(i - 2, whitelist[i - 2]);
        }
      }
      if i :| 0 <= i < |WindowsLockdown| && run(WindowsLockdown[i]).NotFound? {
        assert plan[i] == plan[..2][i];
      }
      if i :| 0 <= i < n && run(AllowRule(i, whitelist[i])).NotFound? {
        assert plan[2 + i] == AllowRule(i, whitelist[i]);
      }
    }
  }

  function EmergencyText(now: string, whitelist: seq<string>, results: seq<string>): string
  {
    "Emergency Isolation - " + now + "\n" + Rule60() + "\n"
    + "SYSTEM ISOLATED FROM NETWORK\n"
    + "Whitelist IPs: " + Join(", ", whitelist) + "\n"
    + "\nCommands executed:\n"
    + Lines(results)
  }

  /** `emergency_isolation`: runs the whole plan, recording every command; a missing
      executable leaves the commands before it applied and returns None. */
  method EmergencyIsolation(env: Env, platform: string, whitelist: seq<string>, dir: string)
    returns (plan: seq<Command>, result: Option<Artifact>)
    ensures IsLinux(platform) ==> LinuxPlan(plan, whitelist)
    ensures !IsLinux(platform) ==> WindowsPlan(plan, whitelist)
    ensures result.None? <==> exists i :: 0 <= i < |plan| && env.run(plan[i]).NotFound?
    ensures result.Some? ==> result.value == Artifact(
      PathJoin(dir, "isolation_emergency_" + env.stamp + ".txt"),
      EmergencyText(env.now, whitelist, Transcript(env.run, plan)))
  {
    plan := PlanIsolation(platform, whitelist);
    var results := RecordResults(env.run, plan);
    if results.None? {
      return plan, None;
    }
    result := Some(Artifact(PathJoin(dir, "isolation_emergency_" + env.stamp + ".txt"),
                            EmergencyText(env.now, whitelist, results.value)));
  }

  // ---------------------------------------------------------------------------------
  // The whitelist
  // ---------------------------------------------------------------------------------

  /** Loopback, IPv6 loopback and two private blocks of section 3 of RFC 1918. */
  const DefaultWhitelist: seq<string> := ["127.0.0.1", "::1", "10.0.0.0/8", "192.168.0.0/16"]

  const WhitelistDescription := "IP addresses allowed during isolation"

  datatype WhitelistFile = WhitelistFile(timestamp: string, whitelistIps: seq<string>, description: string)

  /** `self.whitelist_ips + default_whitelist`. */
  function MergeWhitelist(configured: seq<string>): (r: seq<string>)
    ensures |r| == |configured| + |DefaultWhitelist|
  {
    configured + DefaultWhitelist
  }

  /** The merged list keeps the configured addresses first and in order, then the four
      defaults; nothing is deduplicated, so an address counts once per source. */
  lemma MergeWhitelistKeepsAll(configured: seq<string>, ip: string)
    ensures MergeWhitelist(configured)[..|configured|] == configured
    ensures MergeWhitelist(configured)[|configured|..] == DefaultWhitelist
    ensures multiset(MergeWhitelist(configured))[ip] ==
      multiset(configured)[ip] + multiset(DefaultWhitelist)[ip]
  {
    assert MergeWhitelist(configured) == configured + DefaultWhitelist;
  }

  /** `manage_whitelist`: always `whitelist_ips.json` in the output directory, rewritten
      each time; it runs no command. */
  function ManageWhitelist(env: Env, configured: seq<string>, dir: string): (r: (string, WhitelistFile))
    ensures r.0 == PathJoin(dir, "whitelist_ips.json")
    ensures r.1.whitelistIps == MergeWhitelist(configured)
  {
    (PathJoin(dir, "whitelist_ips.json"), WhitelistFile(env.now, MergeWhitelist(configured), WhitelistDescription))
  }

  // ---------------------------------------------------------------------------------
  // Killing connections
  // ---------------------------------------------------------------------------------

  const SuspiciousPorts: seq<string> := ["4444", "5555", "6666", "8080", "9999"]

  const WindowsKillNote := "Windows connection termination not implemented in MVP"

  function LsofCommand(port: string): Command { ["lsof", "-i", ":" + port] }

  function KillCommand(pid: string): Command { ["kill", "-TERM", pid] }

  /** A line that names a process: not blank, and at least two whitespace fields. */
  predicate PidLine(line: string)
  {
    Strip(line) != [] && |Fields(line)| > 1
  }

  /** The second whitespace field, the PID column of `lsof`. */
  function PidOf(line: string): string
  {
    var f := Fields(line);
    if |f| > 1 then f[1] else ""
  }

  /** The `lsof` lines after the header, when `lsof` printed anything. */
  function PortLines(run: Command -> Run, port: string): seq<string>
  {
    var r := run(LsofCommand(port));
    if r.Exited? && r.stdout != [] then Split(r.stdout, '\n')[1..] else []
  }

  function KillRecord(pid: string, port: string): string
  {
    "Killed PID " + pid + " using port " + port
  }

  /** A process line whose `kill -TERM` succeeded. */
  predicate Killed(run: Command -> Run, line: string)
  {
    PidLine(line) && run(KillCommand(PidOf(line))).Succeeded()
  }

  /** The records for the lines of one port: one per process line whose kill succeeded. */
  function LineKills(run: Command -> Run, port: string, lines: seq<string>): seq<string>
  {
    if lines == [] then []
    else
      var last := lines[|lines| - 1];
      LineKills(run, port, lines[..|lines| - 1])
      + (if Killed(run, last) then [KillRecord(PidOf(last), port)] else [])
  }

  function KillsFrom(run: Command -> Run, ports: seq<string>): seq<string>
  {
    if ports == [] then []
    else KillsFrom(run, ports[..|ports| - 1]) + LineKills(run, ports[|ports| - 1], PortLines(run, ports[|ports| - 1]))
  }

  /** A process line whose `kill` executable is missing. */
  predicate KillMissing(run: Command -> Run, line: string)
  {
    PidLine(line) && run(KillCommand(PidOf(line))).NotFound?
  }

  function MissingKill(run: Command -> Run): string -> bool
  {
    (line: string) => KillMissing(run, line)
  }

  /** A missing `lsof` or `kill` aborts the whole operation. */
  predicate PortMissing(run: Command -> Run, port: string)
  {
    run(LsofCommand(port)).NotFound?
    || exists j :: 0 <= j < |PortLines(run, port)| && KillMissing(run, PortLines(run, port)[j])
  }

  /** Every line whose kill succeeded gives a record naming its PID. */
  lemma {:induction false} KilledLineRecorded(run: Command -> Run, port: string, lines: seq<string>, j: nat)
    requires j < |lines| && Killed(run, lines[j])
    ensures KillRecord(PidOf(lines[j]), port) in LineKills(run, port, lines)
  {
    var init := lines[..|lines| - 1];
    var tail := if Killed(run, lines[|lines| - 1]) then [KillRecord(PidOf(lines[|lines| - 1]), port)] else [];
    assert LineKills(run, port, lines) == LineKills(run, port, init) + tail;
    if j < |init| {
      assert init[j] == lines[j];
      KilledLineRecorded(run, port, init, j);
    } else {
      assert tail == [KillRecord(PidOf(lines[j]), port)];
    }
  }

  /** Every record comes from a line whose kill succeeded. */
  lemma {:induction false} RecordFromKilledLine(run: Command -> Run, port: string, lines: seq<string>, rec: string)
    requires rec in LineKills(run, port, lines)
    ensures exists j :: 0 <= j < |lines| && Killed(run, lines[j]) && rec == KillRecord(PidOf(lines[j]), port)
  {
    var init, last := lines[..|lines| - 1], lines[|lines| - 1];
    if rec in LineKills(run, port, init) {
      RecordFromKilledLine(run, port, init, rec);
      var j :| 0 <= j < |init| && Killed(run, init[j]) && rec == KillRecord(PidOf(init[j]), port);
      assert lines[j] == init[j];
    } else {
      assert lines[|lines| - 1] == last;
    }
  }

  /** The records the first `j + 1` lines give: those of the first `j`, then the one of
      line `j` when its kill succeeded. */
  lemma LineKillsSnoc(run: Command -> Run, port: string, lines: seq<string>, j: nat)
    requires j < |lines|
    ensures LineKills(run, port, lines[..j + 1])
      == LineKills(run, port, lines[..j]) + (if Killed(run, lines[j]) then [KillRecord(PidOf(lines[j]), port)] else [])
  {
    assert lines[..j + 1][..j] == lines[..j];
  }

  /** The body of the loop over the `lsof` lines: one line, after the records so far. */
  method KillLine(run: Command -> Run, port: string, line: string, acc: seq<string>) returns (out: Option<seq<string>>)
    ensures out.None? <==> KillMissing(run, line)
    ensures out.Some? ==> out.value == acc + (if Killed(run, line) then [KillRecord(PidOf(line), port)] else [])
  {
    out := Some(acc);
    if Strip(line) != [] {
      var parts := Fields(line);
      if |parts| > 1 {
        var pid := parts[1];
        var kill := run(KillCommand(pid));
        if kill.NotFound? {
          return None;
        }
        if kill.Succeeded() {
          out := Some(acc + [KillRecord(pid, port)]);
        }
      }
    }
  }

  /** The loop over the `lsof` lines of one port. */
  method KillLines(run: Command -> Run, port: string, lines: seq<string>) returns (records: Option<seq<string>>)
    ensures records.None? <==> exists j :: 0 <= j < |lines| && KillMissing(run, lines[j])
    ensures records.Some? ==> records.value == LineKills(run, port, lines)
  {
    var found: seq<string> := [];
    AnyExists(MissingKill(run), lines);
    for j := 0 to |lines|
      invariant found == LineKills(run, port, lines[..j])
      invariant !Any(MissingKill(run), lines[..j])
    {
      LineKillsSnoc(run, port, lines, j);
      AnySnoc(MissingKill(run), lines, j);
      var next := KillLine(run, port, lines[j], found);
      if next.None? {
        return None;
      }
      found := next.value;
    }
    assert lines[..|lines|] == lines;
    records := Some(found);
  }

  /** The probe of one suspicious port: `lsof` without `check`, then its lines. */
  method KillOnPort(run: Command -> Run, port: string) returns (records: Option<seq<string>>)
    ensures records.None? <==> PortMissing(run, port)
    ensures records.Some? ==> records.value == LineKills(run, port, PortLines(run, port))
  {
    var lsof := run(LsofCommand(port));
    if lsof.NotFound? {
      return None;
    }
    var lines := if lsof.stdout != [] then Split(lsof.stdout, '\n')[1..] else [];
    assert lines == PortLines(run, port);
    records := KillLines(run, port, lines);
    assert records.None? <==> exists j :: 0 <= j < |lines| && KillMissing(run, lines[j]);
  }

  function PortMissingOf(run: Command -> Run): string -> bool
  {
    (port: string) => PortMissing(run, port)
  }

  /** The loop over the suspicious ports. */
  method KillPorts(run: Command -> Run, ports: seq<string>) returns (killed: Option<seq<string>>)
    ensures killed.None? <==> exists i :: 0 <= i < |ports| && PortMissing(run, ports[i])
    ensures killed.Some? ==> killed.value == KillsFrom(run, ports)
  {
    var found: seq<string> := [];
    AnyExists(PortMissingOf(run), ports);
    for i := 0 to |ports|
      invariant found == KillsFrom(run, ports[..i])
      invariant !Any(PortMissingOf(run), ports[..i])
    {
      assert ports[..i + 1][..i] == ports[..i];
      AnySnoc(PortMissingOf(run), ports, i);
      var records := KillOnPort(run, ports[i]);
      if records.None? {
        return None;
      }
      found := found + records.value;
    }
    assert ports[..|ports|] == ports;
    killed := Some(found);
  }

  function KillText(now: string, connections: string, killed: seq<string>): string
  {
    "Connection Termination - " + now + "\n" + Rule60() + "\n"
    + "Network connections before termination:\n" + connections
    + "\n" + Rule40() + "\n"
    + "Terminated processes:\n" + Lines(killed)
  }

  function KillPath(dir: string, stamp: string): string
  {
    PathJoin(dir, "killed_connections_" + stamp + ".txt")
  }

  /** `kill_connections`: the connection listing must succeed (a failure is not caught
      by the inner handlers); on Linux every suspicious port is probed with `lsof`, on
      Windows a single note is recorded. */
  method KillConnections(env: Env, platform: string, dir: string) returns (result: Option<Artifact>)
    ensures IsLinux(platform) ==>
      (result.None? <==> !env.run(["netstat", "-tuln"]).Succeeded()
                         || exists i :: 0 <= i < |SuspiciousPorts| && PortMissing(env.run, SuspiciousPorts[i]))
    ensures IsLinux(platform) && result.Some? ==> result.value == Artifact(KillPath(dir, env.stamp),
      KillText(env.now, env.run(["netstat", "-tuln"]).stdout, KillsFrom(env.run, SuspiciousPorts)))
    ensures !IsLinux(platform) ==> (result.None? <==> !env.run(["netstat", "-an"]).Succeeded())
    ensures !IsLinux(platform) && result.Some? ==> result.value == Artifact(KillPath(dir, env.stamp),
      KillText(env.now, env.run(["netstat", "-an"]).stdout, [WindowsKillNote]))
  {
    var connections: string;
    var killed: seq<string>;
    if IsLinux(platform) {
      var listing := env.run(["netstat", "-tuln"]);
      if !listing.Succeeded() {
        return None;
      }
      connections := listing.stdout;
      var records := KillPorts(env.run, SuspiciousPorts);
      if records.None? {
        return None;
      }
      killed := records.value;
    } else {
      var listing := env.run(["netstat", "-an"]);
      if !listing.Succeeded() {
        return None;
      }
      connections := listing.stdout;
      killed := [WindowsKillNote];
    }
    result := Some(Artifact(KillPath(dir, env.stamp), KillText(env.now, connections, killed)));
  }

  // ---------------------------------------------------------------------------------
  // Blocking DNS
  // ---------------------------------------------------------------------------------

  const LinuxDnsPlan: seq<Command> := DnsDropRules + [
    ["iptables", "-A", "OUTPUT", "-d", "8.8.8.8", "-j", "DROP"],
    ["iptables", "-A", "OUTPUT", "-d", "8.8.4.4", "-j", "DROP"],
    ["iptables", "-A", "OUTPUT", "-d", "1.1.1.1", "-j", "DROP"]]

  const WindowsDnsPlan: seq<Command> := [
    ["netsh", "advfirewall", "firewall", "add", "rule", "name=IRIS_BLOCK_DNS_UDP", "dir=out",
     "action=block", "protocol=UDP", "localport=53"],
    ["netsh", "advfirewall", "firewall", "add", "rule", "name=IRIS_BLOCK_DNS_TCP", "dir=out",
     "action=block", "protocol=TCP", "localport=53"]]

  function DnsPlan(platform: string): (cmds: seq<Command>)
    ensures |cmds| == if IsLinux(platform) then 5 else 2
  {
    if IsLinux(platform) then LinuxDnsPlan else WindowsDnsPlan
  }

  function DnsText(now: string, results: seq<string>): string
  {
    "DNS Blocking - " + now + "\n" + Rule60() + "\n"
    + "DNS resolution has been blocked\n"
    + "Commands executed:\n"
    + Lines(results)
  }

  /** `block_dns`: five Linux or two Windows commands, recorded one entry each. */
  method BlockDns(env: Env, platform: string, dir: string) returns (result: Option<Artifact>)
    ensures result.None? <==> exists i :: 0 <= i < |DnsPlan(platform)| && env.run(DnsPlan(platform)[i]).NotFound?
    ensures result.Some? ==> result.value == Artifact(PathJoin(dir, "dns_block_" + env.stamp + ".txt"),
      DnsText(env.now, Transcript(env.run, DnsPlan(platform))))
  {
    var results := RecordResults(env.run, DnsPlan(platform));
    if results.None? {
      return None;
    }
    result := Some(Artifact(PathJoin(dir, "dns_block_" + env.stamp + ".txt"), DnsText(env.now, results.value)));
  }

  // ---------------------------------------------------------------------------------
  // Isolation status
  // ---------------------------------------------------------------------------------

  datatype Status = Status(
    timestamp: string, platform: string, isolationActive: bool,
    firewallRules: seq<string>, activeConnections: seq<string>)

  const IptablesList: Command := ["iptables", "-L", "-n"]
  const NetstatList: Command := ["netstat", "-tuln"]
  const NetshShow: Command := ["netsh", "advfirewall", "show", "allprofiles"]

  /** The listing split into lines, or the placeholder when the listing failed. */
  function ListingLines(r: Run, placeholder: string): seq<string>
  {
    if r.Succeeded() then Split(r.stdout, '\n') else [placeholder]
  }

  /** `isolation_status`: isolation counts as active only when the firewall listing
      succeeded and mentions `DROP` (Linux) or `Block` (Windows); a failed listing is
      replaced by its placeholder line. The status is returned with its `.json` path. */
  method IsolationStatus(env: Env, platform: string, dir: string) returns (result: Option<(string, Status)>)
    ensures IsLinux(platform) ==>
      (result.None? <==> env.run(IptablesList).NotFound? || env.run(NetstatList).NotFound?)
    ensures IsLinux(platform) && result.Some? ==> result.value.1 == Status(env.now, platform,
      env.run(IptablesList).Succeeded() && Contains(env.run(IptablesList).stdout, "DROP"),
      ListingLines(env.run(IptablesList), "Could not read iptables rules"),
      ListingLines(env.run(NetstatList), "Could not read network connections"))
    ensures !IsLinux(platform) ==> (result.None? <==> env.run(NetshShow).NotFound?)
    ensures !IsLinux(platform) && result.Some? ==> result.value.1 == Status(env.now, platform,
      env.run(NetshShow).Succeeded() && Contains(env.run(NetshShow).stdout, "Block"),
      ListingLines(env.run(NetshShow), "Could not read firewall rules"), [])
    ensures result.Some? ==> result.value.0 == PathJoin(dir, "isolation_status_" + env.stamp + ".json")
  {
    var status := Status(env.now, platform, false, [], []);
    if IsLinux(platform) {
      var rules := env.run(IptablesList);
      if rules.NotFound? {
        return None;
      }
      if rules.Succeeded() {
        status := status.(firewallRules := Split(rules.stdout, '\n'));
        status := status.(isolationActive := Contains(rules.stdout, "DROP"));
      } else {
        status := status.(firewallRules := ["Could not read iptables rules"]);
      }
      var conns := env.run(NetstatList);
      if conns.NotFound? {
        return None;
      }
      if conns.Succeeded() {
        status := status.(activeConnections := Split(conns.stdout, '\n'));
      } else {
        status := status.(activeConnections := ["Could not read network connections"]);
      }
    } else {
      var rules := env.run(NetshShow);
      if rules.NotFound? {
        return None;
      }
      if rules.Succeeded() {
        status := status.(firewallRules := Split(rules.stdout, '\n'));
        status := status.(isolationActive := Contains(rules.stdout, "Block"));
      } else {
        status := status.(firewallRules := ["Could not read firewall rules"]);
      }
    }
    result := Some((PathJoin(dir, "isolation_status_" + env.stamp + ".json"), status));
  }

  /** A successful listing is kept whole: its lines joined back give the output, and
      none of them holds a line break. */
  lemma ListingRoundTrip(r: Run, placeholder: string)
    requires r.Succeeded()
    ensures Join("\n", ListingLines(r, placeholder)) == r.stdout
    ensures forall i :: 0 <= i < |ListingLines(r, placeholder)| ==> '\n' !in ListingLines(r, placeholder)[i]
  {
    SplitJoin(r.stdout, '\n');
  }

  // ---------------------------------------------------------------------------------
  // Dispatch
  // ---------------------------------------------------------------------------------

  /** The operations `run_operation` knows. */
  datatype IsolationOp = EmergencyOp | WhitelistOp | KillOp | DnsOp | StatusOp

  function OpName(k: IsolationOp): string
  {
    match k
    case EmergencyOp => "emergency"
    case WhitelistOp => "whitelist"
    case KillOp => "kill"
    case DnsOp => "dns"
    case StatusOp => "status"
  }

  /** The `if operation == ...` chain: the operation a name selects, if any. */
  function OpNamed(op: string): (r: Option<IsolationOp>)
    ensures r.Some? ==> OpName(r.value) == op
    ensures r.None? ==> forall k :: OpName(k) != op
  {
    if op == "emergency" then Some(EmergencyOp)
    else if op == "whitelist" then Some(WhitelistOp)
    else if op == "kill" then Some(KillOp)
    else if op == "dns" then Some(DnsOp)
    else if op == "status" then Some(StatusOp)
    else None
  }

  /** What each handler hands back to `run_operation`: the path it wrote, or None when a
      program it needed was missing. */
  predicate EmergencyOutcome(env: Env, platform: string, whitelist: seq<string>, dir: string, result: Option<string>)
  {
    (result.None? <==> PlanMissing(env.run, platform, whitelist))
    && (result == None || result == Some(PathJoin(dir, "isolation_emergency_" + env.stamp + ".txt")))
  }

  predicate KillOutcome(env: Env, platform: string, dir: string, result: Option<string>)
  {
    (IsLinux(platform) ==>
      (result.None? <==> !env.run(["netstat", "-tuln"]).Succeeded()
                         || exists i :: 0 <= i < |SuspiciousPorts| && PortMissing(env.run, SuspiciousPorts[i])))
    && (!IsLinux(platform) ==> (result.None? <==> !env.run(["netstat", "-an"]).Succeeded()))
    && (result == None || result == Some(KillPath(dir, env.stamp)))
  }

  predicate DnsOutcome(env: Env, platform: string, dir: string, result: Option<string>)
  {
    (result.None? <==> exists i :: 0 <= i < |DnsPlan(platform)| && env.run(DnsPlan(platform)[i]).NotFound?)
    && (result == None || result == Some(PathJoin(dir, "dns_block_" + env.stamp + ".txt")))
  }

  predicate StatusOutcome(env: Env, platform: string, dir: string, result: Option<string>)
  {
    (IsLinux(platform) ==> (result.None? <==> env.run(IptablesList).NotFound? || env.run(NetstatList).NotFound?))
    && (!IsLinux(platform) ==> (result.None? <==> env.run(NetshShow).NotFound?))
    && (result == None || result == Some(PathJoin(dir, "isolation_status_" + env.stamp + ".json")))
  }

  method EmergencyResult(env: Env, platform: string, whitelist: seq<string>, dir: string)
    returns (result: Option<string>)
    ensures EmergencyOutcome(env, platform, whitelist, dir, result)
  {
    var plan, r := EmergencyIsolation(env, platform, whitelist, dir);
    PlanMissingExactly(env.run, platform, whitelist, plan);
    result := if r.Some? then Some(r.value.path) else None;
  }

  method KillResult(env: Env, platform: string, dir: string) returns (result: Option<string>)
    ensures KillOutcome(env, platform, dir, result)
  {
    var r := KillConnections(env, platform, dir);
    result := if r.Some? then Some(r.value.path) else None;
  }

  method DnsResult(env: Env, platform: string, dir: string) returns (result: Option<string>)
    ensures DnsOutcome(env, platform, dir, result)
  {
    var r := BlockDns(env, platform, dir);
    result := if r.Some? then Some(r.value.path) else None;
  }

  method StatusResult(env: Env, platform: string, dir: string) returns (result: Option<string>)
    ensures StatusOutcome(env, platform, dir, result)
  {
    var r := IsolationStatus(env, platform, dir);
    result := if r.Some? then Some(r.value.0) else None;
  }

  /** `NetworkIsolation.run_operation`: the five known names route to their handler and
      give the path it wrote, or None when it failed; any other name is logged. */
  method RunOperation(env: Env, platform: string, config: Config, op: string)
    returns (result: Option<string>, log: seq<string>)
    ensures OpNamed(op) == Some(EmergencyOp) ==> EmergencyOutcome(env, platform, Whitelist(config), OutputDir(config), result)
    ensures OpNamed(op) == Some(WhitelistOp) ==> result == Some(PathJoin(OutputDir(config), "whitelist_ips.json"))
    ensures OpNamed(op) == Some(KillOp) ==> KillOutcome(env, platform, OutputDir(config), result)
    ensures OpNamed(op) == Some(DnsOp) ==> DnsOutcome(env, platform, OutputDir(config), result)
    ensures OpNamed(op) == Some(StatusOp) ==> StatusOutcome(env, platform, OutputDir(config), result)
    ensures OpNamed(op).Some? ==> log == []
    ensures OpNamed(op).None? ==> result == None && log == ["Unknown isolation operation: " + op]
  {
    var dir := OutputDir(config);
    log := [];
    match OpNamed(op)
    case Some(EmergencyOp) => result := EmergencyResult(env, platform, Whitelist(config), dir);
    case Some(WhitelistOp) => result := Some(ManageWhitelist(env, Whitelist(config), dir).0);
    case Some(KillOp) => result := KillResult(env, platform, dir);
    case Some(DnsOp) => result := DnsResult(env, platform, dir);
    case Some(StatusOp) => result := StatusResult(env, platform, dir);
    case None =>
      result := None;
      log := ["Unknown isolation operation: " + op];
  }
}
