/** core/forensics.py: the memory summary, system-log collection with tail truncation,
    browser artifacts, recently modified files and the desktop screenshot. */
module Forensics {
  import opened Wrappers
  import opened Text
  import opened Sorting
  import opened Host

  /** `max_log_size`: the configured size in megabytes (100 when absent), in bytes. */
  function MaxLogSize(c: Config): (r: int)
    ensures c.maxLogSizeMb.None? ==> r == 104857600
    ensures c.maxLogSizeMb.Some? ==> r == c.maxLogSizeMb.value * 1048576
  {
    (if c.maxLogSizeMb.Some? then c.maxLogSizeMb.value else 100) * 1024 * 1024
  }

  /** A bulleted summary line, `  - <item>`. */
  function Bullet(item: string): string
  {
    "  - " + item
  }

  // ---------------------------------------------------------------------------------
  // Memory snapshot
  // ---------------------------------------------------------------------------------

  /** The three `memory_info` keys. */
  datatype MemorySource = Meminfo | TopMemoryProcesses | VirtualMemory

  function KeyName(k: MemorySource): string
  {
    match k
    case Meminfo => "meminfo"
    case TopMemoryProcesses => "top_memory_processes"
    case VirtualMemory => "vmstat"
  }

  /** One `memory_info` entry, written as `\n<KEY>:\n<value>\n` and a rule. */
  datatype Section = Section(key: MemorySource, value: string)

  const ProcMeminfo := "/proc/meminfo"
  const PsByMemory: Command := ["ps", "aux", "--sort=-%mem"]
  const Vmstat: Command := ["vmstat"]
  const Tasklist: Command := ["tasklist", "/fo", "csv", "/v"]

  const MeminfoPlaceholder := "Could not read /proc/meminfo"
  const PsPlaceholder := "Could not get process memory info"
  const VmstatPlaceholder := "Could not get vmstat"

  function SectionText(s: Section): string
  {
    "\n" + Upper(KeyName(s.key)) + ":\n" + s.value + "\n" + Dash40() + "\n"
  }

  function LinuxMemoryBanner(now: string): string
  {
    "Memory Snapshot - " + now + "\n" + Rule60() + "\n"
    + "WARNING: Full memory dump requires specialized tools\n"
    + "This is a summary of memory state and processes\n"
    + Rule60() + "\n"
  }

  function LinuxMemoryText(now: string, sections: seq<Section>): string
  {
    LinuxMemoryBanner(now) + Concat(Map(SectionText, sections))
  }

  function WindowsMemoryText(now: string, tasks: Run): string
  {
    "Memory Snapshot - " + now + "\n" + Rule60() + "\n"
    + "Windows memory capture requires specialized tools like WinPmem\n"
    + "This MVP version provides process memory information instead\n"
    + Rule60() + "\n"
    + (if tasks.Succeeded() then "PROCESS MEMORY USAGE:\n" + tasks.stdout
       else "Could not retrieve process information\n")
  }

  function MemoryPath(dir: string, stamp: string): string
  {
    PathJoin(dir, "memory_snapshot_" + stamp + ".txt")
  }

  /** The value of one source: its output, or its fixed placeholder when it fails (the
      bare `except` also catches a missing program). */
  function SourceOr(r: Run, placeholder: string): string
  {
    if r.Succeeded() then r.stdout else placeholder
  }

  /** The `memory_info` dictionary of the Linux branch, in insertion order. */
  function MemorySections(env: Env): seq<Section>
  {
    var meminfo := env.fs(ProcMeminfo);
    [Section(Meminfo, if meminfo.ReadableFile() then meminfo.data else MeminfoPlaceholder),
     Section(TopMemoryProcesses, SourceOr(env.run(PsByMemory), PsPlaceholder)),
     Section(VirtualMemory, SourceOr(env.run(Vmstat), VmstatPlaceholder))]
  }

  /** The sections are meminfo, top_memory_processes and vmstat in that order; each holds
      its source's output when that source worked and exactly its own placeholder when
      it failed. */
  lemma MemorySectionsPlaceholders(env: Env)
    ensures |MemorySections(env)| == 3
    ensures MemorySections(env)[0].key == Meminfo && MemorySections(env)[1].key == TopMemoryProcesses
      && MemorySections(env)[2].key == VirtualMemory
    ensures env.fs(ProcMeminfo).ReadableFile() ==> MemorySections(env)[0].value == env.fs(ProcMeminfo).data
    ensures !env.fs(ProcMeminfo).ReadableFile() ==> MemorySections(env)[0].value == MeminfoPlaceholder
    ensures env.run(PsByMemory).Succeeded() ==> MemorySections(env)[1].value == env.run(PsByMemory).stdout
    ensures !env.run(PsByMemory).Succeeded() ==> MemorySections(env)[1].value == PsPlaceholder
    ensures env.run(Vmstat).Succeeded() ==> MemorySections(env)[2].value == env.run(Vmstat).stdout
    ensures !env.run(Vmstat).Succeeded() ==> MemorySections(env)[2].value == VmstatPlaceholder
  {
  }

  /** The three `try` blocks that fill `memory_info`. */
  method ReadMemorySources(env: Env) returns (sections: seq<Section>)
    ensures sections == MemorySections(env)
  {
    var meminfo := env.fs(ProcMeminfo);
    var m := if meminfo.ReadableFile() then meminfo.data else MeminfoPlaceholder;
    var ps := env.run(PsByMemory);
    var p := SourceOr(ps, PsPlaceholder);
    var vm := env.run(Vmstat);
    var v := SourceOr(vm, VmstatPlaceholder);
    sections := [Section(Meminfo, m), Section(TopMemoryProcesses, p), Section(VirtualMemory, v)];
  }

  /** `capture_memory`: always writes `memory_snapshot_<stamp>.txt`. */
  method CaptureMemory(env: Env, platform: string, dir: string) returns (snapshot: Artifact, sections: seq<Section>)
    ensures snapshot.path == MemoryPath(dir, env.stamp)
    ensures IsLinux(platform) ==> sections == MemorySections(env) && snapshot.content == LinuxMemoryText(env.now, sections)
    ensures !IsLinux(platform) ==> sections == [] && snapshot.content == WindowsMemoryText(env.now, env.run(Tasklist))
  {
    if IsLinux(platform) {
      sections := ReadMemorySources(env);
      snapshot := Artifact(MemoryPath(dir, env.stamp), LinuxMemoryText(env.now, sections));
    } else {
      sections := [];
      snapshot := Artifact(MemoryPath(dir, env.stamp), WindowsMemoryText(env.now, env.run(Tasklist)));
    }
  }

  // ---------------------------------------------------------------------------------
  // System logs
  // ---------------------------------------------------------------------------------

  /** A log query: the command and the file its output is saved as. */
  datatype LogQuery = LogQuery(cmd: Command, file: string)

  const LinuxLogFiles: seq<string> := [
    "/var/log/syslog", "/var/log/auth.log", "/var/log/kern.log",
    "/var/log/dmesg", "/var/log/messages", "/var/log/secure"]

  function EventLogQuery(name: string): LogQuery
  {
    LogQuery(["wevtutil", "qe", name, "/c:100", "/f:text"], Lower(name) + "_events.log")
  }

  /** The journal on Linux; the System, Security and Application event logs on Windows. */
  function LogQueries(platform: string): (r: seq<LogQuery>)
    ensures |r| == if IsLinux(platform) then 1 else 3
  {
    if IsLinux(platform) then [LogQuery(["journalctl", "--since", "1 hour ago"], "journalctl_recent.log")]
    else [EventLogQuery("System"), EventLogQuery("Security"), EventLogQuery("Application")]
  }

  /** The files copied from disk: six well-known logs on Linux, none on Windows. */
  function LogSources(platform: string): seq<string>
  {
    if IsLinux(platform) then LinuxLogFiles else []
  }

  function QuerySucceeded(run: Command -> Run): LogQuery -> bool
  {
    (q: LogQuery) => run(q.cmd).Succeeded()
  }

  function QueryFile(run: Command -> Run, logsDir: string): LogQuery -> Artifact
  {
    (q: LogQuery) => Artifact(PathJoin(logsDir, q.file), if run(q.cmd).Exited? then run(q.cmd).stdout else [])
  }

  /** The saved query outputs: one file per query whose command succeeded, in order. */
  function QueryFiles(run: Command -> Run, queries: seq<LogQuery>, logsDir: string): seq<Artifact>
  {
    Map(QueryFile(run, logsDir), Filter(QuerySucceeded(run), queries))
  }

  function QueryMissing(run: Command -> Run): LogQuery -> bool
  {
    (q: LogQuery) => run(q.cmd).NotFound?
  }

  /** The queries: a command that exits non-zero is only logged; a missing program is not
      caught by `except CalledProcessError` and ends the operation. */
  method RunQueries(run: Command -> Run, queries: seq<LogQuery>, logsDir: string)
    returns (files: Option<seq<Artifact>>)
    ensures files.None? <==> exists i :: 0 <= i < |queries| && run(queries[i].cmd).NotFound?
    ensures files.Some? ==> files.value == QueryFiles(run, queries, logsDir)
  {
    var p, f := QuerySucceeded(run), QueryFile(run, logsDir);
    var out: seq<Artifact> := [];
    AnyExists(QueryMissing(run), queries);
    for i := 0 to |queries|
      invariant out == Map(f, Filter(p, queries[..i]))
      invariant !Any(QueryMissing(run), queries[..i])
    {
      AnySnoc(QueryMissing(run), queries, i);
      if run(queries[i].cmd).NotFound? {
        return None;
      }
      FilterMapSnoc(p, f, queries, i);
      if p(queries[i]) {
        out := out + [f(queries[i])];
      }
    }
    assert queries[..|queries|] == queries;
    files := Some(out);
  }

  /** `Path(p).name`: what follows the last `/`, or all of `p` when it holds none. */
  function BaseName(p: string): (r: string)
    ensures '/' !in r
    ensures |r| <= |p| && p[|p| - |r|..] == r
    ensures |r| == |p| || p[|p| - |r| - 1] == '/'
  {
    var parts := Split(p, '/');
    SplitJoin(p, '/');
    if |parts| >= 2 then JoinLast("/", parts); parts[|parts| - 1] else parts[0]
  }

  /** The last `max` bytes, as `seek(-max, 2)` followed by `read()` gives them; a limit
      of zero or less seeks to or past the end and reads nothing. */
  function Tail(data: string, max: int): (r: string)
    ensures max <= 0 ==> r == []
    ensures 0 < max <= |data| ==> |r| == max && data == data[..|data| - max] + r
  {
    if max <= 0 then [] else if max >= |data| then data else data[|data| - max..]
  }

  /** A source that exists, is a regular file and can be read is copied. */
  function Copyable(fs: string -> Node): string -> bool
  {
    (p: string) => fs(p).ReadableFile()
  }

  predicate Truncated(fs: string -> Node, max: int, p: string)
  {
    fs(p).File? && |fs(p).data| > max
  }

  /** The `collected_logs` entry of a copied source. */
  function LogEntry(fs: string -> Node, max: int): string -> string
  {
    (p: string) => if Truncated(fs, max, p) then p + " (truncated to " + IntToString(max) + " bytes)" else p
  }

  /** The copy of a source: its tail under `<name>_truncated` when it is larger than the
      limit, else the whole file under its own name. */
  function LogCopy(fs: string -> Node, logsDir: string, max: int): string -> Artifact
  {
    (p: string) =>
      if Truncated(fs, max, p) then Artifact(PathJoin(logsDir, BaseName(p) + "_truncated"), Tail(fs(p).data, max))
      else Artifact(PathJoin(logsDir, BaseName(p)), if fs(p).File? then fs(p).data else [])
  }

  function CollectedLogs(fs: string -> Node, sources: seq<string>, max: int): seq<string>
  {
    Map(LogEntry(fs, max), Filter(Copyable(fs), sources))
  }

  function LogCopies(fs: string -> Node, sources: seq<string>, logsDir: string, max: int): seq<Artifact>
  {
    Map(LogCopy(fs, logsDir, max), Filter(Copyable(fs), sources))
  }

  /** The copy loop over the log locations. */
  method CopyLogs(fs: string -> Node, sources: seq<string>, logsDir: string, max: int)
    returns (copies: seq<Artifact>, collected: seq<string>)
    ensures copies == LogCopies(fs, sources, logsDir, max)
    ensures collected == CollectedLogs(fs, sources, max)
  {
    copies := AppendMapped([], sources, Copyable(fs), LogCopy(fs, logsDir, max));
    collected := AppendMapped([], sources, Copyable(fs), LogEntry(fs, max));
  }

  /** A source is collected exactly when it is one of the locations and a readable
      regular file; its entry names it and carries the truncation note exactly when the
      file is larger than the limit. */
  lemma LogCollected(fs: string -> Node, sources: seq<string>, max: int, p: string)
    ensures p in Filter(Copyable(fs), sources) <==> p in sources && fs(p).ReadableFile()
    ensures p in Filter(Copyable(fs), sources) ==> LogEntry(fs, max)(p) in CollectedLogs(fs, sources, max)
    ensures StartsWith(LogEntry(fs, max)(p), p)
    ensures LogEntry(fs, max)(p) == p <==> !Truncated(fs, max, p)
  {
    FilterMember(Copyable(fs), sources, p);
    if p in Filter(Copyable(fs), sources) {
      MapMember(LogEntry(fs, max), Filter(Copyable(fs), sources), p);
    }
    assert StartsWith(p + " (truncated to " + IntToString(max) + " bytes)", p);
  }

  /** A file over the limit is copied as exactly its last `max` bytes; any other file is
      copied whole under its own name. */
  lemma LogCopyContent(fs: string -> Node, logsDir: string, max: int, p: string)
    requires fs(p).File?
    ensures Truncated(fs, max, p) && max > 0 ==>
      |LogCopy(fs, logsDir, max)(p).content| == max
      && fs(p).data == fs(p).data[..|fs(p).data| - max] + LogCopy(fs, logsDir, max)(p).content
    ensures !Truncated(fs, max, p) ==>
      LogCopy(fs, logsDir, max)(p) == Artifact(PathJoin(logsDir, BaseName(p)), fs(p).data)
  {
  }

  function LogSummaryText(now: string, platform: string, stamp: string, max: int, collected: seq<string>): string
  {
    "Log Collection Summary - " + now + "\n" + Rule60() + "\n"
    + "Platform: " + platform + "\n"
    + "Collection timestamp: " + stamp + "\n"
    + "Max log size limit: " + IntToString(max) + " bytes\n"
    + "\nCollected logs:\n"
    + Lines(Map(Bullet, collected))
  }

  /** The summary has one bullet line for every collected entry. */
  lemma LogSummaryLists(now: string, platform: string, stamp: string, max: int, collected: seq<string>, i: nat)
    requires i < |collected|
    ensures Contains(LogSummaryText(now, platform, stamp, max, collected), "  - " + collected[i] + "\n")
  {
    MapAt(Bullet, collected, i);
    LinesContain(Map(Bullet, collected), i);
    var head := "Log Collection Summary - " + now + "\n" + Rule60() + "\n"
      + "Platform: " + platform + "\n"
      + "Collection timestamp: " + stamp + "\n"
      + "Max log size limit: " + IntToString(max) + " bytes\n"
      + "\nCollected logs:\n";
    ContainsInSuffix(head, Lines(Map(Bullet, collected)), "  - " + collected[i] + "\n");
  }

  /** What `collect_logs` writes into its `logs_<stamp>` directory. */
  datatype LogCollection = LogCollection(
    logsDir: string, queried: seq<Artifact>, copies: seq<Artifact>, collected: seq<string>, summary: Artifact)

  /** `collect_logs`. */
  method CollectLogs(env: Env, platform: string, dir: string, max: int) returns (result: Option<LogCollection>)
    ensures result.None? <==> exists i :: 0 <= i < |LogQueries(platform)| && env.run(LogQueries(platform)[i].cmd).NotFound?
    ensures result.Some? ==>
      var logsDir := PathJoin(dir, "logs_" + env.stamp);
      var collected := CollectedLogs(env.fs, LogSources(platform), max);
      result.value == LogCollection(logsDir,
        QueryFiles(env.run, LogQueries(platform), logsDir),
        LogCopies(env.fs, LogSources(platform), logsDir, max),
        collected,
        Artifact(PathJoin(logsDir, "log_collection_summary.txt"),
                 LogSummaryText(env.now, platform, env.stamp, max, collected)))
  {
    var logsDir := PathJoin(dir, "logs_" + env.stamp);
    var queried := RunQueries(env.run, LogQueries(platform), logsDir);
    if queried.None? {
      return None;
    }
    var copies, collected := CopyLogs(env.fs, LogSources(platform), logsDir, max);
    var summary := Artifact(PathJoin(logsDir, "log_collection_summary.txt"),
                            LogSummaryText(env.now, platform, env.stamp, max, collected));
    result := Some(LogCollection(logsDir, queried.value, copies, collected, summary));
  }

  // ---------------------------------------------------------------------------------
  // Browser artifacts
  // ---------------------------------------------------------------------------------

  /** A browser and where its profiles live. */
  datatype Browser = Browser(name: string, path: string)

  function BrowserProfiles(platform: string, home: string): seq<Browser>
  {
    if IsLinux(platform) then [
      Browser("firefox", PathJoin(home, ".mozilla/firefox")),
      Browser("chrome", PathJoin(home, ".config/google-chrome")),
      Browser("chromium", PathJoin(home, ".config/chromium"))]
    else [
      Browser("chrome", PathJoin(home, "AppData/Local/Google/Chrome/User Data")),
      Browser("firefox", PathJoin(home, "AppData/Roaming/Mozilla/Firefox/Profiles")),
      Browser("edge", PathJoin(home, "AppData/Local/Microsoft/Edge/User Data"))]
  }

  /** More than this many artifacts ends a profile walk after the current directory. */
  const BrowserCap := 50

  /** A file name of interest: its lower-cased name mentions one of the four targets. */
  predicate IsTarget(file: string)
  {
    var l := Lower(file);
    Contains(l, "history") || Contains(l, "cookies") || Contains(l, "downloads") || Contains(l, "bookmarks")
  }

  /** A file's path relative to the profile directory. */
  function RelPath(dir: string, file: string): string
  {
    if dir == "" then file else PathJoin(dir, file)
  }

  /** One copied artifact: its `<browser>: <relative path>` entry and the copy. */
  datatype Copied = Copied(entry: string, copy: Artifact)

  /** A target file that `copy2` can read is copied. */
  function Wanted(fs: string -> Node, b: Browser, dir: string): string -> bool
  {
    (file: string) => IsTarget(file) && fs(PathJoin(b.path, RelPath(dir, file))).ReadableFile()
  }

  function CopyFor(fs: string -> Node, b: Browser, browserDir: string, dir: string): string -> Copied
  {
    (file: string) =>
      var rel := RelPath(dir, file);
      var source := fs(PathJoin(b.path, rel));
      Copied(b.name + ": " + rel,
             Artifact(PathJoin(PathJoin(browserDir, b.name), rel), if source.File? then source.data else []))
  }

  /** The copies made in one walked directory. */
  function DirCopies(fs: string -> Node, b: Browser, browserDir: string, step: WalkStep): seq<Copied>
  {
    Map(CopyFor(fs, b, browserDir, step.dir), Filter(Wanted(fs, b, step.dir), step.files))
  }

  /** A profile walk from directory `i` on: after each directory, the cumulative count
      `before` plus what was copied is tested against the cap. */
  function ProfileCopies(fs: string -> Node, b: Browser, browserDir: string, steps: seq<WalkStep>, i: nat, before: nat)
    : seq<Copied>
    decreases |steps| - i
  {
    if i >= |steps| then []
    else
      var here := DirCopies(fs, b, browserDir, steps[i]);
      if before + |here| > BrowserCap then here
      else here + ProfileCopies(fs, b, browserDir, steps, i + 1, before + |here|)
  }

  /** The walk from directory `i` on without the cap, as a reference. */
  function WalkCopies(fs: string -> Node, b: Browser, browserDir: string, steps: seq<WalkStep>, i: nat): seq<Copied>
    decreases |steps| - i
  {
    if i >= |steps| then [] else DirCopies(fs, b, browserDir, steps[i]) + WalkCopies(fs, b, browserDir, steps, i + 1)
  }

  /** All profiles in turn; the count carries over from one browser to the next. */
  function BrowserCopies(env: Env, profiles: seq<Browser>, browserDir: string): seq<Copied>
  {
    Chain(ProfileHere(env, browserDir), profiles, 0)
  }

  /** The copies one browser contributes, given the count so far: none when its profile
      directory is absent. */
  function ProfileHere(env: Env, browserDir: string): (Browser, nat) -> seq<Copied>
  {
    (b: Browser, before: nat) =>
      if env.fs(b.path).Exists() then ProfileCopies(env.fs, b, browserDir, env.walk(b.path), 0, before) else []
  }

  /** A file is copied from a walked directory exactly when its name is a target and it
      is readable, and it lands at `<browser dir>/<browser>/<relative path>`. */
  lemma DirCopiesExactly(fs: string -> Node, b: Browser, browserDir: string, step: WalkStep, file: string)
    ensures file in step.files && IsTarget(file) && fs(PathJoin(b.path, RelPath(step.dir, file))).ReadableFile() ==>
      CopyFor(fs, b, browserDir, step.dir)(file) in DirCopies(fs, b, browserDir, step)
    ensures CopyFor(fs, b, browserDir, step.dir)(file).copy.path == PathJoin(PathJoin(browserDir, b.name), RelPath(step.dir, file))
  {
    var p := Wanted(fs, b, step.dir);
    FilterMember(p, step.files, file);
    if file in Filter(p, step.files) {
      MapMember(CopyFor(fs, b, browserDir, step.dir), Filter(p, step.files), file);
    }
  }

  /** Conversely, every copy comes from a target file of that directory. */
  lemma DirCopiesOnlyTargets(fs: string -> Node, b: Browser, browserDir: string, step: WalkStep, c: Copied)
      returns (file: string)
    requires c in DirCopies(fs, b, browserDir, step)
    ensures file in step.files && IsTarget(file)
    ensures c == CopyFor(fs, b, browserDir, step.dir)(file)
  {
    var p := Wanted(fs, b, step.dir);
    file := MapSource(CopyFor(fs, b, browserDir, step.dir), Filter(p, step.files), c);
    FilterMember(p, step.files, file);
  }

  /** The cap only cuts the walk short: what a profile yields is a prefix of the uncapped
      walk, and all of it when the cap is never passed. */
  lemma {:induction false} ProfileIsPrefix(fs: string -> Node, b: Browser, browserDir: string, steps: seq<WalkStep>,
                                           i: nat, before: nat)
    ensures ProfileCopies(fs, b, browserDir, steps, i, before) <= WalkCopies(fs, b, browserDir, steps, i)
    ensures before + |WalkCopies(fs, b, browserDir, steps, i)| <= BrowserCap ==>
      ProfileCopies(fs, b, browserDir, steps, i, before) == WalkCopies(fs, b, browserDir, steps, i)
    decreases |steps| - i
  {
    if i < |steps| {
      var here := DirCopies(fs, b, browserDir, steps[i]);
      ProfileIsPrefix(fs, b, browserDir, steps, i + 1, before + |here|);
    }
  }

  /** The cap is tested once per directory, so the count can pass it by at most the
      largest directory's yield: from a count within the cap, the walk ends within
      `BrowserCap + m` when no directory yields more than `m`. */
  lemma {:induction false} ProfileBound(fs: string -> Node, b: Browser, browserDir: string, steps: seq<WalkStep>,
                                        i: nat, before: nat, m: nat)
    requires before <= BrowserCap
    requires forall j :: 0 <= j < |steps| ==> |DirCopies(fs, b, browserDir, steps[j])| <= m
    ensures before + |ProfileCopies(fs, b, browserDir, steps, i, before)| <= BrowserCap + m
    decreases |steps| - i
  {
    if i < |steps| {
      var here := DirCopies(fs, b, browserDir, steps[i]);
      if before + |here| <= BrowserCap {
        ProfileBound(fs, b, browserDir, steps, i + 1, before + |here|, m);
      }
    }
  }

  /** The `for file in files` loop of one walked directory. */
  method CopyDir(fs: string -> Node, b: Browser, browserDir: string, step: WalkStep, acc: seq<Copied>)
    returns (out: seq<Copied>)
    ensures out == acc + DirCopies(fs, b, browserDir, step)
  {
    out := AppendMapped(acc, step.files, Wanted(fs, b, step.dir), CopyFor(fs, b, browserDir, step.dir));
  }

  /** The walk of one profile, directory by directory, stopping after the first
      directory that brings the count over the cap. */
  method WalkProfile(fs: string -> Node, b: Browser, browserDir: string, steps: seq<WalkStep>, acc: seq<Copied>)
    returns (out: seq<Copied>)
    ensures out == acc + ProfileCopies(fs, b, browserDir, steps, 0, |acc|)
  {
    ghost var whole := acc + ProfileCopies(fs, b, browserDir, steps, 0, |acc|);
    out := acc;
    var i := 0;
    while i < |steps|
      invariant 0 <= i <= |steps|
      invariant out + ProfileCopies(fs, b, browserDir, steps, i, |out|) == whole
    {
      ghost var before, here := out, DirCopies(fs, b, browserDir, steps[i]);
      out := CopyDir(fs, b, browserDir, steps[i], out);
      if |out| > BrowserCap {
        return;
      }
      AppendShift(before, here, ProfileCopies(fs, b, browserDir, steps, i + 1, |out|),
        ProfileCopies(fs, b, browserDir, steps, i, |before|), whole);
      i := i + 1;
    }
  }

  function BrowserSummaryText(now: string, platform: string, stamp: string, entries: seq<string>): string
  {
    "Browser Artifacts Collection - " + now + "\n" + Rule60() + "\n"
    + "Platform: " + platform + "\n"
    + "Collection timestamp: " + stamp + "\n"
    + "\nCollected artifacts:\n"
    + Lines(Map(Bullet, entries))
  }

  function EntryOf(c: Copied): string { c.entry }

  datatype BrowserCollection = BrowserCollection(browserDir: string, copied: seq<Copied>, summary: Artifact)

  /** One browser: its profile directory is walked only when it exists. */
  method VisitProfile(env: Env, b: Browser, browserDir: string, acc: seq<Copied>) returns (out: seq<Copied>)
    ensures out == acc + ProfileHere(env, browserDir)(b, |acc|)
  {
    out := acc;
    if env.fs(b.path).Exists() {
      out := WalkProfile(env.fs, b, browserDir, env.walk(b.path), acc);
    }
  }

  /** `collect_browser_artifacts`: the profiles in order, the artifact count carried
      from one browser to the next, and the summary of what was copied. */
  method CollectBrowserArtifacts(env: Env, platform: string, dir: string) returns (result: BrowserCollection)
    ensures var browserDir := PathJoin(dir, "browser_artifacts_" + env.stamp);
      var copied := BrowserCopies(env, BrowserProfiles(platform, env.home), browserDir);
      result == BrowserCollection(browserDir, copied,
        Artifact(PathJoin(browserDir, "browser_artifacts_summary.txt"),
                 BrowserSummaryText(env.now, platform, env.stamp, Map(EntryOf, copied))))
  {
    var browserDir := PathJoin(dir, "browser_artifacts_" + env.stamp);
    var profiles := BrowserProfiles(platform, env.home);
    var copied: seq<Copied> := [];
    for i := 0 to |profiles|
      invariant copied == Chain(ProfileHere(env, browserDir), profiles[..i], 0)
    {
      ChainSnoc(ProfileHere(env, browserDir), profiles, i, 0);
      copied := VisitProfile(env, profiles[i], browserDir, copied);
    }
    assert profiles[..|profiles|] == profiles;
    result := BrowserCollection(browserDir, copied,
      Artifact(PathJoin(browserDir, "browser_artifacts_summary.txt"),
               BrowserSummaryText(env.now, platform, env.stamp, Map(EntryOf, copied))));
  }

  // ---------------------------------------------------------------------------------
  // Recent files
  // ---------------------------------------------------------------------------------

  /** A `recent_files` record; times are ISO strings. */
  datatype RecentFile = RecentFile(path: string, size: nat, modified: string, accessed: string)

  /** The record `os.stat` yields for an existing node, whatever its kind. */
  function StatRecord(env: Env): string -> RecentFile
  {
    (p: string) =>
      var n := env.fs(p);
      if n.Exists() then RecentFile(p, n.Size(), env.iso(n.mtime), env.iso(n.atime)) else RecentFile(p, 0, "", "")
  }

  function LinuxSearchPaths(home: string): seq<string>
  {
    [PathJoin(home, "Downloads"), PathJoin(home, "Documents"), PathJoin(home, "Desktop"), "/tmp", "/var/tmp"]
  }

  function WindowsSearchPaths(home: string): seq<string>
  {
    [PathJoin(home, "Downloads"), PathJoin(home, "Documents"), PathJoin(home, "Desktop"), "C:/Temp",
     PathJoin(home, "AppData/Local/Temp")]
  }

  function FindCommand(p: string): Command
  {
    ["find", p, "-type", "f", "-mtime", "-1"]
  }

  /** A non-empty line of `find`'s output naming a path that exists. A file name holding a
      newline splits into lines that may name a directory or nothing at all. */
  function Listed(env: Env): string -> bool
  {
    (line: string) => line != "" && env.fs(line).Exists()
  }

  /** The records one search path contributes on Linux. */
  function FindRecords(env: Env, p: string): seq<RecentFile>
  {
    if env.fs(p).Exists() then ListedRecords(env, env.run(FindCommand(p))) else []
  }

  /** The records of a `find` run: none when it exited non-zero. */
  function ListedRecords(env: Env, r: Run): seq<RecentFile>
  {
    if r.Succeeded() then StatRecords(env, FindLines(r.stdout)) else []
  }

  /** `stdout.strip().split('\n')`. */
  function FindLines(out: string): seq<string>
  {
    Split(Strip(out), '\n')
  }

  /** One record per listed line naming an existing path, in order. */
  function StatRecords(env: Env, lines: seq<string>): seq<RecentFile>
  {
    Map(StatRecord(env), Filter(Listed(env), lines))
  }

  /** The `for file_path in ...split('\n')` loop. */
  method RecordListed(env: Env, lines: seq<string>, acc: seq<RecentFile>) returns (out: seq<RecentFile>)
    ensures out == acc + StatRecords(env, lines)
  {
    out := AppendMapped(acc, lines, Listed(env), StatRecord(env));
  }

  function LinuxGather(env: Env, paths: seq<string>): seq<RecentFile>
  {
    if paths == [] then [] else LinuxGather(env, paths[..|paths| - 1]) + FindRecords(env, paths[|paths| - 1])
  }

  lemma LinuxGatherSnoc(env: Env, paths: seq<string>, i: nat)
    requires i < |paths|
    ensures LinuxGather(env, paths[..i + 1]) == LinuxGather(env, paths[..i]) + FindRecords(env, paths[i])
  {
    assert paths[..i + 1][..i] == paths[..i];
  }

  predicate FindMissing(env: Env, p: string)
  {
    env.fs(p).Exists() && env.run(FindCommand(p)).NotFound?
  }

  function FindMissingOf(env: Env): string -> bool
  {
    (p: string) => FindMissing(env, p)
  }

  /** The Linux search: a `find` that exits non-zero is logged and skipped; a missing
      `find` ends the operation. */
  method GatherLinux(env: Env, paths: seq<string>) returns (found: Option<seq<RecentFile>>)
    ensures found.None? <==> exists i :: 0 <= i < |paths| && FindMissing(env, paths[i])
    ensures found.Some? ==> found.value == LinuxGather(env, paths)
  {
    var out: seq<RecentFile> := [];
    AnyExists(FindMissingOf(env), paths);
    for i := 0 to |paths|
      invariant out == LinuxGather(env, paths[..i])
      invariant !Any(FindMissingOf(env), paths[..i])
    {
      AnySnoc(FindMissingOf(env), paths, i);
      LinuxGatherSnoc(env, paths, i);
      var next := SearchPath(env, paths[i], out);
      if next.None? {
        return None;
      }
      out := next.value;
    }
    assert paths[..|paths|] == paths;
    found := Some(out);
  }

  /** One search path: skipped when absent or when `find` exits non-zero. */
  method SearchPath(env: Env, p: string, acc: seq<RecentFile>) returns (out: Option<seq<RecentFile>>)
    ensures out.None? <==> FindMissing(env, p)
    ensures out.Some? ==> out.value == acc + FindRecords(env, p)
  {
    if !env.fs(p).Exists() {
      return Some(acc);
    }
    var r := env.run(FindCommand(p));
    if r.NotFound? {
      return None;
    }
    if r.Succeeded() {
      var lines := FindLines(r.stdout);
      var recs := RecordListed(env, lines, acc);
      return Some(recs);
    }
    return Some(acc);
  }

  /** More than this many records ends the scan of a Windows search path. */
  const WindowsCap := 100

  /** Modified less than a day before the clock reading. */
  predicate Recent(env: Env, n: Node)
    requires n.File?
  {
    env.clock - n.mtime < 86400
  }

  /** The windows scan of one search path's `rglob` listing from position `i` on: every
      regular file is looked at, a recent one is recorded, and after each regular file
      the cumulative count is tested against the cap. */
  function ScanPath(env: Env, files: seq<string>, i: nat, count: nat): seq<RecentFile>
    decreases |files| - i
  {
    if i >= |files| then []
    else
      var n := env.fs(files[i]);
      if !n.File? then ScanPath(env, files, i + 1, count)
      else
        var here := if Recent(env, n) then [StatRecord(env)(files[i])] else [];
        if count + |here| > WindowsCap then here else here + ScanPath(env, files, i + 1, count + |here|)
  }

  /** The scan without the cap, as a reference. */
  function ScanAll(env: Env, files: seq<string>, i: nat): seq<RecentFile>
    decreases |files| - i
  {
    if i >= |files| then []
    else
      var n := env.fs(files[i]);
      (if n.File? && Recent(env, n) then [StatRecord(env)(files[i])] else []) + ScanAll(env, files, i + 1)
  }

  /** The search paths from position `i` on; the count carries over from one path to the
      next, so once the cap is passed each later path adds at most one record. */
  function WindowsGather(env: Env, paths: seq<string>, i: nat, count: nat): seq<RecentFile>
    decreases |paths| - i
  {
    if i >= |paths| then []
    else
      var here := if env.fs(paths[i]).Exists() then ScanPath(env, env.rglob(paths[i]), 0, count) else [];
      here + WindowsGather(env, paths, i + 1, count + |here|)
  }

  /** The cap only cuts a scan short, and from a count within the cap the count ends at
      most one past it. */
  lemma {:induction false} ScanIsPrefix(env: Env, files: seq<string>, i: nat, count: nat)
    ensures ScanPath(env, files, i, count) <= ScanAll(env, files, i)
    ensures count + |ScanAll(env, files, i)| <= WindowsCap ==> ScanPath(env, files, i, count) == ScanAll(env, files, i)
    ensures count <= WindowsCap ==> count + |ScanPath(env, files, i, count)| <= WindowsCap + 1
    decreases |files| - i
  {
    if i < |files| {
      var n := env.fs(files[i]);
      if !n.File? {
        ScanIsPrefix(env, files, i + 1, count);
      } else {
        var here := if Recent(env, n) then [StatRecord(env)(files[i])] else [];
        ScanIsPrefix(env, files, i + 1, count + |here|);
      }
    }
  }

  /** The inner `rglob` loop of one search path. */
  method ScanWindowsPath(env: Env, files: seq<string>, acc: seq<RecentFile>) returns (out: seq<RecentFile>)
    ensures out == acc + ScanPath(env, files, 0, |acc|)
  {
    ghost var whole := acc + ScanPath(env, files, 0, |acc|);
    out := acc;
    var i := 0;
    while i < |files|
      invariant 0 <= i <= |files|
      invariant out + ScanPath(env, files, i, |out|) == whole
    {
      var n := env.fs(files[i]);
      if n.File? {
        ghost var before, here := out, if Recent(env, n) then [StatRecord(env)(files[i])] else [];
        if Recent(env, n) {
          out := out + [StatRecord(env)(files[i])];
        }
        assert out == before + here;
        if |out| > WindowsCap {
          return;
        }
        AppendShift(before, here, ScanPath(env, files, i + 1, |out|), ScanPath(env, files, i, |before|), whole);
      }
      i := i + 1;
    }
  }

  /** The outer loop over the search paths. */
  method GatherWindows(env: Env, paths: seq<string>) returns (found: seq<RecentFile>)
    ensures found == WindowsGather(env, paths, 0, 0)
  {
    found := [];
    for i := 0 to |paths|
      invariant found + WindowsGather(env, paths, i, |found|) == WindowsGather(env, paths, 0, 0)
    {
      ghost var before := found;
      ghost var here := if env.fs(paths[i]).Exists() then ScanPath(env, env.rglob(paths[i]), 0, |found|) else [];
      if env.fs(paths[i]).Exists() {
        found := ScanWindowsPath(env, env.rglob(paths[i]), found);
      }
      AppendShift(before, here, WindowsGather(env, paths, i + 1, |found|), WindowsGather(env, paths, i, |before|),
        WindowsGather(env, paths, 0, 0));
    }
  }

  function Modified(f: RecentFile): string { f.modified }

  /** `sort(key=modified, reverse=True)` followed by `[:50]`. */
  function Ranked(found: seq<RecentFile>): seq<RecentFile>
  {
    Take(SortOn(found, Modified, true), 50)
  }

  /** The ranking keeps at most 50 records, newest first, all of them found; a record
      that is dropped is no newer than any that is kept. */
  lemma RankedKeepsNewest(found: seq<RecentFile>, dropped: RecentFile)
    ensures |Ranked(found)| == if |found| < 50 then |found| else 50
    ensures SortedOn(Ranked(found), Modified, true)
    ensures multiset(Ranked(found)) <= multiset(found)
    ensures dropped in multiset(found) - multiset(Ranked(found)) ==>
      forall i :: 0 <= i < |Ranked(found)| ==> LexLe(dropped.modified, Ranked(found)[i].modified)
  {
    var s := SortOn(found, Modified, true);
    SortOnSorted(found, Modified, true);
    var t := Take(s, 50);
    assert s == t + s[|t|..];
    assert multiset(s) == multiset(t) + multiset(s[|t|..]);
    assert SortedOn(t, Modified, true) by {
      forall i, j | 0 <= i < j < |t| ensures InOrder(Modified, true, t[i], t[j]) {
        assert t[i] == s[i] && t[j] == s[j];
      }
    }
    if dropped in multiset(found) - multiset(t) {
      TakeKeepsLeaders(s, Modified, true, 50, dropped);
    }
  }

  function RecentBlock(f: RecentFile): string
  {
    "Path: " + f.path + "\n"
    + "Size: " + NatToString(f.size) + " bytes\n"
    + "Modified: " + f.modified + "\n"
    + "Accessed: " + f.accessed + "\n"
    + Dash40() + "\n"
  }

  function RecentText(now: string, platform: string, files: seq<RecentFile>): string
  {
    "Recently Accessed Files - " + now + "\n" + Rule60() + "\n"
    + "Platform: " + platform + "\n"
    + "Files modified in last 24 hours (top 50):\n"
    + Rule60() + "\n"
    + Concat(Map(RecentBlock, files))
  }

  /** `collect_recent_files`: the records found, ranked, written to `recent_files_<stamp>.txt`. */
  method CollectRecentFiles(env: Env, platform: string, dir: string) returns (result: Option<Artifact>, kept: seq<RecentFile>)
    ensures IsLinux(platform) ==>
      (result.None? <==> exists i :: 0 <= i < 5 && FindMissing(env, LinuxSearchPaths(env.home)[i]))
    ensures IsLinux(platform) && result.Some? ==> kept == Ranked(LinuxGather(env, LinuxSearchPaths(env.home)))
    ensures !IsLinux(platform) ==> result.Some? && kept == Ranked(WindowsGather(env, WindowsSearchPaths(env.home), 0, 0))
    ensures result.Some? ==>
      result.value == Artifact(PathJoin(dir, "recent_files_" + env.stamp + ".txt"), RecentText(env.now, platform, kept))
  {
    var found: seq<RecentFile>;
    if IsLinux(platform) {
      var r := GatherLinux(env, LinuxSearchPaths(env.home));
      if r.None? {
        return None, [];
      }
      found := r.value;
    } else {
      found := GatherWindows(env, WindowsSearchPaths(env.home));
    }
    kept := Ranked(found);
    result := Some(Artifact(PathJoin(dir, "recent_files_" + env.stamp + ".txt"), RecentText(env.now, platform, kept)));
  }

  // ---------------------------------------------------------------------------------
  // Screenshot
  // ---------------------------------------------------------------------------------

  function ShotPath(dir: string, stamp: string, ext: string): string
  {
    PathJoin(dir, "screenshot_" + stamp + ext)
  }

  /** The Linux tools, in the order they are tried. */
  function ShotTools(file: string): seq<Command>
  {
    [["scrot", file], ["gnome-screenshot", "-f", file], ["import", "-window", "root", file]]
  }

  /** The PowerShell capture; the script, which ends by saving the bitmap to `file`, is
      written here only by that last statement. */
  function PowerShellShot(file: string): Command
  {
    ["powershell", "-Command", "$bitmap.Save('" + file + "')"]
  }

  function LinuxShotNote(now: string): string
  {
    "Screenshot Attempt - " + now + "\n" + Rule60() + "\n"
    + "Could not take screenshot - no suitable tool found\n"
    + "Install scrot, gnome-screenshot, or imagemagick for screenshots\n"
  }

  function WindowsShotNote(now: string): string
  {
    "Screenshot Attempt - " + now + "\n" + Rule60() + "\n"
    + "Could not take screenshot with PowerShell\n"
  }

  /** The Linux first-success loop: the tools run in order until one succeeds (a failing
      or missing tool moves on to the next). */
  method TryTools(run: Command -> Run, tools: seq<Command>) returns (taken: Option<nat>)
    ensures taken.Some? ==> taken.value < |tools| && run(tools[taken.value]).Succeeded()
    ensures taken.Some? ==> forall j :: 0 <= j < taken.value ==> !run(tools[j]).Succeeded()
    ensures taken.None? <==> forall j :: 0 <= j < |tools| ==> !run(tools[j]).Succeeded()
  {
    for i := 0 to |tools|
      invariant forall j :: 0 <= j < i ==> !run(tools[j]).Succeeded()
    {
      if run(tools[i]).Succeeded() {
        return Some(i);
      }
    }
    taken := None;
  }

  /** `take_screenshot`: the `.png` path when a tool succeeded, else the `.txt`
      placeholder's path and content. On Windows a missing PowerShell is not caught. */
  method TakeScreenshot(env: Env, platform: string, dir: string)
    returns (result: Option<string>, tool: Option<nat>, placeholder: Option<Artifact>)
    ensures IsLinux(platform) ==> result.Some?
    ensures IsLinux(platform) ==>
      (result == Some(ShotPath(dir, env.stamp, ".png")) <==> exists i :: 0 <= i < 3 && env.run(ShotTools(ShotPath(dir, env.stamp, ".png"))[i]).Succeeded())
    ensures IsLinux(platform) && tool.Some? ==> (tool.value < 3
      && env.run(ShotTools(ShotPath(dir, env.stamp, ".png"))[tool.value]).Succeeded()
      && forall j :: 0 <= j < tool.value ==> !env.run(ShotTools(ShotPath(dir, env.stamp, ".png"))[j]).Succeeded())
    ensures IsLinux(platform) ==> (tool.None? <==> placeholder.Some?)
    ensures IsLinux(platform) && placeholder.Some? ==>
      result == Some(ShotPath(dir, env.stamp, ".txt"))
      && placeholder.value == Artifact(ShotPath(dir, env.stamp, ".txt"), LinuxShotNote(env.now))
    ensures !IsLinux(platform) ==> tool.None?
    ensures !IsLinux(platform) ==> (result.None? <==> env.run(PowerShellShot(ShotPath(dir, env.stamp, ".png"))).NotFound?)
    ensures !IsLinux(platform) && env.run(PowerShellShot(ShotPath(dir, env.stamp, ".png"))).Succeeded() ==>
      result == Some(ShotPath(dir, env.stamp, ".png")) && placeholder.None?
    ensures !IsLinux(platform) && result.Some? && !env.run(PowerShellShot(ShotPath(dir, env.stamp, ".png"))).Succeeded() ==>
      result == Some(ShotPath(dir, env.stamp, ".txt"))
      && placeholder == Some(Artifact(ShotPath(dir, env.stamp, ".txt"), WindowsShotNote(env.now)))
  {
    var png := ShotPath(dir, env.stamp, ".png");
    var txt := ShotPath(dir, env.stamp, ".txt");
    placeholder := None;
    if IsLinux(platform) {
      tool := TryTools(env.run, ShotTools(png));
      if tool.Some? {
        result := Some(png);
      } else {
        placeholder := Some(Artifact(txt, LinuxShotNote(env.now)));
        result := Some(txt);
        assert txt[|txt| - 1] == 't' && png[|png| - 1] == 'g';
      }
    } else {
      tool := None;
      var r := env.run(PowerShellShot(png));
      if r.NotFound? {
        return None, None, None;
      }
      if r.Succeeded() {
        result := Some(png);
      } else {
        placeholder := Some(Artifact(txt, WindowsShotNote(env.now)));
        result := Some(txt);
      }
    }
  }

  // ---------------------------------------------------------------------------------
  // Dispatch
  // ---------------------------------------------------------------------------------

  /** The operations `run_operation` routes, and their names. */
  datatype ForensicsOp = Memory | Logs | BrowserArtifacts | RecentFiles | Screenshot

  function OpName(k: ForensicsOp): string
  {
    match k
    case Memory => "memory"
    case Logs => "logs"
    case BrowserArtifacts => "browser"
    case RecentFiles => "files"
    case Screenshot => "screenshot"
  }

  /** The `if operation == ...` chain: the operation a name selects, if any. */
  function OpNamed(op: string): (r: Option<ForensicsOp>)
    ensures r.Some? ==> OpName(r.value) == op
    ensures r.None? ==> forall k :: OpName(k) != op
  {
    if op == "memory" then Some(Memory)
    else if op == "logs" then Some(Logs)
    else if op == "browser" then Some(BrowserArtifacts)
    else if op == "files" then Some(RecentFiles)
    else if op == "screenshot" then Some(Screenshot)
    else None
  }

  /** What each handler hands back to `run_operation`: the path it produced, or None when
      it failed. */
  predicate MemoryOutcome(env: Env, dir: string, result: Option<string>)
  {
    result == Some(MemoryPath(dir, env.stamp))
  }

  predicate LogsOutcome(env: Env, platform: string, dir: string, result: Option<string>)
  {
    (result.None? <==> exists i :: 0 <= i < |LogQueries(platform)| && env.run(LogQueries(platform)[i].cmd).NotFound?)
    && (result == None || result == Some(PathJoin(dir, "logs_" + env.stamp)))
  }

  predicate BrowserOutcome(env: Env, dir: string, result: Option<string>)
  {
    result == Some(PathJoin(dir, "browser_artifacts_" + env.stamp))
  }

  predicate FilesOutcome(env: Env, platform: string, dir: string, result: Option<string>)
  {
    (IsLinux(platform) ==>
      (result.None? <==> exists i :: 0 <= i < 5 && FindMissing(env, LinuxSearchPaths(env.home)[i])))
    && (!IsLinux(platform) ==> result.Some?)
    && (result == None || result == Some(PathJoin(dir, "recent_files_" + env.stamp + ".txt")))
  }

  predicate ScreenshotOutcome(env: Env, platform: string, dir: string, result: Option<string>)
  {
    (IsLinux(platform) ==> result.Some?)
    && (!IsLinux(platform) ==> (result.None? <==> env.run(PowerShellShot(ShotPath(dir, env.stamp, ".png"))).NotFound?))
  }

  method MemoryResult(env: Env, platform: string, dir: string) returns (result: Option<string>)
    ensures MemoryOutcome(env, dir, result)
  {
    var snapshot, _ := CaptureMemory(env, platform, dir);
    result := Some(snapshot.path);
  }

  method LogsResult(env: Env, platform: string, dir: string, max: int) returns (result: Option<string>)
    ensures LogsOutcome(env, platform, dir, result)
  {
    var r := CollectLogs(env, platform, dir, max);
    result := if r.Some? then Some(r.value.logsDir) else None;
  }

  method BrowserResult(env: Env, platform: string, dir: string) returns (result: Option<string>)
    ensures BrowserOutcome(env, dir, result)
  {
    var r := CollectBrowserArtifacts(env, platform, dir);
    result := Some(r.browserDir);
  }

  method FilesResult(env: Env, platform: string, dir: string) returns (result: Option<string>)
    ensures FilesOutcome(env, platform, dir, result)
  {
    var r, _ := CollectRecentFiles(env, platform, dir);
    result := if r.Some? then Some(r.value.path) else None;
  }

  method ScreenshotResult(env: Env, platform: string, dir: string) returns (result: Option<string>)
    ensures ScreenshotOutcome(env, platform, dir, result)
  {
    var tool, placeholder;
    result, tool, placeholder := TakeScreenshot(env, platform, dir);
  }

  /** `ForensicsCollector.run_operation`: the five known names route to their handler and
      give the path it produced, or None when it failed; any other name is logged. */
  method RunOperation(env: Env, platform: string, config: Config, op: string)
    returns (result: Option<string>, log: seq<string>)
    ensures OpNamed(op) == Some(Memory) ==> MemoryOutcome(env, OutputDir(config), result)
    ensures OpNamed(op) == Some(Logs) ==> LogsOutcome(env, platform, OutputDir(config), result)
    ensures OpNamed(op) == Some(BrowserArtifacts) ==> BrowserOutcome(env, OutputDir(config), result)
    ensures OpNamed(op) == Some(RecentFiles) ==> FilesOutcome(env, platform, OutputDir(config), result)
    ensures OpNamed(op) == Some(Screenshot) ==> ScreenshotOutcome(env, platform, OutputDir(config), result)
    ensures OpNamed(op).Some? ==> log == []
    ensures OpNamed(op).None? ==> result == None && log == ["Unknown forensics operation: " + op]
  {
    var dir := OutputDir(config);
    log := [];
    match OpNamed(op)
    case Some(Memory) => result := MemoryResult(env, platform, dir);
    case Some(Logs) => result := LogsResult(env, platform, dir, MaxLogSize(config));
    case Some(BrowserArtifacts) => result := BrowserResult(env, platform, dir);
    case Some(RecentFiles) => result := FilesResult(env, platform, dir);
    case Some(Screenshot) => result := ScreenshotResult(env, platform, dir);
    case None =>
      result := None;
      log := ["Unknown forensics operation: " + op];
  }
}
