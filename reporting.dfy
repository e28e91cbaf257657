/** core/reporting.py: the report generator reads the output directory back and builds
    the inventory, the timeline, the summary and the two consolidated reports. */
module Reporting {
  import opened Wrappers
  import opened Text
  import opened Sorting
  import opened Host

  // ---------------------------------------------------------------------------------
  // Classifying evidence files by name
  // ---------------------------------------------------------------------------------

  datatype FileKind =
    | ProcessList | NetworkConnections | SystemInformation | UserAccounts | FileHashes
    | LogFiles | MemorySnapshot | BrowserArtifacts | Screenshot | NetworkIsolation
    | StructuredData | ReportHtml | OtherFile
  {
    /** The three kinds given by suffix alone, when no keyword matched. */
    predicate SuffixKind() { StructuredData? || ReportHtml? || OtherFile? }
  }

  /** The label written into the inventory and the summary. */
  function KindLabel(k: FileKind): string
  {
    match k
    case ProcessList => "process_list"
    case NetworkConnections => "network_connections"
    case SystemInformation => "system_information"
    case UserAccounts => "user_accounts"
    case FileHashes => "file_hashes"
    case LogFiles => "log_files"
    case MemorySnapshot => "memory_snapshot"
    case BrowserArtifacts => "browser_artifacts"
    case Screenshot => "screenshot"
    case NetworkIsolation => "network_isolation"
    case StructuredData => "structured_data"
    case ReportHtml => "report_html"
    case OtherFile => "other"
  }

  /** `determine_file_type`: the lower-cased name is tested against the keywords in a
      fixed order, then against the `.json` and `.html` suffixes. */
  function FileType(name: string): FileKind
  {
    var low := Lower(name);
    if Contains(low, "process") then ProcessList
    else if Contains(low, "network") then NetworkConnections
    else if Contains(low, "system") then SystemInformation
    else if Contains(low, "user") then UserAccounts
    else if Contains(low, "hash") then FileHashes
    else if Contains(low, "log") then LogFiles
    else if Contains(low, "memory") then MemorySnapshot
    else if Contains(low, "browser") then BrowserArtifacts
    else if Contains(low, "screenshot") then Screenshot
    else if Contains(low, "isolation") then NetworkIsolation
    else if EndsWith(low, ".json") then StructuredData
    else if EndsWith(low, ".html") then ReportHtml
    else OtherFile
  }

  /** The keyword table the classifier walks, in its order. */
  datatype KeywordRule = KeywordRule(keyword: string, kind: FileKind)

  const KeywordRules: seq<KeywordRule> := [
    KeywordRule("process", ProcessList), KeywordRule("network", NetworkConnections),
    KeywordRule("system", SystemInformation), KeywordRule("user", UserAccounts),
    KeywordRule("hash", FileHashes), KeywordRule("log", LogFiles),
    KeywordRule("memory", MemorySnapshot), KeywordRule("browser", BrowserArtifacts),
    KeywordRule("screenshot", Screenshot), KeywordRule("isolation", NetworkIsolation)]

  /** The position of the first rule whose keyword occurs in `name`, `|rules|` if none. */
  function FirstMatch(rules: seq<KeywordRule>, name: string): (k: nat)
    ensures k <= |rules|
    ensures k < |rules| ==> Contains(name, rules[k].keyword)
    ensures forall j :: 0 <= j < k ==> !Contains(name, rules[j].keyword)
  {
    if rules == [] then 0
    else if Contains(name, rules[0].keyword) then 0
    else 1 + FirstMatch(rules[1..], name)
  }

  /** The classifier as a first-match lookup in the keyword table. */
  function TableType(name: string): FileKind
  {
    TableKind(Lower(name))
  }

  lemma FileTypeIsTableLookup(name: string)
    ensures FileType(name) == TableType(name)
  {
    var low := Lower(name);
    var r := KeywordRules;
    var k := FirstMatch(r, low);
    assert r[0].keyword == "process";
    assert r[1].keyword == "network";
    assert r[2].keyword == "system";
    assert r[3].keyword == "user";
    assert r[4].keyword == "hash";
    assert r[5].keyword == "log";
    assert r[6].keyword == "memory";
    assert r[7].keyword == "browser";
    assert r[8].keyword == "screenshot";
    assert r[9].keyword == "isolation";
    if k < |r| {
      assert Contains(low, r[k].keyword);
      if k == 0 { } else if k == 1 { } else if k == 2 { } else if k == 3 { } else if k == 4 { }
      else if k == 5 { } else if k == 6 { } else if k == 7 { } else if k == 8 { } else { }
    }
  }

  /** `determine_file_type` returns the kind of keyword `i` exactly when keyword `i`
      occurs in the lower-cased name and no earlier keyword does: a name containing
      several keywords gets the earliest one. */
  lemma FileTypeFirstMatch(name: string, i: nat)
    requires i < |KeywordRules|
    ensures FileType(name) == KeywordRules[i].kind <==>
      Contains(Lower(name), KeywordRules[i].keyword) &&
      forall j :: 0 <= j < i ==> !Contains(Lower(name), KeywordRules[j].keyword)
  {
    FileTypeIsTableLookup(name);
    TableFirstMatch(Lower(name), i);
  }

  /** The same of the keyword table, for an already lower-cased name. */
  lemma TableFirstMatch(low: string, i: nat)
    requires i < |KeywordRules|
    ensures TableKind(low) == KeywordRules[i].kind <==>
      Contains(low, KeywordRules[i].keyword) && forall j :: 0 <= j < i ==> !Contains(low, KeywordRules[j].keyword)
  {
    var k := FirstMatch(KeywordRules, low);
    if k < |KeywordRules| {
      KindsDistinct(i, k);
    } else {
      assert !KeywordRules[i].kind.SuffixKind();
    }
  }

  /** The classifier on a lower-cased name. */
  function TableKind(low: string): FileKind
  {
    var k := FirstMatch(KeywordRules, low);
    if k < |KeywordRules| then KeywordRules[k].kind
    else if EndsWith(low, ".json") then StructuredData
    else if EndsWith(low, ".html") then ReportHtml
    else OtherFile
  }

  /** Different rules name different kinds. */
  lemma KindsDistinct(a: nat, b: nat)
    requires a < |KeywordRules| && b < |KeywordRules|
    ensures KeywordRules[a].kind == KeywordRules[b].kind ==> a == b
  {
  }

  /** A name that contains none of the keywords is classified by suffix only, and only
      such a name gets one of the three suffix kinds. */
  lemma FileTypeFallback(name: string)
    ensures (forall i :: 0 <= i < |KeywordRules| ==> !Contains(Lower(name), KeywordRules[i].keyword)) <==>
      FileType(name).SuffixKind()
    ensures FileType(name).SuffixKind() ==>
      FileType(name) == (if EndsWith(Lower(name), ".json") then StructuredData
                         else if EndsWith(Lower(name), ".html") then ReportHtml else OtherFile)
  {
    FileTypeIsTableLookup(name);
    TableFallback(Lower(name));
  }

  lemma TableFallback(low: string)
    ensures (forall i :: 0 <= i < |KeywordRules| ==> !Contains(low, KeywordRules[i].keyword)) <==>
      TableKind(low).SuffixKind()
    ensures TableKind(low).SuffixKind() ==>
      TableKind(low) == (if EndsWith(low, ".json") then StructuredData
                         else if EndsWith(low, ".html") then ReportHtml else OtherFile)
  {
    var k := FirstMatch(KeywordRules, low);
    if k < |KeywordRules| {
      assert !KeywordRules[k].kind.SuffixKind();
    }
  }

  // ---------------------------------------------------------------------------------
  // Digests as the report generator computes them
  // ---------------------------------------------------------------------------------

  datatype Digests = Digests(md5: string, sha256: string)

  /** `calculate_file_hash` here: a read failure gives the string "error" for both. */
  function ReportDigests(content: Read, h: Hasher): Digests
  {
    match content
    case Text(t) => Digests(h.md5(t), h.sha256(t))
    case ReadError(_) => Digests("error", "error")
  }

  // ---------------------------------------------------------------------------------
  // The evidence inventory
  // ---------------------------------------------------------------------------------

  datatype InventoryEntry = InventoryEntry(
    filename: string, path: string, sizeBytes: nat, created: string, modified: string,
    md5Hash: string, sha256Hash: string, fileType: FileKind)

  datatype Inventory = Inventory(
    generationTime: string, platform: string, evidenceFiles: seq<InventoryEntry>,
    totalFiles: nat, totalSizeBytes: nat)

  /** The `rglob('*')` filter: regular files whose name does not start with `inventory`. */
  predicate Inventoried(e: StoreEntry)
  {
    e.isFile && !StartsWith(e.name, "inventory")
  }

  function EntryOf(env: Env, e: StoreEntry): InventoryEntry
  {
    var d := ReportDigests(e.binary, env.hasher);
    InventoryEntry(e.name, e.relPath, e.size, env.iso(e.ctime), env.iso(e.mtime),
                   d.md5, d.sha256, FileType(e.name))
  }

  /** An inventory entry describes its file: name, relative path, size, both times, its
      kind, and both digests of its content, or `error` for both when it cannot be read. */
  lemma EntryDescribes(env: Env, e: StoreEntry)
    ensures var x := EntryOf(env, e);
      x.filename == e.name && x.path == e.relPath && x.sizeBytes == e.size
      && x.created == env.iso(e.ctime) && x.modified == env.iso(e.mtime) && x.fileType == FileType(e.name)
    ensures e.binary.ReadError? ==> EntryOf(env, e).md5Hash == "error" && EntryOf(env, e).sha256Hash == "error"
    ensures e.binary.Text? ==>
      (EntryOf(env, e).md5Hash == env.hasher.md5(e.binary.text)
       && EntryOf(env, e).sha256Hash == env.hasher.sha256(e.binary.text))
  {
  }

  function MakeEntry(env: Env): StoreEntry -> InventoryEntry
  {
    e => EntryOf(env, e)
  }

  /** The entries in collection order, before sorting. */
  function Collected(env: Env, s: seq<StoreEntry>): seq<InventoryEntry>
  {
    Map(MakeEntry(env), Filter(Inventoried, s))
  }

  function Created(x: InventoryEntry): string { x.created }
  function SizeBytes(x: InventoryEntry): nat { x.sizeBytes }
  function EntryPath(x: InventoryEntry): string { x.path }

  function InventoryName(stamp: string): string
  {
    "evidence_inventory_" + stamp + ".json"
  }

  lemma CollectedSnoc(env: Env, s: seq<StoreEntry>, e: StoreEntry)
    ensures Collected(env, s + [e]) ==
      Collected(env, s) + (if Inventoried(e) then [EntryOf(env, e)] else [])
  {
    FilterSnoc(Inventoried, s, e);
    MapConcat(MakeEntry(env), Filter(Inventoried, s), if Inventoried(e) then [e] else []);
  }

  /** `generate_inventory`: the entries of every inventoried file, sorted newest
      `created` first by the stable sort, so entries created at the same instant keep
      their listing order; the totals count and add up exactly the listed entries. */
  method GenerateInventory(env: Env, platform: string, dir: string)
    returns (path: string, inv: Inventory)
    ensures path == PathJoin(dir, InventoryName(env.stamp))
    ensures inv.generationTime == env.now && inv.platform == platform
    ensures multiset(inv.evidenceFiles) == multiset(Collected(env, env.store))
    ensures SortedOn(inv.evidenceFiles, Created, true)
    ensures inv.evidenceFiles == SortOn(Collected(env, env.store), Created, true)
    ensures forall k :: Filter(KeyIs(Created, k), inv.evidenceFiles) == Filter(KeyIs(Created, k), Collected(env, env.store))
    ensures inv.totalFiles == |inv.evidenceFiles|
    ensures inv.totalSizeBytes == Sum(SizeBytes, inv.evidenceFiles)
    ensures env.store == [] ==> inv.evidenceFiles == [] && inv.totalFiles == 0 && inv.totalSizeBytes == 0
  {
    var files, total := CollectInventory(env);
    var sorted := SortOn(files, Created, true);
    SortOnSorted(files, Created, true);
    forall k ensures Filter(KeyIs(Created, k), sorted) == Filter(KeyIs(Created, k), files) {
      SortOnStable(files, Created, true, k);
    }
    SumPermutation(SizeBytes, files, sorted);
    inv := Inventory(env.now, platform, sorted, |files|, total);
    path := PathJoin(dir, InventoryName(env.stamp));
  }

  /** The `rglob` loop of `generate_inventory`: the entries in listing order and their
      total size. */
  method CollectInventory(env: Env) returns (files: seq<InventoryEntry>, total: nat)
    ensures files == Collected(env, env.store)
    ensures total == Sum(SizeBytes, files)
  {
    files, total := [], 0;
    for i := 0 to |env.store|
      invariant files == Collected(env, env.store[..i])
      invariant total == Sum(SizeBytes, files)
    {
      assert env.store[..i + 1] == env.store[..i] + [env.store[i]];
      CollectedSnoc(env, env.store[..i], env.store[i]);
      files, total := AddEntry(env, env.store[i], files, total);
    }
    assert env.store[..|env.store|] == env.store;
  }

  /** One listed path: an inventoried file adds its entry and its size. */
  method AddEntry(env: Env, e: StoreEntry, files: seq<InventoryEntry>, total: nat)
    returns (files': seq<InventoryEntry>, total': nat)
    requires total == Sum(SizeBytes, files)
    ensures files' == files + (if Inventoried(e) then [EntryOf(env, e)] else [])
    ensures total' == Sum(SizeBytes, files')
  {
    files', total' := files, total;
    if Inventoried(e) {
      var entry := EntryOf(env, e);
      SumConcat(SizeBytes, files, [entry]);
      files', total' := files + [entry], total + e.size;
    }
  }

  /** No two entries of the output directory share a relative path. */
  predicate DistinctPaths(s: seq<StoreEntry>)
  {
    forall i, j :: 0 <= i < j < |s| ==> s[i].relPath != s[j].relPath
  }

  predicate ListedAt(s: seq<StoreEntry>, p: string)
  {
    exists k :: 0 <= k < |s| && s[k].relPath == p && Inventoried(s[k])
  }

  lemma {:induction false} CollectedPathCount(env: Env, s: seq<StoreEntry>, p: string)
    requires DistinctPaths(s)
    ensures multiset(Map(EntryPath, Collected(env, s)))[p] == if ListedAt(s, p) then 1 else 0
  {
    if s != [] {
      var init, e := s[..|s| - 1], s[|s| - 1];
      assert s == init + [e];
      DistinctInit(s);
      CollectedPathCount(env, init, p);
      CollectedSnoc(env, init, e);
      MapConcat(EntryPath, Collected(env, init), if Inventoried(e) then [EntryOf(env, e)] else []);
      ListedSnoc(s, p);
    }
  }

  lemma DistinctInit(s: seq<StoreEntry>)
    requires DistinctPaths(s) && s != []
    ensures DistinctPaths(s[..|s| - 1])
  {
  }

  /** Listing in `s` is listing in all but the last entry, or in the last; with distinct
      paths, never both. */
  lemma ListedSnoc(s: seq<StoreEntry>, p: string)
    requires DistinctPaths(s) && s != []
    ensures var init, e := s[..|s| - 1], s[|s| - 1];
      && (ListedAt(s, p) <==> ListedAt(init, p) || (Inventoried(e) && e.relPath == p))
      && !(ListedAt(init, p) && e.relPath == p)
  {
    var init, e := s[..|s| - 1], s[|s| - 1];
    assert forall j :: 0 <= j < |init| ==> init[j] == s[j];
    if ListedAt(init, p) {
      var k :| 0 <= k < |init| && init[k].relPath == p && Inventoried(init[k]);
      assert s[k] == init[k];
    }
  }

  /** Each inventoried file of the output directory appears exactly once in the
      inventory, and every file that is not inventoried appears not at all. */
  lemma InventoryExactlyOnce(env: Env, files: seq<InventoryEntry>, k: nat)
    requires DistinctPaths(env.store) && k < |env.store|
    requires multiset(files) == multiset(Collected(env, env.store))
    ensures multiset(Map(EntryPath, files))[env.store[k].relPath] ==
      if Inventoried(env.store[k]) then 1 else 0
  {
    MapPermutation(EntryPath, files, Collected(env, env.store));
    CollectedPathCount(env, env.store, env.store[k].relPath);
    if ListedAt(env.store, env.store[k].relPath) {
      var j :| 0 <= j < |env.store| && env.store[j].relPath == env.store[k].relPath && Inventoried(env.store[j]);
      assert j == k;
    }
  }

  /** Every inventory entry describes an inventoried file of the output directory. */
  lemma InventoryOnlyListed(env: Env, files: seq<InventoryEntry>, x: InventoryEntry)
    requires multiset(files) == multiset(Collected(env, env.store))
    requires x in files
    ensures exists k :: 0 <= k < |env.store| && Inventoried(env.store[k]) && x == EntryOf(env, env.store[k])
  {
    assert x in multiset(Collected(env, env.store));
    var f := Filter(Inventoried, env.store);
    var i :| 0 <= i < |Collected(env, env.store)| && Collected(env, env.store)[i] == x;
    MapAt(MakeEntry(env), f, i);
    FilterMember(Inventoried, env.store, f[i]);
    assert f[i] in env.store;
    var k :| 0 <= k < |env.store| && env.store[k] == f[i];
  }

  /** The inventory's own output starts with `evidence_`, so the filter lets earlier
      inventories through: a later inventory lists them. */
  lemma EarlierInventoriesIncluded(e: StoreEntry, stamp: string)
    requires e.isFile && e.name == InventoryName(stamp)
    ensures Inventoried(e)
  {
    assert e.name[0] == 'e';
  }

  // ---------------------------------------------------------------------------------
  // The investigation timeline
  // ---------------------------------------------------------------------------------

  datatype EventType = EvidenceCollected | ProcessEnumeration | NetworkIsolationApplied

  function EventLabel(t: EventType): string
  {
    match t
    case EvidenceCollected => "evidence_collected"
    case ProcessEnumeration => "process_enumeration"
    case NetworkIsolationApplied => "network_isolation"
  }

  /** A timeline event; only base events carry the `file_size` key. */
  datatype Event = Event(
    timestamp: string, eventType: EventType, description: string, filePath: string,
    fileSize: Option<nat>)

  datatype Timeline = Timeline(
    generationTime: string, platform: string, totalEvents: nat, timeline: seq<Event>)

  /** `glob('*')` followed by `is_file()`. */
  predicate TopFile(e: StoreEntry) { e.topLevel && e.isFile }

  /** `platform.system().lower()` on the host whose paths ignore case. */
  predicate FoldsCase(platform: string)
  {
    platform == "windows"
  }

  /** The form of a name a glob pattern is matched against, and the key `sorted` orders
      paths of one directory by: only Windows paths compare case-insensitively, so there
      the name is folded to lower case (every pattern here is lower case already); on
      Linux, macOS and any other host it is the name itself. */
  function GlobName(platform: string, name: string): (r: string)
    ensures |r| == |name|
    ensures !FoldsCase(platform) ==> r == name
    ensures FoldsCase(platform) ==> forall i :: 0 <= i < |r| ==> r[i] == LowerChar(name[i])
  {
    if FoldsCase(platform) then Lower(name) else name
  }

  /** A top-level name matching a glob `<prefix>*<suffix>`. */
  function GlobAffix(platform: string, prefix: string, suffix: string): StoreEntry -> bool
  {
    (e: StoreEntry) =>
      var n := GlobName(platform, e.name);
      e.topLevel && |prefix| + |suffix| <= |n| && StartsWith(n, prefix) && EndsWith(n, suffix)
  }

  /** `glob('processes_*.txt')`. */
  function ProcessGlob(platform: string): StoreEntry -> bool { GlobAffix(platform, "processes_", ".txt") }

  /** `glob('*isolation*.txt')`: `isolation` occurs before the `.txt` suffix. */
  function IsolationTxtGlob(platform: string): StoreEntry -> bool
  {
    (e: StoreEntry) =>
      var n := GlobName(platform, e.name);
      e.topLevel && EndsWith(n, ".txt") && Contains(n[..|n| - 4], "isolation")
  }

  function BaseEvent(env: Env): StoreEntry -> Event
  {
    (e: StoreEntry) => Event(env.iso(e.ctime), EvidenceCollected, "Evidence file created: " + e.name, e.relPath, Some(e.size))
  }

  function ProcessEvent(env: Env): StoreEntry -> Event
  {
    (e: StoreEntry) => Event(env.iso(e.ctime), ProcessEnumeration, "System processes enumerated", e.relPath, None)
  }

  function IsolationEvent(env: Env): StoreEntry -> Event
  {
    (e: StoreEntry) => Event(env.iso(e.ctime), NetworkIsolationApplied, "Network isolation applied", e.relPath, None)
  }

  function BaseEvents(env: Env): seq<Event> { Map(BaseEvent(env), Filter(TopFile, env.store)) }
  function ProcessEvents(env: Env, platform: string): seq<Event>
  {
    Map(ProcessEvent(env), Filter(ProcessGlob(platform), env.store))
  }

  function IsolationEvents(env: Env, platform: string): seq<Event>
  {
    Map(IsolationEvent(env), Filter(IsolationTxtGlob(platform), env.store))
  }

  function Stamp(e: Event): string { e.timestamp }

  /** `parse_log_events`: appends one event per `processes_*.txt` file, then one per
      `*isolation*.txt` file, after the events already collected. */
  method ParseLogEvents(env: Env, platform: string, events: seq<Event>) returns (out: seq<Event>)
    ensures out == events + ProcessEvents(env, platform) + IsolationEvents(env, platform)
  {
    out := AppendMapped(events, env.store, ProcessGlob(platform), ProcessEvent(env));
    out := AppendMapped(out, env.store, IsolationTxtGlob(platform), IsolationEvent(env));
  }

  /** Base events are the only ones with a `file_size`. */
  lemma {:induction false} EventSizes(env: Env, platform: string, e: Event)
    requires e in multiset(BaseEvents(env) + ProcessEvents(env, platform) + IsolationEvents(env, platform))
    ensures e.fileSize.Some? <==> e.eventType == EvidenceCollected
  {
    var b, p, q := Filter(TopFile, env.store), Filter(ProcessGlob(platform), env.store), Filter(IsolationTxtGlob(platform), env.store);
    if e in BaseEvents(env) {
      var i :| 0 <= i < |BaseEvents(env)| && BaseEvents(env)[i] == e;
      MapAt(BaseEvent(env), b, i);
    } else if e in ProcessEvents(env, platform) {
      var i :| 0 <= i < |ProcessEvents(env, platform)| && ProcessEvents(env, platform)[i] == e;
      MapAt(ProcessEvent(env), p, i);
    } else {
      assert e in IsolationEvents(env, platform);
      var i :| 0 <= i < |IsolationEvents(env, platform)| && IsolationEvents(env, platform)[i] == e;
      MapAt(IsolationEvent(env), q, i);
    }
  }

  function TimelineName(stamp: string): string
  {
    "investigation_timeline_" + stamp
  }

  /** The human-readable rendering of one event. */
  function EventText(e: Event): string
  {
    "[" + e.timestamp + "] " + Upper(EventLabel(e.eventType)) + "\n"
    + "  " + e.description + "\n"
    + "  File: " + e.filePath + "\n"
    + "\n"
  }

  function TimelineText(t: Timeline): string
  {
    "Investigation Timeline - " + t.generationTime + "\n" + Rule60() + "\n"
    + "Platform: " + t.platform + "\n"
    + "Total events: " + NatToString(t.totalEvents) + "\n"
    + Rule60() + "\n\n"
    + Concat(Map(EventText, t.timeline))
  }

  /** `generate_timeline`: every base, process and isolation event exactly once, in
      non-decreasing timestamp order; events with the same timestamp keep the order they
      were gathered in (a file's base event before its process or isolation event); only
      base events carry a size. The returned path is
      the `.txt` rendering; `json` is what the `.json` file holds. */
  method GenerateTimeline(env: Env, platform: string, dir: string)
    returns (path: string, json: Timeline, text: string)
    ensures path == PathJoin(dir, TimelineName(env.stamp) + ".txt")
    ensures json.generationTime == env.now && json.platform == platform
    ensures multiset(json.timeline) == multiset(BaseEvents(env) + ProcessEvents(env, platform) + IsolationEvents(env, platform))
    ensures SortedOn(json.timeline, Stamp, false)
    ensures json.timeline == SortOn(BaseEvents(env) + ProcessEvents(env, platform) + IsolationEvents(env, platform), Stamp, false)
    ensures forall k ::
              Filter(KeyIs(Stamp, k), json.timeline)
              == Filter(KeyIs(Stamp, k), BaseEvents(env) + ProcessEvents(env, platform) + IsolationEvents(env, platform))
    ensures json.totalEvents == |json.timeline|
      == |Filter(TopFile, env.store)| + |Filter(ProcessGlob(platform), env.store)| + |Filter(IsolationTxtGlob(platform), env.store)|
    ensures forall e :: e in json.timeline ==> (e.fileSize.Some? <==> e.eventType == EvidenceCollected)
    ensures text == TimelineText(json)
  {
    var events := GatherEvents(env, platform);
    var sorted := SortOn(events, Stamp, false);
    SortOnSorted(events, Stamp, false);
    forall k ensures Filter(KeyIs(Stamp, k), sorted) == Filter(KeyIs(Stamp, k), events) {
      SortOnStable(events, Stamp, false, k);
    }
    SortedEventSizes(env, platform, sorted);
    json := Timeline(env.now, platform, |sorted|, sorted);
    text := TimelineText(json);
    path := PathJoin(dir, TimelineName(env.stamp) + ".txt");
  }

  /** The base events, then what `parse_log_events` adds. */
  method GatherEvents(env: Env, platform: string) returns (events: seq<Event>)
    ensures events == BaseEvents(env) + ProcessEvents(env, platform) + IsolationEvents(env, platform)
  {
    events := AppendMapped([], env.store, TopFile, BaseEvent(env));
    assert events == BaseEvents(env);
    events := ParseLogEvents(env, platform, events);
  }

  /** Any ordering of the events has one per base, process and isolation file, and only
      its base events carry a size. */
  lemma SortedEventSizes(env: Env, platform: string, sorted: seq<Event>)
    requires multiset(sorted) == multiset(BaseEvents(env) + ProcessEvents(env, platform) + IsolationEvents(env, platform))
    ensures |sorted| == |Filter(TopFile, env.store)| + |Filter(ProcessGlob(platform), env.store)| + |Filter(IsolationTxtGlob(platform), env.store)|
    ensures forall e :: e in sorted ==> (e.fileSize.Some? <==> e.eventType == EvidenceCollected)
  {
    assert |sorted| == |multiset(sorted)| == |BaseEvents(env) + ProcessEvents(env, platform) + IsolationEvents(env, platform)|;
    forall e | e in sorted ensures e.fileSize.Some? <==> e.eventType == EvidenceCollected {
      assert e in multiset(sorted);
      EventSizes(env, platform, e);
    }
  }

  // ---------------------------------------------------------------------------------
  // The incident summary
  // ---------------------------------------------------------------------------------

  /** One `evidence_counts` item; the list keeps the dict's insertion order. */
  datatype KindCount = KindCount(kind: FileKind, count: nat)

  function CountOf(c: seq<KindCount>, k: FileKind): nat
  {
    if c == [] then 0 else if c[0].kind == k then c[0].count else CountOf(c[1..], k)
  }

  /** `evidence_counts[k] = evidence_counts.get(k, 0) + 1`. */
  function Bump(c: seq<KindCount>, k: FileKind): seq<KindCount>
  {
    if c == [] then [KindCount(k, 1)]
    else if c[0].kind == k then [KindCount(k, c[0].count + 1)] + c[1..]
    else [c[0]] + Bump(c[1..], k)
  }

  /** `sum(evidence_counts.values())`. */
  function TotalOf(c: seq<KindCount>): nat
  {
    if c == [] then 0 else c[0].count + TotalOf(c[1..])
  }

  predicate DistinctKinds(c: seq<KindCount>)
  {
    forall i, j :: 0 <= i < j < |c| ==> c[i].kind != c[j].kind
  }

  /** A bump adds one to the count of its kind only, and to the total, and keeps the
      kinds distinct. */
  lemma BumpCounts(c: seq<KindCount>, k: FileKind)
    requires DistinctKinds(c)
    ensures DistinctKinds(Bump(c, k))
    ensures forall j :: CountOf(Bump(c, k), j) == CountOf(c, j) + (if j == k then 1 else 0)
    ensures TotalOf(Bump(c, k)) == TotalOf(c) + 1
    ensures forall j :: j in KindsOf(Bump(c, k)) <==> j in KindsOf(c) || j == k
  {
    BumpTallies(c, k);
    BumpDistinct(c, k);
  }

  /** What a bump does to the counts, the total and the set of kinds. */
  lemma BumpTallies(c: seq<KindCount>, k: FileKind)
    ensures forall j :: CountOf(Bump(c, k), j) == CountOf(c, j) + (if j == k then 1 else 0)
    ensures TotalOf(Bump(c, k)) == TotalOf(c) + 1
    ensures forall j :: j in KindsOf(Bump(c, k)) <==> j in KindsOf(c) || j == k
  {
    forall j ensures CountOf(Bump(c, k), j) == CountOf(c, j) + (if j == k then 1 else 0) {
      BumpCountOf(c, k, j);
    }
    BumpTotal(c, k);
    BumpKinds(c, k);
  }

  lemma {:induction false} BumpCountOf(c: seq<KindCount>, k: FileKind, j: FileKind)
    ensures CountOf(Bump(c, k), j) == CountOf(c, j) + (if j == k then 1 else 0)
  {
    if c != [] && c[0].kind != k {
      BumpCountOf(c[1..], k, j);
      assert Bump(c, k) == [c[0]] + Bump(c[1..], k);
    } else if c != [] {
      assert Bump(c, k)[1..] == c[1..];
    }
  }

  lemma {:induction false} BumpTotal(c: seq<KindCount>, k: FileKind)
    ensures TotalOf(Bump(c, k)) == TotalOf(c) + 1
  {
    if c != [] && c[0].kind != k {
      BumpTotal(c[1..], k);
      assert Bump(c, k) == [c[0]] + Bump(c[1..], k);
    } else if c != [] {
      assert Bump(c, k)[1..] == c[1..];
    }
  }

  lemma {:induction false} BumpKinds(c: seq<KindCount>, k: FileKind)
    ensures KindsOf(Bump(c, k)) == KindsOf(c) + {k}
  {
    if c != [] && c[0].kind != k {
      BumpKinds(c[1..], k);
      assert Bump(c, k) == [c[0]] + Bump(c[1..], k);
    } else if c != [] {
      assert Bump(c, k)[1..] == c[1..];
    }
  }

  lemma DistinctTail(c: seq<KindCount>)
    requires DistinctKinds(c) && c != []
    ensures DistinctKinds(c[1..])
  {
    forall i, j | 0 <= i < j < |c[1..]| ensures c[1..][i].kind != c[1..][j].kind {
      assert c[1..][i] == c[i + 1] && c[1..][j] == c[j + 1];
    }
  }

  /** A bump never gives two items the same kind. */
  lemma {:induction false} BumpDistinct(c: seq<KindCount>, k: FileKind)
    requires DistinctKinds(c)
    ensures DistinctKinds(Bump(c, k))
  {
    if c != [] && c[0].kind != k {
      DistinctTail(c);
      BumpDistinct(c[1..], k);
      var t := Bump(c[1..], k);
      BumpTallies(c[1..], k);
      var b := [c[0]] + t;
      assert Bump(c, k) == b;
      forall i, j | 0 <= i < j < |b| ensures b[i].kind != b[j].kind {
        if i == 0 {
          assert b[j] == t[j - 1];
          KindsOfAt(t, j - 1);
          if b[j].kind != k {
            var m := KindsOfWitness(c[1..], b[j].kind);
            assert c[m + 1].kind == b[j].kind;
          }
        } else {
          assert b[i] == t[i - 1] && b[j] == t[j - 1];
        }
      }
    } else if c != [] {
      var b := Bump(c, k);
      forall i, j | 0 <= i < j < |b| ensures b[i].kind != b[j].kind {
        assert b[i].kind == c[i].kind && b[j].kind == c[j].kind;
      }
    }
  }

  function KindsOf(c: seq<KindCount>): set<FileKind>
  {
    if c == [] then {} else {c[0].kind} + KindsOf(c[1..])
  }

  lemma {:induction false} KindsOfAt(c: seq<KindCount>, i: nat)
    requires i < |c|
    ensures c[i].kind in KindsOf(c)
  {
    if i > 0 { KindsOfAt(c[1..], i - 1); }
  }

  lemma {:induction false} KindsOfWitness(c: seq<KindCount>, k: FileKind) returns (m: nat)
    requires k in KindsOf(c)
    ensures m < |c| && c[m].kind == k
  {
    if c[0].kind == k { m := 0; } else { m := KindsOfWitness(c[1..], k); m := m + 1; }
  }

  /** The number of top-level files of kind `k` in `s`. */
  function Tally(s: seq<StoreEntry>, k: FileKind): nat
  {
    if s == [] then 0
    else Tally(s[..|s| - 1], k) + (if TopFile(s[|s| - 1]) && FileType(s[|s| - 1].name) == k then 1 else 0)
  }

  /** `evidence_counts` after the loop over `s`: each top-level file bumps its kind. */
  function Tallies(s: seq<StoreEntry>): seq<KindCount>
  {
    if s == [] then []
    else
      var c := Tallies(s[..|s| - 1]);
      if TopFile(s[|s| - 1]) then Bump(c, FileType(s[|s| - 1].name)) else c
  }

  /** The kinds of the top-level files of `s`, each once, in the order of its first file:
      the order a dict keeps its keys in. */
  function FirstSeen(s: seq<StoreEntry>): seq<FileKind>
  {
    if s == [] then []
    else
      var d := FirstSeen(s[..|s| - 1]);
      var e := s[|s| - 1];
      if TopFile(e) && FileType(e.name) !in d then d + [FileType(e.name)] else d
  }

  /** The kinds of the items, in item order. */
  function KindSeq(c: seq<KindCount>): seq<FileKind>
  {
    if c == [] then [] else [c[0].kind] + KindSeq(c[1..])
  }

  /** Every item counts at least one file. */
  predicate Positive(c: seq<KindCount>)
  {
    forall i :: 0 <= i < |c| ==> c[i].count > 0
  }

  lemma {:induction false} KindSeqHas(c: seq<KindCount>, k: FileKind)
    ensures k in KindSeq(c) <==> k in KindsOf(c)
  {
    if c != [] { KindSeqHas(c[1..], k); }
  }

  /** A bump of a kind already present keeps the items' order; a new kind goes last with
      count one, as a dict inserts a new key. */
  lemma {:induction false} BumpOrder(c: seq<KindCount>, k: FileKind)
    ensures KindSeq(Bump(c, k)) == if k in KindsOf(c) then KindSeq(c) else KindSeq(c) + [k]
    ensures Positive(c) ==> Positive(Bump(c, k))
  {
    if c == [] {
    } else if c[0].kind == k {
      var b := Bump(c, k);
      assert b[0].kind == k && b[1..] == c[1..];
    } else {
      BumpOrder(c[1..], k);
      var t := Bump(c[1..], k);
      var b := [c[0]] + t;
      assert Bump(c, k) == b;
      assert b[0] == c[0] && b[1..] == t;
      assert KindSeq(b) == [c[0].kind] + KindSeq(t);
      assert KindSeq(c) == [c[0].kind] + KindSeq(c[1..]);
      if Positive(c) {
        assert Positive(c[1..]) by {
          forall i | 0 <= i < |c[1..]| ensures c[1..][i].count > 0 { assert c[1..][i] == c[i + 1]; }
        }
        forall i | 0 <= i < |b| ensures b[i].count > 0 {
          if i > 0 { assert b[i] == t[i - 1]; }
        }
      }
    }
  }

  /** The counts hold only kinds that occur, each with a positive count, in the order in
      which each kind's first top-level file is listed. */
  lemma {:induction false} TalliesOrder(s: seq<StoreEntry>)
    ensures KindSeq(Tallies(s)) == FirstSeen(s)
    ensures Positive(Tallies(s))
  {
    if s != [] {
      var init, e := s[..|s| - 1], s[|s| - 1];
      TalliesOrder(init);
      if TopFile(e) {
        var k := FileType(e.name);
        BumpOrder(Tallies(init), k);
        KindSeqHas(Tallies(init), k);
      }
    }
  }

  function StoreSize(e: StoreEntry): nat { e.size }

  datatype SystemState = SystemState(systemInfoFiles: nat, isolationFiles: nat)

  datatype Summary = Summary(
    generationTime: string, platform: string, totalFiles: nat, totalSizeBytes: nat,
    fileTypes: seq<KindCount>, systemState: SystemState, recommendations: seq<Advice>)

  /** `glob('system_info_*.txt')`. */
  function SystemInfoGlob(platform: string): StoreEntry -> bool { GlobAffix(platform, "system_info_", ".txt") }

  /** `glob('*isolation*')`. */
  function IsolationGlob(platform: string): StoreEntry -> bool
  {
    (e: StoreEntry) => e.topLevel && Contains(GlobName(platform, e.name), "isolation")
  }

  /** The four recommendations `generate_summary` can make. */
  datatype Advice = ReviewProcesses | AnalyzeNetwork | ExamineLogs | ConsiderIsolation

  function AdviceText(a: Advice): string
  {
    match a
    case ReviewProcesses => "Review process list for suspicious processes"
    case AnalyzeNetwork => "Analyze network connections for malicious activity"
    case ExamineLogs => "Examine log files for indicators of compromise"
    case ConsiderIsolation => "Consider network isolation if threat is active"
  }

  /** The position of a recommendation in the fixed order the rules are tried in. */
  function Rank(a: Advice): nat
  {
    match a
    case ReviewProcesses => 0
    case AnalyzeNetwork => 1
    case ExamineLogs => 2
    case ConsiderIsolation => 3
  }

  /** The recommendation rules: one per kind that was collected, and the isolation
      advice exactly when no isolation artifact exists; always in the rules' order. */
  function Recommendations(c: seq<KindCount>, isolationFiles: nat): (r: seq<Advice>)
    ensures ReviewProcesses in r <==> CountOf(c, ProcessList) > 0
    ensures AnalyzeNetwork in r <==> CountOf(c, NetworkConnections) > 0
    ensures ExamineLogs in r <==> CountOf(c, LogFiles) > 0
    ensures ConsiderIsolation in r <==> isolationFiles == 0
    ensures forall i, j :: 0 <= i < j < |r| ==> Rank(r[i]) < Rank(r[j])
  {
    (if CountOf(c, ProcessList) > 0 then [ReviewProcesses] else [])
    + (if CountOf(c, NetworkConnections) > 0 then [AnalyzeNetwork] else [])
    + (if CountOf(c, LogFiles) > 0 then [ExamineLogs] else [])
    + (if isolationFiles == 0 then [ConsiderIsolation] else [])
  }

  function SummaryName(stamp: string): string
  {
    "incident_summary_" + stamp
  }

  lemma TallySnoc(s: seq<StoreEntry>, e: StoreEntry, k: FileKind)
    ensures Tally(s + [e], k) == Tally(s, k) + (if TopFile(e) && FileType(e.name) == k then 1 else 0)
  {
    assert (s + [e])[..|s|] == s;
  }

  /** `counts` and `size` are what the counting loop holds after the entries `s`. */
  predicate Counted(counts: seq<KindCount>, size: nat, s: seq<StoreEntry>)
  {
    && DistinctKinds(counts)
    && (forall k :: CountOf(counts, k) == Tally(s, k))
    && TotalOf(counts) == |Filter(TopFile, s)|
    && size == Sum(StoreSize, Filter(TopFile, s))
  }

  /** One entry of the counting loop: a top-level file bumps its kind and adds its
      size; anything else changes nothing. */
  lemma CountStep(counts: seq<KindCount>, size: nat, s: seq<StoreEntry>, e: StoreEntry)
    requires Counted(counts, size, s)
    ensures TopFile(e) ==> Counted(Bump(counts, FileType(e.name)), size + e.size, s + [e])
    ensures !TopFile(e) ==> Counted(counts, size, s + [e])
  {
    FilterSnoc(TopFile, s, e);
    forall k ensures Tally(s + [e], k) == Tally(s, k) + (if TopFile(e) && FileType(e.name) == k then 1 else 0) {
      TallySnoc(s, e, k);
    }
    if TopFile(e) {
      BumpCounts(counts, FileType(e.name));
      SumConcat(StoreSize, Filter(TopFile, s), [e]);
    } else {
      assert Filter(TopFile, s + [e]) == Filter(TopFile, s);
    }
  }

  /** The counting loop of `generate_summary` over `glob('*')`. */
  method CountKinds(s: seq<StoreEntry>) returns (counts: seq<KindCount>, size: nat)
    ensures counts == Tallies(s)
    ensures KindSeq(counts) == FirstSeen(s)
    ensures forall i :: 0 <= i < |counts| ==> counts[i].count > 0
    ensures DistinctKinds(counts)
    ensures forall k :: CountOf(counts, k) == Tally(s, k)
    ensures TotalOf(counts) == |Filter(TopFile, s)|
    ensures size == Sum(StoreSize, Filter(TopFile, s))
  {
    counts, size := [], 0;
    for i := 0 to |s|
      invariant Counted(counts, size, s[..i])
      invariant counts == Tallies(s[..i])
    {
      assert s[..i + 1] == s[..i] + [s[i]];
      assert s[..i + 1][..i] == s[..i];
      CountStep(counts, size, s[..i], s[i]);
      if TopFile(s[i]) {
        counts, size := Bump(counts, FileType(s[i].name)), size + s[i].size;
      }
    }
    assert s[..|s|] == s;
    TalliesOrder(s);
  }

  /** `generate_summary`: per-kind counts of the top-level files whose total is the
      number of those files, their summed size, the glob counts and the recommendations.
      The returned path is the `.txt` rendering; `json` is what the `.json` file holds. */
  method GenerateSummary(env: Env, platform: string, dir: string)
    returns (path: string, json: Summary, text: string)
    ensures path == PathJoin(dir, SummaryName(env.stamp) + ".txt")
    ensures json.generationTime == env.now && json.platform == platform
    ensures json.fileTypes == Tallies(env.store)
    ensures KindSeq(json.fileTypes) == FirstSeen(env.store)
    ensures forall i :: 0 <= i < |json.fileTypes| ==> json.fileTypes[i].count > 0
    ensures DistinctKinds(json.fileTypes)
    ensures forall k :: CountOf(json.fileTypes, k) == Tally(env.store, k)
    ensures json.totalFiles == TotalOf(json.fileTypes) == |Filter(TopFile, env.store)|
    ensures json.totalSizeBytes == Sum(StoreSize, Filter(TopFile, env.store))
    ensures json.systemState == SystemState(|Filter(SystemInfoGlob(platform), env.store)|, |Filter(IsolationGlob(platform), env.store)|)
    ensures json.recommendations == Recommendations(json.fileTypes, json.systemState.isolationFiles)
    ensures text == SummaryText(json)
  {
    var counts, size := CountKinds(env.store);
    var state := SystemState(|Filter(SystemInfoGlob(platform), env.store)|, |Filter(IsolationGlob(platform), env.store)|);
    json := Summary(env.now, platform, TotalOf(counts), size, counts, state,
                    Recommendations(counts, state.isolationFiles));
    text := SummaryText(json);
    path := PathJoin(dir, SummaryName(env.stamp) + ".txt");
  }

  function KindLine(c: KindCount): string
  {
    "  - " + KindLabel(c.kind) + ": " + NatToString(c.count) + " files\n"
  }

  /** The system-state lines; a key is present only when its glob matched something. */
  function StateLines(st: SystemState): string
  {
    (if st.systemInfoFiles > 0
     then "  - System Info Collected: True\n  - System Info Files: " + NatToString(st.systemInfoFiles) + "\n"
     else "")
    + (if st.isolationFiles > 0
       then "  - Network Isolation Applied: True\n  - Isolation Files: " + NatToString(st.isolationFiles) + "\n"
       else "")
  }

  /** `enumerate(recommendations, 1)`. */
  function NumberedLines(rs: seq<string>, first: nat): string
  {
    if rs == [] then "" else NatToString(first) + ". " + rs[0] + "\n" + NumberedLines(rs[1..], first + 1)
  }

  function SummaryText(m: Summary): string
  {
    "INCIDENT RESPONSE SUMMARY REPORT\n" + Rule60() + "\n"
    + "Generated: " + m.generationTime + "\n"
    + "Platform: " + Upper(m.platform) + "\n"
    + Rule60() + "\n\n"
    + "EVIDENCE COLLECTION SUMMARY:\n" + Repeat('-', 30) + "\n"
    + "Total files collected: " + NatToString(m.totalFiles) + "\n"
    + "Total evidence size: " + NatToString(m.totalSizeBytes) + " bytes\n"
    + "\nFile types collected:\n" + Concat(Map(KindLine, m.fileTypes))
    + "\nSYSTEM STATE:\n" + Repeat('-', 15) + "\n" + StateLines(m.systemState)
    + "\nRECOMMENDATIONS:\n" + Repeat('-', 17) + "\n" + NumberedLines(Map(AdviceText, m.recommendations), 1)
    + "\n" + Rule60() + "\n"
    + "End of Summary Report\n"
  }

  // ---------------------------------------------------------------------------------
  // HTML escaping
  // ---------------------------------------------------------------------------------

  /** The escape of `export_html_report`: `&` first, then `<`, then `>`. */
  function HtmlEscape(s: string): string
  {
    Replace(Replace(Replace(s, "&", "&amp;"), "<", "&lt;"), ">", "&gt;")
  }

  /** The three replacements reversed, in the opposite order. */
  function HtmlUnescape(s: string): string
  {
    Replace(Replace(Replace(s, "&gt;", ">"), "&lt;", "<"), "&amp;", "&")
  }

  /** Replacing one character, position by position. */
  function Sub(s: string, c: char, rep: string): string
  {
    if s == [] then [] else (if s[0] == c then rep else [s[0]]) + Sub(s[1..], c, rep)
  }

  lemma {:induction false} ReplaceOneChar(s: string, c: char, rep: string)
    ensures Replace(s, [c], rep) == Sub(s, c, rep)
  {
    if s != [] {
      ReplaceOneChar(s[1..], c, rep);
      if s[0] == c { assert s[|[c]|..] == s[1..]; }
    }
  }

  lemma {:induction false} SubRemoves(s: string, c: char, rep: string, d: char)
    requires d !in rep && (d == c || d !in s)
    ensures d !in Sub(s, c, rep)
  {
    if s != [] { SubRemoves(s[1..], c, rep, d); }
  }

  /** A prefix without `&` of a text in which `c` became a chunk starting with `&` was a
      prefix before the replacement. */
  lemma {:induction false} SubFreePrefix(w: string, c: char, rep: string, q: string)
    requires rep != [] && rep[0] == '&' && '&' !in q
    ensures q <= Sub(w, c, rep) ==> q <= w
  {
    if w != [] && q != [] {
      if w[0] == c {
        assert Sub(w, c, rep)[0] == '&' && q[0] in q;
      } else {
        SubFreePrefix(w[1..], c, rep, q[1..]);
      }
    }
  }

  /** A pattern whose only `&` is its first character, found at the head of a replaced
      text whose first character was kept, was at the head before. */
  lemma SubHeadPrefix(u: string, c: char, rep: string, q: string)
    requires u != [] && u[0] != c && rep != [] && rep[0] == '&'
    requires q != [] && '&' !in q[1..]
    ensures q <= [u[0]] + Sub(u[1..], c, rep) ==> q <= u
  {
    SubFreePrefix(u[1..], c, rep, q[1..]);
  }

  /** An occurrence of a pattern starting with `&` lies beyond a prefix without `&`. */
  lemma {:induction false} ContainsSkip(pre: string, x: string, q: string)
    requires q != [] && q[0] == '&' && '&' !in pre
    ensures Contains(pre + x, q) ==> Contains(x, q)
  {
    if pre == [] {
      assert pre + x == x;
    } else {
      assert (pre + x)[1..] == pre[1..] + x;
      ContainsSkip(pre[1..], x, q);
    }
  }

  /** Replacing a chunk by the character it came from undoes `Sub`, provided the chunk
      starts with its only `&` and did not already occur (when `c` is not `&`). */
  lemma {:induction false} SubInverse(u: string, c: char, rep: string)
    requires rep != [] && rep[0] == '&' && '&' !in rep[1..]
    requires c == '&' || !Contains(u, rep)
    ensures Replace(Sub(u, c, rep), rep, [c]) == u
  {
    if u != [] {
      var x := Sub(u[1..], c, rep);
      assert c != '&' ==> !Contains(u[1..], rep);
      SubInverse(u[1..], c, rep);
      if u[0] == c {
        assert (rep + x)[|rep|..] == x;
      } else {
        SubHeadPrefix(u, c, rep, rep);
        assert ([u[0]] + x)[1..] == x;
      }
    }
  }

  /** After `&` became `&amp;`, no `&` is followed by anything but `amp;`. */
  lemma {:induction false} AmpSubExcludes(s: string, q: string)
    requires |q| >= 2 && q[0] == '&' && q[1] != 'a'
    ensures !Contains(Sub(s, '&', "&amp;"), q)
  {
    if s != [] {
      var x := Sub(s[1..], '&', "&amp;");
      AmpSubExcludes(s[1..], q);
      if s[0] == '&' {
        assert ("&amp;" + x)[1..] == "amp;" + x;
        ContainsSkip("amp;", x, q);
      } else {
        assert ([s[0]] + x)[1..] == x;
      }
    }
  }

  /** Replacing `c` by a chunk that differs from `q` in its second place creates no
      occurrence of `q`. */
  lemma {:induction false} SubExcludes(u: string, c: char, rep: string, q: string)
    requires |rep| >= 2 && rep[0] == '&' && '&' !in rep[1..]
    requires |q| >= 2 && q[0] == '&' && '&' !in q[1..] && q[1] != rep[1]
    requires !Contains(u, q)
    ensures !Contains(Sub(u, c, rep), q)
  {
    if u != [] {
      var x := Sub(u[1..], c, rep);
      assert !Contains(u[1..], q);
      SubExcludes(u[1..], c, rep, q);
      if u[0] == c {
        assert (rep + x)[1..] == rep[1..] + x;
        ContainsSkip(rep[1..], x, q);
      } else {
        SubHeadPrefix(u, c, rep, q);
        assert ([u[0]] + x)[1..] == x;
      }
    }
  }

  /** The escaped text contains no angle bracket. */
  lemma EscapeHasNoAngles(s: string)
    ensures '<' !in HtmlEscape(s) && '>' !in HtmlEscape(s)
  {
    var t1 := Replace(s, "&", "&amp;");
    var t2 := Replace(t1, "<", "&lt;");
    ReplaceOneChar(s, '&', "&amp;");
    ReplaceOneChar(t1, '<', "&lt;");
    ReplaceOneChar(t2, '>', "&gt;");
    SubRemoves(t1, '<', "&lt;", '<');
    SubRemoves(t2, '>', "&gt;", '<');
    SubRemoves(t2, '>', "&gt;", '>');
  }

  /** Reversing the three replacements in the opposite order restores the text. */
  lemma EscapeRoundTrip(s: string)
    ensures HtmlUnescape(HtmlEscape(s)) == s
  {
    var t1 := Replace(s, "&", "&amp;");
    var t2 := Replace(t1, "<", "&lt;");
    var t3 := Replace(t2, ">", "&gt;");
    ReplaceOneChar(s, '&', "&amp;");
    ReplaceOneChar(t1, '<', "&lt;");
    ReplaceOneChar(t2, '>', "&gt;");
    AmpSubExcludes(s, "&lt;");
    AmpSubExcludes(s, "&gt;");
    SubExcludes(t1, '<', "&lt;", "&gt;");
    SubInverse(t2, '>', "&gt;");
    SubInverse(t1, '<', "&lt;");
    SubInverse(s, '&', "&amp;");
  }

  // ---------------------------------------------------------------------------------
  // The consolidated text report
  // ---------------------------------------------------------------------------------

  function ReportStem(stamp: string): string
  {
    "IRIS_incident_report_" + stamp
  }

  /** `glob('*.txt')`. */
  function TxtGlob(platform: string): StoreEntry -> bool
  {
    (e: StoreEntry) => e.topLevel && EndsWith(GlobName(platform, e.name), ".txt")
  }

  /** The key `sorted` compares the entries' paths by. */
  function NameKey(platform: string): StoreEntry -> string
  {
    (e: StoreEntry) => GlobName(platform, e.name)
  }

  /** `sorted(output_dir.glob('*.txt'))`: the paths share their directory, so they sort
      by name, case-insensitively on Windows. */
  function SortedTxt(env: Env, platform: string): seq<StoreEntry>
  {
    SortOn(Filter(TxtGlob(platform), env.store), NameKey(platform), false)
  }

  function NotNamed(name: string): StoreEntry -> bool
  {
    (e: StoreEntry) => e.name != name
  }

  /** The files whose content the text report includes. */
  function ReportedFiles(env: Env, platform: string): seq<StoreEntry>
  {
    Filter(NotNamed(ReportStem(env.stamp) + ".txt"), SortedTxt(env, platform))
  }

  /** The text report lists, in name order, every top-level `.txt` entry except the
      report itself. */
  lemma ReportedFilesInOrder(env: Env, platform: string, e: StoreEntry)
    ensures SortedOn(ReportedFiles(env, platform), NameKey(platform), false)
    ensures e in ReportedFiles(env, platform) <==>
      e in env.store && TxtGlob(platform)(e) && e.name != ReportStem(env.stamp) + ".txt"
  {
    var own := NotNamed(ReportStem(env.stamp) + ".txt");
    SortOnSorted(Filter(TxtGlob(platform), env.store), NameKey(platform), false);
    FilterSorted(own, SortedTxt(env, platform), NameKey(platform), false);
    FilterMember(own, SortedTxt(env, platform), e);
    FilterMember(TxtGlob(platform), env.store, e);
    assert e in SortedTxt(env, platform) <==> e in multiset(SortedTxt(env, platform));
  }

  /** Windows orders `incident_summary_1.txt` before `IRIS_incident_report_0.txt`; Linux
      and macOS order it after, as an upper-case letter precedes every lower-case one. */
  lemma NameOrderByPlatform()
    ensures LexLe(GlobName("windows", "incident_summary_1.txt"), GlobName("windows", "IRIS_incident_report_0.txt"))
    ensures !LexLe(GlobName("linux", "incident_summary_1.txt"), GlobName("linux", "IRIS_incident_report_0.txt"))
    ensures !LexLe(GlobName("darwin", "incident_summary_1.txt"), GlobName("darwin", "IRIS_incident_report_0.txt"))
  {
    var a, b := GlobName("windows", "incident_summary_1.txt"), GlobName("windows", "IRIS_incident_report_0.txt");
    assert a[0] == b[0] == 'i';
    assert a[1..][0] == 'n' < 'r' == b[1..][0];
    assert LexLe(a[1..], b[1..]);
    CaseSensitiveOrder("linux");
    CaseSensitiveOrder("darwin");
  }

  /** Where names keep their case, `I` (code point 73) sorts before `i` (105). */
  lemma CaseSensitiveOrder(platform: string)
    requires !FoldsCase(platform)
    ensures !LexLe(GlobName(platform, "incident_summary_1.txt"), GlobName(platform, "IRIS_incident_report_0.txt"))
  {
    var a, b := GlobName(platform, "incident_summary_1.txt"), GlobName(platform, "IRIS_incident_report_0.txt");
    assert a[0] == 'i' && b[0] == 'I';
  }

  /** One file's block: a read failure is written in place of the content. */
  function EvidenceBlock(e: StoreEntry): string
  {
    "EVIDENCE FILE: " + e.name + "\n" + Dash40() + "\n"
    + (match e.decoded
       case Text(t) => t
       case ReadError(m) => "Error reading file: " + m + "\n")
    + "\n" + Rule60() + "\n\n"
  }

  function TextHeader(env: Env, platform: string, version: string): string
  {
    "IRIS INCIDENT RESPONSE REPORT\n" + Rule60() + "\n"
    + "Generated: " + env.now + "\n"
    + "Platform: " + Upper(platform) + "\n"
    + "IRIS Version: " + version + "\n"
    + Rule60() + "\n\n"
  }

  function TextFooter(env: Env): string
  {
    "END OF INCIDENT RESPONSE REPORT\n"
    + "Generated by IRIS - Incident Response Integration Suite\n"
    + "Report hash: " + env.bufferedDigest + "\n"
  }

  /** Everything written before the final hash line. */
  function TextReportBody(env: Env, platform: string, version: string): string
  {
    TextHeader(env, platform, version) + Concat(Map(EvidenceBlock, ReportedFiles(env, platform))) + TextFooter(env)
  }

  const FinalPrefix := "Final report hash: "

  /** `export_text_report`: header, one block per reported file, footer, and a last line
      carrying the SHA-256 of everything written before it (the file is re-read after it
      is closed, so the read succeeds). */
  method ExportTextReport(env: Env, platform: string, version: string, dir: string)
    returns (path: string, report: string)
    ensures path == PathJoin(dir, ReportStem(env.stamp) + ".txt")
    ensures report == TextReportBody(env, platform, version)
      + FinalPrefix + ReportDigests(Text(TextReportBody(env, platform, version)), env.hasher).sha256 + "\n"
  {
    var own := ReportStem(env.stamp) + ".txt";
    var blocks := AppendMapped([], SortedTxt(env, platform), NotNamed(own), EvidenceBlock);
    var body := TextHeader(env, platform, version) + Concat(blocks);
    body := body + TextFooter(env);
    assert blocks == Map(EvidenceBlock, ReportedFiles(env, platform));
    assert body == TextReportBody(env, platform, version);
    var finalHash := ReportDigests(Text(body), env.hasher);
    report := body + FinalPrefix + finalHash.sha256 + "\n";
    path := PathJoin(dir, ReportStem(env.stamp) + ".txt");
  }

  /** Where the line containing position `i - 1` starts. */
  function LineStart(r: string, i: nat): (k: nat)
    requires i <= |r|
    ensures k <= i
  {
    if i == 0 then 0 else if r[i - 1] == '\n' then i else LineStart(r, i - 1)
  }

  /** A verifier's reading of a report: it ends in a line break, and its last line is
      the final-hash line over everything before that line. */
  predicate ReportVerifies(r: string, h: Hasher)
  {
    |r| > 0 && r[|r| - 1] == '\n' &&
    var k := LineStart(r, |r| - 1);
    r[k..] == FinalPrefix + h.sha256(r[..k]) + "\n"
  }

  lemma {:induction false} LineStartAt(r: string, k: nat, i: nat)
    requires k <= i <= |r| && (k == 0 || r[k - 1] == '\n')
    requires forall j :: k <= j < i ==> r[j] != '\n'
    ensures LineStart(r, i) == k
    decreases i
  {
    if i > k { LineStartAt(r, k, i - 1); }
  }

  /** Appending the final-hash line to text that ends in a line break gives a report that
      verifies, when the digest is a single line (hex digests and `error` are). */
  lemma FinalLineVerifies(body: string, h: Hasher)
    requires body == [] || body[|body| - 1] == '\n'
    requires '\n' !in h.sha256(body)
    ensures ReportVerifies(body + FinalPrefix + h.sha256(body) + "\n", h)
  {
    var r := body + FinalPrefix + h.sha256(body) + "\n";
    var k := |body|;
    assert r[..k] == body;
    assert r[k..] == FinalPrefix + h.sha256(body) + "\n";
    forall j | k <= j < |r| - 1 ensures r[j] != '\n' {
      if j - k < |FinalPrefix| {
        assert r[j] == FinalPrefix[j - k];
      } else {
        assert r[j] == h.sha256(body)[j - k - |FinalPrefix|];
      }
    }
    LineStartAt(r, k, |r| - 1);
  }

  /** The text report's last line is `Final report hash: ` with the SHA-256 of all the
      bytes written before it. */
  lemma TextReportVerifies(env: Env, platform: string, version: string, report: string)
    requires report == TextReportBody(env, platform, version)
      + FinalPrefix + ReportDigests(Text(TextReportBody(env, platform, version)), env.hasher).sha256 + "\n"
    requires '\n' !in env.hasher.sha256(TextReportBody(env, platform, version))
    ensures ReportVerifies(report, env.hasher)
  {
    var body := TextReportBody(env, platform, version);
    var pre := TextHeader(env, platform, version) + Concat(Map(EvidenceBlock, ReportedFiles(env, platform)));
    assert body == pre + TextFooter(env);
    assert body[|body| - 1] == '\n';
    FinalLineVerifies(body, env.hasher);
  }

  // ---------------------------------------------------------------------------------
  // The HTML report
  // ---------------------------------------------------------------------------------

  datatype HtmlBody = Pre(escaped: string) | ReadFailed(message: string)

  /** One `<div class="section">`: the file name and either its escaped content inside
      `<pre>` or the read error inside `<p>`. */
  datatype HtmlSection = HtmlSection(name: string, body: HtmlBody)

  /** The document with its fixed template left out: the header's generation time,
      platform and version, the sections, and the footer's completion time. */
  datatype HtmlReport = HtmlReport(
    generated: string, platform: string, version: string, sections: seq<HtmlSection>,
    completed: string)

  function SectionOf(e: StoreEntry): HtmlSection
  {
    HtmlSection(e.name, match e.decoded
                        case Text(t) => Pre(HtmlEscape(t))
                        case ReadError(m) => ReadFailed(m))
  }

  predicate NotHtml(e: StoreEntry) { !EndsWith(e.name, ".html") }

  lemma {:induction false} FilterKeepsAll(s: seq<StoreEntry>)
    requires forall e :: e in s ==> NotHtml(e)
    ensures Filter(NotHtml, s) == s
  {
    if s != [] {
      assert s[|s| - 1] in s;
      FilterKeepsAll(s[..|s| - 1]);
      assert s == s[..|s| - 1] + [s[|s| - 1]];
    }
  }

  /** A name the `*.txt` glob matches never ends in `.html`: its last letter is a `t`,
      in either case. */
  lemma TxtIsNotHtml(platform: string, name: string)
    requires EndsWith(GlobName(platform, name), ".txt")
    ensures !EndsWith(name, ".html")
  {
    var n := GlobName(platform, name);
    assert n[|n| - 1] == ".txt"[3];
    assert name[|name| - 1] != 'l';
  }

  lemma SectionsEscaped(s: seq<StoreEntry>)
    ensures forall sec :: sec in Map(SectionOf, s) && sec.body.Pre? ==>
      '<' !in sec.body.escaped && '>' !in sec.body.escaped
  {
    forall sec | sec in Map(SectionOf, s) && sec.body.Pre? ensures '<' !in sec.body.escaped && '>' !in sec.body.escaped {
      var i :| 0 <= i < |Map(SectionOf, s)| && Map(SectionOf, s)[i] == sec;
      MapAt(SectionOf, s, i);
      EscapeHasNoAngles(s[i].decoded.text);
    }
  }

  /** `export_html_report`: one section per `.txt` file in name order (its `.html`
      filter never drops one, as every name ends in `.txt`), contents escaped so that no
      section body holds an angle bracket. */
  method ExportHtmlReport(env: Env, platform: string, version: string, dir: string)
    returns (path: string, report: HtmlReport)
    ensures path == PathJoin(dir, ReportStem(env.stamp) + ".html")
    ensures report.generated == env.now && report.completed == env.now
    ensures report.platform == Upper(platform) && report.version == version
    ensures report.sections == Map(SectionOf, SortedTxt(env, platform))
    ensures forall sec :: sec in report.sections && sec.body.Pre? ==>
      '<' !in sec.body.escaped && '>' !in sec.body.escaped
  {
    var sorted := SortedTxt(env, platform);
    var sections := AppendMapped([], sorted, NotHtml, SectionOf);
    forall e | e in sorted ensures NotHtml(e) {
      assert e in multiset(sorted);
      FilterMember(TxtGlob(platform), env.store, e);
      TxtIsNotHtml(platform, e.name);
    }
    FilterKeepsAll(sorted);
    assert sections == Map(SectionOf, sorted);
    SectionsEscaped(sorted);
    report := HtmlReport(env.now, Upper(platform), version, sections, env.now);
    path := PathJoin(dir, ReportStem(env.stamp) + ".html");
  }

  // ---------------------------------------------------------------------------------
  // Dispatch
  // ---------------------------------------------------------------------------------

  /** The operations `run_operation` routes, and their names. */
  datatype ReportOp = InventoryOp | TimelineOp | SummaryOp | ExportTextOp | ExportHtmlOp

  function OpName(k: ReportOp): string
  {
    match k
    case InventoryOp => "inventory"
    case TimelineOp => "timeline"
    case SummaryOp => "summary"
    case ExportTextOp => "export_txt"
    case ExportHtmlOp => "export_html"
  }

  /** The `if operation == ...` chain: the operation a name selects, if any. */
  function OpNamed(op: string): (r: Option<ReportOp>)
    ensures r.Some? ==> OpName(r.value) == op
    ensures r.None? ==> forall k :: OpName(k) != op
  {
    if op == "inventory" then Some(InventoryOp)
    else if op == "timeline" then Some(TimelineOp)
    else if op == "summary" then Some(SummaryOp)
    else if op == "export_txt" then Some(ExportTextOp)
    else if op == "export_html" then Some(ExportHtmlOp)
    else None
  }

  /** The path each generator writes. */
  function OutputPath(k: ReportOp, dir: string, stamp: string): string
  {
    match k
    case InventoryOp => PathJoin(dir, InventoryName(stamp))
    case TimelineOp => PathJoin(dir, TimelineName(stamp) + ".txt")
    case SummaryOp => PathJoin(dir, SummaryName(stamp) + ".txt")
    case ExportTextOp => PathJoin(dir, ReportStem(stamp) + ".txt")
    case ExportHtmlOp => PathJoin(dir, ReportStem(stamp) + ".html")
  }

  /** Each generator, as `run_operation` sees it: the path it wrote. */
  method InventoryResult(env: Env, platform: string, dir: string) returns (path: string)
    ensures path == PathJoin(dir, InventoryName(env.stamp))
  {
    var p, _ := GenerateInventory(env, platform, dir);
    path := p;
  }

  method TimelineResult(env: Env, platform: string, dir: string) returns (path: string)
    ensures path == PathJoin(dir, TimelineName(env.stamp) + ".txt")
  {
    var p, _, _ := GenerateTimeline(env, platform, dir);
    path := p;
  }

  method SummaryResult(env: Env, platform: string, dir: string) returns (path: string)
    ensures path == PathJoin(dir, SummaryName(env.stamp) + ".txt")
  {
    var p, _, _ := GenerateSummary(env, platform, dir);
    path := p;
  }

  method ExportTextResult(env: Env, platform: string, version: string, dir: string) returns (path: string)
    ensures path == PathJoin(dir, ReportStem(env.stamp) + ".txt")
  {
    var p, _ := ExportTextReport(env, platform, version, dir);
    path := p;
  }

  method ExportHtmlResult(env: Env, platform: string, version: string, dir: string) returns (path: string)
    ensures path == PathJoin(dir, ReportStem(env.stamp) + ".html")
  {
    var p, _ := ExportHtmlReport(env, platform, version, dir);
    path := p;
  }

  /** `ReportGenerator.run_operation`: the five known names run their generator and
      return the path it wrote; any other name is logged and gives None. `log` holds the
      dispatcher's own message only. */
  method RunOperation(env: Env, platform: string, config: Config, op: string)
    returns (result: Option<string>, log: seq<string>)
    ensures OpNamed(op).Some? ==>
      result == Some(OutputPath(OpNamed(op).value, OutputDir(config), env.stamp)) && log == []
    ensures OpNamed(op).None? ==> result == None && log == ["Unknown reporting operation: " + op]
  {
    var dir := OutputDir(config);
    log := [];
    match OpNamed(op)
    case Some(InventoryOp) =>
      var path := InventoryResult(env, platform, dir);
      result := Some(path);
    case Some(TimelineOp) =>
      var path := TimelineResult(env, platform, dir);
      result := Some(path);
    case Some(SummaryOp) =>
      var path := SummaryResult(env, platform, dir);
      result := Some(path);
    case Some(ExportTextOp) =>
      var path := ExportTextResult(env, platform, Version(config), dir);
      result := Some(path);
    case Some(ExportHtmlOp) =>
      var path := ExportHtmlResult(env, platform, Version(config), dir);
      result := Some(path);
    case None =>
      result := None;
      log := ["Unknown reporting operation: " + op];
  }
}
