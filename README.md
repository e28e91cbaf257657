# IRIS incident-response core, modelled in Dafny

IRIS is a desktop incident-response console. Its buttons run four kinds of operation
against the host:
- **evidence collection**: processes, network connections, system information, user accounts and file hashes;
- **network isolation**: emergency lockdown, whitelist, killing suspicious connections, DNS blocking and isolation status;
- **forensics**: memory summary, logs, browser artifacts, recent files and screenshot;
- **reporting**: inventory, timeline, summary, and the text and HTML reports.

Every operation writes timestamped artifacts into the output directory. The console
runs one operation at a time.

This project models:
- the decision and bookkeeping logic of `core/evidence.py`, `core/isolation.py`,
  `core/forensics.py` and `core/reporting.py`;
- the single-flight gate and category routing of `gui/main_window.py`
  (`run_operation` and `_execute_operation`).

The host is an oracle record, `Host.Env`:
- `run` maps an argument vector to `Exited(code, stdout)` or `NotFound`. `NotFound` is the
  `FileNotFoundError` Python raises for a missing program.
- `fs` maps a path to a node; `walk` and `rglob` list directories.
- `stamp`/`now`/`clock`/`iso` are the clock readings.
- `hasher` holds MD5 and SHA-256 as uninterpreted functions.
- `store` lists the output directory as the report generator sees it. Each entry carries
  two reads of the file: its bytes (as the hash read sees them) and its decoded text.

Each operation is then a function or method of its inputs. It returns the artifacts it
would write, as paths with contents, or the JSON documents as datatypes.

Modules:
- `Wrappers`: `Option` and `Outcome`. `Outcome` is a return value, or an exception that
  escapes.
- `Text`: the Python `str` operations the core relies on.
- `Sorting`: Python's stable `sort(key=…, reverse=…)`, plus the sequence algebra the
  proofs use.
- `Host`: the oracle.
- `Evidence`, `Isolation`, `Forensics`, `Reporting`: the four core files.
- `Dispatcher`: the GUI gate.

The source's loops are loops here (`while`/`for` with invariants), each proved against a
specification function. The GUI's in-place state is a class, `Dispatcher.MainWindow`.

## Model

| member | source | states |
|---|---|---|
| Evidence.CollectProcesses | core/evidence.py:29-49 | raises exactly when the listing program is missing; None exactly when it exits non-zero; otherwise `processes_<stamp>.txt` holds the header and the listing |
| Evidence.ProcessListVerbatim | core/evidence.py:40-43 | the artifact is the two header lines followed by the listing exactly as the command printed it |
| Evidence.CollectNetwork | core/evidence.py:51-81 | both listings must succeed, the second taken only after the first; raises when a program is missing; the artifact has both outputs with their headings |
| Evidence.NetworkSections | core/evidence.py:65-75 | the file contains `NETSTAT OUTPUT:` + first output and the platform's second heading + second output |
| Evidence.ProbeAllGathers | core/evidence.py:88-116 | the steps gather exactly when every command succeeds; then there is one section per command, in order, holding its output (stripped where the source strips) |
| Evidence.ProbeAllStops | core/evidence.py:88-132 | a failed run stops at the first command that did not succeed; the failure says whether that program was missing or exited non-zero |
| Evidence.SystemInfoSections | core/evidence.py:121-126 | every section appears as `KEY:` + value + the 40-dash rule |
| Evidence.CollectSystemInfo | core/evidence.py:83-132 | the dictionary filled step by step equals the specification of the whole step sequence |
| Evidence.SystemInfoAborts | core/evidence.py:83-132 | the file is written iff every command succeeds, with one section per command in order; otherwise the first failure decides between None and an escaping error |
| Evidence.FirstUsable | core/evidence.py:145-155 | the first candidate `check=True` accepts, with all earlier ones rejected; the list length when none is accepted |
| Evidence.LoginHistory | core/evidence.py:143-155 | the fallback loop keeps the run of the first usable candidate and stops there, or keeps nothing |
| Evidence.LoginRunIsLoginCommand | core/evidence.py:157-158 | the kept run, or the placeholder echo when none was kept, is the run of the login command |
| Evidence.CollectUsers | core/evidence.py:134-188 | dispatches on the platform to the Linux or Windows branch |
| Evidence.CollectLinuxUsers | core/evidence.py:137-161 | the Linux branch equals its specification `LinuxUsers` |
| Evidence.CollectWindowsUsers | core/evidence.py:162-167 | the Windows branch equals its specification `WindowsUsers` |
| Evidence.UsersSections | core/evidence.py:172-182 | the users file holds the three listings under their headings |
| Evidence.WindowsUsersAllChecked | core/evidence.py:162-167 | on Windows the users file is written iff `query user`, `net user` and `wevtutil` all succeed |
| Evidence.LinuxUsersOnlyPasswdChecked | core/evidence.py:139-161 | on Linux the file is written iff the chosen programs exist and `cat /etc/passwd` succeeds; a non-zero `who`/`w` or login listing does not stop it |
| Evidence.UsersFallbacks | core/evidence.py:139-158 | `w` replaces `who` iff `who` exits non-zero; the login listing is the first usable candidate in list order, before which all failed, or the placeholder echo iff none is usable |
| Evidence.LaunchIsNotPlaceholder | core/evidence.py:145-158 | no candidate is started as the placeholder echo |
| Evidence.OnlyPipelineUsesShell | core/evidence.py:145-151 | the first two candidates run as argument lists; `dmesg \| grep login` goes to the shell |
| Evidence.HashDir | core/evidence.py:226-236 | the corrected `files[:10]` loop appends exactly the entries of the readable regular files among the first ten |
| Evidence.NonFileOpenedAsWritten | core/evidence.py:226-228 | as written, the loop opens a listed name that is not a regular file (a FIFO); the corrected loop does not |
| Evidence.OpenedOnlyRegular | core/evidence.py:226-228 | the corrected loop opens a path iff it is a regular file among the first ten names |
| Evidence.DirHashesWithinOpened | core/evidence.py:226-236 | every hashed file of a walked directory is one the corrected loop opens |
| Evidence.HashTree | core/evidence.py:224-236 | the `os.walk` loop appends the entries of every walked directory in walk order |
| Evidence.HashPath | core/evidence.py:212-236 | one location: a file is hashed directly, a directory walked, anything else adds nothing |
| Evidence.HashFiles | core/evidence.py:190-252 | with the corrected loop, the report holds timestamp, platform and all entries in discovery order, and the result is `file_hashes_<stamp>.json` |
| Evidence.DirHashesBounded | core/evidence.py:226 | at most ten entries per directory, and no more than it has files |
| Evidence.DirHashesExactly | core/evidence.py:226-236 | a readable file among the first ten of a directory gets its entry |
| Evidence.DirHashesOnlyReadable | core/evidence.py:226-236 | every entry is that of a readable file among the first ten of its directory |
| Evidence.EntryFields | core/evidence.py:230-236 | an entry records its path, both digests of the content, size in bytes and modification time |
| Evidence.SingleFileHashedDirectly | core/evidence.py:213-223 | a location that is a file gives its own entry without a walk, only when readable; a missing location gives nothing |
| Evidence.OpNamed | core/evidence.py:16-21 | the table key a name selects, if any |
| Evidence.UsersUnreachable | core/evidence.py:15-27 | `users` is not a key, so `collect_users` cannot be reached |
| Evidence.SystemInfoResult | core/evidence.py:19 | the sysinfo entry's result is the path of its artifact, None, or its escaping error |
| Evidence.HashResult | core/evidence.py:20 | with the corrected loop, the hash entry's result is its JSON path |
| Evidence.OnlyCommandsRaise | core/evidence.py:29-252 | only a collector that runs a command can raise, and only for a missing program; hashing never raises |
| Evidence.RunOperation | core/evidence.py:15-27 | a known key yields its collector's outcome and logs no modelled line; any other name logs `Unknown evidence operation: <op>` and yields None |
| Isolation.EntryClassifies | core/isolation.py:62-69 | the transcript entry of a command that ran starts `SUCCESS: <cmd>` iff it succeeded and `FAILED: <cmd>` iff it did not |
| Isolation.TranscriptEntries | core/isolation.py:61-69 | one transcript entry per command, in command order |
| Isolation.RecordResults | core/isolation.py:61-90 | the loop fails iff some command's program is missing; otherwise it records the whole transcript, never stopping at a failed command |
| Isolation.PlanIsolation | core/isolation.py:33-59 | the `commands` list built by appends is the Linux or the Windows plan for the whitelist |
| Isolation.LinuxPlanAcceptsExactlyWhitelist | core/isolation.py:41-43 | an ACCEPT rule for an address is in the Linux plan iff the address is whitelisted |
| Isolation.WindowsRuleNamesDistinct | core/isolation.py:57-59 | the `IRIS_WHITELIST_i` rule names are pairwise distinct |
| Isolation.EmergencyIsolation | core/isolation.py:30-90 | the plan has length 5+n (Linux) or 2+n (Windows) in the planned order; None iff a program is missing; else the transcript file |
| Isolation.MergeWhitelist | core/isolation.py:97-105 | the merged whitelist has the configured addresses plus the four defaults |
| Isolation.MergeWhitelistKeepsAll | core/isolation.py:105 | configured addresses first in order, then the defaults; duplicates kept |
| Isolation.ManageWhitelist | core/isolation.py:92-124 | writes `whitelist_ips.json` holding the merged list; no command runs |
| Isolation.KilledLineRecorded | core/isolation.py:143-154 | every successfully killed `lsof` line yields its `Killed PID` record |
| Isolation.RecordFromKilledLine | core/isolation.py:143-154 | every record comes from some successfully killed line and carries its PID and the port |
| Isolation.KillLine | core/isolation.py:144-154 | one `lsof` line: fails iff `kill` is missing; adds a record iff the line had a PID and the kill succeeded |
| Isolation.KillLines | core/isolation.py:143-154 | the line loop fails iff some kill program is missing; otherwise records exactly the specified kills |
| Isolation.KillOnPort | core/isolation.py:139-156 | one port: fails iff `lsof` or a kill is missing; records the kills of its lines after the header |
| Isolation.KillPorts | core/isolation.py:135-156 | the port loop over the suspicious ports, in order |
| Isolation.KillConnections | core/isolation.py:126-182 | Linux: None iff the listing fails or a program is missing, else the listing and the kill records; Windows: the single not-implemented record |
| Isolation.DnsPlan | core/isolation.py:187-200 | five Linux or two Windows commands |
| Isolation.BlockDns | core/isolation.py:184-227 | None iff a program is missing; else the one-entry-per-command transcript |
| Isolation.IsolationStatus | core/isolation.py:229-278 | `isolation_active` iff the listing succeeded and contains `DROP`/`Block`; a failed listing becomes its one-line placeholder; None iff a program is missing |
| Isolation.ListingRoundTrip | core/isolation.py:244 | the listing's lines join back to its output and contain no line break |
| Isolation.OpNamed | core/isolation.py:16-22 | the table key a name selects, if any |
| Isolation.PlanMissingExactly | core/isolation.py:33-69 | a plan fails on a missing program iff a lockdown rule, a whitelisted address's rule or a DNS rule names one |
| Isolation.EmergencyResult | core/isolation.py:17 | the emergency entry's result is None iff a plan program is missing, else the emergency file's path |
| Isolation.KillResult | core/isolation.py:19 | the kill entry's result is None iff the listing fails or (Linux) `lsof` or `kill` is missing, else the kill file's path |
| Isolation.DnsResult | core/isolation.py:20 | None iff a DNS command's program is missing, else the DNS file's path |
| Isolation.StatusResult | core/isolation.py:21 | None iff a listing program is missing, else the status file's path |
| Isolation.RunOperation | core/isolation.py:15-28 | the five keys yield their handler's result and log no modelled line; any other name logs `Unknown isolation operation: <op>` and yields None |
| Forensics.MaxLogSize | core/forensics.py:14 | the configured megabytes times 1024·1024, 100 MiB by default |
| Forensics.MemorySectionsPlaceholders | core/forensics.py:40-59 | three sections in the order meminfo, top_memory_processes, vmstat; each holds its source or, when that fails, its placeholder |
| Forensics.ReadMemorySources | core/forensics.py:38-59 | the three reads give the specified sections |
| Forensics.CaptureMemory | core/forensics.py:31-97 | Linux: the snapshot lists the sections; Windows: the task list or its placeholder; always `memory_snapshot_<stamp>.txt` |
| Forensics.LogQueries | core/forensics.py:116-138 | one journal query on Linux, three event-log queries on Windows |
| Forensics.RunQueries | core/forensics.py:117-138 | None iff a query program is missing; else the files of the queries that succeeded |
| Forensics.BaseName | core/forensics.py:152-157 | the name is the part after the last `/`: a suffix of the path with no separator, preceded by `/` unless it is the whole path |
| Forensics.Tail | core/forensics.py:146-150 | a non-positive limit keeps nothing; otherwise exactly the last `max` bytes, which complete the source |
| Forensics.CopyLogs | core/forensics.py:141-163 | the copy loop gives the specified copies and the `collected_logs` list |
| Forensics.LogCollected | core/forensics.py:142-159 | a source is collected iff it is listed and a readable file; its entry starts with its path and carries the truncation suffix iff it was truncated |
| Forensics.LogCopyContent | core/forensics.py:146-159 | an oversized log's copy is its last `max` bytes; any other is copied whole under its own name |
| Forensics.LogSummaryLists | core/forensics.py:173-175 | the summary lists every collected entry as a bullet line |
| Forensics.CollectLogs | core/forensics.py:99-182 | None iff a query program is missing; else the query files, the copies and the summary of exactly the collected entries |
| Forensics.DirCopiesExactly | core/forensics.py:214-225 | a readable target file of a walked directory is copied to `browser_dir/<browser>/<relative path>` |
| Forensics.DirCopiesOnlyTargets | core/forensics.py:215-225 | every copy is of a listed file whose name mentions a target |
| Forensics.ProfileIsPrefix | core/forensics.py:214-232 | the capped walk copies a prefix of the uncapped one, and all of it when the cap is never passed |
| Forensics.ProfileBound | core/forensics.py:231-232 | the cap is checked per directory, so the total exceeds 50 by at most one directory's copies |
| Forensics.CopyDir | core/forensics.py:215-228 | one directory's loop appends its copies |
| Forensics.WalkProfile | core/forensics.py:214-232 | the walk loop with its break gives the specified capped copies |
| Forensics.VisitProfile | core/forensics.py:207-232 | a browser whose profile is absent adds nothing |
| Forensics.CollectBrowserArtifacts | core/forensics.py:184-250 | the copies of all profiles in order with the count carried over, and the summary listing them |
| Forensics.RecordListed | core/forensics.py:275-286 | the `find` output loop records, with its `stat`, every non-empty listed line naming an existing path, whatever kind of node it is |
| Forensics.GatherLinux | core/forensics.py:268-288 | None iff `find` is missing for an existing path; else every path's records in order |
| Forensics.SearchPath | core/forensics.py:269-288 | one path: a non-zero `find` contributes nothing |
| Forensics.ScanIsPrefix | core/forensics.py:302-319 | the capped scan is a prefix of the uncapped one, and exceeds the cap by at most one |
| Forensics.ScanWindowsPath | core/forensics.py:300-321 | one path's `rglob` loop with its break |
| Forensics.GatherWindows | core/forensics.py:299-321 | all Windows paths in order, the count carrying over |
| Forensics.RankedKeepsNewest | core/forensics.py:324-325 | at most 50 records, sorted newest first, all of them found; a dropped record is no newer than any kept |
| Forensics.CollectRecentFiles | core/forensics.py:252-347 | the file lists the ranking of everything found; Linux fails iff `find` is missing |
| Forensics.TryTools | core/forensics.py:364-372 | the first tool that succeeds, all earlier ones having failed; none iff all fail |
| Forensics.TakeScreenshot | core/forensics.py:349-418 | Linux always gives a path: the `.png` iff some tool succeeded, else the `.txt` placeholder; Windows fails iff PowerShell is missing, else the `.png` or the placeholder |
| Forensics.OpNamed | core/forensics.py:17-23 | the table key a name selects, if any |
| Forensics.MemoryResult | core/forensics.py:18 | the memory entry gives the snapshot path |
| Forensics.LogsResult | core/forensics.py:19 | the logs entry gives None iff a query program is missing, else the logs directory |
| Forensics.BrowserResult | core/forensics.py:20 | the browser entry gives the artifacts directory |
| Forensics.FilesResult | core/forensics.py:21 | the files entry gives the recent-files path; None only on Linux, iff `find` is missing for an existing path |
| Forensics.ScreenshotResult | core/forensics.py:22 | the screenshot entry always gives a path on Linux; on Windows None iff PowerShell is missing |
| Forensics.RunOperation | core/forensics.py:16-29 | the five keys yield their handler's result and log no modelled line; any other name logs `Unknown forensics operation: <op>` and yields None |
| Reporting.FirstMatch | core/reporting.py:399-418 | the position of the first keyword in the name, all earlier keywords absent |
| Reporting.FileTypeIsTableLookup | core/reporting.py:395-424 | the `elif` chain is the first-match lookup in the keyword table, then the suffix tests |
| Reporting.FileTypeFirstMatch | core/reporting.py:397-418 | kind `i` is returned iff keyword `i` is in the lower-cased name and no earlier keyword is |
| Reporting.TableFirstMatch | core/reporting.py:399-418 | the same, for an already lower-cased name |
| Reporting.KindsDistinct | core/reporting.py:399-418 | different keywords give different kinds |
| Reporting.FileTypeFallback | core/reporting.py:419-424 | a name with no keyword gets a suffix kind, and only such a name does: `.json` structured data, `.html` report, else other |
| Reporting.TableFallback | core/reporting.py:419-424 | the same, for an already lower-cased name |
| Reporting.EntryDescribes | core/reporting.py:46-58 | an entry holds its file's name, path, size, times and kind, and both digests, or `error` for both when the file cannot be read |
| Reporting.CollectedSnoc | core/reporting.py:43-60 | one more listed path adds its entry iff it is inventoried |
| Reporting.GenerateInventory | core/reporting.py:30-83 | entries are a permutation of the collected ones, sorted newest-created first by a stable sort, so entries with the same `created` keep their listing order; totals are the count and the size sum; an empty directory gives zeros |
| Reporting.CollectInventory | core/reporting.py:43-66 | the `rglob` loop collects the specified entries and their size sum |
| Reporting.AddEntry | core/reporting.py:44-61 | an inventoried path adds its entry and its size; any other adds nothing |
| Reporting.CollectedPathCount | core/reporting.py:43-60 | with distinct paths, each path occurs once if inventoried and not at all otherwise |
| Reporting.ListedSnoc | core/reporting.py:43-44 | a path is listed in the whole iff in all but the last or in the last, never both |
| Reporting.InventoryExactlyOnce | core/reporting.py:43-69 | each inventoried file appears exactly once in the sorted inventory, others never |
| Reporting.InventoryOnlyListed | core/reporting.py:43-69 | every inventory entry describes an inventoried file |
| Reporting.EarlierInventoriesIncluded | core/reporting.py:44-72 | an earlier `evidence_inventory_*` output passes the filter |
| Reporting.ParseLogEvents | core/reporting.py:365-393 | appends the process events, then the isolation events |
| Reporting.EventSizes | core/reporting.py:95-101 | an event has a `file_size` iff it is an `evidence_collected` event |
| Reporting.GenerateTimeline | core/reporting.py:85-143 | a permutation of base, process and isolation events, sorted by timestamp by a stable sort, so events with equal timestamps keep their gathered order (a file's base event before its process or isolation event); the count is the sum of the three glob counts; only base events carry sizes |
| Reporting.GatherEvents | core/reporting.py:92-105 | the base events followed by what the log parser adds |
| Reporting.SortedEventSizes | core/reporting.py:108-113 | any ordering has the three counts' sum as length and sizes only on base events |
| Reporting.BumpCounts | core/reporting.py:167 | a bump adds one to its kind only and to the total, keeps kinds distinct, adds its kind |
| Reporting.BumpCountOf | core/reporting.py:167 | a bump adds one to the count of its kind and leaves the others |
| Reporting.BumpTotal | core/reporting.py:171 | a bump adds one to the total |
| Reporting.BumpKinds | core/reporting.py:167 | a bump's kinds are the old ones plus its kind |
| Reporting.BumpDistinct | core/reporting.py:167 | a bump never creates two items of one kind |
| Reporting.Recommendations | core/reporting.py:188-199 | each recommendation appears iff its rule fires (process, network, log counts > 0; no isolation file), in the fixed order |
| Reporting.TallySnoc | core/reporting.py:164-167 | one more entry adds one to its kind iff it is a top-level file |
| Reporting.CountStep | core/reporting.py:164-168 | one step of the counting loop keeps counts, total and size equal to their specifications |
| Reporting.CountKinds | core/reporting.py:161-168 | the items are the dict the loop builds: kinds in the order of their first top-level file, each with a positive count equal to its tally, no kind twice; total = number of top-level files, size = their size sum |
| Reporting.BumpOrder | core/reporting.py:167 | a bump keeps the kinds' order when the kind is present and appends it otherwise, as a dict inserts a new key; counts stay positive |
| Reporting.TalliesOrder | core/reporting.py:164-167 | the counts list each kind of a top-level file once, in first-occurrence order, never with a zero count |
| Reporting.GenerateSummary | core/reporting.py:145-241 | counts and totals as above, the "File types collected" lines in first-occurrence order with no zero line, the system state from the two globs, the recommendations for these counts |
| Reporting.ReplaceOneChar | core/reporting.py:339 | replacing a one-character pattern is replacing that character position by position |
| Reporting.SubRemoves | core/reporting.py:339 | replacing a character by text without it removes it; other absent characters stay absent |
| Reporting.SubFreePrefix | core/reporting.py:339 | a prefix without `&` of a replaced text was a prefix of the original |
| Reporting.SubHeadPrefix | core/reporting.py:339 | a pattern with its only `&` at its head, found at the head of a replaced text, was at the head of the original |
| Reporting.ContainsSkip | core/reporting.py:339 | an occurrence of an `&`-pattern lies beyond a prefix without `&` |
| Reporting.SubInverse | core/reporting.py:339 | replacing the chunk by its character undoes the replacement, when the chunk did not occur before |
| Reporting.AmpSubExcludes | core/reporting.py:339 | after `&`→`&amp;`, no `&` is followed by anything but `a` |
| Reporting.SubExcludes | core/reporting.py:339 | a later replacement creates no occurrence of an `&`-chunk absent before |
| Reporting.EscapeHasNoAngles | core/reporting.py:339 | the escaped content holds no `<` and no `>` |
| Reporting.EscapeRoundTrip | core/reporting.py:339 | reversing the three replacements in the opposite order restores the content |
| Reporting.GlobName | core/reporting.py:259 | globs and `sorted` see the lower-case form of the name on Windows and the name itself on every other platform (Linux, macOS) |
| Reporting.ReportedFilesInOrder | core/reporting.py:259-262 | the text report lists exactly the top-level `.txt` files (suffix matched case-insensitively on Windows) except its own name, in name order, case-insensitive on Windows |
| Reporting.NameOrderByPlatform | core/reporting.py:259 | `incident_summary_1.txt` sorts before `IRIS_incident_report_0.txt` on Windows and after it on Linux and macOS |
| Reporting.CaseSensitiveOrder | core/reporting.py:259 | on any platform that keeps case, `IRIS_incident_report_0.txt` sorts before `incident_summary_1.txt` |
| Reporting.ExportTextReport | core/reporting.py:243-288 | the report is its body and then `Final report hash: ` + the SHA-256 of the body |
| Reporting.LineStartAt | core/reporting.py:280-281 | the last line starts right after the last line break |
| Reporting.FinalLineVerifies | core/reporting.py:279-281 | the final line of body + hash line carries the SHA-256 of everything before it |
| Reporting.TextReportVerifies | core/reporting.py:249-281 | the exported text report passes that check |
| Reporting.FilterKeepsAll | core/reporting.py:329 | a filter every element passes keeps them all |
| Reporting.TxtIsNotHtml | core/reporting.py:326-329 | a `.txt` name never ends in `.html`, so the HTML loop skips nothing |
| Reporting.SectionsEscaped | core/reporting.py:335-340 | every section's content is escaped: no `<` or `>` |
| Reporting.ExportHtmlReport | core/reporting.py:290-363 | one section per `.txt` file in name order (case-insensitive on Windows), escaped, with the header fields |
| Reporting.OpNamed | core/reporting.py:16-22 | the table key a name selects, if any |
| Reporting.InventoryResult | core/reporting.py:17 | the inventory entry gives its JSON path |
| Reporting.TimelineResult | core/reporting.py:18 | the timeline entry gives its text path |
| Reporting.SummaryResult | core/reporting.py:19 | the summary entry gives its text path |
| Reporting.ExportTextResult | core/reporting.py:20 | the text export gives its report path |
| Reporting.ExportHtmlResult | core/reporting.py:21 | the HTML export gives its report path |
| Reporting.RunOperation | core/reporting.py:15-28 | the five keys yield their generator's path and log no modelled line; any other name logs `Unknown reporting operation: <op>` and yields None |
| Sorting.SortOn | core/reporting.py:69 | the sort's result is a permutation of its input |
| Sorting.SortOnSorted | core/reporting.py:69 | the sort's result is ordered by the key, in either direction |
| Sorting.InsertSorted | core/reporting.py:108 | inserting into an ordered list keeps it ordered |
| Sorting.InsertStable | core/reporting.py:108 | insertion puts the element in front of those of its own key and keeps every key's order |
| Sorting.SortOnStable | core/reporting.py:108 | the sort is stable: the elements of each key keep their input order |
| Sorting.Take | core/forensics.py:325 | `[:50]` keeps a prefix of length at most 50 |
| Text.Fields | core/isolation.py:146 | `split()` yields non-empty fields |
| Text.FieldsUnbroken | core/isolation.py:146 | no field `split()` yields holds a white-space character |
| Text.Lower | core/reporting.py:397 | `lower()` maps every character, keeping the length |
| Text.Upper | core/evidence.py:125 | `upper()` maps every character, keeping the length |
| Text.SplitJoin | core/isolation.py:244 | `split('\n')` pieces hold no separator and join back to the string |
| Text.DecimalRoundTrip | core/forensics.py:155 | `str(n)` of a natural number reads back as `n` |
| Dispatcher.CategoryNamed | gui/main_window.py:283-296 | the category a name selects, if any |
| Dispatcher.OperationId | gui/main_window.py:268 | `category_operation` is never empty, so it is always truthy; it splits back into its parts |
| Dispatcher.StatusLabels | gui/main_window.py:260-261 | the label `run_operation` sets reads as running; READY and ERROR do not |
| Dispatcher.Route | gui/main_window.py:276-296 | each category runs its module's operation; only evidence can raise; an unknown category gives `Unknown category: <c>` |
| Dispatcher.MainWindow.constructor | gui/main_window.py:225-237 | idle, `STATUS: READY`, the three greeting lines |
| Dispatcher.MainWindow.RunOperation | gui/main_window.py:263-274 | busy: nothing changes and no worker starts; idle: the id is set, the status is RUNNING, the start line logged, the worker started; either way the label shows RUNNING, and it does exactly while an operation is in progress |
| Dispatcher.MainWindow.ExecuteOperation | gui/main_window.py:276-305 | the marker is cleared on every path and the label no longer shows RUNNING; the outcome and logged lines are those `Route` states for the category (so a missing evidence program ends in ERROR, an unknown report name logs its line before `completed`); a return logs `completed` and sets READY even for None; a raise logs `ERROR: <reason>` and sets ERROR |
| Dispatcher.PressAndFinish | gui/main_window.py:263-305 | after a finished operation the console accepts the next one |

## Left out

- Subprocess execution, firewall/kill effects and file reads, copies and writes: they are
  the oracle `Host.Env`. Artifacts are returned as values, not written.
- MD5 and SHA-256 internals: uninterpreted functions in `Host.Hasher`.
- Progress and success lines sent to `log_callback` are not modelled. Only the `Unknown …
  operation` lines and the GUI's own lines are.
- The clock prefix of GUI log lines, the `messagebox` warning, threading and the daemon
  worker: the gate is a sequential state machine. `MainWindow.RunOperation` returns
  whether the worker would start.
- `Reporting.TextFooter`: the inline `Report hash:` line hashes a file still open for
  buffered writing. Its value depends on flushing, so it is the unconstrained
  `Env.bufferedDigest`.
- Write failures (`IOFailure`) and `mkdir` in the constructors are not modelled: writes
  always succeed.
- `rglob` and `os.walk` errors are not modelled: the listings are oracles.
- Timestamps are strings in ISO form, ordered lexicographically, as the source sorts them.
  Date arithmetic beyond `clock - mtime < 86400` is not modelled.
- The inline HTML/CSS template and the PowerShell screenshot script are not modelled.
  They are abbreviated to `HtmlSection` records and the opaque `PowerShellShot` command.
- Paths are joined with `/` on every platform; Windows separators are not modelled.
- `Text.Lower`, `Text.Upper` and `Text.Strip` handle ASCII only; Unicode case folding
  and Unicode whitespace are not modelled.
- JSON serialisation is not modelled: the JSON documents are datatypes.
- The text of a `CalledProcessError` (`FAILED: <cmd> - <error>`) is approximated by
  `Host.ErrorText`. Signal names of negative exit codes are not reproduced.
- `Forensics.RecordListed`: a path listed by `find` that no longer exists is skipped. A
  `stat` failure on an existing path is not modelled.
- Dispatcher.Route: for isolation and forensics it states that the result is returned, never raised, and how unknown names are logged. What each of their operations returns is stated by `Isolation.RunOperation` and `Forensics.RunOperation`, which it calls.
- Operation names are parsed into datatypes (`OpNamed`). The result is equivalent to the
  source's dictionary lookup.
- `Evidence.CollectSystemInfo` takes the platform's fixed steps one after another, as
  the source does. There is no loop: the steps are a list only in the model.
- Recommendations are the `Reporting.Advice` datatype, rendered by `AdviceText`.
- The collectors in `core/evidence.py` catch only `CalledProcessError`. A missing
  program therefore raises through `run_operation` to the GUI, which logs `ERROR:`.
  It is not turned into a None result at the operation boundary.
- The log-collection summary lists only the collected sources, not the missing ones.
- Evidence.HashDir, Evidence.HashFiles, Evidence.HashResult: they model the corrected
  directory loop, which opens only regular files. As written, the source opens every
  listed name, and a FIFO with no writer blocks the operation for good, leaving the
  console busy (see Findings).
- Reporting.ExportTextReport: the final hash is taken over the report text itself. On
  Windows the bytes on disk carry `\r\n` line ends and the platform encoding; that
  translation of writes is not modelled. Reads are modelled by the two reads of each
  `Host.StoreEntry`.

## Findings

| source | as written | input that shows it | evidently intended | confidence | as-written member | corrected member |
|---|---|---|---|---|---|---|
| core/evidence.py:226-228 | every name among a walked directory's first ten is opened with `open(path, 'rb')` | a FIFO made with `mkfifo /tmp/pipe` and no writer: the open blocks, `hash_files` never returns and the console stays busy | open only regular files, testing `os.path.isfile` as line 214 does for the locations themselves | not executed | Evidence.NonFileOpenedAsWritten | Evidence.OpenedOnlyRegular |
