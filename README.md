# Cloudflare speed-test runner, modelled in Dafny

`auto_speedtest.py` runs the CloudflareSpeedTest tool once inside a container. It does the following, in order:

- **Provision the tool.** It identifies the platform and works out the release-archive name. If the executable is not already present, it downloads the archive through a list of GitHub mirrors (each download retried with several strategies per round) and unpacks it.
- **Read the parameters.** It builds the speed-test parameters from the environment and the built-in defaults.
- **Refresh the address list.** It refreshes the Cloudflare address list.
- **Run the tests.** It runs either:
  - one speed test; or
  - when `cfcolo` is set, a region scan followed by a retest restricted to the addresses in the wanted locations.
- **Publish.** It turns the result table into the `ip:port#region` proxy list.
- **Exit.** The exit code tells the supervisor what happened:
  - 0: success;
  - 1: fatal, restart the container;
  - 2: non-fatal, wait for the next scheduled run.

The model treats the world as values:

- **Working directory.** A `Dir` maps file names to sizes. It is passed into every operation and returned from it.
- **Environment.** An `Env` map.
- **Everything the script cannot see into** is an oracle function:
  - the network and the helper download programs (`Fetch.Transport`, one answer per address, round and strategy);
  - the archive tools (`Archive.Unpack`);
  - the speed-test binary (`Command.Binary`);
  - the CSV reader (`Files.CsvReader`), which gives the rows or reports that reading raised; `open` and `csv.DictReader` raise only `OSError`, decoding errors and `csv.Error`, so a failed read is never one of the network kinds;
  - `uname` (`Platform.Uname`).

A loop of the source that builds a list or changes the directory becomes a `method` with its invariants. The method is proved equal to a specification function, and the properties are lemmas about that function. There are two exceptions:

- The clone-address loop of `upload_to_github` is the recursive function `Mirrors.MirrorCloneUrls`, since it only computes a list.
- `Command.ValueArgs`, `Command.FlagArgs` and `Command.RunSpeedTest` are stated directly. Element-wise `ensures` clauses and the `CommandFor` predicate describe the command line, since the switch order is not fixed (see "Left out").

Modules, following the script's structure:

| module | covers |
|---|---|
| `Wrappers`, `Files`, `Text`, `Seqs` | vocabulary |
| `Platform` | the platform and the archive name |
| `Mirrors` | the mirror list and the clone addresses |
| `Fetch` | `download_file` and the candidate loop |
| `Archive` | `extract_archive` |
| `Provision` | `ensure_speedtest_binary` and `download_cloudflare_ips` |
| `Params` | `build_params` |
| `Command` | `run_speed_test` |
| `Region` | the region filter |
| `ProxyList` | `generate_proxy_list` |
| `Workflow` | `auto_run_test` |

## Model

| member | source | states |
|---|---|---|
| Platform.OsFamily | auto_speedtest.py:133-141 | a supported `sys.platform` maps to one of `linux`, `win`, `mac` |
| Platform.GetSystemInfo | auto_speedtest.py:131-173 | raises only for an unsupported platform or a `uname` that cannot start; the OS is the family of `sys.platform`; Windows uses the pointer width; macOS is `arm64` exactly when `uname -m` prints `arm64`, and `amd64` for any other answer; a `uname` that exits with an error falls back to the pointer width on Linux and macOS |
| Platform.KernelAnswerWins | auto_speedtest.py:145-168 | when `uname -m` answers, the interpreter's pointer width does not affect the architecture |
| Platform.LinuxMachineNames | auto_speedtest.py:151-157 | `aarch64` becomes `arm64`, `x86_64` becomes `amd64`, and any other machine name is kept as printed |
| Platform.ArchiveFormat | auto_speedtest.py:201-206 | the archive is a `.zip` exactly on Windows and macOS, and a `.tar.gz` otherwise |
| Platform.ExecNameIsStem | auto_speedtest.py:355-358 | for a dot-free architecture, the executable name is the archive name without its extension, plus `.exe` on win32 |
| Platform.FixedArchesHaveNoDot | auto_speedtest.py:143-173 | every architecture the mapping fixes is dot-free, so the executable-name rule applies to it |
| Mirrors.AcceleratorUrls | auto_speedtest.py:176-198 | the loop builds the candidate list `CandidateUrls` (the operator mirror with a `/` ensured, the built-in mirrors, de-duplicated, then the original address) |
| Mirrors.CandidateUrlsShape | auto_speedtest.py:186-197 | the original address is last, and every earlier candidate is a listed mirror prefix ending in `/` followed by the original address |
| Mirrors.CandidateUrlsDistinct | auto_speedtest.py:188-195 | no candidate address repeats |
| Mirrors.CustomProxyFirst | auto_speedtest.py:180-184 | a configured operator mirror is tried first, with its trailing `/` |
| Mirrors.CandidateUrlsCount | auto_speedtest.py:29-34 | there are 5 candidates, or 6 when the operator mirror is not one of the four built-in mirrors |
| Mirrors.CloneUrlsShape | auto_speedtest.py:462-492 | one clone address per listed mirror, in order and not de-duplicated, then the direct GitHub address |
| Mirrors.CloneUrlsCarryToken | auto_speedtest.py:476-488 | with a token, every clone address carries it in the user-info part |
| Mirrors.CloneUrlsKeepDuplicates | auto_speedtest.py:462-475 | an operator mirror equal to a built-in one is tried twice |
| Fetch.StepFacts | auto_speedtest.py:214-295 | a strategy wins only if it completed and left the file non-empty; a win always counts; only the file changes; an empty file is removed at once after `requests`, and kept after any other strategy |
| Fetch.PlanStrategies | auto_speedtest.py:212-292 | each round tries `requests`, `curl` and `wget`, then PowerShell exactly on win32, then `urllib`, then the HTTP downgrade last and exactly for `https://` addresses |
| Fetch.DowngradeIsPlainHttp | auto_speedtest.py:280-281 | the downgrade fetches an `http://` address |
| Fetch.DownloadRound | auto_speedtest.py:212-295 | the six strategy blocks of one round run the plan until one wins |
| Fetch.PortableTries | auto_speedtest.py:212-252 | the `requests`, `curl` and `wget` blocks follow the plan |
| Fetch.LaterTries | auto_speedtest.py:255-295 | the PowerShell block, on win32 only, and then the rest of the round follow the plan |
| Fetch.FinalTries | auto_speedtest.py:269-295 | the `urllib` block and, for an `https://` address, the downgrade follow the plan |
| Fetch.DownloadFile | auto_speedtest.py:209-304 | the retry loop computes `DownloadSpec`: up to `retries` rounds, removing the file after a lost round and pausing between rounds |
| Fetch.RunPlanFacts | auto_speedtest.py:212-295 | a round stops at its first win and otherwise runs every strategy; only the file changes |
| Fetch.RunRoundsFacts | auto_speedtest.py:211-304 | the rounds stop at the first win; a download that never wins runs every round in full and leaves no file |
| Fetch.ScheduleShape | auto_speedtest.py:211-302 | the full schedule has one pause fewer than rounds, ends with a try, and every try fetches its strategy's address in its round |
| Fetch.DownloadOutcome | auto_speedtest.py:209-304 | `True` comes right after a completed try and leaves the file non-empty; `False` comes after every round and leaves no file; nothing else changes |
| Fetch.DownloadServed | auto_speedtest.py:209-304 | a try that by itself guarantees success, in any round, makes the download succeed |
| Fetch.DownloadFromAny | auto_speedtest.py:371-374 | the candidate loop tries each address with the full retry loop until one succeeds |
| Fetch.FetchFirstFacts | auto_speedtest.py:371-378 | success leaves a non-empty file; failure means every candidate ran its whole schedule and no file is left |
| Fetch.FetchFirstServed | auto_speedtest.py:371-374 | a candidate with a try that guarantees success makes the loop succeed |
| Archive.WithMembers | auto_speedtest.py:312-327 | unpacking writes every member and keeps every existing file; other files are untouched |
| Archive.ExtractArchive | auto_speedtest.py:307-350 | an unsupported suffix or a missing archive gives no executable and no change; unpacking never removes a file; a chosen name has no `/` |
| Archive.SelectExecFirst | auto_speedtest.py:332-340 | the choice is the last path segment of the first member that is a candidate, and there is none exactly when no member is a candidate |
| Archive.NonWindowsCandidates | auto_speedtest.py:333-334 | away from Windows, every member outside `__MACOSX` is a candidate |
| Archive.FirstMemberChosen | auto_speedtest.py:334-340 | a Linux archive whose first member is a top-level binary yields that binary |
| Archive.ExtractArchiveChoice | auto_speedtest.py:307-350 | a name is returned only after a successful unpack on an identified platform, and it is the first candidate's last segment; `None` comes exactly when no member qualifies; a failed unpack gives `None` but leaves the members written before the failure in place |
| Provision.EnsureBinary | auto_speedtest.py:353-387 | the imperative function computes `EnsureSpec` |
| Provision.ProvideTool | auto_speedtest.py:360-387 | the existence checks: executable, then archive, then download, then unpack |
| Provision.DownloadTool | auto_speedtest.py:364-378 | the archive is fetched over every candidate address |
| Provision.FinishTool | auto_speedtest.py:382-387 | unpacking, then the existence check on the name returned |
| Provision.EnsureErrors | auto_speedtest.py:353-356 | the only exception is the platform's, and it is fatal |
| Provision.ProvideSteps | auto_speedtest.py:360-387 | a present executable is returned with nothing downloaded; a present archive is unpacked with nothing downloaded; a failed download returns nothing and changes nothing; a returned name exists |
| Provision.SecondRunDownloadsNothing | auto_speedtest.py:353-387 | after a run that produced the executable, a second run downloads nothing |
| Provision.PartialUnpackReused | auto_speedtest.py:315-322 | when an unpack fails after writing the executable, that run returns nothing, but the next run finds the file at the `isfile` check (lines 361-363) and returns it without downloading or unpacking |
| Provision.ConfiguredRelease | auto_speedtest.py:23 | with `TOOL_TYPE = "proxy"` the archive name starts with `CloudflareST_proxy_`, and the last address tried is the byJoey v1.0 release page (lines 52-55, 366) |
| Provision.ToolCandidatesNonEmpty | auto_speedtest.py:365-367 | the release download always has at least the original address |
| Provision.DownloadCloudflareIps | auto_speedtest.py:390-409 | the function computes `IpListSpec` |
| Provision.IpListOutcome | auto_speedtest.py:390-409 | an unknown version fails at once; success leaves a non-empty list; failure leaves no list, even one that was there before; only the list file changes |
| Params.ResolveEach | auto_speedtest.py:597-600 | the value loop computes `ResolveAll` |
| Params.CollectFlags | auto_speedtest.py:601-608 | the switch loop collects exactly the names that `FlagOn` turns on |
| Params.BuildParams | auto_speedtest.py:595-609 | `build_params` computes the resolved values and switches |
| Params.ValuesWellFormed | auto_speedtest.py:597-600 | every key is a known value parameter, appears once, and carries a stripped non-empty value |
| Params.ValueResolution | auto_speedtest.py:597-600 | the environment's value wins when it is not blank; a missing or empty one falls back to the built-in value; a whitespace-only one gives no value even where a built-in exists |
| Params.FlagResolution | auto_speedtest.py:601-608 | a switch is on exactly when the environment says `true`, `1` or `yes`, since every built-in switch is off |
| Params.PutLookup | auto_speedtest.py:600 | after `vs[k] = v`, `k` maps to `v` and every other key is unchanged |
| Params.PopLookup | auto_speedtest.py:670 | after `pop(k)`, `k` is absent and every other key is unchanged |
| Command.FlagArgs | auto_speedtest.py:557-558 | one `-p` per switch, each distinct, and every argument comes from a switch |
| Command.ValueArgs | auto_speedtest.py:554-555 | `-k v` for every value parameter, in dictionary order |
| Command.RunSpeedTest | auto_speedtest.py:551-579 | the command line is the executable, the value pairs and the switches; the result is true exactly when the binary started and exited with 0 |
| Region.Translate | auto_speedtest.py:648 | full-width commas become ASCII commas and nothing else changes |
| Region.WantedShape | auto_speedtest.py:646-650 | every wanted code is non-blank, trimmed, upper-case and free of both kinds of comma |
| Region.RegionIps | auto_speedtest.py:651-657 | the row loop computes `RegionIpsSpec` |
| Region.RegionIpsAppend | auto_speedtest.py:652-657 | rows are handled one by one: row order is kept and duplicates stay |
| Region.RegionIpsContents | auto_speedtest.py:652-657 | every extracted address has no `:` and is the part before the first `:` of some row that has a non-blank address and is in a wanted location; conversely, every such row's part before the `:` is extracted |
| Region.RegionIpsOrder | auto_speedtest.py:652-657 | the extracted addresses are the hosts of the qualifying rows, one per row, in row order: entry `k` comes from row `idx[k]`, the indices increase, and every qualifying row has an entry |
| Region.RegionIpsEmpty | auto_speedtest.py:652-662 | nothing is extracted exactly when no row with an address is in a wanted location |
| Region.HongKongExample | auto_speedtest.py:645-657 | with `cfcolo=hkg`, a Hong Kong row and a Los Angeles row yield only the Hong Kong host, without its port |
| ProxyList.GenerateProxyList | auto_speedtest.py:412-450 | the function computes `GenerateSpec` |
| ProxyList.CollectLines | auto_speedtest.py:427-439 | the row loop computes `ProxyLines` |
| ProxyList.EntryShape | auto_speedtest.py:427-439 | every line has a non-blank host without `:`, an all-digit port and the row's region, and parses back into those parts |
| ProxyList.ParseFormat | auto_speedtest.py:438-439 | `ip:port#region` reads back as its three parts |
| ProxyList.EntryPresent | auto_speedtest.py:432-438 | a row gives a line exactly when its address, up to any `:`, is not blank |
| ProxyList.PortSource | auto_speedtest.py:429-436 | where the port comes from: a digit cell is used as is; a missing cell gives 443 even when the address has a port; the address's port is used only when the cell is blank after stripping |
| ProxyList.RegionFallback | auto_speedtest.py:430 | the region falls back to the location code, then to `未知` |
| ProxyList.DistinctLines | auto_speedtest.py:441 | the de-duplicated lines have no repeats, each is some row's line, and each row's line is among them |
| ProxyList.GenerateOutcome | auto_speedtest.py:412-450 | succeeds exactly when the table exists, reads and has rows; on success only `cfst_ips.txt` changes, otherwise nothing changes |
| ProxyList.GenerateLines | auto_speedtest.py:421-443 | the list written is the de-duplicated lines of the table |
| Workflow.Classify | auto_speedtest.py:735-741 | network, timeout and connection errors exit with 2; every other exception exits with 1 |
| Workflow.AutoRunTest | auto_speedtest.py:583-741 | the whole run computes `AutoRunSpec` |
| Workflow.RunTests | auto_speedtest.py:611-733 | after the binary is in place, the run computes `TestSpec` |
| Workflow.SinglePass | auto_speedtest.py:705-733 | the single pass computes `SinglePassSpec` |
| Workflow.TwoPhase | auto_speedtest.py:626-665 | the scan and the region filter compute `TwoPhaseSpec` |
| Workflow.Retest | auto_speedtest.py:667-703 | the retest and the clean-up compute `RetestSpec` |
| Workflow.ScanParameters | auto_speedtest.py:626-634 | the scan reads the address file, writes `region_scan.csv`, waits up to 9999 ms, probes port 80 at the trace address, and its result table is `region_scan.csv` |
| Workflow.RetestParameters | auto_speedtest.py:669-671 | the retest drops `cfcolo`, reads the region file, and keeps every other parameter as built |
| Workflow.RegionFileNames | auto_speedtest.py:645 | the region file is neither the scan table nor the proxy list |
| Workflow.CleanupRemovesBoth | auto_speedtest.py:684-685 | with both scratch files present, the clean-up removes both and nothing else |
| Workflow.SinglePassOutcome | auto_speedtest.py:705-733 | exit 0 exactly when the test succeeded, whether or not a proxy list could be made; a failed test leaves the files as the binary left them |
| Workflow.RetestCleanup | auto_speedtest.py:664-685 | the clean-up after the retest cannot fail as long as the binary removes no file, which the `Binary` oracle cannot do |
| Workflow.RetestCode | auto_speedtest.py:677-703 | exit 0 exactly when the retest succeeded, 2 otherwise |
| Workflow.RetestFiles | auto_speedtest.py:677-689 | after the retest both scratch files are gone, and besides them only the proxy list may have changed |
| Workflow.TwoPhaseOutcome | auto_speedtest.py:640-703 | failed scan gives 2; unreadable scan table raises a non-network exception and gives 1; no wanted address gives 2 with `region_scan.csv` removed; otherwise the retest runs and both scratch files are gone |
| Workflow.CfcoloChoice | auto_speedtest.py:614-615 | the two-phase run is chosen exactly when the environment gives `cfcolo` a non-blank value |
| Workflow.ProvisionFails | auto_speedtest.py:587-591 | an unidentifiable platform is fatal, runs nothing and changes nothing |
| Workflow.ProvisionMissing | auto_speedtest.py:587-591 | a tool that could not be obtained is fatal |
| Workflow.TestRouting | auto_speedtest.py:611-623 | a failed address-list refresh gives 2, runs nothing and leaves no list; otherwise `cfcolo` picks the workflow |
| Workflow.TestCodes | auto_speedtest.py:611-733 | with the binary in place, the run ends with 0, 1 or 2, and with 0 only after a speed test |
| Workflow.ExitCodes | auto_speedtest.py:583-741 | every run ends with 0, 1 or 2, and a run that never asked the binary for a speed test never ends with 0 |

## Left out

- Logging, the banner `print` calls and `get_timestamp` are left out: they have no effect on files or exit codes.
- Fetch.DownloadFile: the `timeout` argument and the transports' real behaviour belong to the `Transport` oracle. `time.sleep(2)` is the `Waited` event.
- Archive.ExtractArchive: the `zipfile` module and the `tar` program are the `Unpack` oracle. A failure reports the members written before it; which members those are is up to the oracle. `os.chmod` is left out, since permissions are not modelled.
- Command.RunSpeedTest: the binary's behaviour is the `Binary` oracle and is keyed by the executable, the values and the set of switches. The order of the switches on the command line follows Python set order, which is unspecified, so `CommandFor` allows any order. The oracle's run can only add or overwrite files (`Run = Exited(code, writes) | NotStarted`); it never removes one. A binary that deleted `region_scan.csv` or the region file would make `os.remove` at lines 679-685 raise `FileNotFoundError` and the run exit with 1; the model cannot express that run.
- `upload_to_github`: only the clone-address list (`Mirrors.UploadTargets`) is modelled. The temporary directory, the git commands, copying the files in and the push are external I/O; the run's result does not depend on them.
- Copying the results to `/app/data` is left out: it is external I/O whose failure is ignored.
- `main` and the `.env` loading are left out: the environment is an input of the model.
- The parameter description tables (lines 57-95) are prose for the log and are left out.
- `TOOL_TYPE` is the `kind` parameter of the model. `Platform.TOOL_TYPE` holds the script's setting, which `Provision.ConfiguredRelease` uses.
- File sizes are counted in characters, not UTF-8 bytes. Only emptiness is ever tested.
- `Text.Strip`, `Text.Upper`, `Text.Lower` and `Text.IsDigits` handle ASCII only. `Text.Strip` removes the ASCII whitespace of `str.strip()`: space, `\t` to `\r`, and `\x1c` to `\x1f`. Python's non-ASCII whitespace (`\x85`, `\xa0` and the Unicode spaces), its case mappings and Unicode digits are not modelled.
- `os.path.isfile` and `os.path.exists` are both tested as "the name is in the directory". There are no directories-as-files.
- Writing the region file and the proxy list is modelled as always succeeding. A write failure is not modelled.
- Fetch.PortableTries, Fetch.LaterTries and Fetch.FinalTries are one source function (one round of `download_file`), split in three for verification cost. Workflow.RunTests and Workflow.Retest, and ProxyList.CollectLines, are split out of `auto_run_test` and `generate_proxy_list` the same way.
- Workflow.Retest: when a scratch-file removal raises, the reported directory is the one after the retest, even if the first removal had already happened. The branch is unreachable as long as the binary removes no file (Workflow.RetestCleanup).

Behaviour one might expect that the code does not have:

- The two-phase run does not remove its scratch files on every exit path. A failed region scan, or a scan table that cannot be read, ends the run before `region_scan.csv` is removed. Whatever the binary wrote stays in place (Workflow.TwoPhaseOutcome).
- The download loop does not remove every empty result before the next strategy. Only the `requests` try does so (line 227). An empty file left by `curl`, `wget`, PowerShell, `urllib` or the HTTP downgrade stays until the removal at the end of the round (lines 296-297). Fetch.Step follows the code (Fetch.StepFacts).
