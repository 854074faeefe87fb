# rf1-sra-linux2 preprocessing scripts, modelled in Dafny

The repository drives the preprocessing of a multi-echo fMRI study. For each
subject on a roster it finds the scan sessions on disk and converts them to
BIDS. It then runs field-map correction (warpkit) on each complete run, links
the field maps to their runs and marks the subject complete. A set of small
companion scripts does the following:
- classify scanner series into BIDS keys;
- rewrite field-map sidecars;
- rename files by a numeric prefix table;
- collect intracranial volumes;
- build tedana confound tables;
- collect MRIQC metrics.

This project models the logic of those scripts in Dafny and proves what they
do. There is one module per script:

| module | file | script |
|---|---|---|
| `Faststart` | `faststart.dfy` | `rf1_preprocessing_faststart.py`, planning part: roster parsing, the raw-data probe, the session cache, the process/skip split, the wave-2 list |
| `FaststartChain` | `faststart_chain.dfy` | the same script, execution part: thread counts, the embedded task/run discovery, the per-subject command chain as a value, the logged wrapper run over an abstract world, the workflow nodes |
| `HpcDriver` | `forhpc.dfy` | `rf1_preprocessing_forhpc.py`: `task_run_pairs`, the three runners with their command log, markers and done flags, and the four-node workflow as wired |
| `Heuristics` | `heuristics.dfy` | `heuristics_XA30.py`: `create_key` and the `infotodict` loop over series |
| `IntendedFor` | `intended_for.dfy` | `addIntendedFor-hpc.py`: the subject/session/file walk and the sidecar edit |
| `Rename` | `rename.dfy` | `rename_files.py`: the prefix table and the rename loop |
| `Icv` | `icv.dfy` | `extract_icv_fmriprep.py`: entity parsing, file pairing, the probseg/brain-mask fallback, row clean-up, `size_bin` |
| `TedanaConfounds` | `tedana.dfy` | `genTedanaConfounds-hpc.py`: the file-name searches, output naming, column selection, rejected-component extraction, the loop over metrics files |
| `Metrics` | `metrics.dfy` | `extract-metrics.py`: roster, run extraction, default fields, CSV output |

Two support modules are shared:
- `Text` (`text.dfy`) gives Python's string operations the semantics the
  scripts rely on: `split`, `replace`, `strip`, `splitlines`, `startswith`,
  `find`, the `os.path` helpers, and digits to numbers and back.
- `Order` (`order.dfy`) gives lexicographic orders, an insertion sort proved
  sorted and a permutation, de-duplication, filters and flat maps.

The file system is a value throughout:
- a set or map of existing paths;
- directory listings as sequences;
- a set of commands that would exit non-zero.

Each script's loops are methods whose contracts equal a recursive
specification function. The properties are proved about those functions.

Three behaviours of the fast-start driver are worth knowing:
- A cache file that is not valid JSON makes `json.load` raise, and nothing
  rescans. See `Faststart.BuildSessionCache`.
- A failing prep or warp job inside a fan-out does not stop the IntendedFor pass
  or the completion marker, because the bare `wait` returns 0. See
  `FaststartChain.FanOutFailuresIgnored`.
- A missing tool exits with status 127 before START is logged and before the
  failure trap is set, so no END line is written either. See
  `FaststartChain.BootFailure`.

## Model

| member | source | states |
|---|---|---|
| `Faststart.Knob` | code/rf1_preprocessing_faststart.py:12-13 | `int` of the variable's text, or of the default text when it is unset. A blank setting raises ValueError, and an all-digit default gives its decimal value. |
| `Faststart.KnobSet` | code/rf1_preprocessing_faststart.py:12-13 | A variable set to the decimal form of `n` gives `n`, whatever the default. |
| `Faststart.KnobDefaults` | code/rf1_preprocessing_faststart.py:12-13 | Unset, the knobs are 16 subjects at a time and 6 CPUs per subject. |
| `Faststart.ParseRoster` | code/rf1_preprocessing_faststart.py:52-53 | Every roster entry is non-empty and has no leading or trailing whitespace. |
| `Faststart.RosterRoundTrip` | code/rf1_preprocessing_faststart.py:52-53 | Reading back a file written one clean subject per line gives the same subjects in the same order. |
| `Faststart.WalkFromScansBounded` | code/rf1_preprocessing_faststart.py:76-81 | With the sub-directory list cleared below depth 5, the walk never visits a directory more than 6 levels below the scans directory. |
| `Faststart.AnyDcm` | code/rf1_preprocessing_faststart.py:77 | The loop answers whether some file name ends in `.dcm`. |
| `Faststart.ScanVisits` | code/rf1_preprocessing_faststart.py:76-78 | The early-exit walk returns true exactly when some visited directory's path holds `DICOM` and the directory holds a `.dcm` file. |
| `Faststart.SessionHasRawFast` | code/rf1_preprocessing_faststart.py:59-85 | The probe's result follows its reference definition: false for a missing scans directory or a walk that raises OSError, any other exception escapes, and otherwise the walk's answer. |
| `Faststart.ScanPathsDiffer` | code/rf1_preprocessing_faststart.py:65-68 | Sessions 01 and 02 are probed under different scans directories (the `-2` folder for 02). |
| `Faststart.Put` | code/rf1_preprocessing_faststart.py:121 | Assigning a cache entry keeps the cache well formed and updates exactly that key. |
| `Faststart.RawOfSessions` | code/rf1_preprocessing_faststart.py:106-112 | The raw sessions are 01 and/or 02, in that order, as the probe answered for each. |
| `Faststart.BidsOfSessions` | code/rf1_preprocessing_faststart.py:116-119 | The fallback sessions are those whose `bids/sub-X/ses-Y` directory exists, in order. |
| `Faststart.PresentSessionsShape` | code/rf1_preprocessing_faststart.py:105-121 | Every cache entry is an ascending, duplicate-free sub-list of `["01", "02"]`. |
| `Faststart.PresentSessionsFallback` | code/rf1_preprocessing_faststart.py:115-119 | A session is recorded exactly when its raw data was found, or when no raw session was found and its BIDS directory exists. |
| `Faststart.ProbeErrorIsLocal` | code/rf1_preprocessing_faststart.py:107-112 | A probe that raises for one session drops that session and leaves the other session's result as it was. |
| `Faststart.ScannedCacheStep` | code/rf1_preprocessing_faststart.py:101-121 | Recording one more subject keeps the cache's keys in roster order of first appearance, each holding its present sessions. |
| `Faststart.ProbeSessions` | code/rf1_preprocessing_faststart.py:105-112 | The probe loop of one subject yields its raw sessions. |
| `Faststart.BidsFallback` | code/rf1_preprocessing_faststart.py:115-119 | The fallback loop yields the sessions with BIDS output. |
| `Faststart.ScanSubject` | code/rf1_preprocessing_faststart.py:105-121 | One subject's cache entry is its present sessions. |
| `Faststart.BuildSessionCache` | code/rf1_preprocessing_faststart.py:87-128 | An existing cache is returned without any probe unless forced, and a corrupt one raises. Otherwise every roster entry is probed, session by session, and the scanned cache is saved and returned. |
| `Faststart.ScanRoster` | code/rf1_preprocessing_faststart.py:100-121 | The subject loop builds the scanned cache of the whole roster and makes exactly its probes, in order. |
| `Faststart.StartupScan` | code/rf1_preprocessing_faststart.py:33-38 | When startup's removal of the cache file succeeds, the first build always rescans every subject. |
| `Faststart.WithSession02` | code/rf1_preprocessing_faststart.py:131 | The wave-2 subjects are exactly the cache keys whose entry holds `"02"`. |
| `Faststart.Session02Keys` | code/rf1_preprocessing_faststart.py:131 | A key is kept exactly when it is listed and its entry holds `"02"`. |
| `Faststart.WriteLines` | code/rf1_preprocessing_faststart.py:133-135 | The write loop produces each line followed by a newline. |
| `Faststart.WriteWave2List` | code/rf1_preprocessing_faststart.py:130-136 | The returned list holds exactly the subjects with session 02, and the file text is that list sorted, one per line. |
| `Faststart.Wave2FileContents` | code/rf1_preprocessing_faststart.py:130-136 | The wave-2 file read back as a roster lists exactly the subjects with session 02, ascending, each once. |
| `Faststart.ToProcess` | code/rf1_preprocessing_faststart.py:145 | A subject is to be processed exactly when it is on the roster and its cache entry is non-empty. |
| `Faststart.Skipped` | code/rf1_preprocessing_faststart.py:146 | A subject is skipped exactly when it is on the roster and has no cached session. |
| `Faststart.PartitionRoster` | code/rf1_preprocessing_faststart.py:145-146 | The two lists split the roster: together they hold its entries with multiplicity. |
| `FaststartChain.ThreadCount` | code/rf1_preprocessing_faststart.py:223-226 | The thread count is at least 1 and is half the CPU budget rounded down when the budget is at least 2. |
| `FaststartChain.ThreadExports` | code/rf1_preprocessing_faststart.py:223-226 | The four thread variables are exported as the decimal text of that count. |
| `FaststartChain.WarpParallelism` | code/rf1_preprocessing_faststart.py:302 | `xargs -P` gets the unclamped half budget: it matches the thread count from 2 CPUs up, means no limit at 0 or 1 CPU, and is refused when negative. |
| `FaststartChain.DefaultThreads` | code/rf1_preprocessing_faststart.py:223-226 | With the CPU knob unset, each job has 6 CPUs, exports 3 threads per tool and runs at most 3 warps at once. |
| `FaststartChain.MatchMagJson` | code/rf1_preprocessing_faststart.py:276 | A match splits the name into the fixed prefix, an alphanumeric task, `_run-`, a digit run and the magnitude-sidecar suffix. |
| `FaststartChain.MatchMagJsonComplete` | code/rf1_preprocessing_faststart.py:276-281 | Every name of that form matches, giving back its own task and run. |
| `FaststartChain.ScanListing` | code/rf1_preprocessing_faststart.py:278-296 | The candidate loop yields the candidates of the listed names in listing order. |
| `FaststartChain.DiscoverTaskRuns` | code/rf1_preprocessing_faststart.py:271-298 | The printed pairs are the directory's candidates, sorted by task and then integer run, as a permutation. |
| `FaststartChain.CompleteRunDiscovered` | code/rf1_preprocessing_faststart.py:279-296 | A run whose sidecar is listed and whose twelve companion files exist is a candidate, with its run read as an integer. |
| `FaststartChain.CompleteRunCandidate` | code/rf1_preprocessing_faststart.py:285-296 | The sidecar of a complete run contributes exactly that run. |
| `FaststartChain.SidecarGlobbed` | code/rf1_preprocessing_faststart.py:279-281 | Every name of the sidecar form is also returned by the glob. |
| `FaststartChain.CandidatesPermutation` | code/rf1_preprocessing_faststart.py:279-296 | The candidates depend only on which names are listed, not on the listing order. |
| `FaststartChain.DiscoveryIgnoresListingOrder` | code/rf1_preprocessing_faststart.py:297-298 | The printed list is the same for every order of the directory listing. |
| `FaststartChain.PerSubjectChain` | code/rf1_preprocessing_faststart.py:245-314 | The chain is the completion guard, one prep group per session, one discover-and-warp group per session with `-P cpus // 2`, the IntendedFor pass and the marker touch. |
| `FaststartChain.XargsCalls` | code/rf1_preprocessing_faststart.py:302-304 | With a non-negative parallelism and printed pairs, `xargs -n 2` starts one warpkit call per pair. |
| `FaststartChain.Prefixed` | code/rf1_preprocessing_faststart.py:238-243 | Every log line is kept, in order, tagged with `[sub-X]`. |
| `FaststartChain.BootFailure` | code/rf1_preprocessing_faststart.py:206-213 | A missing pydeface or container runtime ends the job with status 127 before START, having started nothing. |
| `FaststartChain.NoSessionsRun` | code/rf1_preprocessing_faststart.py:247-248 | A subject with no session logs START, the skip notice and END OK, and starts nothing. |
| `FaststartChain.CompleteSubjectSkipped` | code/rf1_preprocessing_faststart.py:250-253 | A subject already marked complete exits 0 right after START, starting nothing and writing no END line. |
| `FaststartChain.ChainRun` | code/rf1_preprocessing_faststart.py:233-314 | Every prep and warp is started whatever its status, then IntendedFor. The marker is touched only after IntendedFor succeeded. The job ends with END OK and status 0 exactly when both succeed, otherwise with the failing command's END FAIL line and status. |
| `FaststartChain.WrappedAround` | code/rf1_preprocessing_faststart.py:233-237 | With the tools present the job logs START, the chain's own lines, and END OK unless the chain exited, in which case its status is the job's. |
| `FaststartChain.FanOutFailuresIgnored` | code/rf1_preprocessing_faststart.py:255-308 | Changing the exit status of any prep or warp changes nothing the job logs, starts or returns. |
| `FaststartChain.GroupsCallsIgnoreStatus` | code/rf1_preprocessing_faststart.py:259-304 | The processes the background groups start depend on the session directories only, not on any earlier exit status. |
| `FaststartChain.EmptyDiscoveryStillCallsWarpkit` | code/rf1_preprocessing_faststart.py:302-304 | When discovery prints nothing, warpkit still runs once, with task `bash` and an empty run. |
| `FaststartChain.WarpCallsFollowPairs` | code/rf1_preprocessing_faststart.py:297-304 | Each discovered pair becomes one warpkit call, in order, whose run argument reads back as the run number. |
| `FaststartChain.NodeStatusIsPrefixers` | code/rf1_preprocessing_faststart.py:243 | The node's status is the log writer's, so a failing chain reports success, which `pipefail` would have prevented. |
| `FaststartChain.PipelineStatus` | code/rf1_preprocessing_faststart.py:243 | Without `pipefail` a pipeline's status is its last command's. With it, the status is 0 exactly when every command succeeded. |
| `FaststartChain.BuildWorkflow` | code/rf1_preprocessing_faststart.py:323-328 | There is one node per subject to process, in roster order, named `sub_X`, each with the chain of its non-empty cached sessions. |
| `HpcDriver.PairOf` | code/rf1_preprocessing_forhpc.py:48-59 | An entry yields a pair only if it is a magnitude sidecar of the session that has both `_task-` and `_run-`, with an all-digit run and a task free of `_run-`. |
| `HpcDriver.ComputeTaskRunPairs` | code/rf1_preprocessing_forhpc.py:44-60 | The set-collecting loop and the sort give the reference pair list. |
| `HpcDriver.TaskRunPairsSpec` | code/rf1_preprocessing_forhpc.py:44-60 | The result is empty for a missing directory. Otherwise it is sorted as strings, duplicate-free, and holds exactly the pairs some entry yields. |
| `HpcDriver.RunsSortAsText` | code/rf1_preprocessing_forhpc.py:60 | Run `10` sorts before run `2` here, while the fast-start discovery puts it after. |
| `HpcDriver.TaskPieceOfName` | code/rf1_preprocessing_forhpc.py:54 | On a well-formed name the text after the first `_task-` is the task, `_run-`, the run and the suffix. |
| `HpcDriver.RunPieceOfName` | code/rf1_preprocessing_forhpc.py:55 | On a well-formed name the text after the first `_run-` is the run and the suffix. |
| `HpcDriver.AgreesWithFaststart` | code/rf1_preprocessing_forhpc.py:48-59 | On every name the fast-start regex matches, with alphanumeric subject and session, this parser gives the same task and run. |
| `HpcDriver.IssuedShape` | code/rf1_preprocessing_forhpc.py:18-22 | Under `check=True` the commands run are a prefix: all of them when none fails, otherwise up to and including the first failing one. |
| `HpcDriver.RunCommands` | code/rf1_preprocessing_forhpc.py:18-22 | The command loop logs exactly the commands issued and succeeds exactly when none fails. |
| `HpcDriver.RunPrepAll` | code/rf1_preprocessing_forhpc.py:15-33 | The prep runner gives the reference outcome. |
| `HpcDriver.PrepMarkerOnlyOnSuccess` | code/rf1_preprocessing_forhpc.py:15-33 | The marker is written exactly when the roster was read and every prepdata command (01 then 02 per subject) succeeded, and then all of them ran. A failure is the last command run and changes no file. |
| `HpcDriver.ExtendsPairs` | code/rf1_preprocessing_forhpc.py:67-76 | Files and empty directories added by the runners do not change any pair scan. |
| `HpcDriver.MarkDoneHasFlag` | code/rf1_preprocessing_forhpc.py:73-76 | Pass 2 leaves a done flag for every subject it went through. |
| `HpcDriver.MarkDoneOnlyFlags` | code/rf1_preprocessing_forhpc.py:73-76 | Pass 2 adds no file other than those done flags. |
| `HpcDriver.RunSubjectWarps` | code/rf1_preprocessing_forhpc.py:68-71 | One subject's two sessions issue their warpkit commands up to the first failure, scanning the current file system. |
| `HpcDriver.RunWarpSubjects` | code/rf1_preprocessing_forhpc.py:67-76 | The subject loop issues every warpkit command up to the first failure. In pass 2 the subjects that completed before it, and only those, get their done flags. |
| `HpcDriver.RunWarpAll` | code/rf1_preprocessing_forhpc.py:35-80 | The warp runner gives the reference outcome. |
| `HpcDriver.WarpMarkerOnlyOnSuccess` | code/rf1_preprocessing_forhpc.py:62-80 | The pass marker is written exactly when the roster was read and every warpkit command succeeded. A failure is the last command run. Pass 1 changes no file but its marker. |
| `HpcDriver.PassTwoDoneflags` | code/rf1_preprocessing_forhpc.py:67-79 | Pass 2 flags exactly the subjects whose commands all succeeded before the first failure, touches nothing else but its marker, and leaves every listing the scan reads unchanged. |
| `HpcDriver.WarpCommandsMember` | code/rf1_preprocessing_forhpc.py:67-71 | A warpkit command is issued exactly when the subject is on the roster, the session is 01 or 02 and the pair is found in that session's func directory. |
| `HpcDriver.WarpCommandsSameDirs` | code/rf1_preprocessing_forhpc.py:67-71 | The warpkit commands depend only on the directory listings, so files written by earlier runners do not change them. |
| `HpcDriver.RosterNotOverwritten` | code/rf1_preprocessing_forhpc.py:9-80 | No marker or done flag has the roster's path, so no runner overwrites the roster. |
| `HpcDriver.TransferOne` | code/rf1_preprocessing_forhpc.py:91-101 | One subject is transferred when its tree exists and skipped otherwise, and the result says whether that command fails. |
| `HpcDriver.RunRsync` | code/rf1_preprocessing_forhpc.py:82-104 | The transfer runner gives the reference outcome. |
| `HpcDriver.RsyncContract` | code/rf1_preprocessing_forhpc.py:82-104 | The chmod line comes first and its failure stops nothing. A missing tree is skipped, never transferred. The marker is written exactly when no transfer failed. |
| `HpcDriver.MarkerWiringSkipsWarpkit` | code/rf1_preprocessing_forhpc.py:163-165 | As wired, each node reads the previous node's empty marker as its roster. Once prep succeeds, no warpkit command, transfer or done flag is issued, and the run still succeeds. |
| `HpcDriver.RosterWiringRunsEverything` | code/rf1_preprocessing_forhpc.py:163-165 | With every node reading the roster and no command failing, both passes issue every warpkit command, every subject is flagged, and every existing tree is transferred. |
| `Heuristics.CreateKey` | code/heuristics_XA30.py:3-6 | A missing or empty template raises ValueError. Otherwise the template, output type and annotation classes are returned unchanged. |
| `Heuristics.KeysAreValid` | code/heuristics_XA30.py:9-30 | Every key of the heuristic is a valid `create_key` result with the default output type. |
| `Heuristics.AllSlotsTotal` | code/heuristics_XA30.py:32-40 | The key list holds all 22 keys. |
| `Heuristics.ApplyAnatomical` | code/heuristics_XA30.py:47-54 | The anatomical and gradient-echo field-map rules update only their four keys, each by the series when it matches. |
| `Heuristics.ApplyDiffusion` | code/heuristics_XA30.py:57-62 | The diffusion and spin-echo rules update only their three keys. |
| `Heuristics.ApplyStandard` | code/heuristics_XA30.py:47-62 | The seven standard rules update only the standard keys. |
| `Heuristics.ApplyTask` | code/heuristics_XA30.py:66-71 | One task's rules raise exactly when a reference lookup falls off the series list. Otherwise they update only that task's three keys. |
| `Heuristics.ApplyTrustShared` | code/heuristics_XA30.py:66-78 | The trust and shared-reward rules raise exactly when one of their reference lookups fails, and otherwise update only their keys. |
| `Heuristics.ApplySocialDoors` | code/heuristics_XA30.py:81-93 | The social-doors and doors rules raise exactly when one of their reference lookups fails, and otherwise update only their keys. |
| `Heuristics.ApplyUgr` | code/heuristics_XA30.py:96-101 | After the ultimatum-game rules every key has seen the series exactly once. |
| `Heuristics.ApplySeries` | code/heuristics_XA30.py:44-101 | One loop pass raises exactly when the series' reference lookup fails. Otherwise every key becomes its reference step. |
| `Heuristics.InfoToDict` | code/heuristics_XA30.py:8-105 | The loop gives the reference classification, or IndexError. |
| `Heuristics.AppendCollects` | code/heuristics_XA30.py:66-78 | An appending key collects the id of every matching series, in order. |
| `Heuristics.OverwriteKeepsLast` | code/heuristics_XA30.py:47-62 | An overwriting key holds only the last matching series, or nothing. |
| `Heuristics.SbrefCollects` | code/heuristics_XA30.py:68-69 | A reference key holds the looked-up reference of every matching series. |
| `Heuristics.MagSbrefPaired` | code/heuristics_XA30.py:66-78 | For trust, shared reward and UGR the magnitude and reference lists have one entry per magnitude series each. |
| `Heuristics.OverwrittenMagAppendedSbref` | code/heuristics_XA30.py:81-93 | For social doors and doors the magnitude list holds at most one series, while the reference list gains one entry per magnitude series. |
| `Heuristics.PhaseNeedsMag` | code/heuristics_XA30.py:49-52 | A phase field map is never recorded without a magnitude one. |
| `Heuristics.PhaseNeverMag` | code/heuristics_XA30.py:66-71 | No series is both a task's magnitude and its phase. |
| `Heuristics.RaisesOnlyAlone` | code/heuristics_XA30.py:68-69 | A reference lookup raises exactly when the list holds a single series that takes a reference. |
| `Heuristics.SbrefPosition` | code/heuristics_XA30.py:68-69 | With distinct ids, the reference is the series two places earlier. For the first two series, negative indexing wraps it to one of the last two. |
| `IntendedFor.TaskOf` | code/addIntendedFor-hpc.py:57-61 | The task is `TaskName` lower-cased when it is a string, and absent otherwise. |
| `IntendedFor.SearchRun` | code/addIntendedFor-hpc.py:65 | The search finds the leftmost `_run-<digits>_`. |
| `IntendedFor.RunOf` | code/addIntendedFor-hpc.py:65-71 | The run is the first `_run-<digits>_` of the file name. It falls back to `1` only for the doors and social-doors tasks, and is otherwise absent. |
| `IntendedFor.Edit` | code/addIntendedFor-hpc.py:73-95 | `Units` becomes `Hz` and both echo times are gone. `IntendedFor` becomes the four echo targets when task and run were found and is otherwise kept. Every other field is unchanged. |
| `IntendedFor.EditSidecar` | code/addIntendedFor-hpc.py:73-95 | The field-by-field edit gives the reference edit and reports whether task and run were parsed. |
| `IntendedFor.EditIdempotent` | code/addIntendedFor-hpc.py:56-98 | Editing an edited sidecar changes nothing. |
| `IntendedFor.SubdirsWith` | code/addIntendedFor-hpc.py:20-23 | The selected entries are exactly the listed directories with the prefix. |
| `IntendedFor.SelectJsons` | code/addIntendedFor-hpc.py:41-46 | A file is edited exactly when it ends in `.json`, names a fieldmap or magnitude, and does not name `dwi`. |
| `IntendedFor.SessionsOf` | code/addIntendedFor-hpc.py:20-25 | Every subject has at least one session layout to visit. |
| `IntendedFor.UntouchedUnchanged` | code/addIntendedFor-hpc.py:50-98 | A sidecar that no edit names is left exactly as it was. |
| `IntendedFor.KeysKept` | code/addIntendedFor-hpc.py:50-98 | The edits add and remove no sidecar. |
| `IntendedFor.FailsOnlyOnMissing` | code/addIntendedFor-hpc.py:53-54 | The script fails exactly when an edited path cannot be read. |
| `IntendedFor.FailureSticks` | code/addIntendedFor-hpc.py:53-54 | Once an edit has failed, later edits do nothing. |
| `IntendedFor.RunTwice` | code/addIntendedFor-hpc.py:15-98 | With no path edited twice, running the script again changes nothing. |
| `IntendedFor.EditFmapDir` | code/addIntendedFor-hpc.py:50-98 | The loop over one field-map directory applies its edits in order, stopping at an unreadable file. |
| `IntendedFor.EditFile` | code/addIntendedFor-hpc.py:51-98 | One selected sidecar is edited, or the run fails when it is not there. |
| `IntendedFor.EditSession` | code/addIntendedFor-hpc.py:37-48 | A session without an `fmap` directory or a selected file does nothing. Otherwise its edits apply. |
| `IntendedFor.EditSubject` | code/addIntendedFor-hpc.py:27-48 | The session loop applies the subject's edits in session order. |
| `IntendedFor.AddIntendedFor` | code/addIntendedFor-hpc.py:10-98 | Without the BIDS directory the script fails. Otherwise it applies every edit of every `sub-*` directory in listing order. |
| `IntendedFor.JobsAreSelected` | code/addIntendedFor-hpc.py:10-46 | Every edit is of a selected sidecar in the `fmap` directory of a `sub-*` directory. A subject without `ses-*` directories uses the single-session layout. |
| `Rename.MappingIsTable` | code/rename_files.py:9-42 | Both columns of the table strictly increase. |
| `Rename.TableIncreasing` | code/rename_files.py:9-42 | Such a table is injective and increasing in both numbers. |
| `Rename.Prefix` | code/rename_files.py:47 | `<n>-` is digits followed by one `-`. |
| `Rename.PrefixesExclusive` | code/rename_files.py:45-48 | A name starts with at most one `<n>-` prefix. |
| `Rename.EntryOf` | code/rename_files.py:46-48 | The entry that applies has its prefix at the start of the name. None applies when no prefix does. |
| `Rename.MatchIndex` | code/rename_files.py:46-48 | The result is the first entry whose old prefix starts the name, and none exactly when no prefix does. |
| `Rename.EntryOfOnly` | code/rename_files.py:46-48 | The entry that applies is the only one whose prefix starts the name. |
| `Rename.NewName` | code/rename_files.py:47-49 | A name has a new name exactly when some prefix applies. The new name is the new prefix followed by the rest of the name, unchanged. |
| `Rename.NewNameInjective` | code/rename_files.py:47-49 | Distinct names get distinct new names. |
| `Rename.RulesOneEntry` | code/rename_files.py:46-58 | The inner loop applies at most the one entry that fits. |
| `Rename.NameStep` | code/rename_files.py:45-58 | A listed name is renamed by its entry or left alone. |
| `Rename.RestKept` | code/rename_files.py:45-58 | Renaming one name keeps every other name of the directory. |
| `Rename.DryRunChangesNothing` | code/rename_files.py:51-52 | A dry run changes no file and prints one line per name the table applies to. |
| `Rename.SweepNeverFails` | code/rename_files.py:45-58 | On a listing of distinct present names, no rename raises, one line is printed per applicable name in listing order, and every unvisited name is still present. |
| `Rename.RenameFiles` | code/rename_files.py:44-60 | The two loops as written give the reference outcome, `Done.` included. |
| `Rename.RenameOne` | code/rename_files.py:46-58 | The inner loop over the table gives the reference rule. |
| `Rename.SweepStops` | code/rename_files.py:54-57 | A rename that raises ends the script, so the remaining names are not visited. |
| `Rename.ChainLosesFile` | code/rename_files.py:45-58 | When one entry's new number is a later entry's old number, the listing order decides whether a file is replaced. |
| `Rename.ChainForward` | code/rename_files.py:45-58 | In table order the middle file of a chain is replaced and the first one moves on twice. |
| `Rename.ChainBackward` | code/rename_files.py:45-58 | In reverse order both files of a chain are kept. |
| `Rename.ListingOrderLosesFile` | code/rename_files.py:9-58 | With `2-a` and `23-a`, one listing order loses a file and the other keeps both. |
| `Rename.RenameAtOnce` | code/rename_files.py:45-58 | The intended simultaneous rename: the new names are exactly the destinations of the old ones. |
| `Rename.DestInjective` | code/rename_files.py:45-58 | No two files share a destination. |
| `Rename.AtOnceMovesEvery` | code/rename_files.py:45-58 | Every file reaches its destination with its contents intact. |
| `Rename.AtOnceKeepsCount` | code/rename_files.py:45-58 | No file is lost: there are as many names after as before. |
| `Icv.Entity` | code/extract_icv_fmriprep.py:34-36 | The search gives the leftmost `tag` plus a greedy alphanumeric run, and is None exactly when the pattern matches nowhere. |
| `Icv.ParseEntities` | code/extract_icv_fmriprep.py:32-36 | Found labels start with `sub-` and `ses-`. |
| `Icv.EntityOfDir` | code/extract_icv_fmriprep.py:28-36 | A path whose first subject entity is a `sub-<label>/` directory yields that label. |
| `Icv.Glob` | code/extract_icv_fmriprep.py:80 | The glob yields the files whose name ends with the suffix. |
| `Icv.Found` | code/extract_icv_fmriprep.py:80 | The sorted glob yields the same files. |
| `Icv.FindNativeProbsegSets` | code/extract_icv_fmriprep.py:75-93 | The loop gives the reference sets from the sorted GM maps. |
| `Icv.SetFor` | code/extract_icv_fmriprep.py:84-91 | A GM map gives its triple exactly when it is native and both partners exist. |
| `Icv.NativeSetsMembers` | code/extract_icv_fmriprep.py:83-91 | A set is found exactly for a native GM map among those globbed whose WM and CSF partners exist. |
| `Icv.NativeSetsOrdered` | code/extract_icv_fmriprep.py:80-93 | The sets keep the order of their GM maps. |
| `Icv.SetsSorted` | code/extract_icv_fmriprep.py:80-93 | The sets are in path order, and each names a GM map that was found. |
| `Icv.PartnerNames` | code/extract_icv_fmriprep.py:87-88 | When the GM suffix occurs only at the end, the partners differ from the GM map in that suffix alone. |
| `Icv.NativeOnly` | code/extract_icv_fmriprep.py:99 | The filter keeps exactly the native members. |
| `Icv.NativeMasks` | code/extract_icv_fmriprep.py:96-100 | The masks are exactly the native files named `*_desc-brain_mask.nii.gz`. |
| `Icv.MasksSorted` | code/extract_icv_fmriprep.py:96-100 | The masks are in path order. |
| `Icv.Usables` | code/extract_icv_fmriprep.py:221-224 | The clean-up keeps exactly the rows with a volume and a subject. |
| `Icv.CollectVolumes` | code/extract_icv_fmriprep.py:152-227 | The row collection as written gives the reference table, or the error it raises. |
| `Icv.AppendRows` | code/extract_icv_fmriprep.py:160-184 | The set loop gives one row per set. |
| `Icv.AppendMaskRows` | code/extract_icv_fmriprep.py:195-218 | The mask loop gives one row per mask. |
| `Icv.ProbsegRowsKinds` | code/extract_icv_fmriprep.py:160-184 | A probseg row has a volume exactly when its computation succeeded, and then it is an ICV row for one of the sets. |
| `Icv.MasksOnlyAsFallback` | code/extract_icv_fmriprep.py:186-188 | When a set is found and masks are not forced, every row comes from a set. |
| `Icv.FailedSetsNoFallback` | code/extract_icv_fmriprep.py:186-227 | Even when every set fails, the script raises for lack of valid volumes instead of falling back to masks. |
| `Icv.NoInputsExactly` | code/extract_icv_fmriprep.py:186-193 | The script raises for lack of input exactly when no set is used and no native brain mask exists. |
| `Icv.WrittenRows` | code/extract_icv_fmriprep.py:220-227 | The rows written are exactly the usable collected rows, and at least one. With none usable the script raises. |
| `Icv.SizeBinIntervals` | code/extract_icv_fmriprep.py:103-111 | With ordered quartiles each bin is exactly its half-open interval. |
| `Icv.SizeBinMonotone` | code/extract_icv_fmriprep.py:103-111 | A larger volume never gets a smaller bin. |
| `TedanaConfounds.BaseMatch` | code/genTedanaConfounds-hpc.py:26 | The base is the text before the last `tedana_metrics`, and there is none exactly when it does not occur. |
| `TedanaConfounds.RunMatch` | code/genTedanaConfounds-hpc.py:27 | The run lies between the first `run-` and the last `_desc-tedana` after it, and there is none exactly when no such pair occurs. |
| `TedanaConfounds.SubMatch` | code/genTedanaConfounds-hpc.py:28 | The subject is `sub-` and five digits, and there is none exactly when no `/sub-ddddd/ses-dd/` occurs. |
| `TedanaConfounds.TaskMatch` | code/genTedanaConfounds-hpc.py:29 | The task is the `_`-free text after the first `_task-` up to the next `_`, and there is none exactly when no `_` follows any `_task-`. |
| `TedanaConfounds.SesMatch` | code/genTedanaConfounds-hpc.py:30 | The session is two digits, and there is none exactly when no `_ses-dd_` occurs. |
| `TedanaConfounds.MetricsPathIsFile` | code/genTedanaConfounds-hpc.py:26-41 | For every metrics file the base plus `tedana_metrics.tsv` is the file itself. |
| `TedanaConfounds.FieldsShaped` | code/genTedanaConfounds-hpc.py:26-30 | Parsed fields have the shapes the searches give. |
| `TedanaConfounds.OutPathInjective` | code/genTedanaConfounds-hpc.py:73-81 | Files with different subject, session, task or run never write the same output. |
| `TedanaConfounds.OutNameInjective` | code/genTedanaConfounds-hpc.py:78-81 | For one subject, two output names are equal only when session, task and run are. |
| `TedanaConfounds.WithPrefix` | code/genTedanaConfounds-hpc.py:59-60 | A column is kept exactly when it has the prefix. |
| `TedanaConfounds.Present` | code/genTedanaConfounds-hpc.py:65 | A desired column is kept exactly when the file has it. |
| `TedanaConfounds.SelectedMembers` | code/genTedanaConfounds-hpc.py:51-66 | A column is selected exactly when the file has it and it is a fixed name or starts with `cosine` or `non_steady_state`. |
| `TedanaConfounds.SelectedOrder` | code/genTedanaConfounds-hpc.py:64-65 | The selection keeps the group order, and the file's order within the prefix groups. |
| `TedanaConfounds.FillNa` | code/genTedanaConfounds-hpc.py:68 | No value is missing afterwards, present values are kept, and missing ones become 0. |
| `TedanaConfounds.Rejected` | code/genTedanaConfounds-hpc.py:44 | The components are exactly those classified `rejected`. |
| `Text.ParseInt` | code/genTedanaConfounds-hpc.py:45 | `int` fails on blank text and succeeds, with a non-negative value, on text whose strip is all digits. |
| `Text.ParseDigits` | code/genTedanaConfounds-hpc.py:45 | `int` of a string of digits is its decimal value. |
| `Text.ParseNat` | code/rf1_preprocessing_faststart.py:12-13 | `int(str(n))` is `n`. |
| `TedanaConfounds.IndicesMatch` | code/genTedanaConfounds-hpc.py:45 | The conversion succeeds exactly when every label converts, and then gives each label's integer in order. |
| `TedanaConfounds.Position` | code/genTedanaConfounds-hpc.py:46 | A column index is in range exactly when it is within the column count either way, and a negative one counts from the end. |
| `TedanaConfounds.PickDefined` | code/genTedanaConfounds-hpc.py:46 | The selection succeeds exactly when every index is in range. |
| `TedanaConfounds.Pick` | code/genTedanaConfounds-hpc.py:46 | A successful selection has one column per index, each the mixing column at that position. |
| `TedanaConfounds.RejectedColumns` | code/genTedanaConfounds-hpc.py:43-46 | Rejected `ICA_<n>` components within range select exactly those mixing columns, in order. |
| `TedanaConfounds.LabelsConvert` | code/genTedanaConfounds-hpc.py:45 | `ICA_<n>` labels convert back to their numbers. |
| `TedanaConfounds.OneBadLabelDropsAll` | code/genTedanaConfounds-hpc.py:43-49 | One non-integer rejected label drops every tedana column, leaving only the fMRIPrep confounds. |
| `TedanaConfounds.BadLabelFails` | code/genTedanaConfounds-hpc.py:45 | One rejected label that does not convert makes the whole conversion fail. |
| `TedanaConfounds.ContentsWithoutComponents` | code/genTedanaConfounds-hpc.py:47-71 | Without extractable components the table is the fMRIPrep part alone. |
| `TedanaConfounds.GenerateConfounds` | code/genTedanaConfounds-hpc.py:25-84 | The loop over metrics files gives the reference outcome. |
| `TedanaConfounds.ProcessFile` | code/genTedanaConfounds-hpc.py:26-84 | One loop pass gives the reference step. |
| `TedanaConfounds.ProcessFields` | code/genTedanaConfounds-hpc.py:32-84 | The pass after the searches gives the reference step for its fields. |
| `TedanaConfounds.CrashStops` | code/genTedanaConfounds-hpc.py:25-41 | Once the script has raised, nothing more happens. |
| `TedanaConfounds.StepEffect` | code/genTedanaConfounds-hpc.py:37-84 | A step raises exactly on a fatal file, adds its output only for a file with a confounds file, and otherwise writes nothing. |
| `TedanaConfounds.StepsCrash` | code/genTedanaConfounds-hpc.py:25-41 | The script raises exactly when one of its files is fatal. |
| `TedanaConfounds.StepsWritten` | code/genTedanaConfounds-hpc.py:25-84 | Unless it raises, the script writes exactly the outputs of the files with a confounds file. When it raises it has written some of them. |
| `TedanaConfounds.OutputsMembers` | code/genTedanaConfounds-hpc.py:73-82 | A path is an output exactly when it is named after a metrics file that has a confounds file. |
| `Metrics.CollectResults` | code/extract-metrics.py:18-46 | The subject loop gives the reference rows of the roster. |
| `Metrics.SubjectResults` | code/extract-metrics.py:19-46 | The task loop gives the rows of one subject. |
| `Metrics.TaskResults` | code/extract-metrics.py:25-46 | The file loop gives the rows of one subject and task, in glob order. |
| `Metrics.FileResult` | code/extract-metrics.py:29-46 | The loop body builds the reference row of one file. |
| `Metrics.WriteCsv` | code/extract-metrics.py:49-52 | The write loop gives the header and one comma-joined line per row. |
| `Metrics.RosterKeepsEveryLine` | code/extract-metrics.py:11-12 | A roster written one ID per line reads back with every line, blank ones included, as a subject. |
| `Metrics.RunOfMatch` | code/extract-metrics.py:29 | For a globbed file whose wildcard matched text without `_`, the run is that text. |
| `Metrics.ResultsAppend` | code/extract-metrics.py:18-46 | Rows come subject by subject. |
| `Metrics.SubjectRowsOrder` | code/extract-metrics.py:19-25 | Within a subject the tasks come in the fixed order ugr, doors, socialdoors, trust, sharedreward. |
| `Metrics.TaskMembers` | code/extract-metrics.py:25-46 | There is one row per file the glob returns. |
| `Metrics.SubjectMembers` | code/extract-metrics.py:19-46 | A subject's rows are one per task and globbed file. |
| `Metrics.ResultsMembers` | code/extract-metrics.py:18-46 | There is a row exactly for each roster subject, task and globbed file. |
| `Metrics.MissingFields` | code/extract-metrics.py:30-44 | An unreadable file gives `missing` for both metrics. A readable one gives each metric it has, and `missing` for the other. |
| `Metrics.HeaderFields` | code/extract-metrics.py:50 | The header reads back as the five column names. |
| `Metrics.CsvTextLines` | code/extract-metrics.py:49-52 | The written text splits back into the header line and one line per row. |
| `Metrics.RowReadsBack` | code/extract-metrics.py:49-52 | A row without commas or line breaks reads back from its written line. |
| `Metrics.CsvRoundTrip` | code/extract-metrics.py:49-52 | When no field holds a comma or line break, the file reads back as the header and the rows. |

## Left out

- Real I/O becomes values: file reads, writes, `os.makedirs`, `chmod`,
  `subprocess.run`, `rsync`, `rmdir`, `shutil.rmtree`, `json.dump` formatting
  and every `print`. The file system is a map of paths, directory listings and a
  set of failing commands. Printed messages are kept only where a contract
  speaks of them (the rename messages, the job log).
- Startup removal of the scan lock directory and of `nipype_work`: file-system
  clean-up with no effect on what is computed.
- Nipype's `Workflow`, `MultiProc` and `n_procs`, and the bash `&`/`wait`/`xargs -P`
  parallelism. This is concurrency run by code that is not part of this model.
  Background groups are modelled as started in order and joined. Nodes run in
  their dependency order.
- The conda, FSL and container discovery in the job bootstrap is left out. Only
  whether the required tools exist, and the conda warning, are kept.
- FaststartChain.Prefixed: the wall-clock timestamp the `awk` prefixer adds is
  left out. Only the `[sub-X]` tag is kept.
- Shell quoting (`shlex.quote`) and the exact command text are left out. The
  chain is a value of stages and invocations.
- `os.walk`, `glob`, `rglob` and `natsorted` orders are taken as given listings.
  `sorted` over `Path` values is modelled as an order on path parts.
- Python's `str.lower` and `isdigit` are modelled on ASCII. Other Unicode
  letters and digits are not.
- The ICV numerics are left out: loading NIfTI images, shape checks, sums, voxel
  volumes, percentiles, the subject aggregation and the histogram. Each source's
  volume is an input: present when its computation succeeded, absent when it
  raised.
- pandas behaviour beyond column selection is left out: `read_csv` parsing,
  index alignment in `concat`, and duplicate column names in the output. The
  exception texts printed as warnings are left out too.
- TedanaConfounds.OutPathInjective: `os.path.normpath` is modelled only as
  stripping trailing slashes before `basename`. A tedana directory whose last
  component is `.` or `..`, or an empty one, gets a different basename from
  Python's.
- File names are assumed to hold no newline. The regex `.` and `$` treat a
  newline specially, and every file-name search leaves that out: `BaseMatch`,
  `RunMatch` and `TaskMatch` in `genTedanaConfounds-hpc.py`, and `MatchMagJson`
  at `rf1_preprocessing_faststart.py:276`.
- TedanaConfounds.SubMatch: `\d` is taken as the ASCII digits `0`-`9`. In a
  Python 3 string pattern it also matches every other Unicode decimal digit,
  so a subject label in, say, Arabic-Indic digits is not found here.
- TedanaConfounds.SesMatch: `\d` is taken as the ASCII digits `0`-`9`. Other
  Unicode decimal digits, which Python's `\d` matches, are not modelled.
- FaststartChain.MatchMagJson: the subject and session IDs are compared as
  literal text. The script puts them into the pattern without `re.escape`, so
  a `.`, `+` or other regex character in a roster ID would act as pattern
  syntax. Only IDs without such characters are modelled faithfully.
- In `extract-metrics.py`, glob metacharacters inside subject IDs are not modelled. The
  disk's answer to the pattern is taken as given.
- In `extract-metrics.py`, `str()` of a JSON value is taken as the value's text,
  and a JSON document that is not an object is treated as a read failure.
- `downloadXNAT.py`, `downloadXNAT_mk.py` and `rename_studyID.py` are not part
  of this model. They are network clients and DICOM rewriting through a foreign
  library.
- Text.ParseInt: the contract states only that blank text never converts and
  that text whose strip is all digits does. The sign and surrounding
  whitespace are in its definition, and the values are pinned by `ParseDigits`
  and `ParseNat`. Underscores between digits and
  non-ASCII digits, which Python's `int` accepts, are not modelled.

## Findings

| source | as written | input that shows it | evidently intended | confidence | as-written member | corrected member |
|---|---|---|---|---|---|---|
| code/rf1_preprocessing_forhpc.py:163-165 | Each node's `sublist_file` input is connected to the previous node's returned marker path, an empty file, so warp pass 1, warp pass 2 and the transfer each read an empty roster. | A roster with one subject whose prepdata commands succeed: the run succeeds with no warpkit command, no done flag and only the `chmod` line of the transfer. | The markers order the nodes, and every node reads the roster file: each subject gets its warps in both passes, its done flag and its transfer. | not executed | `HpcDriver.MarkerWiringSkipsWarpkit` | `HpcDriver.RosterWiringRunsEverything` |
| code/rename_files.py:45-58 | Renames happen one at a time in listing order, and `os.rename` silently replaces an existing target. The table maps 2 to 23 and 23 to 41. | Files `2-a` (contents 1) and `23-a` (contents 2), with `2-a` listed first: `2-a` replaces `23-a` and then moves on to `41-a`, so contents 2 are lost. The other listing order keeps both. | Every file moves to its own new number at once, with no file lost. | not executed | `Rename.ListingOrderLosesFile` | `Rename.RenameAtOnce` |
