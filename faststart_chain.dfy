/** Execution half of the fast-start driver: the per-subject shell chain,
    the task/run discovery embedded in it, the thread budgets, and what the
    logged wrapper does when a worker runs the chain.

    The chain is kept as structure rather than as shell text: a list of
    stages run in order, each stage a guard, a message, a foreground command,
    or a group of commands started in the background and then waited for.
    Running a chain is a function of the world it meets: whether the bootstrap
    finds its tools, which paths exist, what the functional directories hold,
    and the exit status of each command. */
module FaststartChain {
  import opened Text
  import opened Order
  import Faststart

  // ---------------------------------------------------------------------------
  // Thread budgets
  // ---------------------------------------------------------------------------

  /** `max(1, CPUS_PER_SUBJECT // 2)`, exported as the OpenMP, MKL, OpenBLAS
      and ITK thread counts. */
  function ThreadCount(cpus: int): (n: nat)
    ensures n >= 1
    ensures cpus >= 2 ==> 2 * n <= cpus < 2 * n + 2
    ensures cpus < 2 ==> n == 1
  {
    if cpus / 2 < 1 then 1 else cpus / 2
  }

  /** The environment the bootstrap exports. */
  function ThreadExports(cpus: int): (r: seq<(string, string)>)
    ensures |r| == 4
    ensures forall k :: 0 <= k < 4 ==> AllDigits(r[k].1) && DigitsValue(r[k].1) == ThreadCount(cpus)
  {
    var v := NatToString(ThreadCount(cpus));
    NatToStringValue(ThreadCount(cpus));
    [("OMP_NUM_THREADS", v), ("MKL_NUM_THREADS", v), ("OPENBLAS_NUM_THREADS", v),
     ("ITK_GLOBAL_DEFAULT_NUMBER_OF_THREADS", v)]
  }

  /** What `xargs -P n` does with its argument: 0 means no limit, a negative
      value is refused. */
  datatype Parallelism = Unlimited | AtMost(n: nat) | Refused

  function XargsMode(p: int): Parallelism
  {
    if p < 0 then Refused else if p == 0 then Unlimited else AtMost(p)
  }

  /** The warp fan-out runs `xargs -P (CPUS_PER_SUBJECT // 2)`: with two or
      more CPUs it runs as many warps at once as the exported thread count;
      with one CPU or none the `-P 0` lifts the limit altogether, while the
      exported thread count stays 1. */
  lemma WarpParallelism(cpus: int)
    ensures cpus >= 2 ==> XargsMode(cpus / 2) == AtMost(ThreadCount(cpus))
    ensures cpus == 0 || cpus == 1 ==> XargsMode(cpus / 2) == Unlimited && ThreadCount(cpus) == 1
    ensures cpus < 0 ==> XargsMode(cpus / 2) == Refused
  {
  }

  /** With `RF1_CPUS_PER_SUBJECT` unset, each job has 6 CPUs: 3 threads per
      tool and at most 3 warps at once. */
  lemma DefaultThreads()
    ensures var cpus := Faststart.Knob(None, Faststart.DefaultCpusPerSubject);
            cpus == Some(6) && ThreadCount(cpus.value) == 3 && XargsMode(cpus.value / 2) == AtMost(3)
  {
    Faststart.KnobDefaults();
  }

  // ---------------------------------------------------------------------------
  // Paths
  // ---------------------------------------------------------------------------

  function BidsDir(lay: Faststart.Layout): string
  {
    PathJoin(lay.projDir, "bids")
  }

  /** `bids/sub-X/.processing_complete` */
  function Marker(lay: Faststart.Layout, sub: string): string
  {
    PathJoin(PathJoin(BidsDir(lay), "sub-" + sub), ".processing_complete")
  }

  /** `bids/sub-X/ses-Y/func` */
  function FuncDir(lay: Faststart.Layout, sub: string, ses: string): string
  {
    PathJoin(PathJoin(PathJoin(BidsDir(lay), "sub-" + sub), "ses-" + ses), "func")
  }

  function AddIntendedForScript(lay: Faststart.Layout): string
  {
    PathJoin(lay.scriptDir, "addIntendedFor-fmap.py")
  }

  // ---------------------------------------------------------------------------
  // Task/run discovery
  // ---------------------------------------------------------------------------

  const MagJsonSuffix: string := "_echo-1_part-mag_bold.json"

  /** `sub-X_ses-Y_task-` */
  function NamePrefix(sub: string, ses: string): string
  {
    "sub-" + sub + "_ses-" + ses + "_task-"
  }

  /** `[A-Za-z0-9]+` */
  predicate AlnumWord(t: string) {
    t != [] && forall k :: 0 <= k < |t| ==> IsAlnum(t[k])
  }

  /** The glob `*echo-1_part-mag_bold.json`: no hidden names. */
  predicate GlobMatch(name: string) {
    EndsWith(name, "echo-1_part-mag_bold.json") && !StartsWith(name, ".")
  }

  /** Matching `^sub-X_ses-Y_task-([A-Za-z0-9]+)_run-([0-9]+)_echo-1_part-mag_bold\.json$`:
      the task and the run as written. */
  function MatchMagJson(sub: string, ses: string, name: string): (r: Option<(string, string)>)
    ensures r.Some? ==>
              && name == NamePrefix(sub, ses) + r.value.0 + "_run-" + r.value.1 + MagJsonSuffix
              && AlnumWord(r.value.0) && AllDigits(r.value.1)
  {
    var pre := NamePrefix(sub, ses);
    if |name| < |pre| + |MagJsonSuffix| || !StartsWith(name, pre) || !EndsWith(name, MagJsonSuffix) then None
    else
      var mid := name[|pre|..|name| - |MagJsonSuffix|];
      var i := IndexOfChar(mid, '_');
      var rest := mid[i..];
      if StartsWith(rest, "_run-") && AlnumWord(mid[..i]) && AllDigits(rest[5..]) then
        SplitAround(name, pre, MagJsonSuffix);
        SplitAround(mid, mid[..i], []);
        SplitAround(rest, "_run-", []);
        Reassemble(name, pre, mid, MagJsonSuffix, mid[..i], rest[5..]);
        Some((mid[..i], rest[5..]))
      else None
  }

  /** A string that starts with `pre` and ends with `suf` is `pre`, the part
      between, then `suf`. */
  lemma SplitAround(s: string, pre: string, suf: string)
    requires |pre| + |suf| <= |s| && StartsWith(s, pre) && EndsWith(s, suf)
    ensures s == pre + s[|pre|..|s| - |suf|] + suf
  {
  }

  lemma Reassemble(name: string, pre: string, mid: string, suf: string, t: string, r: string)
    requires name == pre + mid + suf && mid == t + ("_run-" + r)
    ensures name == pre + t + "_run-" + r + suf
  {
  }

  /** Every name of the documented form matches, with its own task and run. */
  lemma MatchMagJsonComplete(sub: string, ses: string, t: string, r: string)
    requires AlnumWord(t) && AllDigits(r)
    ensures MatchMagJson(sub, ses, NamePrefix(sub, ses) + t + "_run-" + r + MagJsonSuffix) == Some((t, r))
    ensures var name := NamePrefix(sub, ses) + t + "_run-" + r + MagJsonSuffix;
            StartsWith(name, NamePrefix(sub, ses)) && EndsWith(name, MagJsonSuffix)
  {
    var pre := NamePrefix(sub, ses);
    var name := pre + t + "_run-" + r + MagJsonSuffix;
    assert name[..|pre|] == pre;
    assert name[|name| - |MagJsonSuffix|..] == MagJsonSuffix;
    var mid := name[|pre|..|name| - |MagJsonSuffix|];
    assert mid == t + "_run-" + r;
    assert IndexOfChar(mid, '_') == |t| by {
      assert mid[|t|] == '_';
      forall k | 0 <= k < |t| ensures mid[k] != '_' {
        assert mid[k] == t[k] && IsAlnum(t[k]);
      }
      IndexOfCharAt(mid, '_', |t|);
    }
    assert mid[..|t|] == t;
    assert mid[|t|..] == "_run-" + r;
    assert ("_run-" + r)[5..] == r;
  }

  lemma IndexOfCharAt(s: string, c: char, i: nat)
    requires i < |s| && s[i] == c
    requires forall k :: 0 <= k < i ==> s[k] != c
    ensures IndexOfChar(s, c) == i
  {
  }

  /** The twelve companion files a run needs besides its magnitude sidecar. */
  const RequiredSuffixes: seq<string> := [
    "echo-1_part-mag_bold.nii.gz", "echo-2_part-mag_bold.nii.gz",
    "echo-3_part-mag_bold.nii.gz", "echo-4_part-mag_bold.nii.gz",
    "echo-1_part-phase_bold.nii.gz", "echo-2_part-phase_bold.nii.gz",
    "echo-3_part-phase_bold.nii.gz", "echo-4_part-phase_bold.nii.gz",
    "echo-1_part-phase_bold.json", "echo-2_part-phase_bold.json",
    "echo-3_part-phase_bold.json", "echo-4_part-phase_bold.json"]

  function RequiredPath(dir: string, sub: string, ses: string, t: string, r: string, suffix: string): string
  {
    PathJoin(dir, NamePrefix(sub, ses) + t + "_run-" + r + "_" + suffix)
  }

  /** All twelve companion files of a (task, run) exist. */
  predicate Complete(files: set<string>, dir: string, sub: string, ses: string, t: string, r: string) {
    forall k :: 0 <= k < |RequiredSuffixes| ==> RequiredPath(dir, sub, ses, t, r, RequiredSuffixes[k]) in files
  }

  /** The candidate a directory entry contributes: `(task, int(run))` when the
      name matches and the run is complete. */
  function Candidate(files: set<string>, dir: string, sub: string, ses: string, name: string): seq<(string, int)>
  {
    if !GlobMatch(name) then []
    else match MatchMagJson(sub, ses, name)
      case None => []
      case Some(m) => if Complete(files, dir, sub, ses, m.0, m.1) then [(m.0, DigitsValue(m.1))] else []
  }

  /** The candidates of the listed names, in listing order. */
  function Candidates(files: set<string>, dir: string, sub: string, ses: string, names: seq<string>): seq<(string, int)>
  {
    FlatMap(name => Candidate(files, dir, sub, ses, name), names)
  }

  /** The functional directory as the discovery step sees it: listings of
      the directories that exist, and the set of existing paths. */
  datatype FuncView = FuncView(listings: map<string, seq<string>>, files: set<string>)

  /** The unsorted candidates of a session's functional directory. */
  function Discovered(lay: Faststart.Layout, v: FuncView, sub: string, ses: string): seq<(string, int)>
  {
    var dir := FuncDir(lay, sub, ses);
    if dir in v.listings then Candidates(v.files, dir, sub, ses, v.listings[dir]) else []
  }

  /** The scan of one directory listing, entry by entry. */
  method ScanListing(files: set<string>, dir: string, sub: string, ses: string, names: seq<string>)
    returns (cands: seq<(string, int)>)
    ensures cands == Candidates(files, dir, sub, ses, names)
  {
    cands := [];
    var i := 0;
    while i < |names|
      invariant 0 <= i <= |names|
      invariant cands == Candidates(files, dir, sub, ses, names[..i])
    {
      FlatMapSnoc(name => Candidate(files, dir, sub, ses, name), names, i);
      cands := cands + Candidate(files, dir, sub, ses, names[i]);
      i := i + 1;
    }
    assert names[..i] == names;
  }

  /** The embedded discovery script: scan the functional directory, keep the
      complete runs, and print them ordered by (task, run). */
  method DiscoverTaskRuns(lay: Faststart.Layout, v: FuncView, sub: string, ses: string)
    returns (pairs: seq<(string, int)>)
    ensures SortedBy(pairs, StrIntLess)
    ensures multiset(pairs) == multiset(Discovered(lay, v, sub, ses))
  {
    var dir := FuncDir(lay, sub, ses);
    var cands: seq<(string, int)> := [];
    if dir in v.listings {
      cands := ScanListing(v.files, dir, sub, ses, v.listings[dir]);
    }
    pairs := Sort(cands, StrIntLess);
    StrIntStrictTotal();
    SortSorted(cands, StrIntLess);
  }

  /** A run whose sidecar is listed and whose twelve companions exist is
      discovered, with its run number read as an integer. */
  lemma CompleteRunDiscovered(files: set<string>, dir: string, sub: string, ses: string,
                              names: seq<string>, t: string, r: string)
    requires AlnumWord(t) && AllDigits(r) && Complete(files, dir, sub, ses, t, r)
    requires NamePrefix(sub, ses) + t + "_run-" + r + MagJsonSuffix in names
    ensures (t, DigitsValue(r)) in Candidates(files, dir, sub, ses, names)
  {
    var name := NamePrefix(sub, ses) + t + "_run-" + r + MagJsonSuffix;
    var i :| 0 <= i < |names| && names[i] == name;
    CompleteRunCandidate(files, dir, sub, ses, t, r);
    FlatMapMembers(n => Candidate(files, dir, sub, ses, n), names, (t, DigitsValue(r)));
  }

  /** The sidecar of a complete run contributes that run. */
  lemma CompleteRunCandidate(files: set<string>, dir: string, sub: string, ses: string, t: string, r: string)
    requires AlnumWord(t) && AllDigits(r) && Complete(files, dir, sub, ses, t, r)
    ensures Candidate(files, dir, sub, ses, NamePrefix(sub, ses) + t + "_run-" + r + MagJsonSuffix) == [(t, DigitsValue(r))]
  {
    var name := NamePrefix(sub, ses) + t + "_run-" + r + MagJsonSuffix;
    MatchMagJsonComplete(sub, ses, t, r);
    SidecarGlobbed(sub, ses, name);
  }

  /** A name of the sidecar form is also picked up by the glob. */
  lemma SidecarGlobbed(sub: string, ses: string, name: string)
    requires StartsWith(name, NamePrefix(sub, ses)) && EndsWith(name, MagJsonSuffix)
    ensures GlobMatch(name)
  {
    assert name[0] == NamePrefix(sub, ses)[0] == 's';
    assert name[|name| - 25..] == MagJsonSuffix[1..];
  }

  /** The candidates depend only on which names are listed, not on the order
      the listing comes in. */
  lemma CandidatesPermutation(files: set<string>, dir: string, sub: string, ses: string, a: seq<string>, b: seq<string>)
    requires multiset(a) == multiset(b)
    ensures multiset(Candidates(files, dir, sub, ses, a)) == multiset(Candidates(files, dir, sub, ses, b))
  {
    FlatMapPermutation(name => Candidate(files, dir, sub, ses, name), a, b);
  }

  /** The printed (task, run) list does not depend on the order in which the
      directory is listed. */
  lemma DiscoveryIgnoresListingOrder(files: set<string>, dir: string, sub: string, ses: string, a: seq<string>, b: seq<string>)
    requires multiset(a) == multiset(b)
    ensures Sort(Candidates(files, dir, sub, ses, a), StrIntLess) == Sort(Candidates(files, dir, sub, ses, b), StrIntLess)
  {
    CandidatesPermutation(files, dir, sub, ses, a, b);
    StrIntStrictTotal();
    SortSorted(Candidates(files, dir, sub, ses, a), StrIntLess);
    SortSorted(Candidates(files, dir, sub, ses, b), StrIntLess);
    SortedUnique(Sort(Candidates(files, dir, sub, ses, a), StrIntLess),
                 Sort(Candidates(files, dir, sub, ses, b), StrIntLess), StrIntLess);
  }

  // ---------------------------------------------------------------------------
  // The chain
  // ---------------------------------------------------------------------------

  /** A leaf process the chain starts. `WarpRun` carries warpkit's last two
      arguments as text. */
  datatype Invocation =
    | PrepRun(sub: string, ses: string)
    | WarpRun(sub: string, ses: string, task: string, run: string)
    | AddIntendedForRun(script: string, bidsDir: string)
    | TouchRun(path: string)

  /** A background group: `{ prepdata_ratelimited.sh sub ses ; } &` or
      `{ discover | xargs -P par -n 2 warpkit.sh sub ses ; } &`. */
  datatype Group = PrepGroup(sub: string, ses: string) | WarpGroup(sub: string, ses: string, par: int)

  datatype Stage =
    | Guard(sub: string, marker: string)   // [ -f marker ] && { echo ...; exit 0; }
    | Say(line: string)                    // echo line
    | Foreground(inv: Invocation)          // a command checked by `set -e`
    | Background(groups: seq<Group>)       // the groups, each with `&`, then `wait`

  function NoSessionsLine(sub: string): string { "Skipping sub-" + sub + ": no sessions present" }
  function SkipLine(sub: string): string { "Subject " + sub + " already complete, skipping" }
  function StartLine(sub: string): string { "=== START sub-" + sub + " ===" }
  function EndOkLine(sub: string): string { "=== END sub-" + sub + " STATUS=OK ===" }
  function EndFailLine(sub: string, rc: nat): string { "=== END sub-" + sub + " STATUS=FAIL rc=" + NatToString(rc) + " ===" }

  /** `per_subject_chain(sub, present_ses)` as structure. */
  predicate IsSubjectChain(chain: seq<Stage>, lay: Faststart.Layout, cpus: int, sub: string, present: seq<string>) {
    if present == [] then chain == [Say(NoSessionsLine(sub))]
    else
      && |chain| == 5
      && chain[0] == Guard(sub, Marker(lay, sub))
      && chain[1].Background? && |chain[1].groups| == |present|
      && (forall i :: 0 <= i < |present| ==> chain[1].groups[i] == PrepGroup(sub, present[i]))
      && chain[2].Background? && |chain[2].groups| == |present|
      && (forall i :: 0 <= i < |present| ==> chain[2].groups[i] == WarpGroup(sub, present[i], cpus / 2))
      && chain[3] == Foreground(AddIntendedForRun(AddIntendedForScript(lay), BidsDir(lay)))
      && chain[4] == Foreground(TouchRun(Marker(lay, sub)))
  }

  /** `per_subject_chain`: a one-line notice when there is no session;
      otherwise the completion guard, all preps in parallel, all
      discover-and-warp pipelines in parallel, the IntendedFor pass, and the
      completion marker. */
  method PerSubjectChain(lay: Faststart.Layout, cpus: int, sub: string, present: seq<string>)
    returns (chain: seq<Stage>)
    ensures IsSubjectChain(chain, lay, cpus, sub, present)
  {
    if present == [] {
      return [Say(NoSessionsLine(sub))];
    }
    var preps: seq<Group> := [];
    var i := 0;
    while i < |present|
      invariant 0 <= i <= |present| && |preps| == i
      invariant forall k :: 0 <= k < i ==> preps[k] == PrepGroup(sub, present[k])
    {
      preps := preps + [PrepGroup(sub, present[i])];
      i := i + 1;
    }
    var warps: seq<Group> := [];
    i := 0;
    while i < |present|
      invariant 0 <= i <= |present| && |warps| == i
      invariant forall k :: 0 <= k < i ==> warps[k] == WarpGroup(sub, present[k], cpus / 2)
    {
      warps := warps + [WarpGroup(sub, present[i], cpus / 2)];
      i := i + 1;
    }
    chain := [Guard(sub, Marker(lay, sub)), Background(preps), Background(warps),
              Foreground(AddIntendedForRun(AddIntendedForScript(lay), BidsDir(lay))),
              Foreground(TouchRun(Marker(lay, sub)))];
  }

  // ---------------------------------------------------------------------------
  // Running a chain
  // ---------------------------------------------------------------------------

  /** What the bootstrap finds: a conda setup, `pydeface`, and a container
      runtime (singularity or apptainer). */
  datatype Boot = Boot(conda: bool, pydeface: bool, container: bool)

  /** The world a chain runs in. `existing`: the paths that exist when the
      chain starts; `func`: the functional directories when the warps are
      discovered; `rc`: exit statuses of the leaf commands (0 when absent). */
  datatype World = World(boot: Boot, existing: set<string>, func: FuncView, rc: map<Invocation, nat>)

  function Status(w: World, inv: Invocation): nat
  {
    if inv in w.rc then w.rc[inv] else 0
  }

  /** The warpkit calls `xargs -n 2` makes from the printed (task, run)
      lines. Without `-r`, GNU xargs runs the command once even when it reads
      nothing; `bash -c` then sees `$0` = "bash" and an empty `$1`. */
  function XargsCalls(sub: string, ses: string, par: int, pairs: seq<(string, int)>): (r: seq<Invocation>)
    ensures par >= 0 && pairs != [] ==> |r| == |pairs|
  {
    if XargsMode(par).Refused? then []
    else if pairs == [] then [WarpRun(sub, ses, "bash", "")]
    else WarpCalls(sub, ses, pairs)
  }

  function WarpCalls(sub: string, ses: string, pairs: seq<(string, int)>): (r: seq<Invocation>)
    ensures |r| == |pairs|
  {
    if pairs == [] then []
    else
      var n := if pairs[0].1 < 0 then 0 else pairs[0].1;
      [WarpRun(sub, ses, pairs[0].0, NatToString(n))] + WarpCalls(sub, ses, pairs[1..])
  }

  /** The processes a background group starts. */
  function GroupCalls(lay: Faststart.Layout, w: World, g: Group): seq<Invocation>
  {
    match g
    case PrepGroup(sub, ses) => [PrepRun(sub, ses)]
    case WarpGroup(sub, ses, par) => XargsCalls(sub, ses, par, Sort(Discovered(lay, w.func, sub, ses), StrIntLess))
  }

  function GroupsCalls(lay: Faststart.Layout, w: World, gs: seq<Group>): seq<Invocation>
  {
    if gs == [] then [] else GroupCalls(lay, w, gs[0]) + GroupsCalls(lay, w, gs[1..])
  }

  /** The wrapper's own log lines, the processes started, and, when the
      shell exits early, its exit status. */
  datatype Step = Step(log: seq<string>, calls: seq<Invocation>, exit: Option<nat>)

  function RunStage(lay: Faststart.Layout, w: World, sub: string, s: Stage): Step
  {
    match s
    case Guard(who, marker) =>
      if marker in w.existing then Step([SkipLine(who)], [], Some(0)) else Step([], [], None)
    case Say(line) => Step([line], [], None)
    case Foreground(inv) =>
      var rc := Status(w, inv);
      if rc == 0 then Step([], [inv], None) else Step([EndFailLine(sub, rc)], [inv], Some(rc))
    case Background(gs) => Step([], GroupsCalls(lay, w, gs), None)
  }

  /** The stages in order under `set -e`: an early exit ends the shell. */
  function RunStages(lay: Faststart.Layout, w: World, sub: string, stages: seq<Stage>): Step
  {
    if stages == [] then Step([], [], None)
    else
      var s := RunStage(lay, w, sub, stages[0]);
      if s.exit.Some? then s
      else
        var t := RunStages(lay, w, sub, stages[1..]);
        Step(s.log + t.log, s.calls + t.calls, t.exit)
  }

  const CondaWarning: string := "WARNING: " + "conda.sh not found; proceeding without 'conda activate'."
  const PydefaceError: string := "ERROR: " + "pydeface not found on PATH."
  const ContainerError: string := "ERROR: " + "Neither singularity nor apptainer found on PATH."

  /** What the wrapped chain writes to the shared log (before the `[sub-X]`
      prefix), which processes it starts, and its exit status. */
  datatype Outcome = Outcome(log: seq<string>, calls: seq<Invocation>, rc: nat)

  /** `wrap_logged(sub, chain)`: bootstrap, then the ERR trap, START, the
      chain, and END OK if the chain did not exit. */
  function RunWrapped(lay: Faststart.Layout, w: World, sub: string, chain: seq<Stage>): Outcome
  {
    var warn := if w.boot.conda then [] else [CondaWarning];
    if !w.boot.pydeface then Outcome(warn + [PydefaceError], [], 127)
    else if !w.boot.container then Outcome(warn + [ContainerError], [], 127)
    else
      var s := RunStages(lay, w, sub, chain);
      match s.exit
      case None => Outcome(warn + [StartLine(sub)] + s.log + [EndOkLine(sub)], s.calls, 0)
      case Some(rc) => Outcome(warn + [StartLine(sub)] + s.log, s.calls, rc)
  }

  /** `stdbuf ... awk '{printf "%s [sub-X] %s\n", timestamp, $0}'`, the
      timestamp left out. */
  function Prefixed(sub: string, lines: seq<string>): (r: seq<string>)
    ensures |r| == |lines|
    ensures forall k :: 0 <= k < |r| ==> r[k] == "[sub-" + sub + "] " + lines[k]
  {
    if lines == [] then [] else ["[sub-" + sub + "] " + lines[0]] + Prefixed(sub, lines[1..])
  }

  predicate BootOk(w: World) { w.boot.pydeface && w.boot.container }

  function Warnings(w: World): seq<string> { if w.boot.conda then [] else [CondaWarning] }

  // ---------------------------------------------------------------------------
  // Properties of a run
  // ---------------------------------------------------------------------------

  /** A missing tool stops the job before START: exit 127, nothing started. */
  lemma BootFailure(lay: Faststart.Layout, w: World, sub: string, chain: seq<Stage>)
    requires !BootOk(w)
    ensures var o := RunWrapped(lay, w, sub, chain);
            o.rc == 127 && o.calls == [] && StartLine(sub) !in o.log
  {
    var o := RunWrapped(lay, w, sub, chain);
    assert StartLine(sub)[0] == '=';
    assert CondaWarning[0] == 'W' && PydefaceError[0] == 'E' && ContainerError[0] == 'E';
    forall k | 0 <= k < |o.log| ensures o.log[k] != StartLine(sub) {
      assert o.log[k][0] != '=';
    }
  }

  /** A subject with no session prints its notice between START and END OK. */
  lemma NoSessionsRun(lay: Faststart.Layout, w: World, cpus: int, sub: string, chain: seq<Stage>)
    requires BootOk(w) && IsSubjectChain(chain, lay, cpus, sub, [])
    ensures RunWrapped(lay, w, sub, chain) ==
            Outcome(Warnings(w) + [StartLine(sub), NoSessionsLine(sub), EndOkLine(sub)], [], 0)
  {
    assert chain[1..] == [];
    assert RunStages(lay, w, sub, chain) == Step([NoSessionsLine(sub)] + [], [] + [], None);
    assert [NoSessionsLine(sub)] + [] == [NoSessionsLine(sub)];
  }

  /** A subject already marked complete exits 0 right after START: nothing is
      started and no END line is written. */
  lemma CompleteSubjectSkipped(lay: Faststart.Layout, w: World, cpus: int, sub: string, present: seq<string>, chain: seq<Stage>)
    requires BootOk(w) && present != [] && IsSubjectChain(chain, lay, cpus, sub, present)
    requires Marker(lay, sub) in w.existing
    ensures RunWrapped(lay, w, sub, chain) == Outcome(Warnings(w) + [StartLine(sub), SkipLine(sub)], [], 0)
  {
  }

  /** The calls of all preps, then of all discover-and-warp pipelines. */
  function FanOutCalls(lay: Faststart.Layout, w: World, chain: seq<Stage>): seq<Invocation>
    requires |chain| >= 3 && chain[1].Background? && chain[2].Background?
  {
    GroupsCalls(lay, w, chain[1].groups) + GroupsCalls(lay, w, chain[2].groups)
  }

  /** A background stage never exits: its calls come before the rest's. */
  lemma RunBackgroundFirst(lay: Faststart.Layout, w: World, sub: string, stages: seq<Stage>)
    requires stages != [] && stages[0].Background?
    ensures var t := RunStages(lay, w, sub, stages[1..]);
            RunStages(lay, w, sub, stages) == Step(t.log, GroupsCalls(lay, w, stages[0].groups) + t.calls, t.exit)
  {
    var t := RunStages(lay, w, sub, stages[1..]);
    assert [] + t.log == t.log;
  }

  /** The last two stages: IntendedFor, then the touch. */
  lemma RunForegroundPair(lay: Faststart.Layout, w: World, sub: string, add: Invocation, touch: Invocation)
    ensures RunStages(lay, w, sub, [Foreground(add), Foreground(touch)]) ==
              if Status(w, add) != 0 then Step([EndFailLine(sub, Status(w, add))], [add], Some(Status(w, add)))
              else if Status(w, touch) != 0 then Step([EndFailLine(sub, Status(w, touch))], [add, touch], Some(Status(w, touch)))
              else Step([], [add, touch], None)
  {
    var st := [Foreground(add), Foreground(touch)];
    assert st[1..] == [Foreground(touch)];
    assert st[1..][1..] == [];
    var last := RunStages(lay, w, sub, st[1..]);
    var first := RunStage(lay, w, sub, st[1]);
    var none := RunStages(lay, w, sub, st[1..][1..]);
    assert none == Step([], [], None);
    if Status(w, touch) == 0 {
      assert first == Step([], [touch], None);
      assert last == Step(first.log + none.log, first.calls + none.calls, None);
      assert first.log + none.log == [] && first.calls + none.calls == [touch];
    }
    assert [add] + [touch] == [add, touch];
  }

  /** A guard whose marker is absent lets the rest of the chain run. */
  lemma RunGuardPasses(lay: Faststart.Layout, w: World, sub: string, chain: seq<Stage>)
    requires chain != [] && chain[0].Guard? && chain[0].marker !in w.existing
    ensures RunStages(lay, w, sub, chain) == RunStages(lay, w, sub, chain[1..])
  {
    var t := RunStages(lay, w, sub, chain[1..]);
    assert [] + t.log == t.log && [] + t.calls == t.calls;
  }

  /** The two background stages: their calls, then the rest's. */
  lemma RunFanOut(lay: Faststart.Layout, w: World, sub: string, rest: seq<Stage>)
    requires |rest| >= 2 && rest[0].Background? && rest[1].Background?
    ensures var t := RunStages(lay, w, sub, rest[2..]);
            RunStages(lay, w, sub, rest) ==
              Step(t.log, (GroupsCalls(lay, w, rest[0].groups) + GroupsCalls(lay, w, rest[1].groups)) + t.calls, t.exit)
  {
    var t := RunStages(lay, w, sub, rest[2..]);
    var a, b := GroupsCalls(lay, w, rest[0].groups), GroupsCalls(lay, w, rest[1].groups);
    assert rest[1..][1..] == rest[2..];
    RunBackgroundFirst(lay, w, sub, rest[1..]);
    assert RunStages(lay, w, sub, rest[1..]) == Step(t.log, b + t.calls, t.exit);
    RunBackgroundFirst(lay, w, sub, rest);
    ConcatAssoc(a, b, t.calls);
  }

  /** A five-stage chain past its guard: the fan-out, then the two
      foreground commands. */
  lemma RunBody(lay: Faststart.Layout, w: World, sub: string, chain: seq<Stage>)
    requires |chain| == 5 && chain[0].Guard? && chain[0].marker !in w.existing
    requires chain[1].Background? && chain[2].Background? && chain[3].Foreground? && chain[4].Foreground?
    ensures var add := chain[3].inv;
            var touch := chain[4].inv;
            var fan := FanOutCalls(lay, w, chain);
            RunStages(lay, w, sub, chain) ==
              if Status(w, add) != 0 then Step([EndFailLine(sub, Status(w, add))], fan + [add], Some(Status(w, add)))
              else if Status(w, touch) != 0 then Step([EndFailLine(sub, Status(w, touch))], fan + [add, touch], Some(Status(w, touch)))
              else Step([], fan + [add, touch], None)
  {
    var add := chain[3].inv;
    var touch := chain[4].inv;
    RunGuardPasses(lay, w, sub, chain);
    assert chain[1..][2..] == chain[3..] == [Foreground(add), Foreground(touch)];
    RunFanOut(lay, w, sub, chain[1..]);
    RunForegroundPair(lay, w, sub, add, touch);
  }

  /** With the tools present and the subject not yet complete: every prep and
      every warp is started whatever its exit status, then IntendedFor; the
      marker is touched only after IntendedFor succeeded; the job ends with
      END OK and status 0 exactly when IntendedFor and the touch both
      succeed, and otherwise with the failing command's END FAIL line and
      status. */
  lemma ChainRun(lay: Faststart.Layout, w: World, cpus: int, sub: string, present: seq<string>, chain: seq<Stage>)
    requires BootOk(w) && present != [] && IsSubjectChain(chain, lay, cpus, sub, present)
    requires Marker(lay, sub) !in w.existing
    ensures var o := RunWrapped(lay, w, sub, chain);
            var add := AddIntendedForRun(AddIntendedForScript(lay), BidsDir(lay));
            var touch := TouchRun(Marker(lay, sub));
            var fan := FanOutCalls(lay, w, chain);
            && o.log[..|Warnings(w)| + 1] == Warnings(w) + [StartLine(sub)]
            && (Status(w, add) != 0 ==>
                  o == Outcome(Warnings(w) + [StartLine(sub), EndFailLine(sub, Status(w, add))], fan + [add], Status(w, add)))
            && (Status(w, add) == 0 && Status(w, touch) != 0 ==>
                  o == Outcome(Warnings(w) + [StartLine(sub), EndFailLine(sub, Status(w, touch))], fan + [add, touch], Status(w, touch)))
            && (Status(w, add) == 0 && Status(w, touch) == 0 ==>
                  o == Outcome(Warnings(w) + [StartLine(sub), EndOkLine(sub)], fan + [add, touch], 0))
  {
    var add := AddIntendedForRun(AddIntendedForScript(lay), BidsDir(lay));
    var touch := TouchRun(Marker(lay, sub));
    assert chain[0].Guard? && chain[3] == Foreground(add) && chain[4] == Foreground(touch);
    ChainOutcome(lay, w, sub, chain, add, touch);
  }

  /** `ChainRun` for any chain of the five-stage shape. */
  lemma ChainOutcome(lay: Faststart.Layout, w: World, sub: string, chain: seq<Stage>, add: Invocation, touch: Invocation)
    requires BootOk(w) && |chain| == 5 && chain[0].Guard? && chain[0].marker !in w.existing
    requires chain[1].Background? && chain[2].Background? && chain[3] == Foreground(add) && chain[4] == Foreground(touch)
    ensures var o := RunWrapped(lay, w, sub, chain);
            var fan := FanOutCalls(lay, w, chain);
            && o.log[..|Warnings(w)| + 1] == Warnings(w) + [StartLine(sub)]
            && (Status(w, add) != 0 ==>
                  o == Outcome(Warnings(w) + [StartLine(sub), EndFailLine(sub, Status(w, add))], fan + [add], Status(w, add)))
            && (Status(w, add) == 0 && Status(w, touch) != 0 ==>
                  o == Outcome(Warnings(w) + [StartLine(sub), EndFailLine(sub, Status(w, touch))], fan + [add, touch], Status(w, touch)))
            && (Status(w, add) == 0 && Status(w, touch) == 0 ==>
                  o == Outcome(Warnings(w) + [StartLine(sub), EndOkLine(sub)], fan + [add, touch], 0))
  {
    RunBody(lay, w, sub, chain);
    WrappedAround(lay, w, sub, chain);
    if Status(w, add) != 0 {
      SnocTwo(Warnings(w), StartLine(sub), [EndFailLine(sub, Status(w, add))]);
    } else if Status(w, touch) != 0 {
      SnocTwo(Warnings(w), StartLine(sub), [EndFailLine(sub, Status(w, touch))]);
    } else {
      assert Warnings(w) + [StartLine(sub)] + [] == Warnings(w) + [StartLine(sub)];
      SnocTwo(Warnings(w), StartLine(sub), [EndOkLine(sub)]);
    }
  }

  /** With the tools present, the job logs START, the chain's own lines, and
      END OK unless the chain exited. */
  lemma WrappedAround(lay: Faststart.Layout, w: World, sub: string, chain: seq<Stage>)
    requires BootOk(w)
    ensures var o := RunWrapped(lay, w, sub, chain);
            var s := RunStages(lay, w, sub, chain);
            && o.log[..|Warnings(w)| + 1] == Warnings(w) + [StartLine(sub)]
            && o.calls == s.calls
            && (s.exit.None? ==> o.log == Warnings(w) + [StartLine(sub)] + s.log + [EndOkLine(sub)] && o.rc == 0)
            && (s.exit.Some? ==> o.log == Warnings(w) + [StartLine(sub)] + s.log && o.rc == s.exit.value)
  {
    var head := Warnings(w) + [StartLine(sub)];
    var s := RunStages(lay, w, sub, chain);
    assert (head + s.log)[..|head|] == head;
    assert (head + s.log + [EndOkLine(sub)])[..|head|] == head;
  }

  /** `wait` with no operand returns 0: the exit statuses of preps and warps
      never change what the job logs, starts, or returns. */
  lemma FanOutFailuresIgnored(lay: Faststart.Layout, w: World, rc': map<Invocation, nat>, cpus: int, sub: string,
                              present: seq<string>, chain: seq<Stage>)
    requires IsSubjectChain(chain, lay, cpus, sub, present)
    requires var add := AddIntendedForRun(AddIntendedForScript(lay), BidsDir(lay));
             var touch := TouchRun(Marker(lay, sub));
             Status(w, add) == Status(w.(rc := rc'), add) && Status(w, touch) == Status(w.(rc := rc'), touch)
    ensures RunWrapped(lay, w, sub, chain) == RunWrapped(lay, w.(rc := rc'), sub, chain)
  {
    var w' := w.(rc := rc');
    if BootOk(w) && present != [] && Marker(lay, sub) !in w.existing {
      assert GroupsCalls(lay, w, chain[1].groups) == GroupsCalls(lay, w', chain[1].groups) by {
        GroupsCallsIgnoreStatus(lay, w, w', chain[1].groups);
      }
      assert GroupsCalls(lay, w, chain[2].groups) == GroupsCalls(lay, w', chain[2].groups) by {
        GroupsCallsIgnoreStatus(lay, w, w', chain[2].groups);
      }
      ChainRun(lay, w, cpus, sub, present, chain);
      ChainRun(lay, w', cpus, sub, present, chain);
    } else if BootOk(w) && present == [] {
      NoSessionsRun(lay, w, cpus, sub, chain);
      NoSessionsRun(lay, w', cpus, sub, chain);
    }
  }

  lemma {:induction false} GroupsCallsIgnoreStatus(lay: Faststart.Layout, w: World, w': World, gs: seq<Group>)
    requires w'.func == w.func
    ensures GroupsCalls(lay, w, gs) == GroupsCalls(lay, w', gs)
  {
    if gs != [] {
      GroupsCallsIgnoreStatus(lay, w, w', gs[1..]);
    }
  }

  /** When the discovery prints nothing, warpkit still runs once, with task
      "bash" and an empty run. */
  lemma EmptyDiscoveryStillCallsWarpkit(sub: string, ses: string, par: int)
    requires par >= 0
    ensures XargsCalls(sub, ses, par, []) == [WarpRun(sub, ses, "bash", "")]
  {
  }

  /** Each discovered (task, run) becomes one warpkit call, in order, whose
      run argument reads back as the run number. */
  lemma {:induction false} WarpCallsFollowPairs(sub: string, ses: string, pairs: seq<(string, int)>)
    requires forall k :: 0 <= k < |pairs| ==> pairs[k].1 >= 0
    ensures var r := WarpCalls(sub, ses, pairs);
            forall k :: 0 <= k < |pairs| ==>
              r[k].WarpRun? && r[k].task == pairs[k].0 && AllDigits(r[k].run) && DigitsValue(r[k].run) == pairs[k].1
  {
    if pairs != [] {
      WarpCallsFollowPairs(sub, ses, pairs[1..]);
      NatToStringValue(pairs[0].1);
      var r := WarpCalls(sub, ses, pairs);
      assert forall k :: 1 <= k < |pairs| ==> r[k] == WarpCalls(sub, ses, pairs[1..])[k - 1];
    }
  }

  // ---------------------------------------------------------------------------
  // The node's exit status
  // ---------------------------------------------------------------------------

  /** The exit status of a shell pipeline: the last command's, or with
      `pipefail` the last non-zero one. */
  function PipelineStatus(statuses: seq<nat>, pipefail: bool): (r: nat)
    requires statuses != []
    ensures !pipefail ==> r == statuses[|statuses| - 1]
    ensures pipefail ==> (r == 0 <==> forall k :: 0 <= k < |statuses| ==> statuses[k] == 0)
  {
    if |statuses| == 1 then statuses[0]
    else if pipefail && statuses[|statuses| - 1] == 0 then PipelineStatus(statuses[..|statuses| - 1], true)
    else statuses[|statuses| - 1]
  }

  /** The node runs `(body) 2>&1 | awk ...` in a shell without `pipefail`, so
      its status is the prefixer's: a failing chain still reports success to
      the workflow engine when the log writer succeeds. */
  lemma NodeStatusIsPrefixers(bodyRc: nat, prefixerRc: nat)
    ensures PipelineStatus([bodyRc, prefixerRc], false) == prefixerRc
    ensures bodyRc != 0 && prefixerRc == 0 ==> PipelineStatus([bodyRc, prefixerRc], true) != 0
  {
  }

  // ---------------------------------------------------------------------------
  // The workflow
  // ---------------------------------------------------------------------------

  /** A workflow node: `sub_X` running the wrapped chain of subject X. */
  datatype Node = Node(name: string, sub: string, chain: seq<Stage>)

  /** One node per subject to process, in roster order, each with the chain
      of its cached sessions; no node gets the no-session chain. */
  method BuildWorkflow(lay: Faststart.Layout, cpus: int, roster: seq<string>, cache: Faststart.Cache)
    returns (nodes: seq<Node>)
    ensures |nodes| == |Faststart.ToProcess(roster, cache)|
    ensures forall k :: 0 <= k < |nodes| ==>
              var sub := Faststart.ToProcess(roster, cache)[k];
              && nodes[k].name == "sub_" + sub && nodes[k].sub == sub
              && Faststart.SessionsOf(cache, sub) != []
              && IsSubjectChain(nodes[k].chain, lay, cpus, sub, Faststart.SessionsOf(cache, sub))
              && |nodes[k].chain| == 5
  {
    var subs := Faststart.ToProcess(roster, cache);
    nodes := [];
    var i := 0;
    while i < |subs|
      invariant 0 <= i <= |subs| && |nodes| == i
      invariant forall k :: 0 <= k < i ==>
                  && nodes[k].name == "sub_" + subs[k] && nodes[k].sub == subs[k]
                  && Faststart.SessionsOf(cache, subs[k]) != []
                  && IsSubjectChain(nodes[k].chain, lay, cpus, subs[k], Faststart.SessionsOf(cache, subs[k]))
                  && |nodes[k].chain| == 5
    {
      var sub := subs[i];
      assert sub in subs;
      var chain := PerSubjectChain(lay, cpus, sub, Faststart.SessionsOf(cache, sub));
      nodes := nodes + [Node("sub_" + sub, sub, chain)];
      i := i + 1;
    }
  }
}
