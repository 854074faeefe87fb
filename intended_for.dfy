/** The field-map sidecar rewriter: for every subject and session of a BIDS
    tree it edits the field-map and magnitude JSON sidecars, pointing their
    `IntendedFor` at the four magnitude echoes of the run they belong to,
    forcing `Units` to `Hz` and dropping `EchoTime1`/`EchoTime2`. */
module IntendedFor {
  import opened Text
  import Order

  const BidsRoot: string := "/gpfs/scratch/tug87422/smithlab-shared/rf1-sra-linux2/bids/"

  // ---------------------------------------------------------------------------
  // JSON records
  // ---------------------------------------------------------------------------

  /** A parsed JSON value. */
  datatype Json =
    | JStr(str: string)
    | JNum(num: real)
    | JBool(truth: bool)
    | JNull
    | JArr(items: seq<Json>)
    | JObj(fields: map<string, Json>)

  /** A sidecar: the top-level JSON object. */
  type Record = map<string, Json>

  // ---------------------------------------------------------------------------
  // Task and run
  // ---------------------------------------------------------------------------

  function LowerChar(c: char): char
  {
    if 'A' <= c <= 'Z' then (c as int + 32) as char else c
  }

  /** `s.lower()` on ASCII letters. */
  function Lower(s: string): (r: string)
    ensures |r| == |s|
    ensures forall k :: 0 <= k < |s| ==> r[k] == LowerChar(s[k])
  {
    if s == [] then [] else [LowerChar(s[0])] + Lower(s[1..])
  }

  lemma {:induction false} LowerIdempotent(s: string)
    ensures Lower(Lower(s)) == Lower(s)
  {
    if s != [] {
      LowerIdempotent(s[1..]);
      assert Lower(s)[1..] == Lower(s[1..]);
    }
  }

  /** The task: `TaskName` lower-cased when it is a string, otherwise none. */
  function TaskOf(data: Record): (r: Option<string>)
    ensures r.Some? <==> "TaskName" in data && data["TaskName"].JStr?
    ensures r.Some? ==> r.value == Lower(data["TaskName"].str)
  {
    if "TaskName" in data && data["TaskName"].JStr? then Some(Lower(data["TaskName"].str)) else None
  }

  /** The longest run of decimal digits at the start of `s`. */
  function DigitPrefix(s: string): (d: string)
    ensures |d| <= |s| && d == s[..|d|]
    ensures forall k :: 0 <= k < |d| ==> IsDigit(d[k])
    ensures |d| < |s| ==> !IsDigit(s[|d|])
  {
    if s == [] || !IsDigit(s[0]) then [] else [s[0]] + DigitPrefix(s[1..])
  }

  /** `_run-([0-9]+)_` matched starting at index `i`: the digits it captures.
      The digit group is greedy and the `_` after it cannot be a digit, so
      only the longest digit run can be followed by the closing `_`. */
  function RunMatchAt(f: string, i: nat): (r: Option<string>)
    ensures r.Some? ==> AllDigits(r.value) && OccursAt(f, "_run-" + r.value + "_", i)
  {
    if !OccursAt(f, "_run-", i) then None
    else
      var d := DigitPrefix(f[i + 5..]);
      if d != [] && i + 5 + |d| < |f| && f[i + 5 + |d|] == '_' then
        assert f[i..i + 5] == "_run-";
        assert f[i + 5..i + 5 + |d|] == d;
        assert f[i..i + |d| + 6] == f[i..i + 5] + f[i + 5..i + 5 + |d|] + [f[i + 5 + |d|]];
        Some(d)
      else None
  }

  /** `re.search(r"_run-([0-9]+)_", f)` from index `i`: where the leftmost
      match starts. */
  function SearchRun(f: string, i: nat): (r: Option<nat>)
    ensures r.Some? ==> i <= r.value < |f| && RunMatchAt(f, r.value).Some?
    ensures r.Some? ==> forall k :: i <= k < r.value ==> RunMatchAt(f, k).None?
    ensures r.None? ==> forall j :: i <= j ==> RunMatchAt(f, j).None?
    decreases |f| - i
  {
    if i >= |f| then None
    else if RunMatchAt(f, i).Some? then Some(i)
    else SearchRun(f, i + 1)
  }

  /** The run: the first `_run-<digits>_` of the file name, or `1` for the
      doors and social-doors tasks, which only ever have one run. */
  function RunOf(fname: string, task: Option<string>): (r: Option<string>)
    ensures SearchRun(fname, 0).Some? ==> r == RunMatchAt(fname, SearchRun(fname, 0).value)
    ensures r.None? <==> SearchRun(fname, 0).None? && task != Some("doors") && task != Some("socialdoors")
    ensures r.Some? ==> AllDigits(r.value)
  {
    var m := SearchRun(fname, 0);
    if m.Some? then RunMatchAt(fname, m.value)
    else if task == Some("doors") || task == Some("socialdoors") then Some("1")
    else None
  }

  // ---------------------------------------------------------------------------
  // The edit of one sidecar
  // ---------------------------------------------------------------------------

  /** Where a session's field maps live and how its targets are named. */
  datatype Target = Target(fmapDir: string, funcRel: string, sesTag: string)

  /** A session directory `ses-XX` or, with none, the single-session layout. */
  function TargetOf(subjDir: string, ses: Option<string>): Target
  {
    match ses
    case None => Target(PathJoin(subjDir, "fmap"), "func", "")
    case Some(s) => Target(PathJoin(PathJoin(subjDir, s), "fmap"), s + "/func", "_" + s)
  }

  /** `task and run` in Python: both present and non-empty. */
  predicate Parsed(task: Option<string>, run: Option<string>)
  {
    task.Some? && task.value != [] && run.Some? && run.value != []
  }

  /** The magnitude image of echo `echo` of the run. */
  function EchoTarget(subj: string, t: Target, task: string, run: string, echo: nat): string
  {
    t.funcRel + "/" + subj + t.sesTag + "_task-" + task + "_run-" + run + "_echo-" + NatToString(echo)
      + "_part-mag_bold.nii.gz"
  }

  /** The four `IntendedFor` targets, echo 1 to 4 in order. */
  function Targets(subj: string, t: Target, task: string, run: string): (r: seq<Json>)
    ensures |r| == 4
  {
    seq(4, k requires 0 <= k < 4 => JStr(EchoTarget(subj, t, task, run, k + 1)))
  }

  /** What the edit writes back: `IntendedFor` replaced when task and run were
      found, `Units` forced to `Hz`, both echo times dropped, every other
      field as it was. */
  function Edit(subj: string, t: Target, fname: string, data: Record): (r: Record)
    ensures "Units" in r && r["Units"] == JStr("Hz")
    ensures "EchoTime1" !in r && "EchoTime2" !in r
    ensures forall k :: k in data && k !in {"Units", "EchoTime1", "EchoTime2", "IntendedFor"} ==> k in r && r[k] == data[k]
    ensures forall k :: k in r ==> k in data || k == "Units" || k == "IntendedFor"
    ensures var task := TaskOf(data); var run := RunOf(fname, task);
            if Parsed(task, run) then "IntendedFor" in r && r["IntendedFor"] == JArr(Targets(subj, t, task.value, run.value))
            else ("IntendedFor" in r <==> "IntendedFor" in data) && ("IntendedFor" in data ==> r["IntendedFor"] == data["IntendedFor"])
  {
    var task := TaskOf(data);
    var run := RunOf(fname, task);
    var linked := if Parsed(task, run) then data["IntendedFor" := JArr(Targets(subj, t, task.value, run.value))] else data;
    linked["Units" := JStr("Hz")] - {"EchoTime1", "EchoTime2"}
  }

  /** The edit of one sidecar as the loop body does it: the target list
      built echo by echo, then the record changed field by field. */
  method EditSidecar(subj: string, t: Target, fname: string, data: Record) returns (out: Record, updated: bool)
    ensures out == Edit(subj, t, fname, data)
    ensures updated == Parsed(TaskOf(data), RunOf(fname, TaskOf(data)))
  {
    out := data;
    var task := TaskOf(data);
    var run := RunOf(fname, task);
    updated := Parsed(task, run);
    if updated {
      var intendedFor: seq<Json> := [];
      var echo := 1;
      while echo < 5
        invariant 1 <= echo <= 5
        invariant intendedFor == Targets(subj, t, task.value, run.value)[..echo - 1]
      {
        intendedFor := intendedFor + [JStr(EchoTarget(subj, t, task.value, run.value, echo))];
        echo := echo + 1;
      }
      assert intendedFor == Targets(subj, t, task.value, run.value);
      out := out["IntendedFor" := JArr(intendedFor)];
    }
    out := out["Units" := JStr("Hz")];
    out := out - {"EchoTime1"};
    out := out - {"EchoTime2"};
    assert out.Keys == Edit(subj, t, fname, data).Keys;
  }

  /** The edit changes neither the task nor the file name it reads, so
      editing an edited sidecar gives the same sidecar. */
  lemma EditIdempotent(subj: string, t: Target, fname: string, data: Record)
    ensures Edit(subj, t, fname, Edit(subj, t, fname, data)) == Edit(subj, t, fname, data)
  {
    var once := Edit(subj, t, fname, data);
    assert TaskOf(once) == TaskOf(data);
    var twice := Edit(subj, t, fname, once);
    assert twice.Keys == once.Keys;
  }

  // ---------------------------------------------------------------------------
  // Selection
  // ---------------------------------------------------------------------------

  /** A BIDS tree: directory listings and the parsed sidecars. A path in
      `dirs` is a directory; every directory has a listing. */
  datatype Tree = Tree(dirs: set<string>, listings: map<string, seq<string>>, sidecars: map<string, Record>)

  predicate Valid(fs: Tree) { forall p :: p in fs.dirs ==> p in fs.listings }

  /** The entries of `parent` that start with `prefix` and are directories, in
      listing order. */
  function SubdirsWith(fs: Tree, parent: string, names: seq<string>, prefix: string): (r: seq<string>)
    ensures forall n :: n in r <==> n in names && StartsWith(n, prefix) && PathJoin(parent, n) in fs.dirs
  {
    if names == [] then []
    else
      var rest := SubdirsWith(fs, parent, names[1..], prefix);
      if StartsWith(names[0], prefix) && PathJoin(parent, names[0]) in fs.dirs then [names[0]] + rest else rest
  }

  /** Only field-map and magnitude sidecars, never diffusion ones. */
  predicate EditsJson(f: string)
  {
    EndsWith(f, ".json") && (Contains(f, "fieldmap") || Contains(f, "magnitude")) && !Contains(f, "dwi")
  }

  /** The sidecars of a listing that get edited, in listing order. */
  function SelectJsons(names: seq<string>): (r: seq<string>)
    ensures forall f :: f in r <==> f in names && EditsJson(f)
  {
    if names == [] then []
    else if EditsJson(names[0]) then [names[0]] + SelectJsons(names[1..])
    else SelectJsons(names[1..])
  }

  /** One sidecar edit: its path, subject, session layout and file name. */
  datatype Job = Job(path: string, subj: string, target: Target, fname: string)

  function FileJob(subj: string, t: Target): string -> seq<Job>
  {
    f => [Job(PathJoin(t.fmapDir, f), subj, t, f)]
  }

  /** The edits of one session: none when it has no `fmap` directory. */
  function SessionJobs(fs: Tree, subj: string, t: Target): seq<Job>
    requires Valid(fs)
  {
    if t.fmapDir !in fs.dirs then [] else Order.FlatMap(FileJob(subj, t), SelectJsons(fs.listings[t.fmapDir]))
  }

  /** The sessions of a subject: its `ses-*` directories, or the
      single-session layout when there are none. */
  function SessionsOf(fs: Tree, subjDir: string): (r: seq<Option<string>>)
    requires Valid(fs) && subjDir in fs.dirs
    ensures r != []
  {
    var ses := SubdirsWith(fs, subjDir, fs.listings[subjDir], "ses-");
    if ses == [] then [None] else seq(|ses|, k requires 0 <= k < |ses| => Some(ses[k]))
  }

  function SessionJobsOf(fs: Tree, subj: string, subjDir: string): Option<string> -> seq<Job>
    requires Valid(fs)
  {
    ses => SessionJobs(fs, subj, TargetOf(subjDir, ses))
  }

  function SubjectJobs(fs: Tree, subj: string): seq<Job>
    requires Valid(fs)
  {
    var subjDir := PathJoin(BidsRoot, subj);
    if subjDir !in fs.dirs then []
    else Order.FlatMap(SessionJobsOf(fs, subj, subjDir), SessionsOf(fs, subjDir))
  }

  function SubjectsOf(fs: Tree): seq<string>
    requires Valid(fs) && BidsRoot in fs.dirs
  {
    SubdirsWith(fs, BidsRoot, fs.listings[BidsRoot], "sub-")
  }

  function JobsOfSubject(fs: Tree): string -> seq<Job>
    requires Valid(fs)
  {
    subj => SubjectJobs(fs, subj)
  }

  /** Every edit of a run, in the order the script makes them. */
  function AllJobs(fs: Tree): seq<Job>
    requires Valid(fs) && BidsRoot in fs.dirs
  {
    Order.FlatMap(JobsOfSubject(fs), SubjectsOf(fs))
  }

  // ---------------------------------------------------------------------------
  // Applying the edits
  // ---------------------------------------------------------------------------

  /** The sidecars after a sequence of edits, and the first path that could
      not be read (the script stops there). */
  datatype Written = Written(sidecars: map<string, Record>, failed: Option<string>)

  function Apply(recs: map<string, Record>, j: Job): Written
  {
    if j.path in recs then Written(recs[j.path := Edit(j.subj, j.target, j.fname, recs[j.path])], None)
    else Written(recs, Some(j.path))
  }

  function ApplyJobs(recs: map<string, Record>, jobs: seq<Job>): Written
  {
    if jobs == [] then Written(recs, None)
    else
      var w := ApplyJobs(recs, jobs[..|jobs| - 1]);
      if w.failed.Some? then w else Apply(w.sidecars, jobs[|jobs| - 1])
  }

  lemma {:induction false} ApplyJobsAppend(recs: map<string, Record>, a: seq<Job>, b: seq<Job>)
    ensures ApplyJobs(recs, a + b) ==
            var w := ApplyJobs(recs, a); if w.failed.Some? then w else ApplyJobs(w.sidecars, b)
    decreases |b|
  {
    if b == [] {
      assert a + b == a;
    } else {
      assert (a + b)[..|a + b| - 1] == a + b[..|b| - 1];
      ApplyJobsAppend(recs, a, b[..|b| - 1]);
    }
  }

  /** A sidecar no edit names is left exactly as it was. */
  lemma {:induction false} UntouchedUnchanged(recs: map<string, Record>, jobs: seq<Job>, p: string)
    requires forall k :: 0 <= k < |jobs| ==> jobs[k].path != p
    ensures var w := ApplyJobs(recs, jobs);
            (p in w.sidecars <==> p in recs) && (p in recs ==> w.sidecars[p] == recs[p])
    decreases |jobs|
  {
    if jobs != [] {
      UntouchedUnchanged(recs, jobs[..|jobs| - 1], p);
    }
  }

  /** The edits add and remove no sidecar. */
  lemma {:induction false} KeysKept(recs: map<string, Record>, jobs: seq<Job>)
    ensures ApplyJobs(recs, jobs).sidecars.Keys == recs.Keys
    decreases |jobs|
  {
    if jobs != [] {
      var last := jobs[|jobs| - 1];
      KeysKept(recs, jobs[..|jobs| - 1]);
      var w := ApplyJobs(recs, jobs[..|jobs| - 1]);
      if w.failed.None? && last.path in w.sidecars {
        assert w.sidecars[last.path := Edit(last.subj, last.target, last.fname, w.sidecars[last.path])].Keys == w.sidecars.Keys;
      }
    }
  }

  /** The script fails only on a sidecar it cannot read, and nothing is lost. */
  lemma {:induction false} FailsOnlyOnMissing(recs: map<string, Record>, jobs: seq<Job>)
    ensures var w := ApplyJobs(recs, jobs);
            w.sidecars.Keys == recs.Keys &&
            (w.failed.Some? <==> exists k :: 0 <= k < |jobs| && jobs[k].path !in recs)
    decreases |jobs|
  {
    KeysKept(recs, jobs);
    if jobs != [] {
      var init, last := jobs[..|jobs| - 1], jobs[|jobs| - 1];
      FailsOnlyOnMissing(recs, init);
      var w := ApplyJobs(recs, init);
      if w.failed.Some? {
        var k :| 0 <= k < |init| && init[k].path !in recs;
        assert jobs[k] == init[k];
      } else if last.path in recs {
        forall k | 0 <= k < |jobs| ensures jobs[k].path in recs {
          if k < |init| { assert jobs[k] == init[k]; } else { assert k == |jobs| - 1; }
        }
      }
    }
  }

  /** With no path edited twice, running the script again changes nothing. */
  lemma {:induction false} RunTwice(recs: map<string, Record>, jobs: seq<Job>)
    requires forall i, k :: 0 <= i < k < |jobs| ==> jobs[i].path != jobs[k].path
    requires ApplyJobs(recs, jobs).failed.None?
    ensures ApplyJobs(ApplyJobs(recs, jobs).sidecars, jobs) == ApplyJobs(recs, jobs)
    decreases |jobs|
  {
    if jobs != [] {
      var init := jobs[..|jobs| - 1];
      var last := jobs[|jobs| - 1];
      var w := ApplyJobs(recs, init);
      var done := ApplyJobs(recs, jobs).sidecars;
      RunTwice(recs, init);
      assert last.path in w.sidecars;
      assert done == w.sidecars[last.path := Edit(last.subj, last.target, last.fname, w.sidecars[last.path])];
      // On the finished map, the first |init| edits rewrite what they wrote.
      RerunPrefix(recs, init, last);
      EditIdempotent(last.subj, last.target, last.fname, w.sidecars[last.path]);
    }
  }

  /** Re-applying the first edits to the finished map leaves it unchanged when
      the last edit names another path. */
  lemma RerunPrefix(recs: map<string, Record>, init: seq<Job>, last: Job)
    requires forall i, k :: 0 <= i < k < |init + [last]| ==> (init + [last])[i].path != (init + [last])[k].path
    requires ApplyJobs(recs, init).failed.None?
    requires ApplyJobs(ApplyJobs(recs, init).sidecars, init) == ApplyJobs(recs, init)
    requires last.path in ApplyJobs(recs, init).sidecars
    ensures var w := ApplyJobs(recs, init);
            var done := w.sidecars[last.path := Edit(last.subj, last.target, last.fname, w.sidecars[last.path])];
            ApplyJobs(done, init) == Written(done, None)
  {
    var w := ApplyJobs(recs, init);
    var v := Edit(last.subj, last.target, last.fname, w.sidecars[last.path]);
    forall k | 0 <= k < |init| ensures init[k].path != last.path {
      assert init[k] == (init + [last])[k] && last == (init + [last])[|init|];
    }
    ApplyAway(w.sidecars, init, last.path, v);
  }

  /** Edits that never name `p` commute with setting `p`. */
  lemma {:induction false} ApplyAway(recs: map<string, Record>, jobs: seq<Job>, p: string, v: Record)
    requires forall k :: 0 <= k < |jobs| ==> jobs[k].path != p
    ensures var w := ApplyJobs(recs, jobs);
            ApplyJobs(recs[p := v], jobs) == Written(w.sidecars[p := v], w.failed)
    decreases |jobs|
  {
    if jobs != [] {
      ApplyAway(recs, jobs[..|jobs| - 1], p, v);
      var w := ApplyJobs(recs, jobs[..|jobs| - 1]);
      var j := jobs[|jobs| - 1];
      if w.failed.None? && j.path in w.sidecars {
        assert w.sidecars[p := v][j.path] == w.sidecars[j.path];
        assert w.sidecars[p := v][j.path := Edit(j.subj, j.target, j.fname, w.sidecars[j.path])]
            == w.sidecars[j.path := Edit(j.subj, j.target, j.fname, w.sidecars[j.path])][p := v];
      }
    }
  }

  // ---------------------------------------------------------------------------
  // The script's loops
  // ---------------------------------------------------------------------------

  /** `os.listdir(bidsdir)` raising stops the script before any edit. */
  datatype Outcome = NoBidsDir | Ran(written: Written)

  /** The loop over one `fmap` directory's selected sidecars. */
  method EditFmapDir(recs: map<string, Record>, subj: string, t: Target, files: seq<string>) returns (w: Written)
    ensures w == ApplyJobs(recs, Order.FlatMap(FileJob(subj, t), files))
  {
    var f := FileJob(subj, t);
    w := Written(recs, None);
    var i := 0;
    while i < |files|
      invariant 0 <= i <= |files|
      invariant w == ApplyJobs(recs, Order.FlatMap(f, files[..i])) && w.failed.None?
    {
      var w2 := EditFile(w.sidecars, subj, t, files[i]);
      LoopStep(recs, f, files, i, w, w2);
      if w2.failed.Some? {
        return w2;
      }
      w := w2;
      i := i + 1;
    }
    assert files[..i] == files;
  }

  /** One selected sidecar: a failure when it is not there to read. */
  method EditFile(recs: map<string, Record>, subj: string, t: Target, fname: string) returns (w: Written)
    ensures w == ApplyJobs(recs, FileJob(subj, t)(fname))
  {
    var path := PathJoin(t.fmapDir, fname);
    var jobs := [Job(path, subj, t, fname)];
    assert jobs[..0] == [];
    if path !in recs {
      return Written(recs, Some(path));
    }
    var out, updated := EditSidecar(subj, t, fname, recs[path]);
    w := Written(recs[path := out], None);
  }

  /** Once an edit has failed, later edits do nothing. */
  lemma FailureSticks(recs: map<string, Record>, a: seq<Job>, b: seq<Job>)
    requires ApplyJobs(recs, a).failed.Some?
    ensures ApplyJobs(recs, a + b) == ApplyJobs(recs, a)
  {
    ApplyJobsAppend(recs, a, b);
  }

  /** One more element of a loop over `s`: its edits follow the earlier ones,
      and a failure among them is the result of the whole loop. */
  lemma LoopStep<A>(recs: map<string, Record>, f: A -> seq<Job>, s: seq<A>, i: nat, w: Written, w2: Written)
    requires i < |s|
    requires w == ApplyJobs(recs, Order.FlatMap(f, s[..i])) && w.failed.None?
    requires w2 == ApplyJobs(w.sidecars, f(s[i]))
    ensures w2 == ApplyJobs(recs, Order.FlatMap(f, s[..i + 1]))
    ensures w2.failed.Some? ==> w2 == ApplyJobs(recs, Order.FlatMap(f, s))
  {
    Order.FlatMapSnoc(f, s, i);
    ApplyJobsAppend(recs, Order.FlatMap(f, s[..i]), f(s[i]));
    if w2.failed.Some? {
      assert s[..i + 1] + s[i + 1..] == s;
      Order.FlatMapSplit(f, s[..i + 1], s[i + 1..]);
      FailureSticks(recs, Order.FlatMap(f, s[..i + 1]), Order.FlatMap(f, s[i + 1..]));
    }
  }

  /** One session: nothing without an `fmap` directory or a selected sidecar. */
  method EditSession(fs: Tree, recs: map<string, Record>, subj: string, t: Target) returns (w: Written)
    requires Valid(fs)
    ensures w == ApplyJobs(recs, SessionJobs(fs, subj, t))
  {
    if t.fmapDir !in fs.dirs {
      return Written(recs, None);
    }
    var files := SelectJsons(fs.listings[t.fmapDir]);
    if files == [] {
      return Written(recs, None);
    }
    w := EditFmapDir(recs, subj, t, files);
  }

  /** The loop over a subject's sessions. */
  method EditSubject(fs: Tree, recs: map<string, Record>, subj: string) returns (w: Written)
    requires Valid(fs) && PathJoin(BidsRoot, subj) in fs.dirs
    ensures w == ApplyJobs(recs, SubjectJobs(fs, subj))
  {
    var subjDir := PathJoin(BidsRoot, subj);
    var sessions := SessionsOf(fs, subjDir);
    var f := SessionJobsOf(fs, subj, subjDir);
    w := Written(recs, None);
    var i := 0;
    while i < |sessions|
      invariant 0 <= i <= |sessions|
      invariant w == ApplyJobs(recs, Order.FlatMap(f, sessions[..i])) && w.failed.None?
    {
      var w2 := EditSession(fs, w.sidecars, subj, TargetOf(subjDir, sessions[i]));
      LoopStep(recs, f, sessions, i, w, w2);
      if w2.failed.Some? {
        return w2;
      }
      w := w2;
      i := i + 1;
    }
    assert sessions[..i] == sessions;
  }

  /** The script: every subject directory in listing order. */
  method AddIntendedFor(fs: Tree) returns (o: Outcome)
    requires Valid(fs)
    ensures BidsRoot !in fs.dirs ==> o == NoBidsDir
    ensures BidsRoot in fs.dirs ==> o == Ran(ApplyJobs(fs.sidecars, AllJobs(fs)))
  {
    if BidsRoot !in fs.dirs {
      return NoBidsDir;
    }
    var subs := SubjectsOf(fs);
    var f := JobsOfSubject(fs);
    var w := Written(fs.sidecars, None);
    var i := 0;
    while i < |subs|
      invariant 0 <= i <= |subs|
      invariant w == ApplyJobs(fs.sidecars, Order.FlatMap(f, subs[..i])) && w.failed.None?
    {
      assert subs[i] in subs;
      var w2 := EditSubject(fs, w.sidecars, subs[i]);
      LoopStep(fs.sidecars, f, subs, i, w, w2);
      if w2.failed.Some? {
        return Ran(w2);
      }
      w := w2;
      i := i + 1;
    }
    assert subs[..i] == subs;
    return Ran(w);
  }

  // ---------------------------------------------------------------------------
  // What the edits are
  // ---------------------------------------------------------------------------

  lemma {:induction false} FileJobsShape(subj: string, t: Target, files: seq<string>, j: Job)
    requires j in Order.FlatMap(FileJob(subj, t), files)
    ensures j.subj == subj && j.target == t && j.fname in files && j.path == PathJoin(t.fmapDir, j.fname)
  {
    if files != [] {
      if j !in FileJob(subj, t)(files[0]) {
        FileJobsShape(subj, t, files[1..], j);
      }
    }
  }

  lemma {:induction false} FlatMapMember<A>(f: A -> seq<Job>, s: seq<A>, j: Job) returns (x: A)
    requires j in Order.FlatMap(f, s)
    ensures x in s && j in f(x)
  {
    if j in f(s[0]) {
      x := s[0];
    } else {
      x := FlatMapMember(f, s[1..], j);
    }
  }

  /** Every edit is of a selected sidecar in the `fmap` directory of a
      `sub-*` subject directory, and a subject without `ses-*` directories
      uses the single-session layout. */
  lemma JobsAreSelected(fs: Tree, j: Job)
    requires Valid(fs) && BidsRoot in fs.dirs
    requires j in AllJobs(fs)
    ensures StartsWith(j.subj, "sub-") && j.subj in fs.listings[BidsRoot]
    ensures EditsJson(j.fname) && j.target.fmapDir in fs.dirs && j.fname in fs.listings[j.target.fmapDir]
    ensures j.path == PathJoin(j.target.fmapDir, j.fname)
    ensures var subjDir := PathJoin(BidsRoot, j.subj);
            subjDir in fs.dirs &&
            (SubdirsWith(fs, subjDir, fs.listings[subjDir], "ses-") == [] ==> j.target == TargetOf(subjDir, None))
  {
    var subj := FlatMapMember(JobsOfSubject(fs), SubjectsOf(fs), j);
    var subjDir := PathJoin(BidsRoot, subj);
    var ses := FlatMapMember(SessionJobsOf(fs, subj, subjDir), SessionsOf(fs, subjDir), j);
    var t := TargetOf(subjDir, ses);
    FileJobsShape(subj, t, SelectJsons(fs.listings[t.fmapDir]), j);
  }
}
