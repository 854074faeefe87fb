/** The sequential HPC driver: a filename parser for (task, run) pairs, three
    runners that issue commands one after another and drop marker files, and
    the four-stage workflow that chains them.

    The file system is a value: file contents by path, directory listings by
    path (a path is a directory exactly when it has a listing), and the set of
    command lines that exit non-zero. A runner returns the new file system,
    what it wrote to the shared log, and either its marker path or the
    exception that stopped it. */
module HpcDriver {
  import opened Text
  import opened Order
  import Faststart
  import FaststartChain

  // ---------------------------------------------------------------------------
  // task_run_pairs
  // ---------------------------------------------------------------------------

  const MagSuffix: string := "_echo-1_part-mag_bold.json"

  /** `sub-X_ses-Y_`, which a file name must contain. */
  function SessionTag(sub: string, ses: string): string
  {
    "sub-" + sub + "_ses-" + ses + "_"
  }

  /** What one directory entry contributes: the task is the text between the
      first `_task-` and the next `_task-` cut at its first `_run-`; the run is
      the text after the first `_run-` up to the next `_`. A split that raises
      IndexError, or a run that is not all digits, contributes nothing. */
  function PairOf(sub: string, ses: string, fn: string): (r: Option<(string, string)>)
    ensures r.Some? ==> EndsWith(fn, MagSuffix) && Contains(fn, SessionTag(sub, ses))
    ensures r.Some? ==> Contains(fn, "_task-") && Contains(fn, "_run-")
    ensures r.Some? ==> AllDigits(r.value.1) && !Contains(r.value.0, "_run-")
  {
    if !EndsWith(fn, MagSuffix) || !Contains(fn, SessionTag(sub, ses)) then None
    else
      match SecondPiece(fn, "_task-")
      case None => None
      case Some(afterTask) =>
        match SecondPiece(fn, "_run-")
        case None => None
        case Some(afterRun) =>
          var run := Before(afterRun, "_");
          if AllDigits(run) then Some((Before(afterTask, "_run-"), run)) else None
  }

  /** What each entry of a listing yields, in listing order. */
  function Parsed(sub: string, ses: string, names: seq<string>): (r: seq<Option<(string, string)>>)
    ensures |r| == |names|
    ensures forall k :: 0 <= k < |names| ==> r[k] == PairOf(sub, ses, names[k])
  {
    seq(|names|, k requires 0 <= k < |names| => PairOf(sub, ses, names[k]))
  }

  /** The pairs of a listing, in listing order, repeats included. */
  function Found(sub: string, ses: string, names: seq<string>): seq<(string, string)>
  {
    Somes(Parsed(sub, ses, names))
  }

  /** The file system the runners see. */
  datatype Host = Host(files: map<string, string>, dirs: map<string, seq<string>>, failing: set<seq<string>>)

  /** `task_run_pairs(funcdir, sub, ses)`: `[]` when the directory is missing,
      otherwise `sorted(pairs)` of the set of pairs found. */
  function TaskRunPairs(h: Host, funcdir: string, sub: string, ses: string): seq<(string, string)>
  {
    if funcdir !in h.dirs then [] else SortedSet(Found(sub, ses, h.dirs[funcdir]), StrPairLess)
  }

  lemma DedupStep<T(!new)>(s: seq<T>, x: T)
    ensures Dedup(s + [x]) == if x in Dedup(s) then Dedup(s) else Dedup(s) + [x]
  {
    assert (s + [x])[..|s|] == s;
  }

  lemma ParsedStep(sub: string, ses: string, names: seq<string>, i: nat)
    requires i < |names|
    ensures Parsed(sub, ses, names[..i + 1]) == Parsed(sub, ses, names[..i]) + [PairOf(sub, ses, names[i])]
  {
  }

  /** `task_run_pairs`: the pairs are collected into a set (kept here as a
      duplicate-free sequence in first-seen order), then sorted. */
  method ComputeTaskRunPairs(h: Host, funcdir: string, sub: string, ses: string)
    returns (pairs: seq<(string, string)>)
    ensures pairs == TaskRunPairs(h, funcdir, sub, ses)
  {
    if funcdir !in h.dirs {
      return [];
    }
    var names := h.dirs[funcdir];
    var seen: seq<(string, string)> := [];
    var i := 0;
    while i < |names|
      invariant 0 <= i <= |names|
      invariant seen == Dedup(Found(sub, ses, names[..i]))
    {
      ParsedStep(sub, ses, names, i);
      var p := PairOf(sub, ses, names[i]);
      assert Parsed(sub, ses, names[..i + 1])[..i] == Parsed(sub, ses, names[..i]);
      if p.Some? {
        DedupStep(Found(sub, ses, names[..i]), p.value);
        if p.value !in seen {
          seen := seen + [p.value];
        }
      }
      i := i + 1;
    }
    assert names[..i] == names;
    pairs := Sort(seen, StrPairLess);
  }

  lemma FoundMembers(sub: string, ses: string, names: seq<string>, p: (string, string))
    ensures p in Found(sub, ses, names) <==> exists k :: 0 <= k < |names| && PairOf(sub, ses, names[k]) == Some(p)
  {
    SomesMembers(Parsed(sub, ses, names), p);
  }

  /** `task_run_pairs` lists, sorted as strings and without repeats, exactly
      the pairs some entry of the functional directory yields; a missing
      directory yields none. */
  lemma TaskRunPairsSpec(h: Host, funcdir: string, sub: string, ses: string)
    ensures var r := TaskRunPairs(h, funcdir, sub, ses);
            && SortedBy(r, StrPairLess)
            && (forall i, j :: 0 <= i < j < |r| ==> r[i] != r[j])
            && (funcdir !in h.dirs ==> r == [])
            && (funcdir in h.dirs ==>
                  forall p :: p in r <==> exists k :: 0 <= k < |h.dirs[funcdir]| && PairOf(sub, ses, h.dirs[funcdir][k]) == Some(p))
  {
    if funcdir in h.dirs {
      var names := h.dirs[funcdir];
      StrPairStrictTotal();
      SortSorted(Dedup(Found(sub, ses, names)), StrPairLess);
      forall p ensures p in TaskRunPairs(h, funcdir, sub, ses) <==> exists k :: 0 <= k < |names| && PairOf(sub, ses, names[k]) == Some(p) {
        FoundMembers(sub, ses, names, p);
      }
    }
  }

  /** Runs are compared as text: run "10" of a task comes before run "2",
      where the fast-start discovery, which compares integers, puts it
      after. */
  lemma RunsSortAsText(t: string)
    ensures StrPairLess((t, "10"), (t, "2"))
    ensures StrIntLess((t, 2), (t, 10))
  {
    StrStrictTotal();
  }

  // ---------------------------------------------------------------------------
  // Agreement with the fast-start discovery on well-formed names
  // ---------------------------------------------------------------------------

  /** No `a` in `s` is directly followed by `b`. */
  predicate NoPair(s: string, a: char, b: char) {
    forall j :: 0 <= j < |s| - 1 ==> !(s[j] == a && s[j + 1] == b)
  }

  lemma NoPairConcat(x: string, y: string, a: char, b: char)
    requires NoPair(x, a, b) && NoPair(y, a, b)
    requires x == [] || y == [] || !(x[|x| - 1] == a && y[0] == b)
    ensures NoPair(x + y, a, b)
  {
    var s := x + y;
    forall j | 0 <= j < |s| - 1 ensures !(s[j] == a && s[j + 1] == b) {
      if j + 1 < |x| {
        assert s[j] == x[j] && s[j + 1] == x[j + 1];
      } else if j >= |x| {
        assert s[j] == y[j - |x|] && s[j + 1] == y[j + 1 - |x|];
      }
    }
  }

  lemma NoPairNoOccurrence(s: string, pat: string, n: nat)
    requires |pat| >= 2 && n <= |s| && NoPair(s[..n], pat[0], pat[1])
    ensures forall j :: 0 <= j && j + 1 < n ==> !OccursAt(s, pat, j)
  {
    forall j | 0 <= j && j + 1 < n ensures !OccursAt(s, pat, j) {
      assert s[..n][j] == s[j] && s[..n][j + 1] == s[j + 1];
      if j + |pat| <= |s| {
        assert s[j..j + |pat|][0] == s[j] && s[j..j + |pat|][1] == s[j + 1];
      }
    }
  }

  /** The first occurrence of a two-character-led pattern, found by looking at
      character pairs only. */
  lemma FirstOccurrence(s: string, pat: string, p: nat)
    requires |pat| >= 2 && OccursAt(s, pat, p) && NoPair(s[..p + 1], pat[0], pat[1])
    ensures FindFrom(s, pat, 0) == Some(p)
  {
    NoPairNoOccurrence(s, pat, p + 1);
  }

  lemma NoOccurrence(s: string, pat: string)
    requires |pat| >= 2 && NoPair(s, pat[0], pat[1])
    ensures FindFrom(s, pat, 0).None?
  {
    assert s[..|s|] == s;
    NoPairNoOccurrence(s, pat, |s|);
  }

  predicate Word(w: string) {
    forall k :: 0 <= k < |w| ==> IsAlnum(w[k])
  }

  /** `sub-X_ses-Y_task-T_run-R_echo-1_part-mag_bold.json` */
  function WellFormedName(sub: string, ses: string, t: string, r: string): string
  {
    "sub-" + sub + "_ses-" + ses + "_task-" + t + "_run-" + r + MagSuffix
  }

  lemma TaskPieceOfName(sub: string, ses: string, t: string, r: string)
    requires Word(sub) && Word(ses) && Word(t) && Word(r)
    ensures SecondPiece(WellFormedName(sub, ses, t, r), "_task-") == Some(t + "_run-" + r + MagSuffix)
  {
    var a := "sub-" + sub;
    var b := "_ses-" + ses;
    var tail := t + "_run-" + r + MagSuffix;
    var s := WellFormedName(sub, ses, t, r);
    assert s == a + b + "_task-" + tail;
    var p1 := |a| + |b|;
    assert NoPair(s[..p1 + 1], '_', 't') by {
      HeadHasNoTask(sub, ses);
      assert s[..p1 + 1] == "sub-" + sub + "_ses-" + ses + "_";
    }
    assert OccursAt(s, "_task-", p1) by { assert s[p1..p1 + 6] == "_task-"; }
    FirstOccurrence(s, "_task-", p1);
    assert s[p1 + 6..] == tail;
    TailHasNoTask(t, r);
    NoOccurrence(tail, "_task-");
  }

  lemma TailHasNoTask(t: string, r: string)
    requires Word(t) && Word(r)
    ensures NoPair(t + "_run-" + r + MagSuffix, '_', 't')
  {
    assert NoPair(MagSuffix, '_', 't');
    NoPairConcat(t, "_run-", '_', 't');
    NoPairConcat(t + "_run-", r, '_', 't');
    NoPairConcat(t + "_run-" + r, MagSuffix, '_', 't');
  }

  lemma HeadHasNoTask(sub: string, ses: string)
    requires Word(sub) && Word(ses)
    ensures NoPair("sub-" + sub + "_ses-" + ses + "_", '_', 't')
  {
    NoPairConcat("sub-", sub, '_', 't');
    NoPairConcat("_ses-", ses, '_', 't');
    NoPairConcat("sub-" + sub, "_ses-" + ses, '_', 't');
    assert "sub-" + sub + "_ses-" + ses == ("sub-" + sub) + ("_ses-" + ses);
    NoPairConcat("sub-" + sub + "_ses-" + ses, "_", '_', 't');
  }

  lemma TaskOfTail(t: string, r: string)
    requires Word(t)
    ensures Before(t + "_run-" + r + MagSuffix, "_run-") == t
  {
    var tail := t + "_run-" + r + MagSuffix;
    assert OccursAt(tail, "_run-", |t|) by { assert tail[|t|..|t| + 5] == "_run-"; }
    assert NoPair(tail[..|t| + 1], '_', 'r') by {
      NoPairConcat(t, "_", '_', 'r');
      assert tail[..|t| + 1] == t + "_";
    }
    FirstOccurrence(tail, "_run-", |t|);
    assert tail[..|t|] == t;
  }

  lemma RunPieceOfName(sub: string, ses: string, t: string, r: string)
    requires Word(sub) && Word(ses) && Word(t) && Word(r)
    ensures SecondPiece(WellFormedName(sub, ses, t, r), "_run-") == Some(r + MagSuffix)
  {
    var pre := "sub-" + sub + "_ses-" + ses + "_task-" + t;
    var s := WellFormedName(sub, ses, t, r);
    var runTail := r + MagSuffix;
    assert s == pre + "_run-" + runTail;
    var p2 := |pre|;
    assert NoPair(s[..p2 + 1], '_', 'r') by {
      NoPairConcat("sub-", sub, '_', 'r');
      NoPairConcat("sub-" + sub, "_ses-", '_', 'r');
      NoPairConcat("sub-" + sub + "_ses-", ses, '_', 'r');
      NoPairConcat("sub-" + sub + "_ses-" + ses, "_task-", '_', 'r');
      NoPairConcat("sub-" + sub + "_ses-" + ses + "_task-", t, '_', 'r');
      NoPairConcat(pre, "_", '_', 'r');
      assert s[..p2 + 1] == pre + "_";
    }
    assert OccursAt(s, "_run-", p2) by { assert s[p2..p2 + 5] == "_run-"; }
    FirstOccurrence(s, "_run-", p2);
    assert s[p2 + 5..] == runTail;
    assert NoPair(runTail, '_', 'r') by {
      assert NoPair(MagSuffix, '_', 'r');
      NoPairConcat(r, MagSuffix, '_', 'r');
    }
    NoOccurrence(runTail, "_run-");
  }

  lemma RunOfTail(r: string)
    requires Word(r)
    ensures Before(r + MagSuffix, "_") == r
  {
    var runTail := r + MagSuffix;
    assert runTail[|r|] == '_';
    forall k | 0 <= k < |r| ensures runTail[k] != '_' {
      assert runTail[k] == r[k];
    }
    OneCharFind(runTail, '_', |r|);
    assert runTail[..|r|] == r;
  }

  /** On a name of the form the fast-start discovery matches, with a subject
      and session label made of letters and digits, the two parsers agree. */
  lemma AgreesWithFaststart(sub: string, ses: string, t: string, r: string)
    requires FaststartChain.AlnumWord(sub) && FaststartChain.AlnumWord(ses)
    requires FaststartChain.AlnumWord(t) && AllDigits(r)
    ensures PairOf(sub, ses, FaststartChain.NamePrefix(sub, ses) + t + "_run-" + r + FaststartChain.MagJsonSuffix) == Some((t, r))
  {
    var s := WellFormedName(sub, ses, t, r);
    assert s == FaststartChain.NamePrefix(sub, ses) + t + "_run-" + r + FaststartChain.MagJsonSuffix;
    assert s[|s| - |MagSuffix|..] == MagSuffix;
    assert OccursAt(s, SessionTag(sub, ses), 0) by {
      assert s[..|SessionTag(sub, ses)|] == SessionTag(sub, ses);
    }
    TaskPieceOfName(sub, ses, t, r);
    TaskOfTail(t, r);
    RunPieceOfName(sub, ses, t, r);
    RunOfTail(r);
  }

  /** Finding a one-character pattern is finding the character. */
  lemma OneCharFind(s: string, c: char, i: nat)
    requires i < |s| && s[i] == c && forall k :: 0 <= k < i ==> s[k] != c
    ensures FindFrom(s, [c], 0) == Some(i)
  {
    OneCharOccurs(s, c, i);
    var r := FindFrom(s, [c], 0);
    assert r.Some?;
    OneCharOccurs(s, c, r.value);
  }

  /** A one-character pattern occurs exactly where the character is. */
  lemma OneCharOccurs(s: string, c: char, j: int)
    ensures OccursAt(s, [c], j) <==> 0 <= j < |s| && s[j] == c
  {
    if 0 <= j < |s| {
      assert |s[j..j + 1]| == 1 && s[j..j + 1][0] == s[j];
    }
  }

  // ---------------------------------------------------------------------------
  // Running commands with check=True
  // ---------------------------------------------------------------------------

  /** What a runner writes to the shared log: `$ <command>` before running
      it, or a `# SKIP` note. */
  datatype LogLine = Ran(argv: seq<string>) | SkipMissing(path: string)

  predicate Fails(failing: set<seq<string>>, l: LogLine) { l.Ran? && l.argv in failing }

  predicate Clean(failing: set<seq<string>>, ls: seq<LogLine>) {
    forall k :: 0 <= k < |ls| ==> !Fails(failing, ls[k])
  }

  /** Running `ls` in order, each command with `check=True`: everything up to
      and including the first failing command. */
  function Issued(failing: set<seq<string>>, ls: seq<LogLine>): (r: seq<LogLine>)
    ensures |r| <= |ls|
  {
    if ls == [] then []
    else if Fails(failing, ls[0]) then [ls[0]]
    else [ls[0]] + Issued(failing, ls[1..])
  }

  /** What runs is a prefix of the commands: all of them when none fails,
      otherwise the commands before the first failure and that failure. */
  lemma {:induction false} IssuedShape(failing: set<seq<string>>, ls: seq<LogLine>)
    ensures var r := Issued(failing, ls);
            && r <= ls
            && (Clean(failing, ls) ==> r == ls)
            && (!Clean(failing, ls) ==> r != [] && Clean(failing, r[..|r| - 1]) && Fails(failing, r[|r| - 1]))
  {
    if ls != [] && !Fails(failing, ls[0]) {
      IssuedShape(failing, ls[1..]);
      var rest := Issued(failing, ls[1..]);
      var r := [ls[0]] + rest;
      assert ls == [ls[0]] + ls[1..];
      if Clean(failing, ls) {
        assert Clean(failing, ls[1..]) by {
          forall k | 0 <= k < |ls[1..]| ensures !Fails(failing, ls[1..][k]) { assert ls[1..][k] == ls[k + 1]; }
        }
      }
      if !Clean(failing, ls) {
        assert !Clean(failing, ls[1..]) by {
          var k :| 0 <= k < |ls| && Fails(failing, ls[k]);
          assert ls[1..][k - 1] == ls[k];
        }
        assert r[..|r| - 1] == [ls[0]] + rest[..|rest| - 1];
        CleanAppend(failing, [ls[0]], rest[..|rest| - 1]);
      }
    }
  }

  /** A failure inside a block that follows clean commands: what runs is the
      clean part and the block's own run. */
  lemma FailureInBlock(failing: set<seq<string>>, all: seq<LogLine>, pre: seq<LogLine>, block: seq<LogLine>)
    requires pre + block <= all
    requires Clean(failing, pre) && !Clean(failing, block)
    ensures Issued(failing, all) == pre + Issued(failing, block)
    ensures !Clean(failing, all)
  {
    var rest := all[|pre| + |block|..];
    assert all == (pre + block) + rest;
    assert all == pre + (block + rest);
    IssuedAppendClean(failing, pre, block + rest);
    IssuedAppendDirty(failing, block, rest);
    CleanAppend(failing, pre, block);
    CleanAppend(failing, pre + block, rest);
  }

  lemma {:induction false} IssuedAppendClean(failing: set<seq<string>>, a: seq<LogLine>, b: seq<LogLine>)
    requires Clean(failing, a)
    ensures Issued(failing, a + b) == a + Issued(failing, b)
  {
    if a != [] {
      assert (a + b)[0] == a[0] && !Fails(failing, a[0]);
      assert (a + b)[1..] == a[1..] + b;
      assert Clean(failing, a[1..]) by {
        forall k | 0 <= k < |a[1..]| ensures !Fails(failing, a[1..][k]) { assert a[1..][k] == a[k + 1]; }
      }
      IssuedAppendClean(failing, a[1..], b);
      assert a == [a[0]] + a[1..];
      assert Issued(failing, a + b) == [a[0]] + Issued(failing, a[1..] + b);
    } else {
      assert a + b == b;
    }
  }

  lemma {:induction false} IssuedAppendDirty(failing: set<seq<string>>, a: seq<LogLine>, b: seq<LogLine>)
    requires !Clean(failing, a)
    ensures Issued(failing, a + b) == Issued(failing, a)
  {
    assert a != [];
    assert (a + b)[0] == a[0];
    if !Fails(failing, a[0]) {
      assert (a + b)[1..] == a[1..] + b;
      IssuedAppendDirty(failing, a[1..], b);
    }
  }

  lemma CleanAppend(failing: set<seq<string>>, a: seq<LogLine>, b: seq<LogLine>)
    ensures Clean(failing, a + b) <==> Clean(failing, a) && Clean(failing, b)
  {
    if Clean(failing, a) && Clean(failing, b) {
      forall k | 0 <= k < |a + b| ensures !Fails(failing, (a + b)[k]) {
        if k >= |a| { assert (a + b)[k] == b[k - |a|]; }
      }
    }
    if Clean(failing, a + b) {
      forall k | 0 <= k < |a| ensures !Fails(failing, a[k]) {
        assert (a + b)[k] == a[k];
      }
      forall k | 0 <= k < |b| ensures !Fails(failing, b[k]) {
        assert (a + b)[|a| + k] == b[k];
      }
    }
  }

  /** `_run` over a list of commands: stop at the first that fails. */
  method RunCommands(failing: set<seq<string>>, ls: seq<LogLine>) returns (log: seq<LogLine>, ok: bool)
    ensures log == Issued(failing, ls) && ok == Clean(failing, ls)
  {
    log := [];
    var i := 0;
    while i < |ls|
      invariant 0 <= i <= |ls| && log == ls[..i] && Clean(failing, log)
    {
      log := log + [ls[i]];
      assert log == ls[..i + 1];
      if Fails(failing, ls[i]) {
        FailureInBlock(failing, ls, ls[..i], [ls[i]]);
        return log, false;
      }
      i := i + 1;
    }
    assert ls[..i] == ls;
    IssuedShape(failing, ls);
    ok := true;
  }

  // ---------------------------------------------------------------------------
  // The runners
  // ---------------------------------------------------------------------------

  /** How a runner ends: the file system it leaves, its log lines, and its
      marker path or the exception it raised. */
  datatype Outcome = Outcome(host: Host, log: seq<LogLine>, marker: Result<string>)

  /** `open(path, "w").close()` */
  function Touch(h: Host, path: string): Host
  {
    h.(files := h.files[path := ""])
  }

  /** `[s.strip() for s in f if s.strip()]`, or None when the file is missing. */
  function ReadRoster(h: Host, path: string): Option<seq<string>>
  {
    if path in h.files then Some(Faststart.ParseRoster(h.files[path])) else None
  }

  function PrepScript(scriptDir: string): string { PathJoin(scriptDir, "prepdata-linux2.sh") }

  /** The prepdata commands: for each subject in roster order, session 01
      then session 02. */
  function PrepLines(scriptDir: string, subs: seq<string>): (r: seq<LogLine>)
    ensures |r| == 2 * |subs|
  {
    seq(2 * |subs|, k requires 0 <= k < 2 * |subs| =>
          Ran(["bash", PrepScript(scriptDir), subs[k / 2], if k % 2 == 0 then "01" else "02"]))
  }

  function PrepMarker(sublistFile: string): string { PathJoin(Dirname(sublistFile), ".prepdata_done") }

  /** `run_prep_all` */
  function PrepOutcome(h: Host, sublistFile: string, scriptDir: string): Outcome
  {
    match ReadRoster(h, sublistFile)
    case None => Outcome(h, [], Err("FileNotFoundError"))
    case Some(subs) =>
      var cmds := PrepLines(scriptDir, subs);
      if Clean(h.failing, cmds) then Outcome(Touch(h, PrepMarker(sublistFile)), cmds, Ok(PrepMarker(sublistFile)))
      else Outcome(h, Issued(h.failing, cmds), Err("CalledProcessError"))
  }

  lemma PrepPairAt(scriptDir: string, subs: seq<string>, i: nat)
    requires i < |subs|
    ensures var all := PrepLines(scriptDir, subs);
            all[2 * i] == Ran(["bash", PrepScript(scriptDir), subs[i], "01"]) &&
            all[2 * i + 1] == Ran(["bash", PrepScript(scriptDir), subs[i], "02"]) &&
            all[2 * i..2 * i + 2] == [all[2 * i], all[2 * i + 1]]
  {
    assert (2 * i) / 2 == i && (2 * i) % 2 == 0;
    assert (2 * i + 1) / 2 == i && (2 * i + 1) % 2 == 1;
  }

  method RunPrepAll(h: Host, sublistFile: string, scriptDir: string) returns (o: Outcome)
    ensures o == PrepOutcome(h, sublistFile, scriptDir)
  {
    if sublistFile !in h.files {
      return Outcome(h, [], Err("FileNotFoundError"));
    }
    var subs := Faststart.ParseRoster(h.files[sublistFile]);
    var all := PrepLines(scriptDir, subs);
    var log: seq<LogLine> := [];
    var i := 0;
    while i < |subs|
      invariant 0 <= i <= |subs|
      invariant log == all[..2 * i] && Clean(h.failing, log)
    {
      var pair := [Ran(["bash", PrepScript(scriptDir), subs[i], "01"]), Ran(["bash", PrepScript(scriptDir), subs[i], "02"])];
      PrepPairAt(scriptDir, subs, i);
      assert all[..2 * i + 2] == all[..2 * i] + pair;
      var l, ok := RunCommands(h.failing, pair);
      if !ok {
        FailureInBlock(h.failing, all, log, pair);
        return Outcome(h, log + l, Err("CalledProcessError"));
      }
      IssuedShape(h.failing, pair);
      CleanAppend(h.failing, log, pair);
      log := log + l;
      i := i + 1;
    }
    assert all[..2 * i] == all;
    IssuedShape(h.failing, all);
    return Outcome(Touch(h, PrepMarker(sublistFile)), log, Ok(PrepMarker(sublistFile)));
  }

  /** The prep marker exists afterwards exactly when the roster was read and
      every prepdata command succeeded, and then every command ran. A failing
      command is the last one run and leaves the file system as it was. */
  lemma PrepMarkerOnlyOnSuccess(h: Host, sublistFile: string, scriptDir: string)
    ensures var o := PrepOutcome(h, sublistFile, scriptDir);
            && (o.marker.Ok? <==> sublistFile in h.files && Clean(h.failing, PrepLines(scriptDir, ReadRoster(h, sublistFile).value)))
            && (o.marker.Ok? ==> o.log == PrepLines(scriptDir, ReadRoster(h, sublistFile).value))
            && (o.marker.Ok? ==> o.host.files == h.files[PrepMarker(sublistFile) := ""] && o.host.dirs == h.dirs)
            && (o.marker.Err? ==> o.host == h)
            && (o.marker.Err? && sublistFile in h.files ==> o.log != [] && Fails(h.failing, o.log[|o.log| - 1]))
  {
    if sublistFile in h.files {
      IssuedShape(h.failing, PrepLines(scriptDir, ReadRoster(h, sublistFile).value));
    }
  }

  // ---------------------------------------------------------------------------
  // run_warp_all
  // ---------------------------------------------------------------------------

  function WarpkitScript(scriptDir: string): string { PathJoin(scriptDir, "warpkit.sh") }

  /** `<bids>/sub-X/ses-Y/func` */
  function WarpFuncDir(bids: string, sub: string, ses: string): string
  {
    PathJoin(PathJoin(PathJoin(bids, "sub-" + sub), "ses-" + ses), "func")
  }

  /** One warpkit command per (task, run) pair, in the pairs' order. */
  function WarpLines(wk: string, sub: string, ses: string, pairs: seq<(string, string)>): (r: seq<LogLine>)
    ensures |r| == |pairs|
  {
    seq(|pairs|, k requires 0 <= k < |pairs| => Ran(["bash", wk, sub, ses, pairs[k].0, pairs[k].1]))
  }

  function SessionWarps(h: Host, bids: string, wk: string, sub: string, ses: string): seq<LogLine>
  {
    WarpLines(wk, sub, ses, TaskRunPairs(h, WarpFuncDir(bids, sub, ses), sub, ses))
  }

  /** A subject's commands: session 01's pairs, then session 02's. */
  function SubjectWarps(h: Host, bids: string, wk: string, sub: string): seq<LogLine>
  {
    SessionWarps(h, bids, wk, sub, "01") + SessionWarps(h, bids, wk, sub, "02")
  }

  /** The commands of each roster subject, in roster order. */
  function Blocks(h: Host, bids: string, wk: string, subs: seq<string>): (r: seq<seq<LogLine>>)
    ensures |r| == |subs|
  {
    seq(|subs|, k requires 0 <= k < |subs| => SubjectWarps(h, bids, wk, subs[k]))
  }

  function Concat(bs: seq<seq<LogLine>>): seq<LogLine>
  {
    if bs == [] then [] else Concat(bs[..|bs| - 1]) + bs[|bs| - 1]
  }

  /** How many leading blocks run before the first failing command. */
  function CleanCount(failing: set<seq<string>>, bs: seq<seq<LogLine>>): (n: nat)
    ensures n <= |bs|
  {
    if bs == [] then 0
    else
      var m := CleanCount(failing, bs[..|bs| - 1]);
      if m == |bs| - 1 && Clean(failing, bs[|bs| - 1]) then |bs| else m
  }

  /** The blocks counted are exactly those before the first block with a
      failing command; everything succeeds exactly when all are counted. */
  lemma {:induction false} CleanCountSpec(failing: set<seq<string>>, bs: seq<seq<LogLine>>)
    ensures var n := CleanCount(failing, bs);
            && (forall k :: 0 <= k < n ==> Clean(failing, bs[k]))
            && (n < |bs| ==> !Clean(failing, bs[n]))
            && (Clean(failing, Concat(bs)) <==> n == |bs|)
  {
    if bs != [] {
      var init := bs[..|bs| - 1];
      CleanCountSpec(failing, init);
      CleanAppend(failing, Concat(init), bs[|bs| - 1]);
      forall k | 0 <= k < |init| ensures init[k] == bs[k] { }
      var m := CleanCount(failing, init);
      if m < |init| {
        assert init[m] == bs[m];
      }
    }
  }

  lemma {:induction false} ConcatPrefix(bs: seq<seq<LogLine>>, i: nat)
    requires i < |bs|
    ensures Concat(bs[..i]) + bs[i] <= Concat(bs)
  {
    var init := bs[..|bs| - 1];
    if i == |bs| - 1 {
      assert init == bs[..i];
    } else {
      ConcatPrefix(init, i);
      assert init[..i] == bs[..i] && init[i] == bs[i];
    }
  }

  lemma CleanCountAt(failing: set<seq<string>>, bs: seq<seq<LogLine>>, i: nat)
    requires i < |bs|
    requires Clean(failing, Concat(bs[..i])) && !Clean(failing, bs[i])
    ensures CleanCount(failing, bs) == i
  {
    CleanCountSpec(failing, bs);
    CleanCountSpec(failing, bs[..i]);
    forall k | 0 <= k < i ensures bs[..i][k] == bs[k] { }
  }

  /** Every warpkit command of a roster, subject by subject. */
  function WarpCommands(h: Host, bids: string, wk: string, subs: seq<string>): seq<LogLine>
  {
    Concat(Blocks(h, bids, wk, subs))
  }

  /** How many leading subjects finish before the first failing command. */
  function Completed(h: Host, bids: string, wk: string, subs: seq<string>): (n: nat)
    ensures n <= |subs|
  {
    CleanCount(h.failing, Blocks(h, bids, wk, subs))
  }

  function Doneflag(bids: string, sub: string): string
  {
    PathJoin(PathJoin(bids, "sub-" + sub), ".processing_complete")
  }

  /** The files after pass 2 touched the done flags of `subs`. */
  function DoneFiles(files: map<string, string>, bids: string, subs: seq<string>): map<string, string>
  {
    Touched(files, Flags(bids, subs))
  }

  /** The done flag of each subject, in order. */
  function Flags(bids: string, subs: seq<string>): (r: seq<string>)
    ensures |r| == |subs|
  {
    seq(|subs|, k requires 0 <= k < |subs| => Doneflag(bids, subs[k]))
  }

  /** The files after the paths `ps` were touched, one after the other. */
  function Touched(files: map<string, string>, ps: seq<string>): map<string, string>
  {
    if ps == [] then files else Touched(files, ps[..|ps| - 1])[ps[|ps| - 1] := ""]
  }

  lemma {:induction false} TouchedHas(files: map<string, string>, ps: seq<string>, k: nat)
    requires k < |ps|
    ensures ps[k] in Touched(files, ps)
    decreases |ps|
  {
    var init := ps[..|ps| - 1];
    if k < |init| {
      TouchedHas(files, init, k);
      assert init[k] == ps[k];
    }
  }

  lemma {:induction false} TouchedOnly(files: map<string, string>, ps: seq<string>, p: string)
    requires p in Touched(files, ps)
    ensures p in files || p in ps
    decreases |ps|
  {
    if ps != [] && p != ps[|ps| - 1] {
      TouchedOnly(files, ps[..|ps| - 1], p);
    }
  }

  lemma {:induction false} TouchedKeep(files: map<string, string>, ps: seq<string>, p: string)
    requires p in files && p !in ps
    ensures p in Touched(files, ps) && Touched(files, ps)[p] == files[p]
    decreases |ps|
  {
    if ps != [] {
      TouchedKeep(files, ps[..|ps| - 1], p);
    }
  }

  /** The directories after pass 2 ran `os.makedirs(os.path.dirname(doneflag),
      exist_ok=True)` for `subs`: each missing one appears, empty. */
  function DoneDirs(dirs: map<string, seq<string>>, bids: string, subs: seq<string>): map<string, seq<string>>
  {
    if subs == [] then dirs
    else
      var prev := DoneDirs(dirs, bids, subs[..|subs| - 1]);
      var d := Dirname(Doneflag(bids, subs[|subs| - 1]));
      if d in prev then prev else prev[d := []]
  }

  /** The done flags of pass 2, written subject by subject. */
  function MarkDone(h: Host, bids: string, subs: seq<string>): Host
  {
    h.(files := DoneFiles(h.files, bids, subs), dirs := DoneDirs(h.dirs, bids, subs))
  }

  function WarpMarker(sublistFile: string, passId: string): string
  {
    PathJoin(Dirname(sublistFile), ".warpkit_" + passId + "_done")
  }

  /** `run_warp_all`: in pass 2 the subjects that completed before a failure
      keep their done flags. */
  function WarpOutcome(h: Host, sublistFile: string, bids: string, scriptDir: string, passId: string): Outcome
  {
    match ReadRoster(h, sublistFile)
    case None => Outcome(h, [], Err("FileNotFoundError"))
    case Some(subs) =>
      var wk := WarpkitScript(scriptDir);
      var cmds := WarpCommands(h, bids, wk, subs);
      var done := if passId == "pass2" then MarkDone(h, bids, subs[..Completed(h, bids, wk, subs)]) else h;
      if Clean(h.failing, cmds) then Outcome(Touch(done, WarpMarker(sublistFile, passId)), cmds, Ok(WarpMarker(sublistFile, passId)))
      else Outcome(done, Issued(h.failing, cmds), Err("CalledProcessError"))
  }

  /** `h1` is `h0` with only files and empty directories added: what the
      runners do, and nothing the pair scan reads can tell them apart. */
  predicate Extends(h0: Host, h1: Host)
  {
    && h1.failing == h0.failing
    && (forall d :: d in h0.dirs ==> d in h1.dirs && h1.dirs[d] == h0.dirs[d])
    && (forall d :: d in h1.dirs && d !in h0.dirs ==> h1.dirs[d] == [])
  }

  lemma ExtendsPairs(h0: Host, h1: Host, funcdir: string, sub: string, ses: string)
    requires Extends(h0, h1)
    ensures TaskRunPairs(h1, funcdir, sub, ses) == TaskRunPairs(h0, funcdir, sub, ses)
  {
    if funcdir in h1.dirs && funcdir !in h0.dirs {
      assert Found(sub, ses, []) == [];
      assert |SortedSet(Found(sub, ses, []), StrPairLess)| == 0;
    }
  }

  lemma {:induction false} MarkDoneExtends(h: Host, bids: string, subs: seq<string>)
    ensures Extends(h, MarkDone(h, bids, subs))
    decreases |subs|
  {
    if subs != [] {
      MarkDoneExtends(h, bids, subs[..|subs| - 1]);
    }
  }

  /** Pass 2 leaves a done flag for each subject it was given ... */
  lemma MarkDoneHasFlag(files: map<string, string>, bids: string, subs: seq<string>, k: nat)
    requires k < |subs|
    ensures Doneflag(bids, subs[k]) in DoneFiles(files, bids, subs)
  {
    TouchedHas(files, Flags(bids, subs), k);
  }

  /** ... and adds no other file. */
  lemma MarkDoneOnlyFlags(files: map<string, string>, bids: string, subs: seq<string>, p: string)
    requires p in DoneFiles(files, bids, subs)
    ensures p in files || exists k :: 0 <= k < |subs| && p == Doneflag(bids, subs[k])
  {
    TouchedOnly(files, Flags(bids, subs), p);
    if p !in files {
      var k :| 0 <= k < |subs| && Flags(bids, subs)[k] == p;
    }
  }

  /** One subject's two sessions, each scanned in the current file system. */
  method RunSubjectWarps(h: Host, cur: Host, bids: string, wk: string, sub: string)
    returns (l: seq<LogLine>, ok: bool)
    requires Extends(h, cur)
    ensures l == Issued(h.failing, SubjectWarps(h, bids, wk, sub))
    ensures ok == Clean(h.failing, SubjectWarps(h, bids, wk, sub))
  {
    var p1 := ComputeTaskRunPairs(cur, WarpFuncDir(bids, sub, "01"), sub, "01");
    ExtendsPairs(h, cur, WarpFuncDir(bids, sub, "01"), sub, "01");
    var s1 := WarpLines(wk, sub, "01", p1);
    ghost var s2 := SessionWarps(h, bids, wk, sub, "02");
    var l1, ok1 := RunCommands(cur.failing, s1);
    if !ok1 {
      IssuedAppendDirty(h.failing, s1, s2);
      CleanAppend(h.failing, s1, s2);
      return l1, false;
    }
    var p2 := ComputeTaskRunPairs(cur, WarpFuncDir(bids, sub, "02"), sub, "02");
    ExtendsPairs(h, cur, WarpFuncDir(bids, sub, "02"), sub, "02");
    var l2, ok2 := RunCommands(cur.failing, WarpLines(wk, sub, "02", p2));
    IssuedShape(h.failing, s1);
    IssuedAppendClean(h.failing, s1, s2);
    CleanAppend(h.failing, s1, s2);
    return l1 + l2, ok2;
  }

  /** The subject loop of `run_warp_all`, up to the first failing command. */
  method RunWarpSubjects(h: Host, bids: string, wk: string, subs: seq<string>, passId: string)
    returns (cur: Host, log: seq<LogLine>, ok: bool)
    ensures log == Issued(h.failing, WarpCommands(h, bids, wk, subs))
    ensures ok == Clean(h.failing, WarpCommands(h, bids, wk, subs))
    ensures cur == if passId == "pass2" then MarkDone(h, bids, subs[..Completed(h, bids, wk, subs)]) else h
  {
    ghost var bs := Blocks(h, bids, wk, subs);
    cur := h;
    log := [];
    var i := 0;
    while i < |subs|
      invariant 0 <= i <= |subs|
      invariant log == Concat(bs[..i]) && Clean(h.failing, log)
      invariant cur == if passId == "pass2" then MarkDone(h, bids, subs[..i]) else h
      invariant Extends(h, cur)
    {
      var l, subOk := RunSubjectWarps(h, cur, bids, wk, subs[i]);
      if !subOk {
        BlockFails(h.failing, bs, i, l);
        return cur, log + l, false;
      }
      BlockPasses(h.failing, bs, i, l);
      if passId == "pass2" {
        cur := MarkDone(h, bids, subs[..i + 1]);
        MarkDoneExtends(h, bids, subs[..i + 1]);
      }
      log := log + l;
      i := i + 1;
    }
    assert subs[..i] == subs;
    AllBlocksPass(h.failing, bs, i, log);
    ok := true;
  }

  /** A failing block ends the run: what ran is the clean blocks before it
      and the block's own run, and the blocks before it are those completed. */
  lemma BlockFails(failing: set<seq<string>>, bs: seq<seq<LogLine>>, i: nat, l: seq<LogLine>)
    requires i < |bs| && Clean(failing, Concat(bs[..i])) && !Clean(failing, bs[i]) && l == Issued(failing, bs[i])
    ensures Concat(bs[..i]) + l == Issued(failing, Concat(bs)) && !Clean(failing, Concat(bs))
    ensures CleanCount(failing, bs) == i
  {
    ConcatPrefix(bs, i);
    FailureInBlock(failing, Concat(bs), Concat(bs[..i]), bs[i]);
    CleanCountAt(failing, bs, i);
  }

  /** A clean block runs whole. */
  lemma BlockPasses(failing: set<seq<string>>, bs: seq<seq<LogLine>>, i: nat, l: seq<LogLine>)
    requires i < |bs| && Clean(failing, Concat(bs[..i])) && Clean(failing, bs[i]) && l == Issued(failing, bs[i])
    ensures Concat(bs[..i]) + l == Concat(bs[..i + 1]) && Clean(failing, Concat(bs[..i + 1]))
  {
    IssuedShape(failing, bs[i]);
    CleanAppend(failing, Concat(bs[..i]), bs[i]);
    assert bs[..i + 1][..i] == bs[..i];
  }

  /** With every block clean, everything ran and every block counts. */
  lemma AllBlocksPass(failing: set<seq<string>>, bs: seq<seq<LogLine>>, i: nat, log: seq<LogLine>)
    requires i == |bs| && log == Concat(bs[..i]) && Clean(failing, log)
    ensures log == Issued(failing, Concat(bs)) && Clean(failing, Concat(bs)) && CleanCount(failing, bs) == |bs|
  {
    assert bs[..i] == bs;
    CleanCountSpec(failing, bs);
    IssuedShape(failing, log);
  }

  method RunWarpAll(h: Host, sublistFile: string, bids: string, scriptDir: string, passId: string)
    returns (o: Outcome)
    ensures o == WarpOutcome(h, sublistFile, bids, scriptDir, passId)
  {
    if sublistFile !in h.files {
      return Outcome(h, [], Err("FileNotFoundError"));
    }
    var subs := Faststart.ParseRoster(h.files[sublistFile]);
    var cur, log, ok := RunWarpSubjects(h, bids, WarpkitScript(scriptDir), subs, passId);
    if !ok {
      return Outcome(cur, log, Err("CalledProcessError"));
    }
    IssuedShape(h.failing, WarpCommands(h, bids, WarpkitScript(scriptDir), subs));
    var marker := WarpMarker(sublistFile, passId);
    return Outcome(Touch(cur, marker), log, Ok(marker));
  }

  /** The prep-like contract of both warpkit passes: the marker exists
      afterwards exactly when the roster was read and every warpkit command
      succeeded; a failing command is the last one run; pass 1 changes no file
      but its marker. */
  lemma WarpMarkerOnlyOnSuccess(h: Host, sublistFile: string, bids: string, scriptDir: string, passId: string)
    ensures var o := WarpOutcome(h, sublistFile, bids, scriptDir, passId);
            var subs := if sublistFile in h.files then Faststart.ParseRoster(h.files[sublistFile]) else [];
            var cmds := WarpCommands(h, bids, WarpkitScript(scriptDir), subs);
            && (o.marker.Ok? <==> sublistFile in h.files && Clean(h.failing, cmds))
            && (o.marker.Ok? ==> o.log == cmds && o.marker.value == WarpMarker(sublistFile, passId))
            && (o.marker.Err? && sublistFile in h.files ==> o.log != [] && Fails(h.failing, o.log[|o.log| - 1]))
            && (o.marker.Err? && sublistFile !in h.files ==> o.log == [] && o.host == h)
            && (passId != "pass2" && o.marker.Ok? ==> o.host == Touch(h, WarpMarker(sublistFile, passId)))
            && (passId != "pass2" && o.marker.Err? ==> o.host == h)
  {
    if sublistFile in h.files {
      IssuedShape(h.failing, WarpCommands(h, bids, WarpkitScript(scriptDir), Faststart.ParseRoster(h.files[sublistFile])));
    }
  }

  /** Pass 2 writes the done flag of exactly the subjects whose commands all
      succeeded before the first failure (all of them on success), touches
      nothing else but its marker, and leaves every directory listing the
      scan reads as it was. */
  lemma PassTwoDoneflags(h: Host, sublistFile: string, bids: string, scriptDir: string)
    requires sublistFile in h.files
    ensures var o := WarpOutcome(h, sublistFile, bids, scriptDir, "pass2");
            var subs := ReadRoster(h, sublistFile).value;
            var wk := WarpkitScript(scriptDir);
            var n := Completed(h, bids, wk, subs);
            && (forall k :: 0 <= k < n ==> Clean(h.failing, SubjectWarps(h, bids, wk, subs[k])))
            && (n < |subs| ==> !Clean(h.failing, SubjectWarps(h, bids, wk, subs[n])))
            && (o.marker.Ok? <==> n == |subs|)
            && (forall k :: 0 <= k < n ==> Doneflag(bids, subs[k]) in o.host.files)
            && (forall p :: p in o.host.files ==>
                  p in h.files || p == WarpMarker(sublistFile, "pass2") || exists k :: 0 <= k < n && p == Doneflag(bids, subs[k]))
            && Extends(h, o.host)
  {
    var subs := ReadRoster(h, sublistFile).value;
    var wk := WarpkitScript(scriptDir);
    var bs := Blocks(h, bids, wk, subs);
    var n := Completed(h, bids, wk, subs);
    var o := WarpOutcome(h, sublistFile, bids, scriptDir, "pass2");
    CleanCountSpec(h.failing, bs);
    forall k | 0 <= k < n ensures Clean(h.failing, SubjectWarps(h, bids, wk, subs[k])) {
      assert bs[k] == SubjectWarps(h, bids, wk, subs[k]);
    }
    if n < |subs| {
      assert bs[n] == SubjectWarps(h, bids, wk, subs[n]);
    }
    assert o.host == MarkDone(h, bids, subs[..n]) || o.host == Touch(MarkDone(h, bids, subs[..n]), WarpMarker(sublistFile, "pass2"));
    PassTwoFiles(h, bids, subs, n, WarpMarker(sublistFile, "pass2"), o.host);
    MarkDoneExtends(h, bids, subs[..n]);
  }

  /** The files pass 2 leaves when its first `n` subjects completed. */
  lemma PassTwoFiles(h: Host, bids: string, subs: seq<string>, n: nat, marker: string, host: Host)
    requires n <= |subs|
    requires host == MarkDone(h, bids, subs[..n]) || host == Touch(MarkDone(h, bids, subs[..n]), marker)
    ensures forall k :: 0 <= k < n ==> Doneflag(bids, subs[k]) in host.files
    ensures forall p :: p in host.files ==> p in h.files || p == marker || exists k :: 0 <= k < n && p == Doneflag(bids, subs[k])
  {
    var pre := subs[..n];
    assert forall k :: 0 <= k < n ==> pre[k] == subs[k];
    var done := MarkDone(h, bids, pre);
    forall k | 0 <= k < n ensures Doneflag(bids, subs[k]) in host.files {
      MarkDoneHasFlag(h.files, bids, pre, k);
    }
    forall p | p in host.files
      ensures p in h.files || p == marker || exists k :: 0 <= k < n && p == Doneflag(bids, subs[k])
    {
      if p != marker {
        assert p in done.files;
        MarkDoneOnlyFlags(h.files, bids, pre, p);
      }
    }
  }

  lemma WarpLinesMember(wk: string, sub: string, ses: string, pairs: seq<(string, string)>, x: string, y: string, t: string, r: string)
    ensures Ran(["bash", wk, x, y, t, r]) in WarpLines(wk, sub, ses, pairs) <==> x == sub && y == ses && (t, r) in pairs
  {
    var ls := WarpLines(wk, sub, ses, pairs);
    var argv := ["bash", wk, x, y, t, r];
    if Ran(argv) in ls {
      var k :| 0 <= k < |ls| && ls[k] == Ran(argv);
      var want := ["bash", wk, sub, ses, pairs[k].0, pairs[k].1];
      assert argv == want;
      assert argv[2] == want[2] && argv[3] == want[3] && argv[4] == want[4] && argv[5] == want[5];
      assert pairs[k] == (t, r);
    }
    if x == sub && y == ses && (t, r) in pairs {
      var k :| 0 <= k < |pairs| && pairs[k] == (t, r);
      assert ls[k] == Ran(argv);
    }
  }

  lemma {:induction false} ConcatMember(bs: seq<seq<LogLine>>, l: LogLine)
    ensures l in Concat(bs) <==> exists k :: 0 <= k < |bs| && l in bs[k]
  {
    if bs != [] {
      var init := bs[..|bs| - 1];
      ConcatMember(init, l);
      if l in Concat(bs) && l !in bs[|bs| - 1] {
        var k :| 0 <= k < |init| && l in init[k];
        assert init[k] == bs[k];
      }
      if exists k :: 0 <= k < |bs| && l in bs[k] {
        var k :| 0 <= k < |bs| && l in bs[k];
        if k < |init| { assert init[k] == bs[k]; }
      }
    }
  }

  /** A warpkit command is issued for a subject, session and (task, run)
      exactly when the subject is on the roster, the session is 01 or 02 and
      the pair is among those found in that session's func directory. */
  lemma WarpCommandsMember(h: Host, bids: string, wk: string, subs: seq<string>, sub: string, ses: string, t: string, r: string)
    ensures Ran(["bash", wk, sub, ses, t, r]) in WarpCommands(h, bids, wk, subs) <==>
              && sub in subs
              && (ses == "01" || ses == "02")
              && (t, r) in TaskRunPairs(h, WarpFuncDir(bids, sub, ses), sub, ses)
  {
    var bs := Blocks(h, bids, wk, subs);
    var l := Ran(["bash", wk, sub, ses, t, r]);
    ConcatMember(bs, l);
    forall k | 0 <= k < |subs|
      ensures l in bs[k] <==>
                (sub == subs[k] && (ses == "01" || ses == "02") && (t, r) in TaskRunPairs(h, WarpFuncDir(bids, sub, ses), sub, ses))
    {
      var u := subs[k];
      WarpLinesMember(wk, u, "01", TaskRunPairs(h, WarpFuncDir(bids, u, "01"), u, "01"), sub, ses, t, r);
      WarpLinesMember(wk, u, "02", TaskRunPairs(h, WarpFuncDir(bids, u, "02"), u, "02"), sub, ses, t, r);
    }
  }

  // ---------------------------------------------------------------------------
  // run_rsync
  // ---------------------------------------------------------------------------

  const BidsRoot: string := "/ZPOOL/data/projects/" + "rf1-sra-linux2/bids"
  const HpcRoot: string := "hpc:/gpfs/scratch/tug87422/" + "smithlab-shared/rf1-sra-linux2/bids"
  const ChmodArgv: seq<string> := ["chmod", "-R", "777", BidsRoot]

  /** One subject's transfer: `rsync -avL` of its tree under the fixed BIDS
      root when that directory exists, a `# SKIP` note otherwise. */
  function RsyncLine(dirs: map<string, seq<string>>, sub: string): LogLine
  {
    var src := PathJoin(BidsRoot, "sub-" + sub);
    if src in dirs then Ran(["rsync", "-avL", src, PathJoin(HpcRoot, "sub-" + sub)]) else SkipMissing(src)
  }

  function RsyncLines(dirs: map<string, seq<string>>, subs: seq<string>): (r: seq<LogLine>)
    ensures |r| == |subs|
  {
    seq(|subs|, k requires 0 <= k < |subs| => RsyncLine(dirs, subs[k]))
  }

  function RsyncMarker(logfile: string): string { PathJoin(Dirname(logfile), ".rsync_done") }

  /** `run_rsync`: the recursive chmod runs first and its exit status is
      ignored; the transfers stop at the first failing one. */
  function RsyncOutcome(h: Host, sublistFile: string, logfile: string): Outcome
  {
    match ReadRoster(h, sublistFile)
    case None => Outcome(h, [], Err("FileNotFoundError"))
    case Some(subs) =>
      var ls := RsyncLines(h.dirs, subs);
      if Clean(h.failing, ls) then Outcome(Touch(h, RsyncMarker(logfile)), [Ran(ChmodArgv)] + ls, Ok(RsyncMarker(logfile)))
      else Outcome(h, [Ran(ChmodArgv)] + Issued(h.failing, ls), Err("CalledProcessError"))
  }

  /** One subject's transfer line and whether its command fails. */
  method TransferOne(dirs: map<string, seq<string>>, failing: set<seq<string>>, sub: string) returns (line: LogLine, failed: bool)
    ensures line == RsyncLine(dirs, sub) && (failed <==> Fails(failing, line))
  {
    var src := PathJoin(BidsRoot, "sub-" + sub);
    if src !in dirs {
      return SkipMissing(src), false;
    }
    var cmd := ["rsync", "-avL", src, PathJoin(HpcRoot, "sub-" + sub)];
    return Ran(cmd), cmd in failing;
  }

  method RunRsync(h: Host, sublistFile: string, logfile: string) returns (o: Outcome)
    ensures o == RsyncOutcome(h, sublistFile, logfile)
  {
    if sublistFile !in h.files {
      return Outcome(h, [], Err("FileNotFoundError"));
    }
    var subs := Faststart.ParseRoster(h.files[sublistFile]);
    ghost var ls := RsyncLines(h.dirs, subs);
    var log := [Ran(ChmodArgv)];
    var i := 0;
    while i < |subs|
      invariant 0 <= i <= |subs|
      invariant log == [Ran(ChmodArgv)] + ls[..i] && Clean(h.failing, ls[..i])
    {
      var line, failed := TransferOne(h.dirs, h.failing, subs[i]);
      assert line == ls[i];
      assert ls[..i + 1] == ls[..i] + [line];
      Order.ConcatAssoc([Ran(ChmodArgv)], ls[..i], [line]);
      log := log + [line];
      if failed {
        FailureInBlock(h.failing, ls, ls[..i], [line]);
        return Outcome(h, log, Err("CalledProcessError"));
      }
      CleanAppend(h.failing, ls[..i], [line]);
      i := i + 1;
    }
    assert ls[..i] == ls;
    var marker := RsyncMarker(logfile);
    return Outcome(Touch(h, marker), log, Ok(marker));
  }

  /** The marker exists afterwards exactly when the roster was read and no
      transfer of an existing subject tree failed; the chmod line always comes
      first and a failing chmod stops nothing; a missing tree is skipped, never
      transferred. */
  lemma RsyncContract(h: Host, sublistFile: string, logfile: string)
    ensures var o := RsyncOutcome(h, sublistFile, logfile);
            var subs := if sublistFile in h.files then Faststart.ParseRoster(h.files[sublistFile]) else [];
            && (o.marker.Ok? <==> sublistFile in h.files && Clean(h.failing, RsyncLines(h.dirs, subs)))
            && (sublistFile in h.files ==> o.log != [] && o.log[0] == Ran(ChmodArgv))
            && (o.marker.Ok? ==> o.log == [Ran(ChmodArgv)] + RsyncLines(h.dirs, subs) && o.host == Touch(h, RsyncMarker(logfile)))
            && (o.marker.Err? ==> o.host == h)
            && (o.marker.Err? && sublistFile in h.files ==> Fails(h.failing, o.log[|o.log| - 1]))
            && (forall k :: 0 <= k < |subs| ==>
                  (RsyncLine(h.dirs, subs[k]).Ran? <==> PathJoin(BidsRoot, "sub-" + subs[k]) in h.dirs))
  {
    if sublistFile in h.files {
      IssuedShape(h.failing, RsyncLines(h.dirs, Faststart.ParseRoster(h.files[sublistFile])));
    }
  }

  // ---------------------------------------------------------------------------
  // The workflow
  // ---------------------------------------------------------------------------

  function SublistPath(scriptDir: string): string { PathJoin(scriptDir, "sublist_new.txt") }
  function BidsDir(scriptDir: string): string { PathJoin(Dirname(scriptDir), "bids") }
  function LogfilePath(scriptDir: string): string { PathJoin(Dirname(scriptDir), "rf1_preprocessing_forhpc.log") }

  /** Where the warpkit and rsync nodes take their `sublist_file` from: the
      upstream node's marker, as the connections are written, or the roster
      file itself. */
  datatype Wiring = MarkerAsRoster | RosterEverywhere

  /** A workflow run: the file system afterwards, the shared log, and the
      node whose exception stopped the run (nodes downstream of it do not
      run). */
  datatype PipelineRun = PipelineRun(host: Host, log: seq<LogLine>, failed: Option<string>)

  function Pipeline(h: Host, scriptDir: string, w: Wiring): PipelineRun
  {
    var sublist := SublistPath(scriptDir);
    var bids := BidsDir(scriptDir);
    var o1 := PrepOutcome(h, sublist, scriptDir);
    if o1.marker.Err? then PipelineRun(o1.host, o1.log, Some("prepdata_all"))
    else
      var o2 := WarpOutcome(o1.host, if w.MarkerAsRoster? then o1.marker.value else sublist, bids, scriptDir, "pass1");
      if o2.marker.Err? then PipelineRun(o2.host, o1.log + o2.log, Some("warpkit_pass1_all"))
      else
        var o3 := WarpOutcome(o2.host, if w.MarkerAsRoster? then o2.marker.value else sublist, bids, scriptDir, "pass2");
        if o3.marker.Err? then PipelineRun(o3.host, o1.log + o2.log + o3.log, Some("warpkit_pass2_all"))
        else
          var o4 := RsyncOutcome(o3.host, if w.MarkerAsRoster? then o3.marker.value else sublist, LogfilePath(scriptDir));
          PipelineRun(o4.host, o1.log + o2.log + o3.log + o4.log, if o4.marker.Err? then Some("final_rsync") else None)
  }

  lemma EmptyRoster()
    ensures Faststart.ParseRoster("") == []
  {
  }

  /** A warpkit pass over an empty roster issues nothing and succeeds. */
  lemma WarpOutcomeEmpty(h: Host, sublist: string, bids: string, scriptDir: string, passId: string)
    requires sublist in h.files && Faststart.ParseRoster(h.files[sublist]) == []
    ensures WarpOutcome(h, sublist, bids, scriptDir, passId) == Outcome(Touch(h, WarpMarker(sublist, passId)), [], Ok(WarpMarker(sublist, passId)))
  {
    var bs := Blocks(h, bids, WarpkitScript(scriptDir), []);
    assert bs == [];
    assert MarkDone(h, bids, [][..0]) == h;
  }

  /** A transfer over an empty roster issues only the chmod and succeeds. */
  lemma RsyncOutcomeEmpty(h: Host, sublist: string, logfile: string)
    requires sublist in h.files && Faststart.ParseRoster(h.files[sublist]) == []
    ensures RsyncOutcome(h, sublist, logfile) == Outcome(Touch(h, RsyncMarker(logfile)), [Ran(ChmodArgv)], Ok(RsyncMarker(logfile)))
  {
    var ls := RsyncLines(h.dirs, []);
    assert |ls| == 0;
    assert Clean(h.failing, ls);
    assert [Ran(ChmodArgv)] + ls == [Ran(ChmodArgv)];
  }

  /** As the connections are written, each downstream node reads the empty
      marker file of the node before it as its roster: once prep succeeds,
      no warpkit command and no transfer is ever issued, no done flag is
      written, and the run still reports success. */
  lemma MarkerWiringSkipsWarpkit(h: Host, scriptDir: string)
    requires SublistPath(scriptDir) in h.files
    requires Clean(h.failing, PrepLines(scriptDir, Faststart.ParseRoster(h.files[SublistPath(scriptDir)])))
    ensures var run := Pipeline(h, scriptDir, MarkerAsRoster);
            var m1 := PrepMarker(SublistPath(scriptDir));
            var m2 := WarpMarker(m1, "pass1");
            var m3 := WarpMarker(m2, "pass2");
            && run.failed == None
            && run.log == PrepLines(scriptDir, Faststart.ParseRoster(h.files[SublistPath(scriptDir)])) + [Ran(ChmodArgv)]
            && run.host.files == h.files[m1 := ""][m2 := ""][m3 := ""][RsyncMarker(LogfilePath(scriptDir)) := ""]
            && run.host.dirs == h.dirs
  {
    var sublist := SublistPath(scriptDir);
    var bids := BidsDir(scriptDir);
    var m1 := PrepMarker(sublist);
    var m2 := WarpMarker(m1, "pass1");
    var m3 := WarpMarker(m2, "pass2");
    EmptyRoster();
    var h1 := Touch(h, m1);
    assert PrepOutcome(h, sublist, scriptDir) == Outcome(h1, PrepLines(scriptDir, Faststart.ParseRoster(h.files[sublist])), Ok(m1));
    WarpOutcomeEmpty(h1, m1, bids, scriptDir, "pass1");
    var h2 := Touch(h1, m2);
    WarpOutcomeEmpty(h2, m2, bids, scriptDir, "pass2");
    var h3 := Touch(h2, m3);
    RsyncOutcomeEmpty(h3, m3, LogfilePath(scriptDir));
    var l1 := PrepLines(scriptDir, Faststart.ParseRoster(h.files[sublist]));
    var o4 := Outcome(Touch(h3, RsyncMarker(LogfilePath(scriptDir))), [Ran(ChmodArgv)], Ok(RsyncMarker(LogfilePath(scriptDir))));
    PipelineAllOk(h, scriptDir, MarkerAsRoster, Outcome(h1, l1, Ok(m1)), Outcome(h2, [], Ok(m2)), Outcome(h3, [], Ok(m3)), o4);
    var nil: seq<LogLine> := [];
    assert l1 + nil == l1;
    assert l1 + nil + nil == l1;
  }

  /** A run in which every node succeeds: the log is the four nodes' logs in
      order and the host is the one the transfer leaves. */
  lemma PipelineAllOk(h: Host, scriptDir: string, w: Wiring, o1: Outcome, o2: Outcome, o3: Outcome, o4: Outcome)
    requires o1 == PrepOutcome(h, SublistPath(scriptDir), scriptDir) && o1.marker.Ok?
    requires o2 == WarpOutcome(o1.host, if w.MarkerAsRoster? then o1.marker.value else SublistPath(scriptDir), BidsDir(scriptDir), scriptDir, "pass1")
    requires o2.marker.Ok?
    requires o3 == WarpOutcome(o2.host, if w.MarkerAsRoster? then o2.marker.value else SublistPath(scriptDir), BidsDir(scriptDir), scriptDir, "pass2")
    requires o3.marker.Ok?
    requires o4 == RsyncOutcome(o3.host, if w.MarkerAsRoster? then o3.marker.value else SublistPath(scriptDir), LogfilePath(scriptDir))
    requires o4.marker.Ok?
    ensures Pipeline(h, scriptDir, w) == PipelineRun(o4.host, o1.log + o2.log + o3.log + o4.log, None)
  {
  }

  /** `os.path.join(a, b)` ends as `b` does when `b` is relative. */
  lemma PathJoinLast(a: string, b: string)
    requires b != [] && b[0] != '/'
    ensures var p := PathJoin(a, b); p != [] && p[|p| - 1] == b[|b| - 1]
  {
    assert !StartsWith(b, "/") by { assert b[..1][0] == b[0]; }
  }

  /** The roster path ends in `t`; every marker and done flag ends in `e`, so
      no runner ever overwrites the roster. */
  lemma RosterNotOverwritten(scriptDir: string, bids: string, sub: string, p: string, passId: string)
    ensures SublistPath(scriptDir) != PrepMarker(p)
    ensures SublistPath(scriptDir) != WarpMarker(p, passId)
    ensures SublistPath(scriptDir) != Doneflag(bids, sub)
  {
    PathJoinLast(scriptDir, "sublist_new.txt");
    PathJoinLast(Dirname(p), ".prepdata_done");
    var w := ".warpkit_" + passId + "_done";
    assert w[0] == '.' && w[|w| - 1] == 'e';
    PathJoinLast(Dirname(p), w);
    PathJoinLast(PathJoin(bids, "sub-" + sub), ".processing_complete");
  }

  lemma DoneFilesKeep(files: map<string, string>, bids: string, subs: seq<string>, p: string)
    requires p in files
    requires forall k :: 0 <= k < |subs| ==> p != Doneflag(bids, subs[k])
    ensures p in DoneFiles(files, bids, subs) && DoneFiles(files, bids, subs)[p] == files[p]
  {
    TouchedKeep(files, Flags(bids, subs), p);
  }

  /** A warpkit pass in which no command fails. */
  lemma WarpOutcomeClean(h: Host, sublist: string, bids: string, scriptDir: string, passId: string)
    requires sublist in h.files && h.failing == {}
    ensures var subs := Faststart.ParseRoster(h.files[sublist]);
            var done := if passId == "pass2" then MarkDone(h, bids, subs) else h;
            WarpOutcome(h, sublist, bids, scriptDir, passId) ==
              Outcome(Touch(done, WarpMarker(sublist, passId)), WarpCommands(h, bids, WarpkitScript(scriptDir), subs), Ok(WarpMarker(sublist, passId)))
  {
    var subs := Faststart.ParseRoster(h.files[sublist]);
    var bs := Blocks(h, bids, WarpkitScript(scriptDir), subs);
    assert Clean(h.failing, Concat(bs));
    CleanCountSpec(h.failing, bs);
    assert subs[..|subs|] == subs;
  }

  /** The warpkit commands depend only on the directory listings. */
  lemma WarpCommandsSameDirs(h0: Host, h1: Host, bids: string, wk: string, subs: seq<string>)
    requires h0.dirs == h1.dirs
    ensures WarpCommands(h1, bids, wk, subs) == WarpCommands(h0, bids, wk, subs)
  {
    var b0 := Blocks(h0, bids, wk, subs);
    var b1 := Blocks(h1, bids, wk, subs);
    forall k | 0 <= k < |subs| ensures b1[k] == b0[k] {
      var u := subs[k];
      assert TaskRunPairs(h1, WarpFuncDir(bids, u, "01"), u, "01") == TaskRunPairs(h0, WarpFuncDir(bids, u, "01"), u, "01");
      assert TaskRunPairs(h1, WarpFuncDir(bids, u, "02"), u, "02") == TaskRunPairs(h0, WarpFuncDir(bids, u, "02"), u, "02");
    }
    assert b1 == b0;
  }

  lemma RsyncOutcomeClean(h: Host, sublist: string, logfile: string)
    requires sublist in h.files && h.failing == {}
    ensures RsyncOutcome(h, sublist, logfile) ==
              Outcome(Touch(h, RsyncMarker(logfile)), [Ran(ChmodArgv)] + RsyncLines(h.dirs, Faststart.ParseRoster(h.files[sublist])), Ok(RsyncMarker(logfile)))
  {
    assert Clean(h.failing, RsyncLines(h.dirs, Faststart.ParseRoster(h.files[sublist])));
  }

  /** With every node reading the roster file itself and no command failing,
      each roster subject gets its warpkit runs in both passes and its done
      flag, and every existing subject tree is transferred. */
  lemma RosterWiringRunsEverything(h: Host, scriptDir: string)
    requires SublistPath(scriptDir) in h.files
    requires h.failing == {}
    ensures var subs := Faststart.ParseRoster(h.files[SublistPath(scriptDir)]);
            var bids := BidsDir(scriptDir);
            var w := WarpCommands(h, bids, WarpkitScript(scriptDir), subs);
            var run := Pipeline(h, scriptDir, RosterEverywhere);
            && run.failed == None
            && run.log == PrepLines(scriptDir, subs) + w + w + ([Ran(ChmodArgv)] + RsyncLines(DoneDirs(h.dirs, bids, subs), subs))
            && (forall k :: 0 <= k < |subs| ==> Doneflag(bids, subs[k]) in run.host.files)
  {
    var sublist := SublistPath(scriptDir);
    var bids := BidsDir(scriptDir);
    var wk := WarpkitScript(scriptDir);
    var subs := Faststart.ParseRoster(h.files[sublist]);
    var w := WarpCommands(h, bids, wk, subs);
    var m1 := PrepMarker(sublist);
    var m2 := WarpMarker(sublist, "pass1");
    var m3 := WarpMarker(sublist, "pass2");
    var m4 := RsyncMarker(LogfilePath(scriptDir));
    RosterNotOverwritten(scriptDir, bids, "", sublist, "pass1");
    RosterNotOverwritten(scriptDir, bids, "", sublist, "pass2");

    var h1 := Touch(h, m1);
    assert PrepOutcome(h, sublist, scriptDir) == Outcome(h1, PrepLines(scriptDir, subs), Ok(m1));
    assert h1.files[sublist] == h.files[sublist];
    WarpOutcomeClean(h1, sublist, bids, scriptDir, "pass1");
    WarpCommandsSameDirs(h, h1, bids, wk, subs);
    var h2 := Touch(h1, m2);
    assert h2.files[sublist] == h.files[sublist];
    WarpOutcomeClean(h2, sublist, bids, scriptDir, "pass2");
    WarpCommandsSameDirs(h, h2, bids, wk, subs);
    var done := MarkDone(h2, bids, subs);
    forall k | 0 <= k < |subs| ensures sublist != Doneflag(bids, subs[k]) {
      RosterNotOverwritten(scriptDir, bids, subs[k], sublist, "pass2");
    }
    DoneFilesKeep(h2.files, bids, subs, sublist);
    var h3 := Touch(done, m3);
    assert h3.files[sublist] == h.files[sublist];
    RsyncOutcomeClean(h3, sublist, LogfilePath(scriptDir));
    assert h3.dirs == DoneDirs(h.dirs, bids, subs);
    var o4 := Outcome(Touch(h3, m4), [Ran(ChmodArgv)] + RsyncLines(h3.dirs, subs), Ok(m4));
    PipelineAllOk(h, scriptDir, RosterEverywhere, Outcome(h1, PrepLines(scriptDir, subs), Ok(m1)),
                  Outcome(h2, w, Ok(m2)), Outcome(h3, w, Ok(m3)), o4);
    var run := Pipeline(h, scriptDir, RosterEverywhere);
    forall k | 0 <= k < |subs| ensures Doneflag(bids, subs[k]) in run.host.files {
      MarkDoneHasFlag(h2.files, bids, subs, k);
    }
  }
}
