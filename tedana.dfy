/** The confound-file generator for tedana outputs: for every tedana metrics
    file it parses subject, session, task and run out of the path, looks for
    the matching fMRIPrep confounds file, and writes the chosen fMRIPrep
    confounds (missing values as 0) next to the time series of the ICA
    components tedana rejected. Tables are lists of named columns; the
    numbers in them are carried along, never computed. */
module TedanaConfounds {
  import opened Text

  // ---------------------------------------------------------------------------
  // The five regular-expression searches on the metrics path
  // ---------------------------------------------------------------------------

  /** The last occurrence of `pat` starting before `n`. */
  function LastBefore(s: string, pat: string, n: nat): (r: Option<nat>)
    ensures r.Some? ==> r.value < n && OccursAt(s, pat, r.value)
    ensures r.Some? ==> forall j :: r.value < j < n ==> !OccursAt(s, pat, j)
    ensures r.None? ==> forall j :: 0 <= j < n ==> !OccursAt(s, pat, j)
  {
    if n == 0 then None
    else if OccursAt(s, pat, n - 1) then Some(n - 1)
    else LastBefore(s, pat, n - 1)
  }

  /** `re.search("(.*)tedana_metrics", f).group(1)`: the greedy prefix, so
      everything before the last `tedana_metrics`. */
  function Base(f: string): Option<string>
  {
    match LastBefore(f, "tedana_metrics", |f| + 1)
    case None => None
    case Some(j) => Some(f[..j])
  }

  /** The base is the text before the last `tedana_metrics`, and there is
      none exactly when `tedana_metrics` does not occur. */
  lemma BaseMatch(f: string)
    ensures Base(f).None? <==> forall j :: 0 <= j ==> !OccursAt(f, "tedana_metrics", j)
    ensures Base(f).Some? ==> OccursAt(f, "tedana_metrics", |Base(f).value|) && StartsWith(f, Base(f).value)
    ensures Base(f).Some? ==> forall j :: |Base(f).value| < j ==> !OccursAt(f, "tedana_metrics", j)
  {
    var last := LastBefore(f, "tedana_metrics", |f| + 1);
    if last.None? {
      forall j | 0 <= j ensures !OccursAt(f, "tedana_metrics", j) {
        if j > |f| {
          assert !OccursAt(f, "tedana_metrics", j);
        }
      }
    }
  }

  /** `re.search("run-(.*)_desc-tedana", f).group(1)`: from the first
      `run-` to the last `_desc-tedana` after it; None when no `run-` has a
      `_desc-tedana` after it. */
  function Run(f: string): Option<string>
  {
    var last := LastBefore(f, "_desc-tedana", |f| + 1);
    var first := FindFrom(f, "run-", 0);
    if last.Some? && first.Some? && first.value + 4 <= last.value then
      Some(f[first.value + 4..last.value])
    else None
  }

  /** The run lies between the first `run-` and the last `_desc-tedana`, and
      there is none exactly when no `run-` has a `_desc-tedana` after it. */
  lemma RunMatch(f: string)
    ensures Run(f).None? <==> forall i, j :: OccursAt(f, "run-", i) && OccursAt(f, "_desc-tedana", j) ==> j < i + 4
    ensures Run(f).Some? ==> var r, i := Run(f).value, FindFrom(f, "run-", 0).value;
                             OccursAt(f, "run-", i) && i + 4 + |r| <= |f| && f[i + 4..i + 4 + |r|] == r &&
                             OccursAt(f, "_desc-tedana", i + 4 + |r|) &&
                             forall j :: i + 4 + |r| < j ==> !OccursAt(f, "_desc-tedana", j)
  {
  }

  /** `/sub-ddddd/ses-dd/` starts at `i`. */
  predicate SubAt(f: string, i: int) {
    0 <= i && i + 18 <= |f| && f[i] == '/' && f[i + 1..i + 5] == "sub-" && AllDigits(f[i + 5..i + 10]) &&
    f[i + 10..i + 15] == "/ses-" && AllDigits(f[i + 15..i + 17]) && f[i + 17] == '/'
  }

  function FirstSub(f: string, i: nat): (r: Option<nat>)
    ensures r.Some? ==> i <= r.value && SubAt(f, r.value)
    ensures r.None? ==> forall j :: i <= j ==> !SubAt(f, j)
    decreases |f| - i
  {
    if i + 18 > |f| then None
    else if SubAt(f, i) then Some(i)
    else FirstSub(f, i + 1)
  }

  /** `re.search(r"/(sub-\d{5})/ses-\d{2}/", f).group(1)` */
  function Sub(f: string): Option<string>
  {
    match FirstSub(f, 0)
    case None => None
    case Some(j) => Some(f[j + 1..j + 10])
  }

  /** The subject is `sub-` and five digits, and there is none exactly when
      no `/sub-ddddd/ses-dd/` occurs. */
  lemma SubMatch(f: string)
    ensures Sub(f).None? <==> forall j :: 0 <= j ==> !SubAt(f, j)
    ensures Sub(f).Some? ==> var r := Sub(f).value; |r| == 9 && r[..4] == "sub-" && AllDigits(r[4..])
  {
    var first := FirstSub(f, 0);
    if first.Some? {
      var j := first.value;
      assert f[j + 1..j + 10][..4] == f[j + 1..j + 5];
      assert f[j + 1..j + 10][4..] == f[j + 5..j + 10];
    }
  }

  /** Some `_` occurs at or after `n`. */
  predicate UnderscoreFrom(f: string, n: int) {
    exists k :: n <= k < |f| && OccursAt(f, "_", k)
  }

  /** `re.search(r"_task-(.*?)_", f).group(1)`: the shortest text after the
      first `_task-` up to an `_`. */
  function Task(f: string): Option<string>
  {
    match FindFrom(f, "_task-", 0)
    case None => None
    case Some(i) =>
      match FindFrom(f, "_", i + 6)
      case None => None
      case Some(k) => Some(f[i + 6..k])
  }

  /** The task is what follows the first `_task-` up to the next `_`, and
      there is none exactly when no `_task-` has an `_` after it. */
  lemma TaskMatch(f: string)
    ensures Task(f).None? <==> forall i :: OccursAt(f, "_task-", i) ==> !UnderscoreFrom(f, i + 6)
    ensures Task(f).Some? ==> OccursAt(f, "_task-" + Task(f).value + "_", FindFrom(f, "_task-", 0).value)
    ensures Task(f).Some? ==> forall m :: 0 <= m < |Task(f).value| ==> Task(f).value[m] != '_'
  {
    var first := FindFrom(f, "_task-", 0);
    if first.Some? {
      var i := first.value;
      var next := FindFrom(f, "_", i + 6);
      if next.Some? {
        TaskFound(f, i, next.value);
      } else {
        forall i', k | OccursAt(f, "_task-", i') && i' + 6 <= k < |f| ensures !OccursAt(f, "_", k) {
          assert i <= i';
        }
      }
    }
  }

  /** The text between `_task-` at `i` and the first `_` after it, at `k`. */
  lemma TaskFound(f: string, i: nat, k: nat)
    requires OccursAt(f, "_task-", i) && i + 6 <= k && OccursAt(f, "_", k)
    requires forall j :: i + 6 <= j < k ==> !OccursAt(f, "_", j)
    ensures UnderscoreFrom(f, i + 6)
    ensures OccursAt(f, "_task-" + f[i + 6..k] + "_", i)
    ensures '_' !in f[i + 6..k]
  {
    var t := f[i + 6..k];
    forall m | 0 <= m < |t| ensures t[m] != '_' {
      assert t[m] == f[i + 6 + m];
      assert !OccursAt(f, "_", i + 6 + m);
      assert f[i + 6 + m..i + 6 + m + 1] == [f[i + 6 + m]];
    }
    assert f[k..k + 1] == "_";
    assert f[i..k + 1] == f[i..i + 6] + t + f[k..k + 1];
  }

  /** `_ses-dd_` starts at `i`. */
  predicate SesAt(f: string, i: int) {
    OccursAt(f, "_ses-", i) && i + 8 <= |f| && IsDigit(f[i + 5]) && IsDigit(f[i + 6]) && f[i + 7] == '_'
  }

  function FirstSes(f: string, i: nat): (r: Option<nat>)
    ensures r.Some? ==> i <= r.value && SesAt(f, r.value)
    ensures r.None? ==> forall j :: i <= j ==> !SesAt(f, j)
    decreases |f| - i
  {
    if i + 8 > |f| then None
    else if SesAt(f, i) then Some(i)
    else FirstSes(f, i + 1)
  }

  /** `re.search(r"_ses-(\d{2})_", f).group(1)` */
  function Ses(f: string): Option<string>
  {
    match FirstSes(f, 0)
    case None => None
    case Some(j) => Some(f[j + 5..j + 7])
  }

  /** The session is two digits, and there is none exactly when no
      `_ses-dd_` occurs. */
  lemma SesMatch(f: string)
    ensures Ses(f).None? <==> forall j :: 0 <= j ==> !SesAt(f, j)
    ensures Ses(f).Some? ==> |Ses(f).value| == 2 && AllDigits(Ses(f).value)
  {
  }

  /** The fields of one metrics path. */
  datatype Fields = Fields(base: string, run: string, sub: string, task: string, ses: string)

  /** All five searches; None where one finds nothing and `.group` raises. */
  function ParseFields(f: string): Option<Fields>
  {
    if Base(f).Some? && Run(f).Some? && Sub(f).Some? && Task(f).Some? && Ses(f).Some? then
      Some(Fields(Base(f).value, Run(f).value, Sub(f).value, Task(f).value, Ses(f).value))
    else None
  }

  /** For a path ending in `tedana_metrics.tsv`, `base + "tedana_metrics.tsv"`
      is the path itself: the metrics read back are those of the file. */
  lemma MetricsPathIsFile(f: string)
    requires EndsWith(f, "tedana_metrics.tsv")
    ensures Base(f).Some? && Base(f).value + "tedana_metrics.tsv" == f
  {
    var n := |f| - 18;
    assert f[n..] == "tedana_metrics.tsv";
    assert OccursAt(f, "tedana_metrics", n) by {
      assert f[n..n + 14] == f[n..][..14];
    }
    forall j | n < j ensures !OccursAt(f, "tedana_metrics", j) {
      if j + 14 <= |f| {
        assert f[j] == f[n..][j - n];
        assert j - n in {1, 2, 3, 4};
        assert f[j] != 't';
        assert f[j..j + 14][0] == f[j];
      }
    }
    BaseMatch(f);
    var b := Base(f).value;
    assert |b| == n;
    assert f == f[..n] + f[n..];
  }

  // ---------------------------------------------------------------------------
  // Paths
  // ---------------------------------------------------------------------------

  /** The fMRIPrep confounds file for the fields. */
  function ConfoundsPath(fmriprepDir: string, x: Fields): string
  {
    fmriprepDir + x.sub + "/ses-" + x.ses + "/func/" + x.sub + "_ses-" + x.ses + "_task-" + x.task +
    "_run-" + x.run + "_part-mag_desc-confounds_timeseries.tsv"
  }

  /** `{tedana_dir}../fsl/confounds_{basename(normpath(tedana_dir))}/{sub}` */
  function OutDir(tedanaDir: string, sub: string): string
  {
    tedanaDir + "../fsl/" + "confounds_" + Basename(RStripSlashes(tedanaDir)) + "/" + sub
  }

  function OutName(x: Fields): string
  {
    (x.sub + "_ses-" + x.ses + "_task-") + (x.task + "_run-" + (x.run + "_desc-TedanaPlusConfounds.tsv"))
  }

  function OutPath(tedanaDir: string, x: Fields): string
  {
    OutDir(tedanaDir, x.sub) + "/" + OutName(x)
  }

  /** The fields as the searches return them. */
  predicate Shaped(x: Fields) {
    |x.sub| == 9 && x.sub[..4] == "sub-" && AllDigits(x.sub[4..]) &&
    |x.ses| == 2 && AllDigits(x.ses) &&
    forall k :: 0 <= k < |x.task| ==> x.task[k] != '_'
  }

  lemma FieldsShaped(f: string)
    requires ParseFields(f).Some?
    ensures Shaped(ParseFields(f).value)
  {
    SubMatch(f);
    TaskMatch(f);
    SesMatch(f);
  }

  /** Two metrics files with different subject, session, task or run never
      write the same output file. */
  lemma OutPathInjective(tedanaDir: string, x: Fields, y: Fields)
    requires Shaped(x) && Shaped(y)
    requires OutPath(tedanaDir, x) == OutPath(tedanaDir, y)
    ensures (x.sub, x.ses, x.task, x.run) == (y.sub, y.ses, y.task, y.run)
  {
    var p := tedanaDir + "../fsl/" + "confounds_" + Basename(RStripSlashes(tedanaDir)) + "/";
    var u, v := OutPath(tedanaDir, x), OutPath(tedanaDir, y);
    assert u == p + x.sub + "/" + OutName(x);
    assert v == p + y.sub + "/" + OutName(y);
    assert x.sub == u[|p|..|p| + 9] == y.sub;
    assert OutName(x) == u[|p| + 10..] == OutName(y);
    OutNameInjective(x, y);
  }

  lemma OutNameInjective(x: Fields, y: Fields)
    requires Shaped(x) && Shaped(y) && x.sub == y.sub
    requires OutName(x) == OutName(y)
    ensures (x.ses, x.task, x.run) == (y.ses, y.task, y.run)
  {
    var tail := "_desc-TedanaPlusConfounds.tsv";
    var ha, hb := x.sub + "_ses-" + x.ses + "_task-", y.sub + "_ses-" + y.ses + "_task-";
    SamePrefix(ha, x.task + "_run-" + (x.run + tail), hb, y.task + "_run-" + (y.run + tail));
    assert x.ses == ha[14..16] && y.ses == hb[14..16];
    SplitAtUnderscore(x.task, x.run + tail, y.task, y.run + tail);
    SamePrefix(x.run, tail, y.run, tail);
  }

  lemma SamePrefix(a: string, b: string, c: string, d: string)
    requires a + b == c + d && |a| == |c|
    ensures a == c && b == d
  {
    assert a == (a + b)[..|a|];
    assert b == (a + b)[|a|..];
  }

  /** `t + "_run-" + rest` splits uniquely when `t` has no `_`. */
  lemma SplitAtUnderscore(t: string, rest: string, u: string, rest': string)
    requires forall k :: 0 <= k < |t| ==> t[k] != '_'
    requires forall k :: 0 <= k < |u| ==> u[k] != '_'
    requires t + "_run-" + rest == u + "_run-" + rest'
    ensures t == u && rest == rest'
  {
    var a := t + "_run-" + rest;
    FirstUnderscore(t, rest);
    FirstUnderscore(u, rest');
    assert |t| == |u|;
    assert t == a[..|t|] == u;
    assert rest == a[|t| + 5..] == rest';
  }

  /** In `t + "_run-" + rest` with no `_` in `t`, the first `_` is at `|t|`. */
  lemma FirstUnderscore(t: string, rest: string)
    requires forall k :: 0 <= k < |t| ==> t[k] != '_'
    ensures var a := t + "_run-" + rest; a[|t|] == '_' && forall k :: 0 <= k < |t| ==> a[k] != '_'
  {
  }

  // ---------------------------------------------------------------------------
  // Confound column selection
  // ---------------------------------------------------------------------------

  const ACompCor: seq<string> := ["a_comp_cor_00", "a_comp_cor_01", "a_comp_cor_02",
                                   "a_comp_cor_03", "a_comp_cor_04", "a_comp_cor_05"]
  const Motion: seq<string> := ["trans_x", "trans_y", "trans_z", "rot_x", "rot_y", "rot_z"]
  const Fd: seq<string> := ["framewise_displacement"]

  /** `[col for col in cols if col.startswith(p)]` */
  function WithPrefix(cols: seq<string>, p: string): (r: seq<string>)
    ensures forall c :: c in r <==> c in cols && StartsWith(c, p)
  {
    if cols == [] then []
    else
      var rest := WithPrefix(cols[..|cols| - 1], p);
      var c := cols[|cols| - 1];
      assert cols == cols[..|cols| - 1] + [c];
      if StartsWith(c, p) then rest + [c] else rest
  }

  /** `[c for c in ds if c in cols]` */
  function Present(ds: seq<string>, cols: seq<string>): (r: seq<string>)
    ensures forall c :: c in r <==> c in ds && c in cols
  {
    if ds == [] then []
    else
      var rest := Present(ds[..|ds| - 1], cols);
      var c := ds[|ds| - 1];
      assert ds == ds[..|ds| - 1] + [c];
      if c in cols then rest + [c] else rest
  }

  /** The desired list: aCompCor, cosine*, non_steady_state*, motion, FD. */
  function Desired(cols: seq<string>): seq<string>
  {
    ACompCor + WithPrefix(cols, "cosine") + WithPrefix(cols, "non_steady_state") + Motion + Fd
  }

  /** `filter_col`: the desired columns that the confounds file has. */
  function Selected(cols: seq<string>): seq<string>
  {
    Present(Desired(cols), cols)
  }

  /** A column is selected exactly when the file has it and it is one of the
      fixed names or starts with `cosine` or `non_steady_state`. */
  lemma SelectedMembers(cols: seq<string>, c: string)
    ensures c in Selected(cols) <==>
            c in cols && (c in ACompCor || StartsWith(c, "cosine") || StartsWith(c, "non_steady_state") ||
                          c in Motion || c == "framewise_displacement")
  {
  }

  /** The selection keeps the group order and, within the prefix groups, the
      file's own column order. */
  lemma SelectedOrder(cols: seq<string>)
    ensures Selected(cols) == Present(ACompCor, cols) + WithPrefix(cols, "cosine") +
                              WithPrefix(cols, "non_steady_state") + Present(Motion, cols) + Present(Fd, cols)
  {
    var a, c, n := ACompCor, WithPrefix(cols, "cosine"), WithPrefix(cols, "non_steady_state");
    PresentAppend(a + c + n + Motion, Fd, cols);
    PresentAppend(a + c + n, Motion, cols);
    PresentAppend(a + c, n, cols);
    PresentAppend(a, c, cols);
    PresentAll(c, cols);
    PresentAll(n, cols);
  }

  lemma {:induction false} PresentAppend(a: seq<string>, b: seq<string>, cols: seq<string>)
    ensures Present(a + b, cols) == Present(a, cols) + Present(b, cols)
    decreases |b|
  {
    if b == [] {
      assert a + b == a;
    } else {
      var init := b[..|b| - 1];
      assert (a + b)[..|a + b| - 1] == a + init;
      PresentAppend(a, init, cols);
    }
  }

  lemma {:induction false} PresentAll(a: seq<string>, cols: seq<string>)
    requires forall c :: c in a ==> c in cols
    ensures Present(a, cols) == a
    decreases |a|
  {
    if a != [] {
      var init := a[..|a| - 1];
      PresentAll(init, cols);
      assert a == init + [a[|a| - 1]];
    }
  }

  // ---------------------------------------------------------------------------
  // Tables
  // ---------------------------------------------------------------------------

  /** A named column; None is a missing value. */
  datatype Column = Column(name: string, values: seq<Option<real>>)

  type Table = seq<Column>

  function Names(t: Table): (r: seq<string>)
    ensures |r| == |t| && forall k :: 0 <= k < |t| ==> r[k] == t[k].name
  {
    if t == [] then [] else Names(t[..|t| - 1]) + [t[|t| - 1].name]
  }

  /** The first column named `n`. */
  function Lookup(t: Table, n: string): (c: Column)
    requires n in Names(t)
    ensures c in t && c.name == n
  {
    if t[0].name == n then t[0]
    else
      assert Names(t) == [t[0].name] + Names(t[1..]) by {
        assert forall k :: 1 <= k < |t| ==> Names(t)[k] == Names(t[1..])[k - 1];
      }
      Lookup(t[1..], n)
  }

  /** `df[names]` */
  function Columns(t: Table, ns: seq<string>): (r: Table)
    requires forall n :: n in ns ==> n in Names(t)
    ensures |r| == |ns| && forall k :: 0 <= k < |ns| ==> r[k] == Lookup(t, ns[k])
  {
    if ns == [] then [] else Columns(t, ns[..|ns| - 1]) + [Lookup(t, ns[|ns| - 1])]
  }

  /** `fillna(0)` on one column: no value is missing afterwards, and the
      values that were there are kept. */
  function FillNa(c: Column): (r: Column)
    ensures r.name == c.name && |r.values| == |c.values|
    ensures forall k :: 0 <= k < |c.values| ==>
              r.values[k].Some? && (c.values[k].Some? ==> r.values[k] == c.values[k])
    ensures forall k :: 0 <= k < |c.values| && c.values[k].None? ==> r.values[k] == Some(0.0)
  {
    Column(c.name, seq(|c.values|, k requires 0 <= k < |c.values| =>
      if c.values[k].Some? then c.values[k] else Some(0.0)))
  }

  function FillAll(t: Table): (r: Table)
    ensures |r| == |t| && forall k :: 0 <= k < |t| ==> r[k] == FillNa(t[k])
  {
    if t == [] then [] else FillAll(t[..|t| - 1]) + [FillNa(t[|t| - 1])]
  }

  /** The chosen fMRIPrep confounds with missing values set to 0. */
  function FmriprepPart(conf: Table): (r: Table)
  {
    var ns := Selected(Names(conf));
    forall n | n in ns ensures n in Names(conf) {
      SelectedMembers(Names(conf), n);
    }
    FillAll(Columns(conf, ns))
  }

  // ---------------------------------------------------------------------------
  // Rejected components
  // ---------------------------------------------------------------------------

  datatype MetricRow = MetricRow(component: string, classification: string)

  /** The components classified `rejected`, in order. */
  function Rejected(ms: seq<MetricRow>): (r: seq<string>)
    ensures forall c :: c in r <==> exists m :: m in ms && m.classification == "rejected" && m.component == c
  {
    if ms == [] then []
    else
      var rest := Rejected(ms[..|ms| - 1]);
      var m := ms[|ms| - 1];
      assert ms == ms[..|ms| - 1] + [m];
      if m.classification == "rejected" then rest + [m.component] else rest
  }

  /** The values, when every one is present. */
  function AllPresent(vs: seq<Option<int>>): (r: Option<seq<int>>)
    ensures r.Some? <==> forall k :: 0 <= k < |vs| ==> vs[k].Some?
    ensures r.Some? ==> |r.value| == |vs| && forall k :: 0 <= k < |vs| ==> vs[k] == Some(r.value[k])
  {
    if vs == [] then Some([])
    else
      var init := AllPresent(vs[..|vs| - 1]);
      assert forall k :: 0 <= k < |vs| - 1 ==> vs[..|vs| - 1][k] == vs[k];
      if init.Some? && vs[|vs| - 1].Some? then Some(init.value + [vs[|vs| - 1].value]) else None
  }

  /** The integer one component label stands for. */
  function IcaIndex(c: string): Option<int>
  {
    ParseInt(ReplaceAll(c, "ICA_", ""))
  }

  /** `str.replace('ICA_', '').astype(int)` over the rejected components;
      None when one of them is not an integer. */
  function Indices(cs: seq<string>): Option<seq<int>>
  {
    AllPresent(IcaIndices(cs))
  }

  function IcaIndices(cs: seq<string>): seq<Option<int>>
  {
    seq(|cs|, k requires 0 <= k < |cs| => IcaIndex(cs[k]))
  }

  /** The conversion succeeds exactly when every label converts, and then
      gives each label's integer in order. */
  lemma IndicesMatch(cs: seq<string>)
    ensures Indices(cs).Some? <==> forall k :: 0 <= k < |cs| ==> IcaIndex(cs[k]).Some?
    ensures Indices(cs).Some? ==> |Indices(cs).value| == |cs| &&
                                  forall k :: 0 <= k < |cs| ==> IcaIndex(cs[k]) == Some(Indices(cs).value[k])
  {
    var vs := IcaIndices(cs);
    assert forall k :: 0 <= k < |cs| ==> vs[k] == IcaIndex(cs[k]);
  }

  /** The column `iloc` reaches with index `i` among `n` columns: negative
      indices count from the end; None where pandas raises IndexError. */
  function Position(i: int, n: nat): (r: Option<nat>)
    ensures r.Some? <==> -(n as int) <= i < n
    ensures r.Some? ==> r.value < n && (r.value == i || r.value == n + i)
  {
    if 0 <= i < n then Some(i) else if -(n as int) <= i < 0 then Some(n + i) else None
  }

  /** `ICA_mixing.iloc[:, idx]` */
  function Pick(mix: Table, idx: seq<int>): (r: Option<Table>)
    ensures r.Some? ==> |r.value| == |idx|
    ensures r.Some? ==> forall k :: 0 <= k < |idx| ==>
                          Position(idx[k], |mix|).Some? && r.value[k] == mix[Position(idx[k], |mix|).value]
  {
    if idx == [] then Some([])
    else
      var cs := Pick(mix, idx[..|idx| - 1]);
      var p := Position(idx[|idx| - 1], |mix|);
      if cs.Some? && p.Some? then Some(cs.value + [mix[p.value]]) else None
  }

  /** The selection succeeds exactly when every index is in range. */
  lemma {:induction false} PickDefined(mix: Table, idx: seq<int>)
    ensures Pick(mix, idx).Some? <==> forall k :: 0 <= k < |idx| ==> Position(idx[k], |mix|).Some?
  {
    if idx != [] {
      var init := idx[..|idx| - 1];
      PickDefined(mix, init);
      assert forall k :: 0 <= k < |init| ==> init[k] == idx[k];
    }
  }

  /** `bad_components`, or None where the `try` block raised and the script
      went on with no tedana columns. */
  function BadComponents(ms: seq<MetricRow>, mix: Table): Option<Table>
  {
    match Indices(Rejected(ms))
    case None => None
    case Some(idx) => Pick(mix, idx)
  }

  /** The table written: the chosen fMRIPrep confounds, then the rejected
      components' time series, if they could be extracted. */
  function Contents(conf: Table, ms: seq<MetricRow>, mix: Table): Table
  {
    FmriprepPart(conf) + match BadComponents(ms, mix) case Some(b) => b case None => []
  }

  /** `"ICA_" + n` for each number. */
  function IcaLabels(ns: seq<nat>): (r: seq<string>)
    ensures |r| == |ns| && forall k :: 0 <= k < |ns| ==> r[k] == "ICA_" + NatToString(ns[k])
  {
    if ns == [] then [] else IcaLabels(ns[..|ns| - 1]) + ["ICA_" + NatToString(ns[|ns| - 1])]
  }

  /** When the rejected components are `ICA_<n>` with `n` below the number of
      mixing columns, exactly those columns are taken, in that order. */
  lemma RejectedColumns(ms: seq<MetricRow>, mix: Table, ns: seq<nat>)
    requires Rejected(ms) == IcaLabels(ns)
    requires forall k :: 0 <= k < |ns| ==> ns[k] < |mix|
    ensures var b := BadComponents(ms, mix);
            b.Some? && |b.value| == |ns| && forall k :: 0 <= k < |ns| ==> b.value[k] == mix[ns[k]]
  {
    LabelsConvert(ns);
    var idx := Indices(IcaLabels(ns)).value;
    assert BadComponents(ms, mix) == Pick(mix, idx);
    forall k | 0 <= k < |idx| ensures Position(idx[k], |mix|) == Some(ns[k]) {
      assert idx[k] == ns[k];
    }
    PickDefined(mix, idx);
  }

  /** `ICA_<n>` labels convert back to their numbers. */
  lemma LabelsConvert(ns: seq<nat>)
    ensures var idx := Indices(IcaLabels(ns));
            idx.Some? && |idx.value| == |ns| && forall k :: 0 <= k < |ns| ==> idx.value[k] == ns[k]
  {
    var cs := IcaLabels(ns);
    forall k | 0 <= k < |cs| ensures IcaIndex(cs[k]) == Some(ns[k] as int) {
      IcaLabelValue(ns[k]);
    }
    IndicesMatch(cs);
  }

  /** `int("ICA_<n>".replace("ICA_", "")) == n` */
  lemma IcaLabelValue(n: nat)
    ensures ParseInt(ReplaceAll("ICA_" + NatToString(n), "ICA_", "")) == Some(n as int)
  {
    var d := NatToString(n);
    ReplaceLeading("ICA_", d);
    ParseDigits(d);
    NatToStringValue(n);
  }

  /** Replacing a leading pattern that does not occur again removes it. */
  lemma ReplaceLeading(pat: string, d: string)
    requires pat != [] && AllDigits(d)
    requires forall k :: 0 <= k < |pat| ==> !IsDigit(pat[k])
    ensures ReplaceAll(pat + d, pat, "") == d
  {
    var s := pat + d;
    assert OccursAt(s, pat, 0) by { assert s[..|pat|] == pat; }
    assert FindFrom(s, pat, 0) == Some(0);
    assert s[|pat|..] == d;
    assert !Contains(d, pat) by {
      forall i | 0 <= i <= |d| - |pat| ensures !OccursAt(d, pat, i) {
        assert IsDigit(d[i]) && !IsDigit(pat[0]);
        assert d[i..i + |pat|][0] == d[i];
      }
    }
    FindAgreesWithContains(d, pat);
    assert s[..0] == [] && s[0 + |pat|..] == d;
    assert Split(d, pat) == [d];
    assert Split(s, pat) == [[], d];
    assert JoinWith([[], d], "") == [] + "" + JoinWith([d], "");
  }

  /** A rejected component that is not an integer leaves out every tedana
      column, not just that one: only the fMRIPrep confounds are written. */
  lemma OneBadLabelDropsAll(conf: Table, ms: seq<MetricRow>, mix: Table, k: nat)
    requires k < |Rejected(ms)| && IcaIndex(Rejected(ms)[k]).None?
    ensures BadComponents(ms, mix).None?
    ensures Contents(conf, ms, mix) == FmriprepPart(conf)
  {
    BadLabelFails(Rejected(ms), k);
    ContentsWithoutComponents(conf, ms, mix);
  }

  lemma BadLabelFails(cs: seq<string>, k: nat)
    requires k < |cs| && IcaIndex(cs[k]).None?
    ensures Indices(cs).None?
  {
    IndicesMatch(cs);
  }

  /** Without extractable components the table is the fMRIPrep part alone. */
  lemma ContentsWithoutComponents(conf: Table, ms: seq<MetricRow>, mix: Table)
    requires BadComponents(ms, mix).None?
    ensures Contents(conf, ms, mix) == FmriprepPart(conf)
  {
    var p := FmriprepPart(conf);
    assert p + [] == p;
  }

  // ---------------------------------------------------------------------------
  // The loop over metrics files
  // ---------------------------------------------------------------------------

  /** What the script reads: the tables by path (the existence check asks
      this map too) and the metrics files. */
  datatype Fs = Fs(tables: map<string, Table>, metrics: map<string, seq<MetricRow>>)

  /** The files written, the directories made, the lines printed, and
      whether an uncaught exception ended the script. */
  datatype Outcome = Outcome(written: map<string, Table>, dirs: set<string>, log: seq<string>, crashed: bool)

  function Tag(x: Fields): string
  {
    x.sub + " ses-" + x.ses + " run-" + x.run + " task-" + x.task
  }

  /** The confounds file exists but the mixing or metrics file cannot be read. */
  predicate Unreadable(fs: Fs, fmriprepDir: string, x: Fields) {
    ConfoundsPath(fmriprepDir, x) in fs.tables &&
    (x.base + "ICA_mixing.tsv" !in fs.tables || x.base + "tedana_metrics.tsv" !in fs.metrics)
  }

  /** A metrics file on which the script raises: a field search fails, or the
      confounds file exists but the mixing or metrics file cannot be read. */
  predicate Fatal(fs: Fs, fmriprepDir: string, f: string) {
    match ParseFields(f)
    case None => true
    case Some(x) => Unreadable(fs, fmriprepDir, x)
  }

  /** A metrics file for which an output is written. */
  predicate Made(fs: Fs, fmriprepDir: string, f: string) {
    !Fatal(fs, fmriprepDir, f) && ConfoundsPath(fmriprepDir, ParseFields(f).value) in fs.tables
  }

  /** The body of the loop for the file `f`. */
  function Step(fs: Fs, fmriprepDir: string, tedanaDir: string, o: Outcome, f: string): Outcome
  {
    if o.crashed then o
    else
      match ParseFields(f)
      case None => o.(crashed := true)
      case Some(x) => StepFields(fs, fmriprepDir, tedanaDir, o, x)
  }

  /** The body of the loop once the fields are known. */
  function StepFields(fs: Fs, fmriprepDir: string, tedanaDir: string, o: Outcome, x: Fields): Outcome
  {
    var cp := ConfoundsPath(fmriprepDir, x);
    if cp !in fs.tables then o.(log := o.log + ["fmriprep failed for " + Tag(x)])
    else
      var mp, tp := x.base + "ICA_mixing.tsv", x.base + "tedana_metrics.tsv";
      var log := o.log + ["Making Confounds: " + Tag(x)];
      if mp !in fs.tables || tp !in fs.metrics then Outcome(o.written, o.dirs, log, true)
      else
        var bad := BadComponents(fs.metrics[tp], fs.tables[mp]);
        var warn := if bad.None? then ["Warning: could not extract rejected components for " +
                                       x.sub + " ses-" + x.ses + " run-" + x.run] else [];
        Outcome(o.written[OutPath(tedanaDir, x) := Contents(fs.tables[cp], fs.metrics[tp], fs.tables[mp])],
                o.dirs + {OutDir(tedanaDir, x.sub)}, log + warn, false)
  }

  function Steps(fs: Fs, fmriprepDir: string, tedanaDir: string, files: seq<string>): Outcome
  {
    if files == [] then Outcome(map[], {}, [], false)
    else Step(fs, fmriprepDir, tedanaDir, Steps(fs, fmriprepDir, tedanaDir, files[..|files| - 1]), files[|files| - 1])
  }

  /** The script over the metrics files in their (natural-sort) order. */
  method GenerateConfounds(fs: Fs, fmriprepDir: string, tedanaDir: string, files: seq<string>) returns (o: Outcome)
    ensures o == Steps(fs, fmriprepDir, tedanaDir, files)
  {
    o := Outcome(map[], {}, [], false);
    var i := 0;
    while i < |files| && !o.crashed
      invariant i <= |files| && o == Steps(fs, fmriprepDir, tedanaDir, files[..i])
    {
      assert files[..i + 1][..i] == files[..i];
      o := ProcessFile(fs, fmriprepDir, tedanaDir, o, files[i]);
      i := i + 1;
    }
    if o.crashed {
      CrashStops(fs, fmriprepDir, tedanaDir, files[..i], files[i..]);
      assert files[..i] + files[i..] == files;
    } else {
      assert files[..i] == files;
    }
  }

  /** One pass of the loop body, for the file `f`. */
  method ProcessFile(fs: Fs, fmriprepDir: string, tedanaDir: string, o0: Outcome, f: string) returns (o: Outcome)
    requires !o0.crashed
    ensures o == Step(fs, fmriprepDir, tedanaDir, o0, f)
  {
    var fields := ParseFields(f);
    if fields.None? {
      o := o0.(crashed := true);
    } else {
      o := ProcessFields(fs, fmriprepDir, tedanaDir, o0, fields.value);
    }
  }

  method ProcessFields(fs: Fs, fmriprepDir: string, tedanaDir: string, o0: Outcome, x: Fields) returns (o: Outcome)
    ensures o == StepFields(fs, fmriprepDir, tedanaDir, o0, x)
  {
    var cp := ConfoundsPath(fmriprepDir, x);
    if cp !in fs.tables {
      o := o0.(log := o0.log + ["fmriprep failed for " + Tag(x)]);
      return;
    }
    var mp, tp := x.base + "ICA_mixing.tsv", x.base + "tedana_metrics.tsv";
    var log := o0.log + ["Making Confounds: " + Tag(x)];
    if mp !in fs.tables || tp !in fs.metrics {
      o := Outcome(o0.written, o0.dirs, log, true);
      return;
    }
    var bad := BadComponents(fs.metrics[tp], fs.tables[mp]);
    if bad.None? {
      log := log + ["Warning: could not extract rejected components for " + x.sub + " ses-" + x.ses + " run-" + x.run];
    }
    var table := Contents(fs.tables[cp], fs.metrics[tp], fs.tables[mp]);
    o := Outcome(o0.written[OutPath(tedanaDir, x) := table], o0.dirs + {OutDir(tedanaDir, x.sub)}, log, false);
  }

  /** Once the script has raised, nothing more happens. */
  lemma {:induction false} CrashStops(fs: Fs, fmriprepDir: string, tedanaDir: string, done: seq<string>, rest: seq<string>)
    requires Steps(fs, fmriprepDir, tedanaDir, done).crashed
    ensures Steps(fs, fmriprepDir, tedanaDir, done + rest) == Steps(fs, fmriprepDir, tedanaDir, done)
    decreases |rest|
  {
    if rest == [] {
      assert done + rest == done;
    } else {
      assert (done + rest)[..|done + rest| - 1] == done + rest[..|rest| - 1];
      CrashStops(fs, fmriprepDir, tedanaDir, done, rest[..|rest| - 1]);
    }
  }

  /** Some listed file is fatal. */
  predicate AnyFatal(fs: Fs, fmriprepDir: string, files: seq<string>) {
    exists k :: 0 <= k < |files| && Fatal(fs, fmriprepDir, files[k])
  }

  /** What one step does to the crash flag and to the set of written paths. */
  lemma StepEffect(fs: Fs, fmriprepDir: string, tedanaDir: string, o: Outcome, f: string)
    ensures Step(fs, fmriprepDir, tedanaDir, o, f).crashed == (o.crashed || Fatal(fs, fmriprepDir, f))
    ensures !o.crashed && Made(fs, fmriprepDir, f) ==>
              Step(fs, fmriprepDir, tedanaDir, o, f).written.Keys == o.written.Keys + {OutPath(tedanaDir, ParseFields(f).value)}
    ensures o.crashed || !Made(fs, fmriprepDir, f) ==> Step(fs, fmriprepDir, tedanaDir, o, f).written == o.written
  {
    if !o.crashed && ParseFields(f).Some? {
      StepFieldsEffect(fs, fmriprepDir, tedanaDir, o, ParseFields(f).value);
    }
  }

  lemma StepFieldsEffect(fs: Fs, fmriprepDir: string, tedanaDir: string, o: Outcome, x: Fields)
    requires !o.crashed
    ensures StepFields(fs, fmriprepDir, tedanaDir, o, x).crashed == Unreadable(fs, fmriprepDir, x)
    ensures !Unreadable(fs, fmriprepDir, x) && ConfoundsPath(fmriprepDir, x) in fs.tables ==>
              StepFields(fs, fmriprepDir, tedanaDir, o, x).written.Keys == o.written.Keys + {OutPath(tedanaDir, x)}
    ensures ConfoundsPath(fmriprepDir, x) !in fs.tables || Unreadable(fs, fmriprepDir, x) ==>
              StepFields(fs, fmriprepDir, tedanaDir, o, x).written == o.written
  {
  }

  /** The script raises exactly when one of the files is fatal. */
  lemma {:induction false} StepsCrash(fs: Fs, fmriprepDir: string, tedanaDir: string, files: seq<string>)
    ensures Steps(fs, fmriprepDir, tedanaDir, files).crashed == AnyFatal(fs, fmriprepDir, files)
    decreases |files|
  {
    if files != [] {
      var init := files[..|files| - 1];
      StepsCrash(fs, fmriprepDir, tedanaDir, init);
      StepEffect(fs, fmriprepDir, tedanaDir, Steps(fs, fmriprepDir, tedanaDir, init), files[|files| - 1]);
      AnyFatalSnoc(fs, fmriprepDir, files);
    }
  }

  lemma AnyFatalSnoc(fs: Fs, fmriprepDir: string, files: seq<string>)
    requires files != []
    ensures AnyFatal(fs, fmriprepDir, files) ==
            (AnyFatal(fs, fmriprepDir, files[..|files| - 1]) || Fatal(fs, fmriprepDir, files[|files| - 1]))
  {
    var init := files[..|files| - 1];
    assert forall k :: 0 <= k < |init| ==> files[k] == init[k];
    if AnyFatal(fs, fmriprepDir, init) {
      var k :| 0 <= k < |init| && Fatal(fs, fmriprepDir, init[k]);
      assert Fatal(fs, fmriprepDir, files[k]);
    }
  }

  /** The output written for `f`, if any. */
  function OutputOf(fs: Fs, fmriprepDir: string, tedanaDir: string, f: string): Option<string>
  {
    if Made(fs, fmriprepDir, f) then Some(OutPath(tedanaDir, ParseFields(f).value)) else None
  }

  /** The values `out` gives the items. */
  function Collect(items: seq<string>, out: string -> Option<string>): set<string>
  {
    if items == [] then {}
    else
      var o := out(items[|items| - 1]);
      Collect(items[..|items| - 1], out) + (if o.Some? then {o.value} else {})
  }

  lemma {:induction false} CollectMembers(items: seq<string>, out: string -> Option<string>, p: string)
    ensures p in Collect(items, out) <==> exists k :: 0 <= k < |items| && out(items[k]) == Some(p)
    decreases |items|
  {
    if items != [] {
      var init := items[..|items| - 1];
      CollectMembers(init, out, p);
      if exists k :: 0 <= k < |init| && out(init[k]) == Some(p) {
        var k :| 0 <= k < |init| && out(init[k]) == Some(p);
        assert items[k] == init[k];
      }
      if exists k :: 0 <= k < |items| && out(items[k]) == Some(p) {
        var k :| 0 <= k < |items| && out(items[k]) == Some(p);
        if k < |init| {
          assert items[k] == init[k];
        }
      }
    }
  }

  /** The output paths of the files that have a confounds file. */
  function Outputs(fs: Fs, fmriprepDir: string, tedanaDir: string, files: seq<string>): set<string>
  {
    Collect(files, f => OutputOf(fs, fmriprepDir, tedanaDir, f))
  }

  /** A path is an output exactly when it is named after a file with a
      confounds file. */
  lemma OutputsMembers(fs: Fs, fmriprepDir: string, tedanaDir: string, files: seq<string>, p: string)
    ensures p in Outputs(fs, fmriprepDir, tedanaDir, files) <==>
            exists k :: 0 <= k < |files| && Made(fs, fmriprepDir, files[k]) && p == OutPath(tedanaDir, ParseFields(files[k]).value)
  {
    CollectMembers(files, f => OutputOf(fs, fmriprepDir, tedanaDir, f), p);
  }

  /** Unless it raises, the script writes exactly the outputs of the files
      with a confounds file; when it raises, it has written some of them. */
  lemma {:induction false} StepsWritten(fs: Fs, fmriprepDir: string, tedanaDir: string, files: seq<string>)
    ensures var o := Steps(fs, fmriprepDir, tedanaDir, files);
            o.written.Keys <= Outputs(fs, fmriprepDir, tedanaDir, files)
    ensures var o := Steps(fs, fmriprepDir, tedanaDir, files);
            !o.crashed ==> o.written.Keys == Outputs(fs, fmriprepDir, tedanaDir, files)
    decreases |files|
  {
    if files != [] {
      var init := files[..|files| - 1];
      StepsWritten(fs, fmriprepDir, tedanaDir, init);
      StepsCrash(fs, fmriprepDir, tedanaDir, init);
      StepEffect(fs, fmriprepDir, tedanaDir, Steps(fs, fmriprepDir, tedanaDir, init), files[|files| - 1]);
    }
  }
}
