/** The intracranial-volume extractor over an fMRIPrep derivatives folder:
    subject/session parsing from paths, the search for native-space tissue
    probability maps and brain masks, the choice between them, the clean-up
    of the result rows, and the quartile size bins. The volumes themselves
    (image sums, voxel sizes) are inputs. */
module Icv {
  import opened Text
  import opened Order

  // ---------------------------------------------------------------------------
  // parse_entities: re.search(r"(sub-[a-zA-Z0-9]+)", str(p))
  // ---------------------------------------------------------------------------

  /** The length of the run of ASCII letters and digits starting at `i`. */
  function AlnumRun(s: string, i: nat): (n: nat)
    requires i <= |s|
    ensures i + n <= |s|
    ensures forall k :: i <= k < i + n ==> IsAlnum(s[k])
    ensures i + n == |s| || !IsAlnum(s[i + n])
    decreases |s| - i
  {
    if i < |s| && IsAlnum(s[i]) then 1 + AlnumRun(s, i + 1) else 0
  }

  /** The pattern `tag[a-zA-Z0-9]+` can start at `j`. */
  predicate EntityAt(s: string, tag: string, j: int) {
    OccursAt(s, tag, j) && j + |tag| < |s| && IsAlnum(s[j + |tag|])
  }

  /** The leftmost position at or after `i` where the pattern matches. */
  function FirstEntity(s: string, tag: string, i: nat): (r: Option<nat>)
    requires i <= |s|
    ensures r.Some? ==> i <= r.value && EntityAt(s, tag, r.value)
    ensures r.Some? ==> forall j :: i <= j < r.value ==> !EntityAt(s, tag, j)
    ensures r.None? ==> forall j :: i <= j ==> !EntityAt(s, tag, j)
    decreases |s| - i
  {
    if i + |tag| >= |s| then None
    else if EntityAt(s, tag, i) then Some(i)
    else FirstEntity(s, tag, i + 1)
  }

  /** `m.group(1) if m else None` for the search of `tag[a-zA-Z0-9]+`: the
      leftmost match, with the greedy run of letters and digits after the
      tag; None exactly when the pattern matches nowhere. */
  function Entity(s: string, tag: string): (r: Option<string>)
    ensures r.None? <==> forall j :: 0 <= j ==> !EntityAt(s, tag, j)
    ensures r.Some? ==> StartsWith(r.value, tag) && |r.value| > |tag|
    ensures r.Some? ==> forall k :: |tag| <= k < |r.value| ==> IsAlnum(r.value[k])
    ensures r.Some? ==> var j := FirstEntity(s, tag, 0).value;
                        OccursAt(s, r.value, j) && (j + |r.value| == |s| || !IsAlnum(s[j + |r.value|]))
  {
    match FirstEntity(s, tag, 0)
    case None => None
    case Some(j) =>
      var n := AlnumRun(s, j + |tag|);
      assert s[j..j + |tag| + n][..|tag|] == s[j..j + |tag|];
      Some(s[j..j + |tag| + n])
  }

  /** `parse_entities(p)`: the subject and session labels of a path. */
  function ParseEntities(p: string): (r: (Option<string>, Option<string>))
    ensures r.0.Some? ==> StartsWith(r.0.value, "sub-")
    ensures r.1.Some? ==> StartsWith(r.1.value, "ses-")
  {
    (Entity(p, "sub-"), Entity(p, "ses-"))
  }

  /** A path whose directories before `sub-<label>/` hold no subject
      entity yields that label. */
  lemma EntityOfDir(pre: string, lab: string, post: string)
    requires |lab| > 0 && forall k :: 0 <= k < |lab| ==> IsAlnum(lab[k])
    requires forall j :: 0 <= j ==> !EntityAt(pre, "sub-", j)
    requires pre == [] || pre[|pre| - 1] == '/'
    ensures Entity(pre + "sub-" + lab + "/" + post, "sub-") == Some("sub-" + lab)
  {
    var s := pre + "sub-" + lab + "/" + post;
    var word := "sub-" + lab;
    var j0 := |pre|;
    var m := j0 + |word|;
    assert s == pre + word + "/" + post;
    assert s[..j0] == pre && s[j0..m] == word && s[m] == '/';
    EntityAfterPrefix(s, j0, lab);
  }

  lemma EntityAfterPrefix(s: string, j0: nat, lab: string)
    requires |lab| > 0 && forall k :: 0 <= k < |lab| ==> IsAlnum(lab[k])
    requires j0 + 4 + |lab| < |s|
    requires s[j0..j0 + 4 + |lab|] == "sub-" + lab && s[j0 + 4 + |lab|] == '/'
    requires forall j :: 0 <= j ==> !EntityAt(s[..j0], "sub-", j)
    requires j0 == 0 || s[j0 - 1] == '/'
    ensures Entity(s, "sub-") == Some("sub-" + lab)
  {
    var word := "sub-" + lab;
    forall i | 0 <= i <= 4 ensures s[j0 + i] == word[i] {
      assert s[j0..j0 + 4 + |lab|][i] == s[j0 + i];
    }
    FirstSubIn(s, j0);
    AlnumAfterTag(s, j0 + 4, lab);
    EntityFromParts(s, "sub-", j0, |lab|, word);
  }

  lemma FirstSubIn(s: string, j0: nat)
    requires j0 + 4 < |s| && s[j0] == 's' && s[j0 + 1] == 'u' && s[j0 + 2] == 'b' && s[j0 + 3] == '-'
    requires IsAlnum(s[j0 + 4])
    requires forall j :: 0 <= j ==> !EntityAt(s[..j0], "sub-", j)
    requires j0 == 0 || s[j0 - 1] == '/'
    ensures FirstEntity(s, "sub-", 0) == Some(j0)
  {
    var pre, rest := s[..j0], s[j0..];
    assert s == pre + rest;
    FirstSubAt(pre, rest);
  }

  lemma AlnumAfterTag(s: string, i: nat, lab: string)
    requires i + |lab| < |s| && s[i..i + |lab|] == lab && !IsAlnum(s[i + |lab|])
    requires forall k :: 0 <= k < |lab| ==> IsAlnum(lab[k])
    ensures AlnumRun(s, i) == |lab|
  {
    forall k | i <= k < i + |lab| ensures IsAlnum(s[k]) {
      assert s[k] == lab[k - i];
    }
    RunLength(s, i, |lab|);
  }

  /** How `Entity` reads off a match: the leftmost start and the run length. */
  lemma EntityFromParts(s: string, tag: string, j: nat, n: nat, w: string)
    requires j + |tag| <= |s| && FirstEntity(s, tag, 0) == Some(j) && AlnumRun(s, j + |tag|) == n
    requires s[j..j + |tag| + n] == w
    ensures Entity(s, tag) == Some(w)
  {
    EntityMatch(s, tag, j, n);
  }

  lemma EntityMatch(s: string, tag: string, j: nat, n: nat)
    requires j + |tag| <= |s| && FirstEntity(s, tag, 0) == Some(j) && AlnumRun(s, j + |tag|) == n
    ensures Entity(s, tag).Some? && Entity(s, tag).value == s[j..j + |tag| + n]
  {
  }

  /** The first subject entity is the one right after a `/`-terminated
      prefix that holds none. */
  lemma FirstSubAt(pre: string, rest: string)
    requires |rest| > 4 && rest[0] == 's' && rest[1] == 'u' && rest[2] == 'b' && rest[3] == '-'
    requires IsAlnum(rest[4])
    requires forall j :: 0 <= j ==> !EntityAt(pre, "sub-", j)
    requires pre == [] || pre[|pre| - 1] == '/'
    ensures FirstEntity(pre + rest, "sub-", 0) == Some(|pre|)
  {
    var s := pre + rest;
    var j0 := |pre|;
    assert s[j0..j0 + 4] == "sub-" && s[j0 + 4] == rest[4];
    forall j | 0 <= j < j0 ensures !EntityAt(s, "sub-", j) {
      NoEntityBefore(pre, rest, j);
    }
    LeftmostEntity(s, "sub-", j0);
  }

  /** Appending to a `/`-terminated prefix creates no match starting inside
      it. */
  lemma NoEntityBefore(pre: string, rest: string, j: nat)
    requires j < |pre| && pre[|pre| - 1] == '/'
    requires !EntityAt(pre, "sub-", j)
    ensures !EntityAt(pre + rest, "sub-", j)
  {
    var s := pre + rest;
    if j + 4 < |pre| {
      assert s[j..j + 4] == pre[j..j + 4] && s[j + 4] == pre[j + 4];
    } else if j + 4 <= |s| {
      var i := |pre| - 1 - j;
      assert s[j..j + 4][i] == pre[|pre| - 1] == '/';
      assert "sub-"[i] != '/';
    }
  }

  /** A match with none before it is the leftmost one. */
  lemma LeftmostEntity(s: string, tag: string, j0: nat)
    requires EntityAt(s, tag, j0)
    requires forall j :: 0 <= j < j0 ==> !EntityAt(s, tag, j)
    ensures FirstEntity(s, tag, 0) == Some(j0)
  {
  }

  /** The run length is determined by where the letters and digits stop. */
  lemma {:induction false} RunLength(s: string, i: nat, n: nat)
    requires i + n < |s|
    requires forall k :: i <= k < i + n ==> IsAlnum(s[k])
    requires !IsAlnum(s[i + n])
    ensures AlnumRun(s, i) == n
    decreases n
  {
    if n > 0 {
      RunLength(s, i + 1, n - 1);
    }
  }

  // ---------------------------------------------------------------------------
  // find_native_probseg_sets / find_native_brainmasks
  // ---------------------------------------------------------------------------

  const GmSuffix := "_label-GM_probseg.nii.gz"
  const WmSuffix := "_label-WM_probseg.nii.gz"
  const CsfSuffix := "_label-CSF_probseg.nii.gz"
  const MaskSuffix := "_desc-brain_mask.nii.gz"

  /** `Path(p).name` has no `space-` entity: the image is in native space. */
  predicate Native(p: string) {
    !Contains(Basename(p), "space-")
  }

  /** `rglob("*" + suffix)` over the files `tree` under the folder: the files
      whose name ends with `suffix`, in listing order. */
  function Glob(tree: seq<string>, suffix: string): (r: seq<string>)
    ensures forall p :: p in r <==> p in tree && EndsWith(Basename(p), suffix)
  {
    if tree == [] then []
    else
      var rest := Glob(tree[..|tree| - 1], suffix);
      var p := tree[|tree| - 1];
      assert tree == tree[..|tree| - 1] + [p];
      if EndsWith(Basename(p), suffix) then rest + [p] else rest
  }

  /** `sorted(root.rglob("*" + suffix))` */
  function Found(tree: seq<string>, suffix: string): (r: seq<string>)
    ensures forall p :: p in r <==> p in tree && EndsWith(Basename(p), suffix)
  {
    var g := Glob(tree, suffix);
    var r := Sort(g, PathLess);
    assert forall p :: p in r <==> p in multiset(g);
    r
  }

  /** One GM/WM/CSF triple of tissue probability maps. */
  datatype ProbsegSet = ProbsegSet(gm: string, wm: string, csf: string)

  /** The triple named after a GM map: the GM suffix replaced wherever it
      occurs in the path. */
  function SetOf(gm: string): ProbsegSet
  {
    ProbsegSet(gm, ReplaceAll(gm, GmSuffix, WmSuffix), ReplaceAll(gm, GmSuffix, CsfSuffix))
  }

  /** The GM map `gm` gives a set: it is native and both partners exist. */
  predicate Complete(gm: string, tree: seq<string>) {
    Native(gm) && SetOf(gm).wm in tree && SetOf(gm).csf in tree
  }

  /** The sets built from the GM maps `gms`, in their order. */
  function NativeSets(gms: seq<string>, tree: seq<string>): (r: seq<ProbsegSet>)
    ensures |r| <= |gms|
  {
    if gms == [] then []
    else
      var rest := NativeSets(gms[..|gms| - 1], tree);
      var gm := gms[|gms| - 1];
      if Complete(gm, tree) then rest + [SetOf(gm)] else rest
  }

  /** The GM maps of a list of sets. */
  function Gms(ss: seq<ProbsegSet>): (r: seq<string>)
    ensures |r| == |ss| && forall k :: 0 <= k < |ss| ==> r[k] == ss[k].gm
  {
    if ss == [] then [] else Gms(ss[..|ss| - 1]) + [ss[|ss| - 1].gm]
  }

  /** `find_native_probseg_sets(root)`, the loop as written. */
  method FindNativeProbsegSets(tree: seq<string>) returns (sets: seq<ProbsegSet>)
    ensures sets == NativeSets(Found(tree, GmSuffix), tree)
  {
    var gmFiles := Found(tree, GmSuffix);
    sets := [];
    for i := 0 to |gmFiles|
      invariant sets == NativeSets(gmFiles[..i], tree)
    {
      NativeSetsStep(gmFiles, i, tree);
      var add := SetFor(gmFiles[i], tree);
      sets := sets + add;
    }
    assert gmFiles[..|gmFiles|] == gmFiles;
  }

  /** The set one GM map contributes, if any. */
  method SetFor(gm: string, tree: seq<string>) returns (add: seq<ProbsegSet>)
    ensures add == if Complete(gm, tree) then [SetOf(gm)] else []
  {
    if Contains(Basename(gm), "space-") {
      return [];
    }
    var wm := ReplaceAll(gm, GmSuffix, WmSuffix);
    var csf := ReplaceAll(gm, GmSuffix, CsfSuffix);
    if wm in tree && csf in tree {
      return [ProbsegSet(gm, wm, csf)];
    }
    return [];
  }

  lemma NativeSetsStep(gms: seq<string>, i: nat, tree: seq<string>)
    requires i < |gms|
    ensures NativeSets(gms[..i + 1], tree) == NativeSets(gms[..i], tree) + if Complete(gms[i], tree) then [SetOf(gms[i])] else []
  {
    assert gms[..i + 1][..i] == gms[..i];
  }

  /** A set is found exactly for a complete GM map among `gms`. */
  lemma {:induction false} NativeSetsMembers(gms: seq<string>, tree: seq<string>, ps: ProbsegSet)
    ensures ps in NativeSets(gms, tree) <==> ps.gm in gms && Complete(ps.gm, tree) && ps == SetOf(ps.gm)
  {
    if gms != [] {
      var init := gms[..|gms| - 1];
      NativeSetsMembers(init, tree, ps);
      assert gms == init + [gms[|gms| - 1]];
    }
  }

  /** Each set is named after one of the GM maps it was built from. */
  lemma {:induction false} NativeSetsFrom(gms: seq<string>, tree: seq<string>)
    ensures forall g :: g in Gms(NativeSets(gms, tree)) ==> g in gms
  {
    if gms != [] {
      var init := gms[..|gms| - 1];
      NativeSetsFrom(init, tree);
      var rest := NativeSets(init, tree);
      var gm := gms[|gms| - 1];
      if Complete(gm, tree) {
        assert Gms(rest + [SetOf(gm)]) == Gms(rest) + [gm];
      }
    }
  }

  /** The sets keep the order of their GM maps: sorted input, sorted sets. */
  lemma {:induction false} NativeSetsOrdered(gms: seq<string>, tree: seq<string>, lt: (string, string) -> bool)
    requires SortedBy(gms, lt)
    ensures SortedBy(Gms(NativeSets(gms, tree)), lt)
  {
    if gms != [] {
      var init := gms[..|gms| - 1];
      assert SortedBy(init, lt) by {
        forall i, j | 0 <= i < j < |init| ensures !lt(init[j], init[i]) {
          assert init[i] == gms[i] && init[j] == gms[j];
        }
      }
      NativeSetsOrdered(init, tree, lt);
      var rest := NativeSets(init, tree);
      var gm := gms[|gms| - 1];
      if Complete(gm, tree) {
        var gs := Gms(rest);
        NativeSetsFrom(init, tree);
        assert Gms(rest + [SetOf(gm)]) == gs + [gm];
        forall k | 0 <= k < |gs| ensures !lt(gm, gs[k]) {
          var g := gs[k];
          assert g in init;
          var m :| 0 <= m < |init| && init[m] == g;
          assert gms[m] == g;
        }
        SortedSnoc(gs, gm, lt);
      }
    }
  }

  /** The sets found are in path order, and each names a GM map found. */
  lemma SetsSorted(tree: seq<string>)
    ensures SortedBy(Gms(NativeSets(Found(tree, GmSuffix), tree)), PathLess)
    ensures forall g :: g in Gms(NativeSets(Found(tree, GmSuffix), tree)) ==> g in Found(tree, GmSuffix)
  {
    NativeSetsFrom(Found(tree, GmSuffix), tree);
    PathStrictTotal();
    SortSorted(Glob(tree, GmSuffix), PathLess);
    NativeSetsOrdered(Found(tree, GmSuffix), tree, PathLess);
  }

  /** When the GM suffix occurs in the path only at its end, the partners
      differ from the GM map in that suffix alone. */
  lemma PartnerNames(stem: string)
    requires forall j :: 0 <= j < |stem| ==> !OccursAt(stem + GmSuffix, GmSuffix, j)
    ensures SetOf(stem + GmSuffix) == ProbsegSet(stem + GmSuffix, stem + WmSuffix, stem + CsfSuffix)
  {
    ReplaceOnlySuffix(stem, GmSuffix, WmSuffix);
    ReplaceOnlySuffix(stem, GmSuffix, CsfSuffix);
  }

  /** The native members of `ps`, in order. */
  function NativeOnly(ps: seq<string>): (r: seq<string>)
    ensures forall p :: p in r <==> p in ps && Native(p)
  {
    if ps == [] then []
    else
      var rest := NativeOnly(ps[..|ps| - 1]);
      var p := ps[|ps| - 1];
      assert ps == ps[..|ps| - 1] + [p];
      if Native(p) then rest + [p] else rest
  }

  /** Keeping some members of a sorted list keeps it sorted. */
  lemma {:induction false} NativeOnlySorted(ps: seq<string>)
    requires SortedBy(ps, PathLess)
    ensures SortedBy(NativeOnly(ps), PathLess)
  {
    if ps != [] {
      var init := ps[..|ps| - 1];
      assert SortedBy(init, PathLess);
      NativeOnlySorted(init);
      var p := ps[|ps| - 1];
      forall q | q in NativeOnly(init) ensures !PathLess(p, q) {
        var m :| 0 <= m < |init| && init[m] == q;
        assert ps[m] == q;
      }
    }
  }

  /** `find_native_brainmasks(root)` */
  function NativeMasks(tree: seq<string>): (r: seq<string>)
    ensures forall p :: p in r <==> p in tree && EndsWith(Basename(p), MaskSuffix) && Native(p)
  {
    NativeOnly(Found(tree, MaskSuffix))
  }

  /** The masks are exactly the native ones, in path order. */
  lemma MasksSorted(tree: seq<string>)
    ensures SortedBy(NativeMasks(tree), PathLess)
  {
    PathStrictTotal();
    SortSorted(Glob(tree, MaskSuffix), PathLess);
    NativeOnlySorted(Found(tree, MaskSuffix));
  }

  // ---------------------------------------------------------------------------
  // main: rows, fallback, clean-up
  // ---------------------------------------------------------------------------

  /** The `method` column (named `kind` here). */
  datatype Method = ProbsegIcv | ProbsegFailed | BrainMask | BrainMaskFailed

  /** One result row; `volume` is None where the row holds NaN. */
  datatype Row = Row(subject: Option<string>, session: Option<string>, kind: Method,
                     volume: Option<real>, source: string)

  const NotFound := "Directory not found"
  const NoInputs := "Found no probsegs and no native brain masks."
  const NoValid := "No valid volumes computed (all failed or missing)."

  /** The row for one set; `vols` holds the volume of each source whose
      computation succeeded (a load failure or a shape mismatch leaves it out). */
  function ProbsegRow(s: ProbsegSet, vols: map<string, real>): Row
  {
    var (sub, ses) := ParseEntities(s.gm);
    if s.gm in vols then Row(sub, ses, ProbsegIcv, Some(vols[s.gm]), s.gm)
    else Row(sub, ses, ProbsegFailed, None, s.gm)
  }

  function MaskRow(m: string, vols: map<string, real>): Row
  {
    var (sub, ses) := ParseEntities(m);
    if m in vols then Row(sub, ses, BrainMask, Some(vols[m]), m)
    else Row(sub, ses, BrainMaskFailed, None, m)
  }

  function ProbsegRows(ss: seq<ProbsegSet>, vols: map<string, real>): (r: seq<Row>)
    ensures |r| == |ss| && forall k :: 0 <= k < |ss| ==> r[k] == ProbsegRow(ss[k], vols)
  {
    if ss == [] then [] else ProbsegRows(ss[..|ss| - 1], vols) + [ProbsegRow(ss[|ss| - 1], vols)]
  }

  function MaskRows(ms: seq<string>, vols: map<string, real>): (r: seq<Row>)
    ensures |r| == |ms| && forall k :: 0 <= k < |ms| ==> r[k] == MaskRow(ms[k], vols)
  {
    if ms == [] then [] else MaskRows(ms[..|ms| - 1], vols) + [MaskRow(ms[|ms| - 1], vols)]
  }

  /** A row that survives the clean-up: it has a volume and a subject. */
  predicate Usable(r: Row) {
    r.volume.Some? && r.subject.Some?
  }

  /** `dropna(subset=["volume_ml"])` and then the missing-subject filter. */
  function Usables(rows: seq<Row>): (r: seq<Row>)
    ensures forall x :: x in r <==> x in rows && Usable(x)
  {
    if rows == [] then []
    else
      var rest := Usables(rows[..|rows| - 1]);
      var x := rows[|rows| - 1];
      assert rows == rows[..|rows| - 1] + [x];
      if Usable(x) then rest + [x] else rest
  }

  /** The rows before the clean-up: the probseg rows, or, only when there
      are none, the brain-mask rows; no brain mask either raises. */
  function RawRows(tree: seq<string>, forceMask: bool, vols: map<string, real>): Result<seq<Row>>
  {
    var sets := if forceMask then [] else NativeSets(Found(tree, GmSuffix), tree);
    var rows := ProbsegRows(sets, vols);
    if rows != [] then Ok(rows)
    else
      var masks := NativeMasks(tree);
      if masks == [] then Err(NoInputs) else Ok(MaskRows(masks, vols))
  }

  /** The whole table the script writes, or the error it raises. */
  function Volumes(rootExists: bool, tree: seq<string>, forceMask: bool, vols: map<string, real>): Result<seq<Row>>
  {
    if !rootExists then Err(NotFound)
    else
      match RawRows(tree, forceMask, vols)
      case Err(e) => Err(e)
      case Ok(rows) =>
        var kept := Usables(rows);
        if kept == [] then Err(NoValid) else Ok(kept)
  }

  /** The row collection of `main`, both loops as written. */
  method CollectVolumes(rootExists: bool, tree: seq<string>, forceMask: bool, vols: map<string, real>)
    returns (r: Result<seq<Row>>)
    ensures r == Volumes(rootExists, tree, forceMask, vols)
  {
    if !rootExists {
      return Err(NotFound);
    }
    var sets: seq<ProbsegSet> := [];
    if !forceMask {
      sets := FindNativeProbsegSets(tree);
    }
    var rows := AppendRows(sets, vols);
    if rows == [] {
      var masks := NativeMasks(tree);
      if masks == [] {
        return Err(NoInputs);
      }
      rows := AppendMaskRows(masks, vols);
    }
    var kept := Usables(rows);
    if kept == [] {
      return Err(NoValid);
    }
    r := Ok(kept);
  }

  /** `for s in probseg_sets: rows.append(...)` */
  method AppendRows(sets: seq<ProbsegSet>, vols: map<string, real>) returns (rows: seq<Row>)
    ensures rows == ProbsegRows(sets, vols)
  {
    rows := [];
    for i := 0 to |sets|
      invariant rows == ProbsegRows(sets[..i], vols)
    {
      assert sets[..i + 1][..i] == sets[..i];
      var s := sets[i];
      var (sub, ses) := ParseEntities(s.gm);
      if s.gm in vols {
        rows := rows + [Row(sub, ses, ProbsegIcv, Some(vols[s.gm]), s.gm)];
      } else {
        rows := rows + [Row(sub, ses, ProbsegFailed, None, s.gm)];
      }
    }
    assert sets[..|sets|] == sets;
  }

  /** `for m in masks: rows.append(...)` */
  method AppendMaskRows(masks: seq<string>, vols: map<string, real>) returns (rows: seq<Row>)
    ensures rows == MaskRows(masks, vols)
  {
    rows := [];
    for i := 0 to |masks|
      invariant rows == MaskRows(masks[..i], vols)
    {
      assert masks[..i + 1][..i] == masks[..i];
      var m := masks[i];
      var (sub, ses) := ParseEntities(m);
      if m in vols {
        rows := rows + [Row(sub, ses, BrainMask, Some(vols[m]), m)];
      } else {
        rows := rows + [Row(sub, ses, BrainMaskFailed, None, m)];
      }
    }
    assert masks[..|masks|] == masks;
  }

  /** A probseg row has a volume exactly when its computation succeeded,
      and then it is an ICV row. */
  lemma {:induction false} ProbsegRowsKinds(ss: seq<ProbsegSet>, vols: map<string, real>)
    ensures forall x :: x in ProbsegRows(ss, vols) ==>
              (x.kind == ProbsegIcv || x.kind == ProbsegFailed) &&
              (x.volume.Some? <==> x.kind == ProbsegIcv) &&
              (x.volume.Some? <==> x.source in vols) &&
              exists k :: 0 <= k < |ss| && x.source == ss[k].gm
  {
    forall x | x in ProbsegRows(ss, vols)
      ensures exists k :: 0 <= k < |ss| && x.source == ss[k].gm
    {
      var k :| 0 <= k < |ss| && ProbsegRows(ss, vols)[k] == x;
    }
  }

  /** Brain masks are read only when no probseg row was produced: when a set
      is found (and masks are not forced), every row comes from a set. */
  lemma MasksOnlyAsFallback(tree: seq<string>, forceMask: bool, vols: map<string, real>)
    requires !forceMask && NativeSets(Found(tree, GmSuffix), tree) != []
    ensures var r := Volumes(true, tree, forceMask, vols);
            r.Ok? ==> forall x :: x in r.value ==> x.kind == ProbsegIcv
  {
    var sets := NativeSets(Found(tree, GmSuffix), tree);
    assert ProbsegRows(sets, vols)[0] == ProbsegRow(sets[0], vols);
    ProbsegRowsKinds(sets, vols);
  }

  /** Even when every set's computation fails, the script does not fall back
      to brain masks: it raises for lack of valid volumes. */
  lemma FailedSetsNoFallback(tree: seq<string>, forceMask: bool, vols: map<string, real>)
    requires !forceMask && NativeSets(Found(tree, GmSuffix), tree) != []
    requires forall s :: s in NativeSets(Found(tree, GmSuffix), tree) ==> s.gm !in vols
    ensures Volumes(true, tree, forceMask, vols) == Err(NoValid)
  {
    var sets := NativeSets(Found(tree, GmSuffix), tree);
    var rows := ProbsegRows(sets, vols);
    assert rows[0] == ProbsegRow(sets[0], vols);
    ProbsegRowsKinds(sets, vols);
    forall x | x in rows ensures !Usable(x) {
      var k :| 0 <= k < |sets| && x.source == sets[k].gm;
      assert sets[k] in sets;
    }
    assert Usables(rows) == [] by {
      if Usables(rows) != [] {
        assert Usables(rows)[0] in Usables(rows);
      }
    }
  }

  /** The script raises for lack of input exactly when no set is used and no
      native brain mask exists. */
  lemma NoInputsExactly(tree: seq<string>, forceMask: bool, vols: map<string, real>)
    ensures Volumes(true, tree, forceMask, vols) == Err(NoInputs) <==>
            (forceMask || NativeSets(Found(tree, GmSuffix), tree) == []) && NativeMasks(tree) == []
  {
    var sets := if forceMask then [] else NativeSets(Found(tree, GmSuffix), tree);
    if sets != [] {
      assert ProbsegRows(sets, vols)[0] == ProbsegRow(sets[0], vols);
    }
  }

  /** The rows written are exactly the usable rows collected, and at least one. */
  lemma WrittenRows(tree: seq<string>, forceMask: bool, vols: map<string, real>)
    requires RawRows(tree, forceMask, vols).Ok?
    ensures var r := Volumes(true, tree, forceMask, vols);
            var raw := RawRows(tree, forceMask, vols).value;
            (r.Ok? || r == Err(NoValid)) &&
            (r.Ok? ==> r.value != [] && forall x :: x in r.value <==> x in raw && Usable(x)) &&
            (r == Err(NoValid) <==> forall x :: x in raw ==> !Usable(x))
  {
    var raw := RawRows(tree, forceMask, vols).value;
    var kept := Usables(raw);
    if kept != [] {
      assert kept[0] in kept;
    }
  }

  // ---------------------------------------------------------------------------
  // size_bin
  // ---------------------------------------------------------------------------

  datatype Bin = Small | Medium | Large | ExtraLarge

  /** The lab written to the `size_bin` column. */
  function Label(b: Bin): string
  {
    match b
    case Small => "small"
    case Medium => "medium"
    case Large => "large"
    case ExtraLarge => "extra_large"
  }

  /** `size_bin(volume, q25, q50, q75)`: half-open intervals, the first
      threshold the volume is below. */
  function SizeBin(v: real, q25: real, q50: real, q75: real): Bin
  {
    if v < q25 then Small
    else if v < q50 then Medium
    else if v < q75 then Large
    else ExtraLarge
  }

  function Rank(b: Bin): nat
  {
    match b
    case Small => 0
    case Medium => 1
    case Large => 2
    case ExtraLarge => 3
  }

  /** With ordered quartiles each bin is exactly its interval. */
  lemma SizeBinIntervals(v: real, q25: real, q50: real, q75: real)
    requires q25 <= q50 <= q75
    ensures SizeBin(v, q25, q50, q75) == Small <==> v < q25
    ensures SizeBin(v, q25, q50, q75) == Medium <==> q25 <= v < q50
    ensures SizeBin(v, q25, q50, q75) == Large <==> q50 <= v < q75
    ensures SizeBin(v, q25, q50, q75) == ExtraLarge <==> q75 <= v
  {
  }

  /** A larger volume never gets a smaller bin. */
  lemma SizeBinMonotone(v: real, w: real, q25: real, q50: real, q75: real)
    requires q25 <= q50 <= q75 && v <= w
    ensures Rank(SizeBin(v, q25, q50, q75)) <= Rank(SizeBin(w, q25, q50, q75))
  {
  }
}
