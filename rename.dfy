/** The prefix renamer: every file of a directory whose name starts with
    `<old>-` for an old subject number of the mapping table is renamed to
    `<new>-` followed by the rest of its name. */
module Rename {
  import opened Text

  /** The mapping table, old subject number to new, in its written order. */
  const Mapping: seq<(nat, nat)> := [
    (2, 23), (3, 24), (4, 25), (5, 26), (6, 27), (7, 28), (8, 29), (10, 30),
    (11, 31), (12, 32), (13, 33), (15, 34), (16, 35), (17, 36), (18, 37), (19, 38),
    (20, 39), (21, 40), (23, 41), (24, 42), (25, 43), (26, 44), (28, 45), (29, 46),
    (30, 47), (31, 48), (32, 49), (34, 50), (35, 51), (36, 52), (38, 53), (39, 54)]

  /** A table of renames: both columns strictly increase. */
  predicate Table(m: seq<(nat, nat)>)
  {
    forall i :: 0 <= i < |m| - 1 ==> m[i].0 < m[i + 1].0 && m[i].1 < m[i + 1].1
  }

  lemma MappingIsTable()
    ensures Table(Mapping)
  {
    forall i | 0 <= i < |Mapping| - 1
      ensures Mapping[i].0 < Mapping[i + 1].0 && Mapping[i].1 < Mapping[i + 1].1
    {
      if i < 8 {} else if i < 16 {} else if i < 24 {} else {}
    }
  }

  /** A table is injective in both columns. */
  lemma {:induction false} TableIncreasing(m: seq<(nat, nat)>, i: nat, j: nat)
    requires Table(m) && i < j < |m|
    ensures m[i].0 < m[j].0 && m[i].1 < m[j].1
    decreases j - i
  {
    if i + 1 < j {
      TableIncreasing(m, i + 1, j);
    }
  }

  /** `f"{n}-"` */
  function Prefix(n: nat): (p: string)
    ensures |p| >= 2 && p[|p| - 1] == '-'
    ensures forall k :: 0 <= k < |p| - 1 ==> IsDigit(p[k])
  {
    NatToString(n) + "-"
  }

  /** A name starts with at most one `<n>-`: a digit is never `-`, so one such
      prefix cannot be a proper prefix of another. */
  lemma PrefixesExclusive(f: string, a: nat, b: nat)
    requires StartsWith(f, Prefix(a)) && StartsWith(f, Prefix(b))
    ensures a == b
  {
    var pa, pb := Prefix(a), Prefix(b);
    if |pa| == |pb| {
      assert pa == f[..|pa|] == pb;
      assert NatToString(a) == pa[..|pa| - 1] == pb[..|pb| - 1] == NatToString(b);
      NatToStringInjective(a, b);
    } else {
      assert false;
    }
  }

  // ---------------------------------------------------------------------------
  // The rule for one name
  // ---------------------------------------------------------------------------

  /** The first entry of `es` whose old prefix starts `f`. */
  function MatchIndex(f: string, es: seq<(nat, nat)>): (r: Option<nat>)
    ensures r.Some? ==> r.value < |es| && StartsWith(f, Prefix(es[r.value].0))
    ensures r.Some? ==> forall k :: 0 <= k < r.value ==> !StartsWith(f, Prefix(es[k].0))
    ensures r.None? ==> forall k :: 0 <= k < |es| ==> !StartsWith(f, Prefix(es[k].0))
  {
    if es == [] then None
    else if StartsWith(f, Prefix(es[0].0)) then Some(0)
    else match MatchIndex(f, es[1..])
      case None => None
      case Some(k) => Some(k + 1)
  }

  /** The table entry that applies to `f`. */
  function EntryOf(m: seq<(nat, nat)>, f: string): (r: Option<nat>)
    ensures r.Some? ==> r.value < |m| && StartsWith(f, Prefix(m[r.value].0))
    ensures r.None? ==> forall k :: 0 <= k < |m| ==> !StartsWith(f, Prefix(m[k].0))
  {
    MatchIndex(f, m)
  }

  /** The entry that applies is the only one whose prefix starts the name. */
  lemma EntryOfOnly(m: seq<(nat, nat)>, f: string, k: nat)
    requires Table(m) && k < |m| && StartsWith(f, Prefix(m[k].0))
    ensures EntryOf(m, f) == Some(k)
  {
    var r := EntryOf(m, f).value;
    if r < k {
      PrefixesExclusive(f, m[k].0, m[r].0);
      TableIncreasing(m, r, k);
    }
  }

  /** `f"{new}-" + filename[len(prefix):]` for the entry `e`. */
  function Renamed(f: string, e: (nat, nat)): string
    requires StartsWith(f, Prefix(e.0))
  {
    Prefix(e.1) + f[|Prefix(e.0)|..]
  }

  /** The new name of `f`, if the table applies to it: the new prefix followed
      by the rest of the name, unchanged. */
  function NewName(m: seq<(nat, nat)>, f: string): (r: Option<string>)
    ensures r.Some? <==> EntryOf(m, f).Some?
    ensures r.Some? ==> var e := m[EntryOf(m, f).value];
                        StartsWith(r.value, Prefix(e.1)) && r.value[|Prefix(e.1)|..] == f[|Prefix(e.0)|..]
  {
    match EntryOf(m, f)
    case None => None
    case Some(j) => Some(Renamed(f, m[j]))
  }

  /** Distinct names get distinct new names. */
  lemma NewNameInjective(m: seq<(nat, nat)>, f: string, g: string)
    requires Table(m) && NewName(m, f).Some? && NewName(m, f) == NewName(m, g)
    ensures f == g
  {
    var i, j := EntryOf(m, f).value, EntryOf(m, g).value;
    var n := NewName(m, f).value;
    PrefixesExclusive(n, m[i].1, m[j].1);
    if i < j {
      TableIncreasing(m, i, j);
    } else if j < i {
      TableIncreasing(m, j, i);
    }
    assert f == f[..|Prefix(m[i].0)|] + f[|Prefix(m[i].0)|..];
    assert g == g[..|Prefix(m[j].0)|] + g[|Prefix(m[j].0)|..];
  }

  // ---------------------------------------------------------------------------
  // The script as written
  // ---------------------------------------------------------------------------

  /** A directory: each name and the file stored under it. */
  type Dir = map<string, nat>

  /** The directory, the messages printed, and the name whose rename raised. */
  datatype Outcome = Outcome(files: Dir, log: seq<string>, failed: Option<string>)

  /** `os.rename(src, dst)`: raises when `src` is gone, silently replaces `dst`. */
  function Move(st: Outcome, src: string, dst: string): Outcome
  {
    if src !in st.files then Outcome(st.files, st.log, Some(src))
    else Outcome((st.files - {src})[dst := st.files[src]], st.log + ["Renamed: " + src + " -> " + dst], None)
  }

  /** The body of the inner loop: entry `e` applied to the listed name `f`. */
  function Rule(st: Outcome, f: string, e: (nat, nat), dryRun: bool): Outcome
  {
    if st.failed.Some? || !StartsWith(f, Prefix(e.0)) then st
    else if dryRun then Outcome(st.files, st.log + ["[DRY RUN] " + f + " -> " + Renamed(f, e)], None)
    else Move(st, f, Renamed(f, e))
  }

  /** The inner loop over the table's entries `es`, in order. */
  function Rules(st: Outcome, f: string, es: seq<(nat, nat)>, dryRun: bool): Outcome
  {
    if es == [] then st else Rule(Rules(st, f, es[..|es| - 1], dryRun), f, es[|es| - 1], dryRun)
  }

  /** The outer loop over the listing, taken once before any rename. */
  function Sweep(m: seq<(nat, nat)>, st: Outcome, names: seq<string>, dryRun: bool): Outcome
  {
    if names == [] then st else Rules(Sweep(m, st, names[..|names| - 1], dryRun), names[|names| - 1], m, dryRun)
  }

  /** The whole script: the sweep, then `Done.`. */
  function Script(m: seq<(nat, nat)>, dir: Dir, listing: seq<string>, dryRun: bool): Outcome
  {
    var st := Sweep(m, Outcome(dir, [], None), listing, dryRun);
    if st.failed.None? then Outcome(st.files, st.log + ["Done."], None) else st
  }

  /** The inner loop does at most one thing: apply the one entry that fits. */
  lemma {:induction false} RulesOneEntry(m: seq<(nat, nat)>, st: Outcome, f: string, es: seq<(nat, nat)>, dryRun: bool)
    requires Table(m) && es <= m
    ensures Rules(st, f, es, dryRun) ==
            match EntryOf(m, f)
            case Some(j) => if j < |es| then Rule(st, f, m[j], dryRun) else st
            case None => st
    decreases |es|
  {
    if es != [] {
      var init, n := es[..|es| - 1], |es| - 1;
      assert init <= m;
      RulesOneEntry(m, st, f, init, dryRun);
      assert es[n] == m[n];
      var mid := Rules(st, f, init, dryRun);
      if StartsWith(f, Prefix(m[n].0)) {
        EntryOfOnly(m, f, n);
        assert mid == st;
      } else {
        assert Rule(mid, f, es[n], dryRun) == mid;
      }
    }
  }

  /** The rule for a listed name: renamed by its entry, or left alone. */
  lemma NameStep(m: seq<(nat, nat)>, st: Outcome, f: string, dryRun: bool)
    requires Table(m)
    ensures Rules(st, f, m, dryRun) ==
            if st.failed.Some? || NewName(m, f).None? then st
            else if dryRun then Outcome(st.files, st.log + ["[DRY RUN] " + f + " -> " + NewName(m, f).value], None)
            else Move(st, f, NewName(m, f).value)
  {
    RulesOneEntry(m, st, f, m, dryRun);
  }

  /** The messages the script prints for the names `names`. */
  function Messages(m: seq<(nat, nat)>, names: seq<string>, dryRun: bool): seq<string>
  {
    if names == [] then []
    else
      var f := names[|names| - 1];
      Messages(m, names[..|names| - 1], dryRun) +
      match NewName(m, f)
      case None => []
      case Some(n) => [(if dryRun then "[DRY RUN] " + f + " -> " else "Renamed: " + f + " -> ") + n]
  }

  /** A dry run changes no file and prints one line per name the table applies to. */
  lemma {:induction false} DryRunChangesNothing(m: seq<(nat, nat)>, dir: Dir, names: seq<string>)
    requires Table(m)
    ensures Sweep(m, Outcome(dir, [], None), names, true) == Outcome(dir, Messages(m, names, true), None)
    decreases |names|
  {
    if names != [] {
      DryRunChangesNothing(m, dir, names[..|names| - 1]);
      NameStep(m, Sweep(m, Outcome(dir, [], None), names[..|names| - 1], true), names[|names| - 1], true);
    }
  }

  /** With a listing of distinct names that are all in the directory, no
      rename raises: the script prints one line for each listed name the table
      applies to, in listing order, and every name not yet visited is still
      there when its turn comes. */
  lemma {:induction false} SweepNeverFails(m: seq<(nat, nat)>, dir: Dir, names: seq<string>, rest: seq<string>)
    requires Table(m)
    requires forall i, j :: 0 <= i < j < |names + rest| ==> (names + rest)[i] != (names + rest)[j]
    requires forall k :: 0 <= k < |names + rest| ==> (names + rest)[k] in dir
    ensures var st := Sweep(m, Outcome(dir, [], None), names, false);
            st.failed.None? && st.log == Messages(m, names, false) &&
            forall k :: 0 <= k < |rest| ==> rest[k] in st.files
    decreases |names|
  {
    if names == [] {
      assert names + rest == rest;
    } else {
      var init, f := names[..|names| - 1], names[|names| - 1];
      assert init + ([f] + rest) == names + rest;
      SweepNeverFails(m, dir, init, [f] + rest);
      var st := Sweep(m, Outcome(dir, [], None), init, false);
      assert ([f] + rest)[0] == f;
      NameStep(m, st, f, false);
      forall k | 0 <= k < |rest| ensures rest[k] != f {
        assert (names + rest)[|names| - 1] == f && (names + rest)[|names| + k] == rest[k];
      }
      forall k | 0 <= k < |rest| ensures rest[k] in st.files {
        assert ([f] + rest)[k + 1] == rest[k];
      }
      RestKept(m, st, f, rest);
    }
  }

  /** Renaming `f` keeps every other name of the directory. */
  lemma RestKept(m: seq<(nat, nat)>, st: Outcome, f: string, rest: seq<string>)
    requires Table(m) && st.failed.None?
    requires forall k :: 0 <= k < |rest| ==> rest[k] in st.files && rest[k] != f
    ensures forall k :: 0 <= k < |rest| ==> rest[k] in Rules(st, f, m, false).files
  {
    NameStep(m, st, f, false);
  }

  /** The script with the listing taken once, both loops as written. */
  method RenameFiles(dir: Dir, listing: seq<string>, dryRun: bool) returns (o: Outcome)
    ensures o == Script(Mapping, dir, listing, dryRun)
  {
    o := Outcome(dir, [], None);
    var i := 0;
    while i < |listing|
      invariant 0 <= i <= |listing|
      invariant o == Sweep(Mapping, Outcome(dir, [], None), listing[..i], dryRun) && o.failed.None?
    {
      assert listing[..i + 1][..i] == listing[..i];
      o := RenameOne(Mapping, o, listing[i], dryRun);
      if o.failed.Some? {
        MappingIsTable();
        SweepStops(Mapping, Outcome(dir, [], None), listing[..i + 1], listing[i + 1..], dryRun);
        assert listing[..i + 1] + listing[i + 1..] == listing;
        return;
      }
      i := i + 1;
    }
    assert listing[..i] == listing;
    o := Outcome(o.files, o.log + ["Done."], None);
  }

  /** The inner loop over the table `m` for one listed name. */
  method RenameOne(m: seq<(nat, nat)>, start: Outcome, filename: string, dryRun: bool) returns (o: Outcome)
    ensures o == Rules(start, filename, m, dryRun)
  {
    o := start;
    var k := 0;
    while k < |m|
      invariant 0 <= k <= |m|
      invariant o == Rules(start, filename, m[..k], dryRun)
    {
      assert m[..k + 1][..k] == m[..k];
      var (oldNum, newNum) := m[k];
      var prefix := Prefix(oldNum);
      if o.failed.None? && StartsWith(filename, prefix) {
        var newName := Prefix(newNum) + filename[|prefix|..];
        if dryRun {
          o := Outcome(o.files, o.log + ["[DRY RUN] " + filename + " -> " + newName], None);
        } else if filename !in o.files {
          o := Outcome(o.files, o.log, Some(filename));
        } else {
          o := Outcome((o.files - {filename})[newName := o.files[filename]], o.log + ["Renamed: " + filename + " -> " + newName], None);
        }
      }
      k := k + 1;
    }
    assert m[..k] == m;
  }

  /** A raised rename ends the script: the remaining names are not visited. */
  lemma {:induction false} SweepStops(m: seq<(nat, nat)>, st: Outcome, names: seq<string>, rest: seq<string>, dryRun: bool)
    requires Table(m)
    requires Sweep(m, st, names, dryRun).failed.Some?
    ensures Sweep(m, st, names + rest, dryRun) == Sweep(m, st, names, dryRun)
    decreases |rest|
  {
    if rest != [] {
      assert (names + rest)[..|names + rest| - 1] == names + rest[..|rest| - 1];
      SweepStops(m, st, names, rest[..|rest| - 1], dryRun);
      RulesOneEntry(m, Sweep(m, st, names + rest[..|rest| - 1], dryRun), rest[|rest| - 1], m, dryRun);
    } else {
      assert names + rest == names;
    }
  }

  // ---------------------------------------------------------------------------
  // Renaming onto a name that is itself still to be renamed
  // ---------------------------------------------------------------------------

  /** When the new number of one entry is the old number of a later entry
      (a chain `a -> b -> c`), the outcome depends on the listing order:
      listing `a-t` before `b-t` moves `a-t` onto `b-t`, replacing that file,
      and then moves it on to `c-t`; the other order keeps both files. */
  lemma ChainLosesFile(m: seq<(nat, nat)>, i: nat, j: nat, t: string)
    requires Table(m) && i < j < |m| && m[i].1 == m[j].0
    ensures var fa, fb, fc := Prefix(m[i].0) + t, Prefix(m[j].0) + t, Prefix(m[j].1) + t;
            var dir: Dir := map[fa := 1, fb := 2];
            Script(m, dir, [fa, fb], false).files == map[fc := 1] &&
            Script(m, dir, [fb, fa], false).files == map[fc := 2, fb := 1]
  {
    ChainForward(m, i, j, t);
    ChainBackward(m, i, j, t);
  }

  /** The chain, listed in table order: the middle file is replaced. */
  lemma ChainForward(m: seq<(nat, nat)>, i: nat, j: nat, t: string)
    requires Table(m) && i < j < |m| && m[i].1 == m[j].0
    ensures var fa, fb, fc := Prefix(m[i].0) + t, Prefix(m[j].0) + t, Prefix(m[j].1) + t;
            Script(m, map[fa := 1, fb := 2], [fa, fb], false).files == map[fc := 1]
  {
    var fa, fb, fc := Prefix(m[i].0) + t, Prefix(m[j].0) + t, Prefix(m[j].1) + t;
    TableIncreasing(m, i, j);
    NameOf(m, i, t);
    NameOf(m, j, t);
    DistinctNames(m[i].0, m[j].0, t);
    var s0 := Outcome(map[fa := 1, fb := 2], [], None);
    SweepTwo(m, s0, fa, fb, false);
    NameStep(m, s0, fa, false);
    var a1 := Sweep(m, s0, [fa], false);
    assert a1 == Move(s0, fa, fb);
    ForwardMoves(fa, fb, fc);
    NameStep(m, a1, fb, false);
    assert Sweep(m, s0, [fa, fb], false) == Move(a1, fb, fc);
  }

  /** The two moves of the chain in table order, on names alone. */
  lemma ForwardMoves(fa: string, fb: string, fc: string)
    requires fa != fb
    ensures var a1 := Move(Outcome(map[fa := 1, fb := 2], [], None), fa, fb);
            a1.files == map[fb := 1] && a1.failed.None? && Move(a1, fb, fc).files == map[fc := 1]
  {
  }

  /** The chain, listed in reverse: both files are kept. */
  lemma ChainBackward(m: seq<(nat, nat)>, i: nat, j: nat, t: string)
    requires Table(m) && i < j < |m| && m[i].1 == m[j].0
    ensures var fa, fb, fc := Prefix(m[i].0) + t, Prefix(m[j].0) + t, Prefix(m[j].1) + t;
            Script(m, map[fa := 1, fb := 2], [fb, fa], false).files == map[fc := 2, fb := 1]
  {
    var fa, fb, fc := Prefix(m[i].0) + t, Prefix(m[j].0) + t, Prefix(m[j].1) + t;
    TableIncreasing(m, i, j);
    NameOf(m, i, t);
    NameOf(m, j, t);
    DistinctNames(m[i].0, m[j].0, t);
    DistinctNames(m[j].0, m[j].1, t);
    DistinctNames(m[i].0, m[j].1, t);
    var s0 := Outcome(map[fa := 1, fb := 2], [], None);
    SweepTwo(m, s0, fb, fa, false);
    NameStep(m, s0, fb, false);
    var b1 := Sweep(m, s0, [fb], false);
    assert b1 == Move(s0, fb, fc);
    BackwardMoves(fa, fb, fc);
    NameStep(m, b1, fa, false);
    assert Sweep(m, s0, [fb, fa], false) == Move(b1, fa, fb);
  }

  /** The two moves of the chain in reverse order, on names alone. */
  lemma BackwardMoves(fa: string, fb: string, fc: string)
    requires fa != fb && fb != fc && fa != fc
    ensures var b1 := Move(Outcome(map[fa := 1, fb := 2], [], None), fb, fc);
            b1.files == map[fa := 1, fc := 2] && b1.failed.None? && Move(b1, fa, fb).files == map[fc := 2, fb := 1]
  {
  }

  /** A listing of two names, unfolded. */
  lemma SweepTwo(m: seq<(nat, nat)>, st: Outcome, f: string, g: string, dryRun: bool)
    ensures Sweep(m, st, [f], dryRun) == Rules(st, f, m, dryRun)
    ensures Sweep(m, st, [f, g], dryRun) == Rules(Rules(st, f, m, dryRun), g, m, dryRun)
  {
    assert [f, g][..1] == [f] && [f][..0] == [];
  }

  /** Entry `k` renames `<old>-t` to `<new>-t`. */
  lemma NameOf(m: seq<(nat, nat)>, k: nat, t: string)
    requires Table(m) && k < |m|
    ensures NewName(m, Prefix(m[k].0) + t) == Some(Prefix(m[k].1) + t)
  {
    var f := Prefix(m[k].0) + t;
    assert f[..|Prefix(m[k].0)|] == Prefix(m[k].0) && f[|Prefix(m[k].0)|..] == t;
    EntryOfOnly(m, f, k);
  }

  /** Names with different number prefixes differ. */
  lemma DistinctNames(a: nat, b: nat, t: string)
    requires a != b
    ensures Prefix(a) + t != Prefix(b) + t
  {
    if Prefix(a) + t == Prefix(b) + t {
      var f := Prefix(a) + t;
      assert f[..|Prefix(a)|] == Prefix(a);
      assert f[..|Prefix(b)|] == Prefix(b);
      PrefixesExclusive(f, a, b);
    }
  }

  /** In the table, 2 is renamed to 23 and 23 to 41: with the files `2-a`
      and `23-a`, the listing order decides whether `23-a` is lost. */
  lemma ListingOrderLosesFile()
    ensures var dir: Dir := map["2-a" := 1, "23-a" := 2];
            Script(Mapping, dir, ["2-a", "23-a"], false).files == map["41-a" := 1] &&
            Script(Mapping, dir, ["23-a", "2-a"], false).files == map["41-a" := 2, "23-a" := 1]
  {
    MappingIsTable();
    assert Mapping[0] == (2, 23) && Mapping[18] == (23, 41);
    assert NatToString(2) == "2" && NatToString(23) == "23" && NatToString(41) == "41";
    assert Prefix(2) + "a" == "2-a" && Prefix(23) + "a" == "23-a" && Prefix(41) + "a" == "41-a";
    ChainLosesFile(Mapping, 0, 18, "a");
  }

  /** Where the file named `f` is meant to end up. */
  function Dest(m: seq<(nat, nat)>, f: string): string
  {
    if NewName(m, f).Some? then NewName(m, f).value else f
  }

  /** No name the table does not apply to is the new name of another file:
      without this even a simultaneous rename replaces a file. */
  predicate NoForeignTarget(m: seq<(nat, nat)>, dir: Dir)
  {
    forall f, g :: f in dir && g in dir && NewName(m, f) == Some(g) ==> NewName(m, g).Some?
  }

  /** The intended outcome: all files renamed at once, each to its
      destination with its contents. */
  function RenameAtOnce(m: seq<(nat, nat)>, dir: Dir): (r: Dir)
    requires Table(m) && NoForeignTarget(m, dir)
    ensures r.Keys == set f | f in dir :: Dest(m, f)
  {
    DestInjective(m, dir);
    map f | f in dir :: Dest(m, f) := dir[f]
  }

  /** Two files of the directory never share a destination. */
  lemma DestInjective(m: seq<(nat, nat)>, dir: Dir)
    requires Table(m) && NoForeignTarget(m, dir)
    ensures forall f, g :: f in dir && g in dir && Dest(m, f) == Dest(m, g) ==> f == g
  {
    forall f, g | f in dir && g in dir && Dest(m, f) == Dest(m, g) ensures f == g {
      if NewName(m, f).Some? && NewName(m, g).Some? {
        NewNameInjective(m, f, g);
      }
    }
  }

  /** Renaming at once moves every file to its destination, contents intact. */
  lemma AtOnceMovesEvery(m: seq<(nat, nat)>, dir: Dir, f: string)
    requires Table(m) && NoForeignTarget(m, dir) && f in dir
    ensures Dest(m, f) in RenameAtOnce(m, dir) && RenameAtOnce(m, dir)[Dest(m, f)] == dir[f]
  {
    DestInjective(m, dir);
  }

  /** Renaming at once loses no file: there are as many names after as before. */
  lemma AtOnceKeepsCount(m: seq<(nat, nat)>, dir: Dir)
    requires Table(m) && NoForeignTarget(m, dir)
    ensures |RenameAtOnce(m, dir)| == |dir|
  {
    DestInjective(m, dir);
    var d := (f: string) => Dest(m, f);
    ImageSize(dir.Keys, d);
    assert RenameAtOnce(m, dir).Keys == set f | f in dir.Keys :: d(f);
  }

  /** An injective function keeps the size of a set. */
  lemma {:induction false} ImageSize(ks: set<string>, d: string -> string)
    requires forall f, g :: f in ks && g in ks && d(f) == d(g) ==> f == g
    ensures |set f | f in ks :: d(f)| == |ks|
    decreases |ks|
  {
    if ks != {} {
      var x :| x in ks;
      var rest := ks - {x};
      ImageSize(rest, d);
      var a := set f | f in ks :: d(f);
      var b := set f | f in rest :: d(f);
      forall y | y in a ensures y in b + {d(x)} {
        var f :| f in ks && d(f) == y;
        if f != x {
          assert f in rest;
        }
      }
      forall y | y in b + {d(x)} ensures y in a {
        if y != d(x) {
          var f :| f in rest && d(f) == y;
        }
      }
      assert a == b + {d(x)};
      assert d(x) !in b;
    }
  }
}
