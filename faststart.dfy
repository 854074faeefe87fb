/** Planning half of the fast-start preprocessing driver: reading the subject
    roster, probing storage for raw DICOM sessions, building the session
    cache, the wave-2 subject list and the process/skip partition.

    Storage is abstract: the scans directories the probe would walk (as
    trees), the set of existing directories, and the session-cache file. */
module Faststart {
  import opened Text
  import opened Order

  // ---------------------------------------------------------------------------
  // Configuration
  // ---------------------------------------------------------------------------

  const Sessions: seq<string> := ["01", "02"]
  const SourceData: string := "/ZPOOL/data/sourcedata/sourcedata/rf1-sra"
  const DefaultMaxSubjects: string := "16"
  const DefaultCpusPerSubject: string := "6"

  /** Directories the script derives from its own location. */
  datatype Layout = Layout(scriptDir: string, projDir: string)

  /** `int(os.environ.get(name, default))`: the variable's text when it is
      set, otherwise the default text, read by `int`. None is the ValueError
      that stops the script before anything runs. */
  function Knob(env: Option<string>, default: string): (r: Option<int>)
    ensures env.Some? && AllSpace(env.value) ==> r.None?
    ensures env.None? && AllDigits(default) ==> r == Some(DigitsValue(default) as int)
  {
    var text := if env.Some? then env.value else default;
    StripSlice(text);
    if env.None? && AllDigits(default) then ParseDigits(default); ParseInt(text)
    else ParseInt(text)
  }

  /** A variable set to the decimal form of `n` gives `n`, whatever the
      default. */
  lemma KnobSet(n: nat, default: string)
    ensures Knob(Some(NatToString(n)), default) == Some(n as int)
  {
    ParseNat(n);
  }

  /** Unset, the two knobs are 16 subjects at a time and 6 CPUs each. */
  lemma KnobDefaults()
    ensures Knob(None, DefaultMaxSubjects) == Some(16)
    ensures Knob(None, DefaultCpusPerSubject) == Some(6)
  {
    var one, six, sixteen: string := ['1'], ['6'], ['1', '6'];
    assert AllDigits(six) && DigitsValue(six) == 6 by { assert six[..0] == []; }
    assert AllDigits(sixteen) by { assert IsDigit(sixteen[0]) && IsDigit(sixteen[1]); }
    assert DigitsValue(sixteen) == 16 by {
      assert sixteen[..1] == one && one[..0] == [];
    }
  }

  // ---------------------------------------------------------------------------
  // Roster
  // ---------------------------------------------------------------------------

  /** A roster entry as the roster parser can produce it. */
  predicate CleanToken(s: string) {
    s != [] && !IsSpace(s[0]) && !IsSpace(s[|s| - 1]) &&
    forall j :: 0 <= j < |s| ==> !IsLineBreak(s[j], true)
  }

  function StripNonBlank(ls: seq<string>): (r: seq<string>)
    ensures |r| <= |ls|
    ensures forall k :: 0 <= k < |r| ==> r[k] != [] && !IsSpace(r[k][0]) && !IsSpace(r[k][|r[k]| - 1])
  {
    if ls == [] then []
    else if Strip(ls[0]) == [] then StripNonBlank(ls[1..])
    else [Strip(ls[0])] + StripNonBlank(ls[1..])
  }

  /** `[ln.strip() for ln in f if ln.strip()]` over the roster file's text,
      read in universal-newline mode. */
  function ParseRoster(content: string): (r: seq<string>)
    ensures forall k :: 0 <= k < |r| ==> r[k] != [] && !IsSpace(r[k][0]) && !IsSpace(r[k][|r[k]| - 1])
  {
    StripNonBlank(Lines(content, true))
  }

  lemma {:induction false} StripNonBlankClean(ls: seq<string>)
    requires forall k :: 0 <= k < |ls| ==> CleanToken(ls[k])
    ensures StripNonBlank(ls) == ls
  {
    if ls != [] {
      StripClean(ls[0]);
      StripNonBlankClean(ls[1..]);
      assert ls == [ls[0]] + ls[1..];
    }
  }

  /** Reading back a file written one subject per line gives the same
      subjects in the same order. */
  lemma RosterRoundTrip(subs: seq<string>)
    requires forall k :: 0 <= k < |subs| ==> CleanToken(subs[k])
    ensures ParseRoster(NewlineTerminated(subs)) == subs
  {
    LinesOfNewlineJoined(subs, true);
    StripNonBlankClean(subs);
  }

  // ---------------------------------------------------------------------------
  // Raw-session probe
  // ---------------------------------------------------------------------------

  /** A directory under a scans folder. An unreadable directory is skipped by
      the walk, together with everything below it. */
  datatype Dir = Dir(name: string, readable: bool, files: seq<string>, subdirs: seq<Dir>)

  /** What probing a scans directory meets: a tree to walk, a walk that raises
      OSError/PermissionError, or another exception that escapes the probe. */
  datatype ScanDir = Tree(root: Dir) | WalkRaises | ProbeRaises

  /** `scans`: the scans directories that exist (`os.path.isdir`);
      `dirs`: the other directories that exist. */
  datatype Storage = Storage(scans: map<string, ScanDir>, dirs: set<string>)

  /** One step of a top-down `os.walk`: the directory's path, its depth below
      the scans directory, and its files. */
  datatype Visit = Visit(root: string, depth: nat, files: seq<string>)

  /** The directories `os.walk(scandir)` yields, top-down, when directories
      deeper than 5 levels have their sub-directory list cleared. */
  function Walk(path: string, d: Dir, depth: nat): seq<Visit>
    decreases d, 1
  {
    if !d.readable then []
    else [Visit(path, depth, d.files)] + (if depth > 5 then [] else WalkAll(path, d.subdirs, depth + 1))
  }

  function WalkAll(path: string, ds: seq<Dir>, depth: nat): seq<Visit>
    decreases ds, 0
  {
    if ds == [] then [] else Walk(PathJoin(path, ds[0].name), ds[0], depth) + WalkAll(path, ds[1..], depth)
  }

  lemma {:induction false} WalkDepthBound(path: string, d: Dir, depth: nat)
    requires depth <= 6
    ensures forall v :: v in Walk(path, d, depth) ==> depth <= v.depth <= 6
    decreases d, 1
  {
    if d.readable && depth <= 5 {
      WalkAllDepthBound(path, d.subdirs, depth + 1);
    }
  }

  lemma {:induction false} WalkAllDepthBound(path: string, ds: seq<Dir>, depth: nat)
    requires depth <= 6
    ensures forall v :: v in WalkAll(path, ds, depth) ==> depth <= v.depth <= 6
    decreases ds, 0
  {
    if ds != [] {
      WalkDepthBound(PathJoin(path, ds[0].name), ds[0], depth);
      WalkAllDepthBound(path, ds[1..], depth);
    }
  }

  /** The pruning keeps the walk within 6 levels below the scans directory:
      directories at depth 6 are still inspected, their children are not. */
  lemma WalkFromScansBounded(scandir: string, d: Dir)
    ensures forall v :: v in Walk(scandir, d, 0) ==> v.depth <= 6
  {
    WalkDepthBound(scandir, d, 0);
  }

  predicate HasDcm(files: seq<string>) {
    exists k :: 0 <= k < |files| && EndsWith(files[k], ".dcm")
  }

  /** The probe's test on one visited directory. */
  predicate Qualifies(v: Visit) {
    Contains(v.root, "DICOM") && HasDcm(v.files)
  }


  /** `any(f.endswith(".dcm") for f in files)` */
  method AnyDcm(files: seq<string>) returns (found: bool)
    ensures found == HasDcm(files)
  {
    found := false;
    var k := 0;
    while k < |files|
      invariant 0 <= k <= |files|
      invariant found <==> exists j :: 0 <= j < k && EndsWith(files[j], ".dcm")
    {
      if EndsWith(files[k], ".dcm") {
        found := true;
      }
      k := k + 1;
    }
  }

  /** The top folder of a session's raw data: session "02" lives under the
      `-2` folder, every other label under the plain one. */
  function ScanTop(sub: string, ses: string): string
  {
    if ses == "02" then "Smith-SRA-" + sub + "-2" else "Smith-SRA-" + sub
  }

  /** `<SOURCEDATA>/<top>/<top>/scans` */
  function ScanPath(sub: string, ses: string): string
  {
    var top := ScanTop(sub, ses);
    PathJoin(PathJoin(PathJoin(SourceData, top), top), "scans")
  }

  /** What probing the scans directory `p` returns (`Ok`) or raises (`Err`),
      given what, if anything, is there. */
  function ProbeEntry(p: string, sd: Option<ScanDir>): Result<bool>
  {
    match sd
    case None => Ok(false)
    case Some(WalkRaises) => Ok(false)
    case Some(ProbeRaises) => Err("probe raised")
    case Some(Tree(root)) => Ok(AnyQualifies(Walk(p, root, 0)))
  }

  function ScanAt(st: Storage, p: string): Option<ScanDir>
  {
    if p in st.scans then Some(st.scans[p]) else None
  }

  /** What `session_has_raw_fast(sub, ses)` returns (`Ok`), or raises (`Err`). */
  function ProbeResult(st: Storage, sub: string, ses: string): Result<bool>
  {
    var p := ScanPath(sub, ses);
    ProbeEntry(p, ScanAt(st, p))
  }

  /** Some directory the walk visits qualifies. */
  predicate AnyQualifies(visits: seq<Visit>) {
    exists k :: 0 <= k < |visits| && Qualifies(visits[k])
  }

  /** The walk loop: stop at the first visited directory whose path mentions
      DICOM and that holds a `.dcm` file. */
  method ScanVisits(visits: seq<Visit>) returns (found: bool)
    ensures found == AnyQualifies(visits)
  {
    var i := 0;
    while i < |visits|
      invariant 0 <= i <= |visits|
      invariant forall k :: 0 <= k < i ==> !Qualifies(visits[k])
    {
      var v := visits[i];
      var q := false;
      if Contains(v.root, "DICOM") {
        q := AnyDcm(v.files);
      }
      if q {
        return true;
      }
      i := i + 1;
    }
    return false;
  }

  /** `session_has_raw_fast`: a missing scans directory or a walk that raises
      OSError means no raw data; any other exception escapes. */
  method SessionHasRawFast(st: Storage, sub: string, ses: string) returns (r: Result<bool>)
    ensures r == ProbeResult(st, sub, ses)
  {
    var p := ScanPath(sub, ses);
    if p !in st.scans {
      return Ok(false);
    }
    var sd := st.scans[p];
    if sd.WalkRaises? {
      return Ok(false);
    } else if sd.ProbeRaises? {
      return Err("probe raised");
    }
    var found := ScanVisits(Walk(p, sd.root, 0));
    return Ok(found);
  }

  lemma ScanPathLength(sub: string, ses: string)
    requires forall k :: 0 <= k < |sub| ==> sub[k] != '/'
    ensures |ScanPath(sub, ses)| == |SourceData| + 2 * |ScanTop(sub, ses)| + 8
  {
    var top := ScanTop(sub, ses);
    assert top[0] == 'S';
    assert top[|top| - 1] != '/';
    var a := PathJoin(SourceData, top);
    assert a == SourceData + "/" + top;
    assert a[|a| - 1] == top[|top| - 1];
    var b := PathJoin(a, top);
    assert b == a + "/" + top;
    assert b[|b| - 1] == top[|top| - 1];
    assert PathJoin(b, "scans") == b + "/" + "scans";
  }

  /** Sessions "01" and "02" are probed in different places. */
  lemma ScanPathsDiffer(sub: string)
    requires forall k :: 0 <= k < |sub| ==> sub[k] != '/'
    ensures ScanPath(sub, "01") != ScanPath(sub, "02")
  {
    ScanPathLength(sub, "01");
    ScanPathLength(sub, "02");
  }

  // ---------------------------------------------------------------------------
  // Session cache
  // ---------------------------------------------------------------------------

  /** A JSON object of subject -> session list: its keys in insertion order
      and its entries. */
  datatype Cache = Cache(keys: seq<string>, entries: map<string, seq<string>>)

  predicate WellFormed(c: Cache) {
    && (forall i, j :: 0 <= i < j < |c.keys| ==> c.keys[i] != c.keys[j])
    && (forall k :: k in c.keys ==> k in c.entries) && (forall k :: k in c.entries ==> k in c.keys)
  }

  const EmptyCache: Cache := Cache([], map[])

  /** `cache[k] = v`: a new key goes last, an existing one keeps its place. */
  function Put(c: Cache, k: string, v: seq<string>): (r: Cache)
    requires WellFormed(c)
    ensures WellFormed(r)
    ensures r.entries == c.entries[k := v]
  {
    if k in c.entries then c.(entries := c.entries[k := v])
    else Cache(c.keys + [k], c.entries[k := v])
  }

  /** `session_cache.get(s, [])` */
  function SessionsOf(c: Cache, sub: string): seq<string>
  {
    if sub in c.entries then c.entries[sub] else []
  }

  /** Whether the probe of a session returned True. */
  predicate HasRaw(st: Storage, sub: string, ses: string)
  {
    ProbeResult(st, sub, ses) == Ok(true)
  }

  /** `bids/sub-X/ses-Y` */
  function BidsSessionPath(lay: Layout, sub: string, ses: string): string
  {
    PathJoin(PathJoin(PathJoin(lay.projDir, "bids"), "sub-" + sub), "ses-" + ses)
  }

  /** Whether a session already has BIDS output. */
  predicate HasBids(st: Storage, lay: Layout, sub: string, ses: string)
  {
    BidsSessionPath(lay, sub, ses) in st.dirs
  }

  /** `[ses for ses in xs if session_has_raw_fast(sub, ses)]` */
  function RawAmong(st: Storage, sub: string, xs: seq<string>): seq<string>
  {
    Filter(ses => HasRaw(st, sub, ses), xs)
  }

  /** `[ses for ses in xs if os.path.isdir(bids/sub-X/ses-Y)]` */
  function BidsAmong(st: Storage, lay: Layout, sub: string, xs: seq<string>): seq<string>
  {
    Filter(ses => HasBids(st, lay, sub, ses), xs)
  }

  /** The sessions whose probe returned True, in order. */
  function RawSessions(st: Storage, sub: string): seq<string>
  {
    RawAmong(st, sub, Sessions)
  }

  /** The sessions the scan records for a subject: those with raw DICOM data,
      or, only when there are none, those that already have BIDS output. */
  function PresentSessions(st: Storage, lay: Layout, sub: string): seq<string>
  {
    var raw := RawSessions(st, sub);
    if |raw| != 0 then raw else BidsAmong(st, lay, sub, Sessions)
  }

  /** The sub-list of SESSIONS selected by two flags. */
  function Pick(first: bool, second: bool): seq<string>
  {
    (if first then ["01"] else []) + (if second then ["02"] else [])
  }

  /** A selection from SESSIONS is ascending, duplicate-free, and is its own
      `sorted(set(...))`. */
  /** An ascending, duplicate-free list of session labels from SESSIONS,
      which `sorted(set(...))` leaves as it is. */
  predicate SessionList(r: seq<string>) {
    && SortedBy(r, StrLess)
    && (forall i, j :: 0 <= i < j < |r| ==> r[i] != r[j])
    && (forall x :: x in r ==> x in Sessions)
    && SortedSet(r, StrLess) == r
  }

  lemma PickSorted(first: bool, second: bool)
    ensures SessionList(Pick(first, second))
  {
    var r := Pick(first, second);
    assert "01"[0] < "02"[0] || ("01"[0] == "02"[0] && "01"[1] < "02"[1]);
    assert StrLess("01", "02") && !StrLess("02", "01") by {
      assert "01"[1..] == "1" && "02"[1..] == "2";
    }
    assert "01" != "02" by { assert "01"[1] != "02"[1]; }
    assert SortedBy(r, StrLess);
    StrStrictTotal();
    SortedSetOfSorted(r, StrLess);
  }

  lemma RawOfSessions(st: Storage, sub: string)
    ensures RawSessions(st, sub) == Pick(HasRaw(st, sub, "01"), HasRaw(st, sub, "02"))
  {
    FilterTwo(ses => HasRaw(st, sub, ses), "01", "02");
  }

  lemma BidsOfSessions(st: Storage, lay: Layout, sub: string)
    ensures BidsAmong(st, lay, sub, Sessions) == Pick(HasBids(st, lay, sub, "01"), HasBids(st, lay, sub, "02"))
  {
    FilterTwo(ses => HasBids(st, lay, sub, ses), "01", "02");
  }

  /** Each cache entry is a sorted, duplicate-free subset of SESSIONS, so
      taking `sorted(set(...))` of it changes nothing. */
  lemma PresentSessionsShape(st: Storage, lay: Layout, sub: string)
    ensures SessionList(PresentSessions(st, lay, sub))
  {
    RawOfSessions(st, sub);
    if |RawSessions(st, sub)| != 0 {
      PickSorted(HasRaw(st, sub, "01"), HasRaw(st, sub, "02"));
      assert PresentSessions(st, lay, sub) == RawSessions(st, sub);
    } else {
      BidsOfSessions(st, lay, sub);
      PickSorted(HasBids(st, lay, sub, "01"), HasBids(st, lay, sub, "02"));
      assert PresentSessions(st, lay, sub) == BidsAmong(st, lay, sub, Sessions);
    }
  }

  /** A session is recorded exactly when its raw data was found, or when no
      raw session was found and its BIDS output exists. */
  lemma PresentSessionsFallback(st: Storage, lay: Layout, sub: string, ses: string)
    ensures ses in PresentSessions(st, lay, sub) <==>
              (ses == "01" || ses == "02") &&
              (HasRaw(st, sub, ses) ||
               (!HasRaw(st, sub, "01") && !HasRaw(st, sub, "02") && HasBids(st, lay, sub, ses)))
  {
    RawOfSessions(st, sub);
    BidsOfSessions(st, lay, sub);
  }

  /** A probe that raises for one session drops that session from the raw
      sessions and leaves the other session as it was. */
  lemma ProbeErrorIsLocal(st: Storage, sub: string, ses: string, other: string)
    requires forall k :: 0 <= k < |sub| ==> sub[k] != '/'
    requires ses in Sessions && other in Sessions && ses != other
    ensures var st' := st.(scans := st.scans[ScanPath(sub, ses) := ProbeRaises]);
            !HasRaw(st', sub, ses) && HasRaw(st', sub, other) == HasRaw(st, sub, other)
  {
    ScanPathsDiffer(sub);
    var st' := st.(scans := st.scans[ScanPath(sub, ses) := ProbeRaises]);
    assert ScanAt(st', ScanPath(sub, ses)) == Some(ProbeRaises);
    assert ScanAt(st', ScanPath(sub, other)) == ScanAt(st, ScanPath(sub, other));
  }

  /** The session-cache file as `build_session_cache` finds it. */
  datatype CacheFile = NoCache | Stored(cache: Cache) | Corrupt

  /** A cache fresh from a scan of `roster`: one key per roster entry, in
      order of first appearance, holding that subject's present sessions. */
  predicate ScannedCache(c: Cache, roster: seq<string>, st: Storage, lay: Layout) {
    && WellFormed(c)
    && c.keys == Dedup(roster)
    && (forall s :: s in roster ==> s in c.entries && c.entries[s] == PresentSessions(st, lay, s))
  }

  lemma ScannedCacheStep(c: Cache, roster: seq<string>, sub: string, st: Storage, lay: Layout)
    requires ScannedCache(c, roster, st, lay)
    ensures ScannedCache(Put(c, sub, PresentSessions(st, lay, sub)), roster + [sub], st, lay)
  {
    assert (roster + [sub])[..|roster|] == roster;
    assert sub in c.entries <==> sub in Dedup(roster);
  }

  /** The probes of a full scan: every roster entry, each session in order. */
  function AllProbes(roster: seq<string>): (r: seq<(string, string)>)
    ensures |r| == 2 * |roster|
  {
    if roster == [] then [] else AllProbes(roster[..|roster| - 1]) + [(roster[|roster| - 1], "01"), (roster[|roster| - 1], "02")]
  }

  lemma AllProbesStep(roster: seq<string>, sub: string)
    ensures AllProbes(roster + [sub]) == AllProbes(roster) + [(sub, "01"), (sub, "02")]
  {
    assert (roster + [sub])[..|roster|] == roster;
  }

  /** The raw-data probes of one subject, session by session; a probe that
      raises leaves its session out. */
  method ProbeSessions(st: Storage, sub: string) returns (present: seq<string>)
    ensures present == RawSessions(st, sub)
  {
    present := [];
    var j := 0;
    while j < |Sessions|
      invariant 0 <= j <= |Sessions|
      invariant present == RawAmong(st, sub, Sessions[..j])
    {
      var ses := Sessions[j];
      var has := SessionHasRawFast(st, sub, ses);
      assert Sessions[..j + 1] == Sessions[..j] + [ses];
      FilterSnoc(ses => HasRaw(st, sub, ses), Sessions[..j], ses);
      if has.Ok? && has.value {
        present := present + [ses];
      }
      j := j + 1;
    }
    assert Sessions[..j] == Sessions;
  }

  /** The BIDS fallback: the sessions whose `bids/sub-X/ses-Y` directory exists. */
  method BidsFallback(st: Storage, lay: Layout, sub: string) returns (present: seq<string>)
    ensures present == BidsAmong(st, lay, sub, Sessions)
  {
    present := [];
    var k := 0;
    while k < |Sessions|
      invariant 0 <= k <= |Sessions|
      invariant present == BidsAmong(st, lay, sub, Sessions[..k])
    {
      var ses := Sessions[k];
      assert Sessions[..k + 1] == Sessions[..k] + [ses];
      FilterSnoc(ses => HasBids(st, lay, sub, ses), Sessions[..k], ses);
      if BidsSessionPath(lay, sub, ses) in st.dirs {
        present := present + [ses];
      }
      k := k + 1;
    }
    assert Sessions[..k] == Sessions;
  }

  /** The cache entry of one subject, `sorted(set(present))`. */
  method ScanSubject(st: Storage, lay: Layout, sub: string) returns (entry: seq<string>)
    ensures entry == PresentSessions(st, lay, sub)
  {
    var present := ProbeSessions(st, sub);
    if present == [] {
      present := BidsFallback(st, lay, sub);
    }
    PresentSessionsShape(st, lay, sub);
    entry := SortedSet(present, StrLess);
  }

  /** `build_session_cache(force)`: reuse an existing cache file unless forced;
      otherwise probe every (subject, session), fall back to BIDS output,
      record each subject and save the result. `probes` lists the probes
      made, in order. */
  method BuildSessionCache(roster: seq<string>, st: Storage, lay: Layout, file: CacheFile, force: bool)
    returns (r: Result<Cache>, saved: CacheFile, probes: seq<(string, string)>)
    ensures !force && file.Stored? ==> r == Ok(file.cache) && saved == file && probes == []
    ensures !force && file.Corrupt? ==> r.Err? && saved == file && probes == []
    ensures force || file.NoCache? ==>
              r.Ok? && saved == Stored(r.value) && ScannedCache(r.value, roster, st, lay) &&
              probes == AllProbes(roster)
  {
    if !force && !file.NoCache? {
      if file.Corrupt? {
        return Err("cache file is not valid JSON"), file, [];
      }
      return Ok(file.cache), file, [];
    }
    var cache;
    cache, probes := ScanRoster(roster, st, lay);
    return Ok(cache), Stored(cache), probes;
  }

  /** The scan loop of `build_session_cache`: every roster entry in turn. */
  method ScanRoster(roster: seq<string>, st: Storage, lay: Layout) returns (cache: Cache, probes: seq<(string, string)>)
    ensures ScannedCache(cache, roster, st, lay) && probes == AllProbes(roster)
  {
    cache := EmptyCache;
    probes := [];
    var i := 0;
    while i < |roster|
      invariant 0 <= i <= |roster|
      invariant ScannedCache(cache, roster[..i], st, lay)
      invariant probes == AllProbes(roster[..i])
    {
      var sub := roster[i];
      var entry := ScanSubject(st, lay, sub);
      ScanStep(cache, probes, roster, i, st, lay);
      cache := Put(cache, sub, entry);
      probes := probes + [(sub, "01"), (sub, "02")];
      i := i + 1;
    }
    assert roster[..|roster|] == roster;
  }

  /** One more roster entry scanned keeps the scan loop's invariant. */
  lemma ScanStep(cache: Cache, probes: seq<(string, string)>, roster: seq<string>, i: nat, st: Storage, lay: Layout)
    requires i < |roster| && ScannedCache(cache, roster[..i], st, lay) && probes == AllProbes(roster[..i])
    ensures var sub := roster[i];
            ScannedCache(Put(cache, sub, PresentSessions(st, lay, sub)), roster[..i + 1], st, lay) &&
            probes + [(sub, "01"), (sub, "02")] == AllProbes(roster[..i + 1])
  {
    var sub := roster[i];
    assert roster[..i + 1] == roster[..i] + [sub];
    ScannedCacheStep(cache, roster[..i], sub, st, lay);
    AllProbesStep(roster[..i], sub);
  }

  /** Startup removes the cache file before the scan; when the removal
      succeeds the scan always probes every roster entry. `removed` is whether
      `os.remove` succeeded. */
  method StartupScan(roster: seq<string>, st: Storage, lay: Layout, file: CacheFile, removed: bool)
    returns (r: Result<Cache>, probes: seq<(string, string)>)
    ensures removed || file.NoCache? ==> r.Ok? && ScannedCache(r.value, roster, st, lay) && probes == AllProbes(roster)
    ensures !removed && file.Stored? ==> r == Ok(file.cache) && probes == []
  {
    var onDisk := if removed then NoCache else file;
    var saved;
    r, saved, probes := BuildSessionCache(roster, st, lay, onDisk, false);
  }

  // ---------------------------------------------------------------------------
  // Projections of the cache
  // ---------------------------------------------------------------------------

  function Session02Keys(keys: seq<string>, entries: map<string, seq<string>>): (r: seq<string>)
    ensures forall s :: s in r <==> s in keys && s in entries && "02" in entries[s]
  {
    if keys == [] then []
    else (if keys[0] in entries && "02" in entries[keys[0]] then [keys[0]] else []) + Session02Keys(keys[1..], entries)
  }

  /** `[s for s, sessions in cache.items() if "02" in sessions]` */
  function WithSession02(c: Cache): (r: seq<string>)
    requires WellFormed(c)
    ensures forall s :: s in r <==> s in c.entries && "02" in c.entries[s]
  {
    Session02Keys(c.keys, c.entries)
  }

  /** `for x in lines: f.write(f"{x}\n")` */
  method WriteLines(lines: seq<string>) returns (text: string)
    ensures text == NewlineTerminated(lines)
  {
    text := "";
    var i := 0;
    while i < |lines|
      invariant 0 <= i <= |lines|
      invariant text + NewlineTerminated(lines[i..]) == NewlineTerminated(lines)
    {
      ghost var rest := NewlineTerminated(lines[i + 1..]);
      assert lines[i..][1..] == lines[i + 1..];
      assert NewlineTerminated(lines[i..]) == lines[i] + "\n" + rest;
      assert text + NewlineTerminated(lines[i..]) == (text + lines[i] + "\n") + rest;
      text := text + lines[i] + "\n";
      i := i + 1;
    }
    assert lines[i..] == [];
  }

  /** `write_wave2_list`: the text of `sublist_wave2.txt` (the subjects having
      session "02", sorted, one per line) and the unsorted list it returns. */
  method WriteWave2List(c: Cache) returns (text: string, subs: seq<string>)
    requires WellFormed(c)
    ensures forall s :: s in subs <==> s in c.entries && "02" in c.entries[s]
    ensures text == NewlineTerminated(Sort(subs, StrLess))
  {
    subs := WithSession02(c);
    text := WriteLines(Sort(subs, StrLess));
  }

  lemma {:induction false} Session02KeysDistinct(keys: seq<string>, entries: map<string, seq<string>>)
    requires forall i, j :: 0 <= i < j < |keys| ==> keys[i] != keys[j]
    ensures forall i, j :: 0 <= i < j < |Session02Keys(keys, entries)| ==>
              Session02Keys(keys, entries)[i] != Session02Keys(keys, entries)[j]
  {
    if keys != [] {
      Session02KeysDistinct(keys[1..], entries);
      var t := Session02Keys(keys[1..], entries);
      forall i | 0 <= i < |t| ensures t[i] != keys[0] {
        assert t[i] in keys[1..];
      }
    }
  }

  /** Sorting a duplicate-free list keeps it duplicate-free and keeps its
      members. */
  lemma SortDistinct(w: seq<string>)
    requires forall i, j :: 0 <= i < j < |w| ==> w[i] != w[j]
    ensures var s := Sort(w, StrLess);
            (forall x :: x in s <==> x in w) && forall i, j :: 0 <= i < j < |s| ==> s[i] != s[j]
  {
    var s := Sort(w, StrLess);
    forall x ensures x in s <==> x in w {
      assert x in s <==> x in multiset(s);
    }
    forall i, j | 0 <= i < j < |s| ensures s[i] != s[j] {
      if s[i] == s[j] {
        assert s == s[..j] + s[j..];
        assert multiset(s)[s[i]] >= 2 by {
          assert s[i] in multiset(s[..j]) by { assert s[..j][i] == s[i]; }
          assert s[j] in multiset(s[j..]) by { assert s[j..][0] == s[j]; }
        }
        DistinctCount(w, s[i]);
      }
    }
  }

  /** The wave-2 file read back as a roster lists exactly the subjects with
      session "02", in ascending order and each once. */
  lemma Wave2FileContents(c: Cache)
    requires WellFormed(c)
    requires forall s :: s in c.entries ==> CleanToken(s)
    ensures var subs := ParseRoster(NewlineTerminated(Sort(WithSession02(c), StrLess)));
            && SortedBy(subs, StrLess)
            && (forall s :: s in subs <==> s in c.entries && "02" in c.entries[s])
            && (forall i, j :: 0 <= i < j < |subs| ==> subs[i] != subs[j])
  {
    var w := WithSession02(c);
    var sorted := Sort(w, StrLess);
    StrStrictTotal();
    SortSorted(w, StrLess);
    Session02KeysDistinct(c.keys, c.entries);
    SortDistinct(w);
    forall k | 0 <= k < |sorted| ensures CleanToken(sorted[k]) {
      assert sorted[k] in sorted;
    }
    RosterRoundTrip(sorted);
  }

  /** `subjects_to_process`: roster entries whose cache entry is non-empty. */
  function ToProcess(roster: seq<string>, c: Cache): (r: seq<string>)
    ensures forall s :: s in r <==> s in roster && SessionsOf(c, s) != []
  {
    Filter(s => SessionsOf(c, s) != [], roster)
  }

  /** `subjects_skipped`: roster entries with no cached session. */
  function Skipped(roster: seq<string>, c: Cache): (r: seq<string>)
    ensures forall s :: s in r <==> s in roster && SessionsOf(c, s) == []
  {
    Filter(s => SessionsOf(c, s) == [], roster)
  }

  /** The two lists split the roster: together they hold its entries with
      multiplicity. */
  lemma PartitionRoster(roster: seq<string>, c: Cache)
    ensures multiset(ToProcess(roster, c)) + multiset(Skipped(roster, c)) == multiset(roster)
    ensures |ToProcess(roster, c)| + |Skipped(roster, c)| == |roster|
  {
    FilterPartition(s => SessionsOf(c, s) != [], s => SessionsOf(c, s) == [], roster);
    assert |multiset(roster)| == |roster|;
  }
}
