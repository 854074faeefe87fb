/** The heudiconv heuristic for the XA30 protocol: each scan series is sorted
    into the BIDS output keys by substring tests on its protocol name and
    series description and by its dimensions. Anatomical, field-map and
    diffusion keys keep only the last matching series; the trust,
    shared-reward and UGR functional keys collect every match, each magnitude
    with the id of the series two places earlier as its single-band
    reference. */
module Heuristics {
  import opened Text

  // ---------------------------------------------------------------------------
  // create_key
  // ---------------------------------------------------------------------------

  /** What `create_key` returns: template, output types, annotation classes. */
  datatype Key = Key(template: string, outtype: seq<string>, annotationClasses: Option<seq<string>>)

  const DefaultOuttype: seq<string> := ["nii.gz"]

  /** A missing or empty template raises ValueError. */
  function CreateKey(template: Option<string>, outtype: seq<string>, annotationClasses: Option<seq<string>>): (r: Result<Key>)
    ensures r.Err? <==> template == None || template == Some([])
    ensures r.Ok? ==> r.value.template == template.value && r.value.template != []
    ensures r.Ok? ==> r.value.outtype == outtype && r.value.annotationClasses == annotationClasses
  {
    if template.None? || template.value == [] then Err("ValueError")
    else Ok(Key(template.value, outtype, annotationClasses))
  }

  // ---------------------------------------------------------------------------
  // The 22 output keys
  // ---------------------------------------------------------------------------

  datatype Slot =
    | T1w | Mag | Phase | T2Flair
    | Dwi | DwiPA | DwiAP
    | TrustMag | TrustPhase | TrustSbref
    | SharedMag | SharedPhase | SharedSbref
    | SocialMag | SocialPhase | SocialSbref
    | DoorsMag | DoorsPhase | DoorsSbref
    | UgrMag | UgrPhase | UgrSbref

  const AllSlots: set<Slot> := {
    T1w, Mag, Phase, T2Flair, Dwi, DwiPA, DwiAP,
    TrustMag, TrustPhase, TrustSbref, SharedMag, SharedPhase, SharedSbref,
    SocialMag, SocialPhase, SocialSbref, DoorsMag, DoorsPhase, DoorsSbref,
    UgrMag, UgrPhase, UgrSbref }

  function Anat(suffix: string): (r: string)
    ensures r != []
  { "sub-{subject}/{session}/anat/sub-{subject}_{session}_" + suffix }
  function Fmap(suffix: string): (r: string)
    ensures r != []
  { "sub-{subject}/{session}/fmap/sub-{subject}_{session}_" + suffix }
  function DwiPath(suffix: string): (r: string)
    ensures r != []
  { "sub-{subject}/{session}/dwi/sub-{subject}_{session}_" + suffix }
  function Func(task: string, suffix: string): (r: string)
    ensures r != []
  {
    "sub-{subject}/{session}/func/sub-{subject}_{session}_task-" + task + "_run-{item:d}_" + suffix
  }

  /** The output path template of each key. */
  function Template(x: Slot): string
  {
    match x
    case T1w => Anat("T1w")
    case Mag => Fmap("acq-bold_magnitude")
    case Phase => Fmap("acq-bold_phasediff")
    case T2Flair => Anat("FLAIR")
    case Dwi => DwiPath("dwi")
    case DwiPA => Fmap("acq-dwi_dir-PA_epi")
    case DwiAP => Fmap("acq-dwi_dir-AP_epi")
    case TrustMag => Func("trust", "part-mag_bold")
    case TrustPhase => Func("trust", "part-phase_bold")
    case TrustSbref => Func("trust", "sbref")
    case SharedMag => Func("sharedreward", "part-mag_bold")
    case SharedPhase => Func("sharedreward", "part-phase_bold")
    case SharedSbref => Func("sharedreward", "sbref")
    case SocialMag => Func("socialdoors", "part-mag_bold")
    case SocialPhase => Func("socialdoors", "part-phase_bold")
    case SocialSbref => Func("socialdoors", "sbref")
    case DoorsMag => Func("doors", "part-mag_bold")
    case DoorsPhase => Func("doors", "part-phase_bold")
    case DoorsSbref => Func("doors", "sbref")
    case UgrMag => Func("ugr", "part-mag_bold")
    case UgrPhase => Func("ugr", "part-phase_bold")
    case UgrSbref => Func("ugr", "sbref")
  }

  /** Every key `infotodict` builds is a valid `create_key` result with the
      default output type and no annotation classes. */
  lemma KeysAreValid(x: Slot)
    ensures CreateKey(Some(Template(x)), DefaultOuttype, None) == Ok(Key(Template(x), DefaultOuttype, None))
  {
    assert Template(x) != [];
  }

  // ---------------------------------------------------------------------------
  // Series records and the rules
  // ---------------------------------------------------------------------------

  /** The fields of a heudiconv series record the heuristic reads. */
  datatype SeqInfo = SeqInfo(seriesId: string, protocolName: string, seriesDescription: string,
                             imageType: seq<string>, dim3: int, dim4: int)

  /** How a key is updated by a matching series. */
  datatype Kind = Overwrite | Append | SbrefOf

  function KindOf(x: Slot): Kind
  {
    match x
    case TrustMag | TrustPhase | SharedMag | SharedPhase | UgrMag | UgrPhase => Append
    case TrustSbref | SharedSbref | SocialSbref | DoorsSbref | UgrSbref => SbrefOf
    case _ => Overwrite
  }

  predicate TrustRun(s: SeqInfo) { s.dim4 == 1120 && Contains(s.seriesDescription, "Trust") }
  predicate SharedRun(s: SeqInfo) { s.dim4 == 1020 && Contains(s.protocolName, "Shared") }
  predicate SocialRun(s: SeqInfo) { s.dim4 == 872 && Contains(s.seriesDescription, "SocialDoors_face") }
  predicate DoorsRun(s: SeqInfo) { s.dim4 == 872 && Contains(s.seriesDescription, "SocialDoors_doors") }
  predicate UgrRun(s: SeqInfo) { s.dim4 == 960 && Contains(s.seriesDescription, "UGR") }
  predicate MagPart(s: SeqInfo) { !Contains(s.seriesDescription, "_Pha") }
  predicate PhasePart(s: SeqInfo) { Contains(s.seriesDescription, "TR1615_Pha") }

  /** When a series touches a key. */
  predicate Matches(x: Slot, s: SeqInfo)
  {
    match x
    case T1w => Contains(s.protocolName, "T1w-anat_mpg_07sag_iso")
    case Mag => Contains(s.protocolName, "gre_field")
    case Phase => Contains(s.protocolName, "gre_field") && "P" in s.imageType
    case T2Flair => Contains(s.protocolName, "t2_tse_dark-fluid_tra_p3") && s.dim3 == 47
    case DwiAP => Contains(s.protocolName, "cmrr_fieldmapse_ap") && s.dim4 == 2
    case DwiPA => Contains(s.protocolName, "cmrr_fieldmapse_pa") && s.dim4 == 2
    case Dwi => Contains(s.protocolName, "cmrr_mb3hydi_ipat2_64ch") && s.dim4 == 145
    case TrustMag | TrustSbref => TrustRun(s) && MagPart(s)
    case TrustPhase => TrustRun(s) && PhasePart(s)
    case SharedMag | SharedSbref => SharedRun(s) && MagPart(s)
    case SharedPhase => SharedRun(s) && PhasePart(s)
    case SocialMag | SocialSbref => SocialRun(s) && MagPart(s)
    case SocialPhase => SocialRun(s) && PhasePart(s)
    case DoorsMag | DoorsSbref => DoorsRun(s) && MagPart(s)
    case DoorsPhase => DoorsRun(s) && PhasePart(s)
    case UgrMag | UgrSbref => UgrRun(s) && MagPart(s)
    case UgrPhase => UgrRun(s) && PhasePart(s)
  }

  /** `[s.series_id for s in seqinfo]` */
  function IdsOf(ss: seq<SeqInfo>): (ids: seq<string>)
    ensures |ids| == |ss|
  {
    seq(|ss|, k requires 0 <= k < |ss| => ss[k].seriesId)
  }

  /** `xs.index(x)`: the first position holding `x` (|xs| when none does). */
  function IndexOf(xs: seq<string>, x: string): (i: nat)
    ensures i <= |xs|
    ensures i < |xs| ==> xs[i] == x
    ensures forall k :: 0 <= k < i ==> xs[k] != x
    ensures x in xs ==> i < |xs|
  {
    if xs == [] then 0 else if xs[0] == x then 0 else 1 + IndexOf(xs[1..], x)
  }

  /** Python's `xs[i]`: a negative index counts from the end; out of range is
      IndexError (None). */
  function PyIndex(xs: seq<string>, i: int): (r: Option<string>)
    ensures r.Some? <==> -|xs| <= i < |xs|
  {
    if 0 <= i < |xs| then Some(xs[i]) else if -|xs| <= i < 0 then Some(xs[|xs| + i]) else None
  }

  /** `list_of_ids[list_of_ids.index(s.series_id) - 2]` */
  function SbrefLookup(ids: seq<string>, s: SeqInfo): Option<string>
  {
    PyIndex(ids, IndexOf(ids, s.seriesId) - 2)
  }

  function SbrefText(ids: seq<string>, s: SeqInfo): string
  {
    match SbrefLookup(ids, s)
    case Some(v) => v
    case None => ""
  }

  /** The series takes a single-band reference for some task. */
  predicate TakesSbref(s: SeqInfo)
  {
    Matches(TrustSbref, s) || Matches(SharedSbref, s) || Matches(SocialSbref, s) ||
    Matches(DoorsSbref, s) || Matches(UgrSbref, s)
  }

  /** The series makes the reference lookup raise IndexError. */
  predicate RaisesAt(ids: seq<string>, s: SeqInfo)
  {
    TakesSbref(s) && SbrefLookup(ids, s).None?
  }

  /** Some series makes its reference lookup raise. */
  predicate AnyRaises(ids: seq<string>, ss: seq<SeqInfo>)
  {
    exists k :: 0 <= k < |ss| && RaisesAt(ids, ss[k])
  }

  /** What one series does to one key. */
  function SlotStep(ids: seq<string>, x: Slot, cur: seq<string>, s: SeqInfo): seq<string>
  {
    if !Matches(x, s) then cur
    else match KindOf(x)
      case Overwrite => [s.seriesId]
      case Append => cur + [s.seriesId]
      case SbrefOf => cur + [SbrefText(ids, s)]
  }

  /** A key's list after the series `ss`, in order. */
  function SlotList(ids: seq<string>, x: Slot, ss: seq<SeqInfo>): seq<string>
  {
    if ss == [] then [] else SlotStep(ids, x, SlotList(ids, x, ss[..|ss| - 1]), ss[|ss| - 1])
  }

  /** Every key with its list after the series `ss`. */
  function Lists(ids: seq<string>, ss: seq<SeqInfo>): map<Slot, seq<string>>
  {
    map x | x in AllSlots :: SlotList(ids, x, ss)
  }

  /** `infotodict`: IndexError when some reference lookup falls off the
      series list, otherwise every key's list. */
  function Classify(ss: seq<SeqInfo>): Result<map<Slot, seq<string>>>
  {
    var ids := IdsOf(ss);
    if AnyRaises(ids, ss) then Err("IndexError")
    else Ok(Lists(ids, ss))
  }

  // ---------------------------------------------------------------------------
  // infotodict
  // ---------------------------------------------------------------------------

  /** Every key is present. */
  predicate Total(info: map<Slot, seq<string>>) { forall x: Slot :: x in info }

  /** `next` is `info` after the series `s` has been applied to the keys in
      `g`, and every other key is unchanged. */
  predicate StepsOn(ids: seq<string>, info: map<Slot, seq<string>>, next: map<Slot, seq<string>>, s: SeqInfo, g: set<Slot>)
  {
    Total(info) && Total(next) &&
    forall x: Slot {:trigger next[x]} :: next[x] == if x in g then SlotStep(ids, x, info[x], s) else info[x]
  }

  /** Two rule groups on disjoint keys, applied one after the other. */
  lemma StepsCompose(ids: seq<string>, a: map<Slot, seq<string>>, b: map<Slot, seq<string>>, c: map<Slot, seq<string>>,
                     s: SeqInfo, g1: set<Slot>, g2: set<Slot>)
    requires StepsOn(ids, a, b, s, g1) && StepsOn(ids, b, c, s, g2) && g1 !! g2
    ensures StepsOn(ids, a, c, s, g1 + g2)
  {
    forall x: Slot
      ensures c[x] == if x in g1 + g2 then SlotStep(ids, x, a[x], s) else a[x]
    {
      if x in g2 {
        assert x !in g1;
        assert b[x] == a[x];
      }
    }
  }

  /** One overwriting rule: when the series matches, its id replaces the key's list. */
  method OverwriteIf(ids: seq<string>, cur: map<Slot, seq<string>>, s: SeqInfo, x: Slot, hit: bool)
    returns (next: map<Slot, seq<string>>)
    requires Total(cur) && KindOf(x) == Overwrite && hit == Matches(x, s)
    ensures StepsOn(ids, cur, next, s, {x})
  {
    next := cur;
    if hit {
      next := next[x := [s.seriesId]];
    }
  }

  /** The anatomical and gradient-echo field-map rules. */
  method ApplyAnatomical(ids: seq<string>, info: map<Slot, seq<string>>, s: SeqInfo) returns (next: map<Slot, seq<string>>)
    requires Total(info)
    ensures StepsOn(ids, info, next, s, {T1w, Mag, Phase, T2Flair})
  {
    var n1 := OverwriteIf(ids, info, s, T1w, Contains(s.protocolName, "T1w-anat_mpg_07sag_iso"));
    var n2 := OverwriteIf(ids, n1, s, Mag, Contains(s.protocolName, "gre_field"));
    StepsCompose(ids, info, n1, n2, s, {T1w}, {Mag});
    var n3 := OverwriteIf(ids, n2, s, Phase, Contains(s.protocolName, "gre_field") && "P" in s.imageType);
    StepsCompose(ids, info, n2, n3, s, {T1w, Mag}, {Phase});
    next := OverwriteIf(ids, n3, s, T2Flair, Contains(s.protocolName, "t2_tse_dark-fluid_tra_p3") && s.dim3 == 47);
    StepsCompose(ids, info, n3, next, s, {T1w, Mag, Phase}, {T2Flair});
  }

  /** The diffusion and spin-echo field-map rules. */
  method ApplyDiffusion(ids: seq<string>, info: map<Slot, seq<string>>, s: SeqInfo) returns (next: map<Slot, seq<string>>)
    requires Total(info)
    ensures StepsOn(ids, info, next, s, {DwiAP, DwiPA, Dwi})
  {
    var n1 := OverwriteIf(ids, info, s, DwiAP, Contains(s.protocolName, "cmrr_fieldmapse_ap") && s.dim4 == 2);
    var n2 := OverwriteIf(ids, n1, s, DwiPA, Contains(s.protocolName, "cmrr_fieldmapse_pa") && s.dim4 == 2);
    StepsCompose(ids, info, n1, n2, s, {DwiAP}, {DwiPA});
    next := OverwriteIf(ids, n2, s, Dwi, Contains(s.protocolName, "cmrr_mb3hydi_ipat2_64ch") && s.dim4 == 145);
    StepsCompose(ids, info, n2, next, s, {DwiAP, DwiPA}, {Dwi});
  }

  /** The anatomical, field-map and diffusion rules: each replaces its key's
      list by the matching series. */
  method ApplyStandard(ids: seq<string>, info: map<Slot, seq<string>>, s: SeqInfo) returns (next: map<Slot, seq<string>>)
    requires Total(info)
    ensures StepsOn(ids, info, next, s, StandardKeys)
  {
    var n1 := ApplyAnatomical(ids, info, s);
    next := ApplyDiffusion(ids, n1, s);
    StepsCompose(ids, info, n1, next, s, {T1w, Mag, Phase, T2Flair}, {DwiAP, DwiPA, Dwi});
  }

  /** The keys of one functional task. */
  datatype TaskSlots = TaskSlots(mag: Slot, phase: Slot, sbref: Slot)

  /** One task's two rules: a magnitude series sets or extends the magnitude
      key and appends its reference id; a phase series sets or extends the
      phase key. `run` is the task's own test on the series. */
  method ApplyTask(ids: seq<string>, info: map<Slot, seq<string>>, s: SeqInfo, t: TaskSlots, run: bool)
    returns (next: map<Slot, seq<string>>, ok: bool)
    requires Total(info)
    requires t.mag != t.phase && t.mag != t.sbref && t.phase != t.sbref
    requires KindOf(t.mag) == KindOf(t.phase) != SbrefOf && KindOf(t.sbref) == SbrefOf
    requires Matches(t.mag, s) == Matches(t.sbref, s) == (run && MagPart(s))
    requires Matches(t.phase, s) == (run && PhasePart(s))
    ensures ok == !(Matches(t.sbref, s) && SbrefLookup(ids, s).None?)
    ensures ok ==> StepsOn(ids, info, next, s, {t.mag, t.phase, t.sbref})
  {
    next := info;
    if run && MagPart(s) {
      next := next[t.mag := if KindOf(t.mag) == Append then next[t.mag] + [s.seriesId] else [s.seriesId]];
      var sb := SbrefLookup(ids, s);
      if sb.None? { return next, false; }
      next := next[t.sbref := next[t.sbref] + [sb.value]];
    }
    if run && PhasePart(s) {
      next := next[t.phase := if KindOf(t.phase) == Append then next[t.phase] + [s.seriesId] else [s.seriesId]];
    }
    ok := true;
  }

  lemma AllSlotsTotal()
    ensures forall x: Slot :: x in AllSlots
  {
    forall x: Slot ensures x in AllSlots {
      match x
      case T1w => case Mag => case Phase => case T2Flair => case Dwi => case DwiPA => case DwiAP =>
      case TrustMag => case TrustPhase => case TrustSbref => case SharedMag => case SharedPhase => case SharedSbref =>
      case SocialMag => case SocialPhase => case SocialSbref => case DoorsMag => case DoorsPhase => case DoorsSbref =>
      case UgrMag => case UgrPhase => case UgrSbref =>
    }
  }

  /** The keys of a task. */
  function TaskKeys(t: TaskSlots): set<Slot> { {t.mag, t.phase, t.sbref} }

  /** One task's rules applied after the groups `g` already applied. */
  method ApplyStage(ids: seq<string>, info: map<Slot, seq<string>>, cur: map<Slot, seq<string>>, s: SeqInfo,
                    g: set<Slot>, t: TaskSlots, run: bool)
    returns (next: map<Slot, seq<string>>, ok: bool)
    requires StepsOn(ids, info, cur, s, g) && g !! TaskKeys(t)
    requires t.mag != t.phase && t.mag != t.sbref && t.phase != t.sbref
    requires KindOf(t.mag) == KindOf(t.phase) != SbrefOf && KindOf(t.sbref) == SbrefOf
    requires Matches(t.mag, s) == Matches(t.sbref, s) == (run && MagPart(s))
    requires Matches(t.phase, s) == (run && PhasePart(s))
    ensures ok == !(Matches(t.sbref, s) && SbrefLookup(ids, s).None?)
    ensures ok ==> StepsOn(ids, info, next, s, g + TaskKeys(t))
  {
    next, ok := ApplyTask(ids, cur, s, t, run);
    if ok {
      StepsCompose(ids, info, cur, next, s, g, TaskKeys(t));
    }
  }

  const Trust := TaskSlots(TrustMag, TrustPhase, TrustSbref)
  const Shared := TaskSlots(SharedMag, SharedPhase, SharedSbref)
  const Social := TaskSlots(SocialMag, SocialPhase, SocialSbref)
  const Doors := TaskSlots(DoorsMag, DoorsPhase, DoorsSbref)
  const Ugr := TaskSlots(UgrMag, UgrPhase, UgrSbref)

  /** The keys of the anatomical, field-map and diffusion rules. */
  const StandardKeys: set<Slot> := {T1w, Mag, Phase, T2Flair, DwiAP, DwiPA, Dwi}

  /** The trust rules, then the shared-reward rules. */
  method ApplyTrustShared(ids: seq<string>, info: map<Slot, seq<string>>, cur: map<Slot, seq<string>>, s: SeqInfo)
    returns (next: map<Slot, seq<string>>, ok: bool)
    requires StepsOn(ids, info, cur, s, StandardKeys)
    ensures ok == !((Matches(TrustSbref, s) || Matches(SharedSbref, s)) && SbrefLookup(ids, s).None?)
    ensures ok ==> StepsOn(ids, info, next, s, StandardKeys + TaskKeys(Trust) + TaskKeys(Shared))
  {
    var n1, ok1 := ApplyStage(ids, info, cur, s, StandardKeys, Trust, TrustRun(s));
    if !ok1 { return n1, false; }
    next, ok := ApplyStage(ids, info, n1, s, StandardKeys + TaskKeys(Trust), Shared, SharedRun(s));
  }

  /** The social-doors face rules, then the doors rules. */
  method ApplySocialDoors(ids: seq<string>, info: map<Slot, seq<string>>, cur: map<Slot, seq<string>>, s: SeqInfo,
                          g: set<Slot>)
    returns (next: map<Slot, seq<string>>, ok: bool)
    requires StepsOn(ids, info, cur, s, g) && g !! TaskKeys(Social) + TaskKeys(Doors)
    ensures ok == !((Matches(SocialSbref, s) || Matches(DoorsSbref, s)) && SbrefLookup(ids, s).None?)
    ensures ok ==> StepsOn(ids, info, next, s, g + TaskKeys(Social) + TaskKeys(Doors))
  {
    var n1, ok1 := ApplyStage(ids, info, cur, s, g, Social, SocialRun(s));
    if !ok1 { return n1, false; }
    next, ok := ApplyStage(ids, info, n1, s, g + TaskKeys(Social), Doors, DoorsRun(s));
  }

  /** The body of the loop over series: the rules in source order. */
  method ApplySeries(ids: seq<string>, info: map<Slot, seq<string>>, s: SeqInfo)
    returns (next: map<Slot, seq<string>>, ok: bool)
    requires Total(info)
    ensures ok == !RaisesAt(ids, s)
    ensures ok ==> Total(next) && forall x: Slot :: next[x] == SlotStep(ids, x, info[x], s)
  {
    var n0 := ApplyStandard(ids, info, s);
    var n1, ok1 := ApplyTrustShared(ids, info, n0, s);
    if !ok1 { return n1, false; }
    var n2, ok2 := ApplySocialDoors(ids, info, n1, s, StandardKeys + TaskKeys(Trust) + TaskKeys(Shared));
    if !ok2 { return n2, false; }
    next, ok := ApplyUgr(ids, info, n2, s);
  }

  /** The ultimatum-game rules, the last ones: after them every key has seen
      the series. */
  method ApplyUgr(ids: seq<string>, info: map<Slot, seq<string>>, cur: map<Slot, seq<string>>, s: SeqInfo)
    returns (next: map<Slot, seq<string>>, ok: bool)
    requires StepsOn(ids, info, cur, s, StandardKeys + TaskKeys(Trust) + TaskKeys(Shared) + TaskKeys(Social) + TaskKeys(Doors))
    ensures ok == !(Matches(UgrSbref, s) && SbrefLookup(ids, s).None?)
    ensures ok ==> Total(next) && forall x: Slot :: next[x] == SlotStep(ids, x, info[x], s)
  {
    var g := StandardKeys + TaskKeys(Trust) + TaskKeys(Shared) + TaskKeys(Social) + TaskKeys(Doors);
    UgrKeysLast();
    next, ok := ApplyStage(ids, info, cur, s, g, Ugr, UgrRun(s));
  }

  /** The ultimatum-game keys are the ones no earlier rule touches. */
  lemma UgrKeysLast()
    ensures var g := StandardKeys + TaskKeys(Trust) + TaskKeys(Shared) + TaskKeys(Social) + TaskKeys(Doors);
            g !! TaskKeys(Ugr) && forall x: Slot :: x in g + TaskKeys(Ugr)
  {
    var g := StandardKeys + TaskKeys(Trust) + TaskKeys(Shared) + TaskKeys(Social) + TaskKeys(Doors);
    forall x: Slot ensures x in g <==> x !in TaskKeys(Ugr) {
      match x
      case T1w => case Mag => case Phase => case T2Flair => case Dwi => case DwiPA => case DwiAP =>
      case TrustMag => case TrustPhase => case TrustSbref => case SharedMag => case SharedPhase => case SharedSbref =>
      case SocialMag => case SocialPhase => case SocialSbref => case DoorsMag => case DoorsPhase => case DoorsSbref =>
      case UgrMag => case UgrPhase => case UgrSbref =>
    }
  }

  /** `info` holds, for every key, its list after the series `ss`. */
  predicate ListsAre(ids: seq<string>, info: map<Slot, seq<string>>, ss: seq<SeqInfo>)
  {
    Total(info) && forall x: Slot :: info[x] == SlotList(ids, x, ss)
  }

  /** Applying one more series extends every key's list by that series. */
  lemma SlotListsStep(ids: seq<string>, ss: seq<SeqInfo>, i: nat, info: map<Slot, seq<string>>, next: map<Slot, seq<string>>)
    requires i < |ss| && ListsAre(ids, info, ss[..i])
    requires Total(next) && forall x: Slot :: next[x] == SlotStep(ids, x, info[x], ss[i])
    ensures ListsAre(ids, next, ss[..i + 1])
  {
    assert ss[..i + 1][..i] == ss[..i];
  }

  /** A total map holding every key's list is the comprehension over all keys. */
  lemma ListsMap(ids: seq<string>, ss: seq<SeqInfo>, info: map<Slot, seq<string>>)
    requires ListsAre(ids, info, ss)
    ensures Lists(ids, ss) == info
  {
    AllSlotsTotal();
    var m := Lists(ids, ss);
    assert forall x: Slot :: x in m && m[x] == info[x];
  }

  /** With no failing lookup, the classification is every key's list. */
  lemma ClassifyAll(ss: seq<SeqInfo>, i: nat, info: map<Slot, seq<string>>)
    requires i == |ss| && forall k :: 0 <= k < i ==> !RaisesAt(IdsOf(ss), ss[k])
    requires ListsAre(IdsOf(ss), info, ss[..i])
    ensures Classify(ss) == Ok(info)
  {
    assert ss[..i] == ss;
    ListsMap(IdsOf(ss), ss, info);
  }

  /** Before any series, every key holds the empty list. */
  lemma NoSeriesYet(ids: seq<string>, ss: seq<SeqInfo>, info: map<Slot, seq<string>>)
    requires info == map x | x in AllSlots :: []
    ensures ListsAre(ids, info, ss[..0])
  {
    AllSlotsTotal();
  }

  /** The `infotodict` loop: the rules applied to each series in turn. */
  method InfoToDict(seqinfo: seq<SeqInfo>) returns (r: Result<map<Slot, seq<string>>>)
    ensures r == Classify(seqinfo)
  {
    var info: map<Slot, seq<string>> := map x | x in AllSlots :: [];
    var ids := IdsOf(seqinfo);
    NoSeriesYet(ids, seqinfo, info);
    var i := 0;
    while i < |seqinfo|
      invariant 0 <= i <= |seqinfo|
      invariant ListsAre(ids, info, seqinfo[..i])
      invariant forall k :: 0 <= k < i ==> !RaisesAt(ids, seqinfo[k])
    {
      var next, ok := ApplySeries(ids, info, seqinfo[i]);
      if !ok {
        return Err("IndexError");
      }
      SlotListsStep(ids, seqinfo, i, info, next);
      info := next;
      i := i + 1;
    }
    ClassifyAll(seqinfo, i, info);
    return Ok(info);
  }

  // ---------------------------------------------------------------------------
  // What each key ends up holding
  // ---------------------------------------------------------------------------

  /** `f` of every series that matches `x`, in order. */
  function Picks(x: Slot, ss: seq<SeqInfo>, f: SeqInfo -> string): (r: seq<string>)
    ensures |r| <= |ss|
  {
    if ss == [] then []
    else Picks(x, ss[..|ss| - 1], f) + (if Matches(x, ss[|ss| - 1]) then [f(ss[|ss| - 1])] else [])
  }

  function SeriesId(s: SeqInfo): string { s.seriesId }

  /** A key that appends collects the id of every matching series, in order. */
  lemma {:induction false} AppendCollects(ids: seq<string>, x: Slot, ss: seq<SeqInfo>)
    requires KindOf(x) == Append
    ensures SlotList(ids, x, ss) == Picks(x, ss, SeriesId)
    decreases |ss|
  {
    if ss != [] {
      AppendCollects(ids, x, ss[..|ss| - 1]);
    }
  }

  /** A key that overwrites keeps only the last matching series, or nothing. */
  lemma {:induction false} OverwriteKeepsLast(ids: seq<string>, x: Slot, ss: seq<SeqInfo>)
    requires KindOf(x) == Overwrite
    ensures var m := Picks(x, ss, SeriesId);
            SlotList(ids, x, ss) == if m == [] then [] else [m[|m| - 1]]
    decreases |ss|
  {
    if ss != [] {
      OverwriteKeepsLast(ids, x, ss[..|ss| - 1]);
    }
  }

  /** A reference key holds the looked-up reference of every matching series. */
  lemma {:induction false} SbrefCollects(ids: seq<string>, x: Slot, ss: seq<SeqInfo>)
    requires KindOf(x) == SbrefOf
    ensures SlotList(ids, x, ss) == Picks(x, ss, s => SbrefText(ids, s))
    decreases |ss|
  {
    if ss != [] {
      SbrefCollects(ids, x, ss[..|ss| - 1]);
    }
  }

  /** Two keys matched by the same series pick equally many entries. */
  lemma {:induction false} PicksSameLength(x: Slot, y: Slot, ss: seq<SeqInfo>, f: SeqInfo -> string, g: SeqInfo -> string)
    requires forall k :: 0 <= k < |ss| ==> Matches(x, ss[k]) == Matches(y, ss[k])
    ensures |Picks(x, ss, f)| == |Picks(y, ss, g)|
    decreases |ss|
  {
    if ss != [] {
      PicksSameLength(x, y, ss[..|ss| - 1], f, g);
    }
  }

  /** For the trust, shared-reward and UGR tasks the magnitude list and the
      reference list have one entry per magnitude series each. */
  lemma MagSbrefPaired(ids: seq<string>, t: TaskSlots, ss: seq<SeqInfo>)
    requires t in {Trust, Shared, Ugr}
    ensures |SlotList(ids, t.mag, ss)| == |SlotList(ids, t.sbref, ss)| == |Picks(t.mag, ss, SeriesId)|
  {
    AppendCollects(ids, t.mag, ss);
    SbrefCollects(ids, t.sbref, ss);
    PicksSameLength(t.mag, t.sbref, ss, SeriesId, s => SbrefText(ids, s));
  }

  /** For the social-doors and doors tasks the magnitude key keeps one series
      while the reference key gains an entry for every magnitude series. */
  lemma OverwrittenMagAppendedSbref(ids: seq<string>, t: TaskSlots, ss: seq<SeqInfo>)
    requires t in {Social, Doors}
    ensures |SlotList(ids, t.mag, ss)| == if Picks(t.mag, ss, SeriesId) == [] then 0 else 1
    ensures |SlotList(ids, t.sbref, ss)| == |Picks(t.mag, ss, SeriesId)|
  {
    OverwriteKeepsLast(ids, t.mag, ss);
    SbrefCollects(ids, t.sbref, ss);
    PicksSameLength(t.mag, t.sbref, ss, SeriesId, s => SbrefText(ids, s));
  }

  /** A key matched by every series that matches another picks something
      whenever the other does. */
  lemma {:induction false} PicksCovered(x: Slot, y: Slot, ss: seq<SeqInfo>)
    requires forall k :: 0 <= k < |ss| ==> Matches(y, ss[k]) ==> Matches(x, ss[k])
    ensures Picks(y, ss, SeriesId) != [] ==> Picks(x, ss, SeriesId) != []
    decreases |ss|
  {
    if ss != [] && !Matches(y, ss[|ss| - 1]) {
      PicksCovered(x, y, ss[..|ss| - 1]);
    }
  }

  /** Every `gre_field` series sets the magnitude key, the phase one too: a
      phase field map is never recorded without a magnitude one. */
  lemma PhaseNeedsMag(ids: seq<string>, ss: seq<SeqInfo>)
    ensures SlotList(ids, Phase, ss) != [] ==> SlotList(ids, Mag, ss) != []
  {
    OverwriteKeepsLast(ids, Phase, ss);
    OverwriteKeepsLast(ids, Mag, ss);
    PicksCovered(Mag, Phase, ss);
  }

  /** A description holding `TR1615_Pha` holds `_Pha`. */
  lemma PhaseMarkerContained(d: string)
    requires Contains(d, "TR1615_Pha")
    ensures Contains(d, "_Pha")
  {
    var i :| 0 <= i <= |d| - 10 && OccursAt(d, "TR1615_Pha", i);
    assert d[i + 6..i + 10] == d[i..i + 10][6..10];
    assert OccursAt(d, "_Pha", i + 6);
  }

  /** No series is both a task's magnitude and its phase. */
  lemma PhaseNeverMag(t: TaskSlots, s: SeqInfo)
    requires t in {Trust, Shared, Social, Doors, Ugr}
    ensures !(Matches(t.mag, s) && Matches(t.phase, s))
  {
    if PhasePart(s) {
      PhaseMarkerContained(s.seriesDescription);
    }
  }

  /** The reference lookup raises only for a lone series that takes a
      reference: with two or more series, a negative index wraps around. */
  lemma RaisesOnlyAlone(ss: seq<SeqInfo>)
    ensures AnyRaises(IdsOf(ss), ss) <==> |ss| == 1 && TakesSbref(ss[0])
  {
    var ids := IdsOf(ss);
    if AnyRaises(ids, ss) {
      var k :| 0 <= k < |ss| && RaisesAt(ids, ss[k]);
      assert ids[k] == ss[k].seriesId;
      var j := IndexOf(ids, ss[k].seriesId);
      assert j <= k;
      assert |ss| == 1;
    }
    if |ss| == 1 && TakesSbref(ss[0]) {
      assert ids[0] == ss[0].seriesId;
      assert RaisesAt(ids, ss[0]);
    }
  }

  /** With distinct ids the reference of the series at position `k` is the
      series two places earlier, or for the first two series one of the last
      two. */
  lemma SbrefPosition(ss: seq<SeqInfo>, k: nat)
    requires k < |ss| && 2 <= |ss|
    requires forall i, j :: 0 <= i < j < |ss| ==> ss[i].seriesId != ss[j].seriesId
    ensures SbrefText(IdsOf(ss), ss[k]) == if 2 <= k then ss[k - 2].seriesId else ss[|ss| + k - 2].seriesId
  {
    var ids := IdsOf(ss);
    assert ids[k] == ss[k].seriesId;
    assert IndexOf(ids, ss[k].seriesId) == k;
  }
}
