/**
 * Properties of `check_valid_geometry` (GeometrySpec.ValidGeometry, which
 * GeometryCheck.CheckValidGeometry computes):
 *  - the output ends with the CONFIGURATION density test over the
 *    configuration indices and the FRACTION-sum test over the fractions the
 *    configurations declare, and the FRACTION-sum message appears exactly
 *    when the sum falls outside (0, 1];
 *  - the PLANE, OBJECT and NOISE_SOURCE density tests run over the indices of
 *    the keys with those prefixes;
 *  - an OBJECT or NOISE_SOURCE draws exactly one "missing from the SPECIES
 *    section" message when its name matches no SPECIES keypath, none when it
 *    does, and the message survives into the check's output;
 *  - unrecognised GEOMETRY keys and configuration children are reported;
 *  - an empty GEOMETRY section aborts the check instead of drawing its
 *    "needs at least one CONFIGURATION" message.
 */
module GeometryProps {
  import opened Outcomes
  import opened Strings
  import opened ConfigTree
  import opened Indexing
  import opened GeometrySpec

  // ----- reference definitions -----

  /** Every message of `ms` also occurs in `out`. */
  predicate Kept(ms: seq<string>, out: seq<string>) {
    forall m :: m in ms ==> m in out
  }

  predicate EndsWith(ms: seq<string>, tail: seq<string>) {
    |tail| <= |ms| && ms[|ms| - |tail|..] == tail
  }

  /**
   * Messages of the walk over the configurations, as opposed to the closing
   * FRACTION-sum message. Each names GEOMETRY (or CEOMETRY, where misspelt),
   * so each contains the letter Y, which the FRACTION-sum message lacks.
   */
  predicate WalkMessages(ms: seq<string>) {
    forall m :: m in ms ==> 'Y' in m
  }

  /** Every key of `es` that starts with `prefix` carries an integer index. */
  predicate Indexable(es: Entries, prefix: string) {
    forall j :: 0 <= j < |es| && StartsWith(es[j].0, prefix) ==> IndexOf(es[j].0).Some?
  }

  /** The indices of the keys of `es` that start with `prefix`, in key order. */
  function PrefixedIndices(es: Entries, prefix: string): seq<int>
    requires Indexable(es, prefix)
  {
    if es == [] then []
    else
      assert forall j :: 0 <= j < |es[1..]| ==> es[1..][j] == es[j + 1];
      (if StartsWith(es[0].0, prefix) then [IndexOf(es[0].0).value] else []) + PrefixedIndices(es[1..], prefix)
  }

  /** The fraction a configuration declares: its FRACTION, when that converts to a number. */
  function DeclaredFraction(cv: Value): seq<real> {
    if !cv.VMap? then []
    else
      match Get(cv.entries, "FRACTION")
      case Some(f) => (match FloatOf(f) case Converted(x) => [x] case _ => [])
      case None => []
  }

  /** The declared fractions of the configurations `geo`, in key order. */
  function DeclaredFractions(geo: Entries): seq<real> {
    if geo == [] then [] else DeclaredFraction(geo[0].1) + DeclaredFractions(geo[1..])
  }

  /** The GEOMETRY section of the as-authored configuration, when it is a dictionary. */
  function GeometryEntries(raw: Entries): Option<Entries> {
    match Get(raw, "GEOMETRY")
    case Some(VMap(geo)) => Some(geo)
    case _ => None
  }

  lemma FractionMessageUntagged()
    ensures 'Y' !in FractionSumMessage
  {
  }

  lemma HeadsInWalk()
    ensures WalkMessages([NoConfiguration]) && WalkMessages([ConfigurationsDensity])
  {
    assert NoConfiguration[7] == 'Y';
    assert ConfigurationsDensity[29] == 'Y';
  }

  lemma PrefixKept(a: seq<string>, b: seq<string>)
    requires a <= b
    ensures Kept(a, b)
  {
    forall m | m in a ensures m in b {
      var x :| 0 <= x < |a| && a[x] == m;
      assert b[x] == m;
    }
  }

  lemma KeptTrans(a: seq<string>, b: seq<string>, c: seq<string>)
    requires Kept(a, b) && b <= c
    ensures Kept(a, c)
  {
    PrefixKept(b, c);
  }

  lemma EndsWithAppend(a: seq<string>, b: seq<string>)
    ensures EndsWith(a + b, b)
  {
    assert (a + b)[|a|..] == b;
  }

  lemma {:induction false} SliceShift(es: Entries, i: nat)
    requires i < |es|
    ensures es[i..] == [es[i]] + es[i + 1..]
  {
  }

  // ----- every message of the walk is tagged -----

  lemma NamedEntryInWalk(kps: seq<string>, name: string, key: string, v: Value)
    requires NamedEntry(kps, name, key, v).Ok?
    ensures WalkMessages(NamedEntry(kps, name, key, v).value.msgs)
  {
  }

  lemma {:induction false} ObjectsInWalk(kps: seq<string>, plane: string, es: Entries, i: nat, acc: Tally)
    requires i <= |es| && WalkMessages(acc.msgs)
    requires ObjectsFrom(kps, plane, es, i, acc).Ok?
    ensures WalkMessages(ObjectsFrom(kps, plane, es, i, acc).value.msgs)
    decreases |es| - i
  {
    if i < |es| {
      if StartsWith(es[i].0, "OBJECT_") {
        NamedEntryInWalk(kps, plane + "." + es[i].0, es[i].0, es[i].1);
      }
      ObjectsInWalk(kps, plane, es, i + 1, ObjectStep(kps, plane, es[i], acc).value);
    }
  }

  lemma PlaneInWalk(kps: seq<string>, k: string, ck: string, cv: Value)
    requires PlaneEntry(kps, k, ck, cv).Ok?
    ensures WalkMessages(PlaneEntry(kps, k, ck, cv).value.msgs)
  {
    ObjectsInWalk(kps, k + "." + ck, cv.entries, 0, Tally([], []));
  }

  lemma {:induction false} TimeseriesObjectsInWalk(raw: Entries, kps: seq<string>, k: string, items: seq<Value>, i: nat, acc: seq<string>)
    requires i <= |items| && WalkMessages(acc)
    requires TimeseriesObjectsFrom(raw, kps, k, items, i, acc).Ok?
    ensures WalkMessages(TimeseriesObjectsFrom(raw, kps, k, items, i, acc).value)
    decreases |items| - i
  {
    if i < |items| {
      TimeseriesObjectsInWalk(raw, kps, k, items, i + 1, acc + TimeseriesObject(raw, kps, k, items[i]).value);
    }
  }

  lemma TimeseriesInWalk(raw: Entries, kps: seq<string>, k: string, cv: Value)
    requires TimeseriesEntry(raw, kps, k, cv).Ok?
    ensures WalkMessages(TimeseriesEntry(raw, kps, k, cv).value)
  {
    match Get(cv.entries, "OBJECTS")
    case Some(VList(items)) => TimeseriesObjectsInWalk(raw, kps, k, items, 0, []);
    case _ =>
  }

  lemma ChildStepInWalk(raw: Entries, kps: seq<string>, k: string, entry: (string, Value), acc: ConfigTally)
    requires WalkMessages(acc.msgs)
    requires ChildStep(raw, kps, k, entry, acc).Ok?
    ensures WalkMessages(ChildStep(raw, kps, k, entry, acc).value.msgs)
  {
    var (ck, cv) := entry;
    match Classify(ck)
    case PlaneChild => PlaneInWalk(kps, k, ck, cv);
    case NoiseSourceChild => NamedEntryInWalk(kps, k + "." + ck, ck, cv);
    case TimeseriesChild => TimeseriesInWalk(raw, kps, k, cv);
    case FractionChild =>
    case InvalidChild =>
  }

  lemma {:induction false} ChildrenInWalk(raw: Entries, kps: seq<string>, k: string, es: Entries, i: nat, acc: ConfigTally)
    requires i <= |es| && WalkMessages(acc.msgs)
    requires ChildrenFrom(raw, kps, k, es, i, acc).Ok?
    ensures WalkMessages(ChildrenFrom(raw, kps, k, es, i, acc).value.msgs)
    decreases |es| - i
  {
    if i < |es| {
      var acc' := ChildStep(raw, kps, k, es[i], acc).value;
      assert ChildrenFrom(raw, kps, k, es, i, acc) == ChildrenFrom(raw, kps, k, es, i + 1, acc');
      ChildStepInWalk(raw, kps, k, es[i], acc);
      ChildrenInWalk(raw, kps, k, es, i + 1, acc');
    }
  }

  lemma WalkMessagesAppend(a: seq<string>, b: seq<string>)
    requires WalkMessages(a) && WalkMessages(b)
    ensures WalkMessages(a + b)
  {
  }

  /** A message that may or may not be added, and that names GEOMETRY or CEOMETRY. */
  lemma WalkMessagesOptional(c: bool, m: string)
    requires |m| > 7 && m[7] == 'Y'
    ensures WalkMessages(if c then [m] else [])
  {
  }

  lemma FractionInWalk(k: string, es: Entries)
    requires FractionEntry(k, es).Ok?
    ensures WalkMessages(FractionEntry(k, es).value.0)
  {
    assert FractionMissing(k)[7] == 'Y' && FractionNotFloat(k)[7] == 'Y';
  }

  /** The messages a configuration adds about itself all name GEOMETRY or CEOMETRY. */
  lemma ConfigurationMessagesNamed(k: string)
    ensures InvalidEntry(k)[7] == 'Y' && NoPlane(k)[7] == 'Y'
    ensures WalkMessages([PlanesDensity(k)]) && WalkMessages([NoiseDensity(k)])
  {
    assert PlanesDensity(k)[21] == 'Y' && NoiseDensity(k)[28] == 'Y';
  }

  lemma ConfigurationInWalk(raw: Entries, kps: seq<string>, k: string, cv: Value)
    requires ConfigurationEntry(raw, kps, k, cv).Ok?
    ensures WalkMessages(ConfigurationEntry(raw, kps, k, cv).value.msgs)
  {
    var index := IndexOf(k).value;
    var fraction := FractionEntry(k, cv.entries).value;
    var children := ChildrenFrom(raw, kps, k, cv.entries, 0, ConfigTally([], [], [])).value;
    var planes := DensityCheck(children.planes, PlanesDensity(k)).value;
    var noise := OptionalDensityCheck(children.noise, NoiseDensity(k));
    var p1 := if !StartsWith(k, "CONFIGURATION_") then [InvalidEntry(k)] else [];
    var p2 := if index < 1 then [InvalidEntry(k)] else [];
    var p4 := if |cv.entries| == 0 then [NoPlane(k)] else [];
    assert ConfigurationEntry(raw, kps, k, cv).value.msgs == p1 + p2 + fraction.0 + p4 + children.msgs + planes + noise;
    ConfigurationMessagesNamed(k);
    WalkMessagesOptional(!StartsWith(k, "CONFIGURATION_"), InvalidEntry(k));
    WalkMessagesOptional(index < 1, InvalidEntry(k));
    WalkMessagesOptional(|cv.entries| == 0, NoPlane(k));
    FractionInWalk(k, cv.entries);
    ChildrenInWalk(raw, kps, k, cv.entries, 0, ConfigTally([], [], []));
    assert WalkMessages(planes) && WalkMessages(noise);
    WalkMessagesAppend(p1, p2);
    WalkMessagesAppend(p1 + p2, fraction.0);
    WalkMessagesAppend(p1 + p2 + fraction.0, p4);
    WalkMessagesAppend(p1 + p2 + fraction.0 + p4, children.msgs);
    WalkMessagesAppend(p1 + p2 + fraction.0 + p4 + children.msgs, planes);
    WalkMessagesAppend(p1 + p2 + fraction.0 + p4 + children.msgs + planes, noise);
  }

  // ----- what the configuration loop accumulates -----

  /** The configuration loop, one step unfolded. */
  lemma ConfigurationsUnfold(raw: Entries, kps: seq<string>, geo: Entries, i: nat, acc: GeometryTally)
    requires i < |geo|
    requires ConfigurationsFrom(raw, kps, geo, i, acc).Ok?
    ensures ConfigurationStep(raw, kps, geo[i], acc).Ok?
    ensures ConfigurationsFrom(raw, kps, geo, i, acc) ==
      ConfigurationsFrom(raw, kps, geo, i + 1, ConfigurationStep(raw, kps, geo[i], acc).value)
  {
  }

  /** One step of the configuration loop appends what the configuration contributes. */
  lemma ConfigurationStepShape(raw: Entries, kps: seq<string>, entry: (string, Value), acc: GeometryTally)
    requires ConfigurationStep(raw, kps, entry, acc).Ok?
    ensures ConfigurationEntry(raw, kps, entry.0, entry.1).Ok?
    ensures var c := ConfigurationEntry(raw, kps, entry.0, entry.1).value;
      ConfigurationStep(raw, kps, entry, acc).value ==
        GeometryTally(acc.msgs + c.msgs, acc.configs + [c.index], acc.fractions + c.fractions)
  {
  }

  /** A completed configuration contributes the fraction its FRACTION test yields. */
  lemma ConfigurationFraction(raw: Entries, kps: seq<string>, k: string, cv: Value)
    requires ConfigurationEntry(raw, kps, k, cv).Ok?
    ensures cv.VMap? && FractionEntry(k, cv.entries).Ok?
    ensures ConfigurationEntry(raw, kps, k, cv).value.fractions == FractionEntry(k, cv.entries).value.1
  {
    var fraction := FractionEntry(k, cv.entries);
    var children := ChildrenFrom(raw, kps, k, cv.entries, 0, ConfigTally([], [], []));
    assert fraction.Ok? && children.Ok?;
    var planes := DensityCheck(children.value.planes, PlanesDensity(k));
    assert planes.Ok?;
  }

  /**
   * One step of the configuration loop adds the configuration's index, read
   * from its key, and the fraction it declares.
   */
  lemma ConfigurationStepTally(raw: Entries, kps: seq<string>, entry: (string, Value), acc: GeometryTally)
    requires ConfigurationStep(raw, kps, entry, acc).Ok?
    ensures IndexOf(entry.0).Some?
    ensures ConfigurationStep(raw, kps, entry, acc).value.configs == acc.configs + [IndexOf(entry.0).value]
    ensures ConfigurationStep(raw, kps, entry, acc).value.fractions == acc.fractions + DeclaredFraction(entry.1)
  {
    ConfigurationStepShape(raw, kps, entry, acc);
    ConfigurationFraction(raw, kps, entry.0, entry.1);
  }

  /** The configuration loop only appends. */
  lemma {:induction false} ConfigurationsGrow(raw: Entries, kps: seq<string>, geo: Entries, i: nat, acc: GeometryTally)
    requires i <= |geo|
    requires ConfigurationsFrom(raw, kps, geo, i, acc).Ok?
    ensures acc.msgs <= ConfigurationsFrom(raw, kps, geo, i, acc).value.msgs
    decreases |geo| - i
  {
    if i < |geo| {
      ConfigurationsUnfold(raw, kps, geo, i, acc);
      var acc' := ConfigurationStep(raw, kps, geo[i], acc).value;
      ConfigurationStepShape(raw, kps, geo[i], acc);
      AppendKept(acc.msgs, ConfigurationEntry(raw, kps, geo[i].0, geo[i].1).value.msgs);
      ConfigurationsGrow(raw, kps, geo, i + 1, acc');
      PrefixTrans(acc.msgs, acc'.msgs, ConfigurationsFrom(raw, kps, geo, i, acc).value.msgs);
    }
  }

  /** All messages of the configuration loop are tagged. */
  lemma {:induction false} ConfigurationsInWalk(raw: Entries, kps: seq<string>, geo: Entries, i: nat, acc: GeometryTally)
    requires i <= |geo| && WalkMessages(acc.msgs)
    requires ConfigurationsFrom(raw, kps, geo, i, acc).Ok?
    ensures WalkMessages(ConfigurationsFrom(raw, kps, geo, i, acc).value.msgs)
    decreases |geo| - i
  {
    if i < |geo| {
      var acc' := ConfigurationStep(raw, kps, geo[i], acc).value;
      assert ConfigurationsFrom(raw, kps, geo, i, acc) == ConfigurationsFrom(raw, kps, geo, i + 1, acc');
      ConfigurationStepShape(raw, kps, geo[i], acc);
      ConfigurationInWalk(raw, kps, geo[i].0, geo[i].1);
      ConfigurationsInWalk(raw, kps, geo, i + 1, acc');
    }
  }

  lemma DeclaredFractionsStep(geo: Entries, i: nat)
    requires i < |geo|
    ensures DeclaredFractions(geo[i..]) == DeclaredFraction(geo[i].1) + DeclaredFractions(geo[i + 1..])
  {
    assert geo[i..][1..] == geo[i + 1..];
  }

  /** The configuration loop gathers the fractions the configurations declare. */
  lemma {:induction false} ConfigurationsFractions(raw: Entries, kps: seq<string>, geo: Entries, i: nat, acc: GeometryTally)
    requires i <= |geo|
    requires ConfigurationsFrom(raw, kps, geo, i, acc).Ok?
    ensures ConfigurationsFrom(raw, kps, geo, i, acc).value.fractions == acc.fractions + DeclaredFractions(geo[i..])
    decreases |geo| - i
  {
    if i < |geo| {
      ConfigurationsUnfold(raw, kps, geo, i, acc);
      var acc' := ConfigurationStep(raw, kps, geo[i], acc).value;
      var t := ConfigurationsFrom(raw, kps, geo, i, acc).value;
      ConfigurationStepTally(raw, kps, geo[i], acc);
      ConfigurationsFractions(raw, kps, geo, i + 1, acc');
      var mine, later := DeclaredFraction(geo[i].1), DeclaredFractions(geo[i + 1..]);
      assert t.fractions == acc'.fractions + later;
      assert acc'.fractions == acc.fractions + mine;
      DeclaredFractionsStep(geo, i);
      AppendAssoc(acc.fractions, mine, later);
    } else {
      assert geo[i..] == [];
    }
  }

  /** The configuration indices, one per key of GEOMETRY, in key order. */
  function ConfigIndices(geo: Entries): (r: seq<int>)
    requires AllIndexed(geo)
    ensures |r| == |geo|
  {
    if geo == [] then []
    else
      assert forall j :: 0 <= j < |geo[1..]| ==> geo[1..][j] == geo[j + 1];
      [IndexOf(geo[0].0).value] + ConfigIndices(geo[1..])
  }

  /** Every key of `geo` carries an integer index. */
  predicate AllIndexed(geo: Entries) {
    forall j :: 0 <= j < |geo| ==> IndexOf(geo[j].0).Some?
  }

  /** Position `j` of the configuration indices is the index read from the `j`-th key. */
  lemma {:induction false} ConfigIndexAt(geo: Entries, j: nat)
    requires AllIndexed(geo) && j < |geo|
    ensures ConfigIndices(geo)[j] == IndexOf(geo[j].0).value
  {
    var rest := geo[1..];
    assert forall x :: 0 <= x < |rest| ==> rest[x] == geo[x + 1];
    if j > 0 {
      ConfigIndexAt(rest, j - 1);
    }
  }

  lemma AllIndexedStep(geo: Entries, i: nat)
    requires i < |geo| && IndexOf(geo[i].0).Some? && AllIndexed(geo[i + 1..])
    ensures AllIndexed(geo[i..])
  {
    var s, rest := geo[i..], geo[i + 1..];
    forall j | 0 <= j < |s| ensures IndexOf(s[j].0).Some? {
      if j == 0 {
        assert s[j] == geo[i];
      } else {
        assert s[j] == rest[j - 1];
        assert IndexOf(rest[j - 1].0).Some?;
      }
    }
  }

  lemma ConfigIndicesStep(geo: Entries, i: nat)
    requires i < |geo| && IndexOf(geo[i].0).Some? && AllIndexed(geo[i + 1..])
    ensures AllIndexed(geo[i..])
    ensures ConfigIndices(geo[i..]) == [IndexOf(geo[i].0).value] + ConfigIndices(geo[i + 1..])
  {
    AllIndexedStep(geo, i);
    var s := geo[i..];
    assert s[0] == geo[i] && s[1..] == geo[i + 1..];
  }

  /** The configuration loop gathers one index per configuration, read from its key. */
  lemma {:induction false} ConfigurationsIndices(raw: Entries, kps: seq<string>, geo: Entries, i: nat, acc: GeometryTally)
    requires i <= |geo|
    requires ConfigurationsFrom(raw, kps, geo, i, acc).Ok?
    ensures AllIndexed(geo[i..])
    ensures ConfigurationsFrom(raw, kps, geo, i, acc).value.configs == acc.configs + ConfigIndices(geo[i..])
    decreases |geo| - i
  {
    if i < |geo| {
      ConfigurationsUnfold(raw, kps, geo, i, acc);
      var acc' := ConfigurationStep(raw, kps, geo[i], acc).value;
      ConfigurationStepTally(raw, kps, geo[i], acc);
      ConfigurationsIndices(raw, kps, geo, i + 1, acc');
      ConfigIndicesStep(geo, i);
      AppendAssoc(acc.configs, [IndexOf(geo[i].0).value], ConfigIndices(geo[i + 1..]));
    } else {
      assert geo[i..] == [];
    }
  }

  /**
   * A GEOMETRY check that completes has at least one configuration, every
   * configuration key carries an integer index, and its messages end with the
   * CONFIGURATION density test over those indices followed by the FRACTION
   * sum test over the declared fractions; the FRACTION-sum message appears
   * exactly when that sum is not in (0, 1].
   */
  lemma GeometryReport(raw: Entries)
    requires ValidGeometry(raw).Ok?
    ensures GeometryEntries(raw).Some?
    ensures var geo := GeometryEntries(raw).value;
      |geo| >= 1 && AllIndexed(geo) &&
      DensityCheck(ConfigIndices(geo), ConfigurationsDensity).Ok? &&
      EndsWith(ValidGeometry(raw).value,
        DensityCheck(ConfigIndices(geo), ConfigurationsDensity).value + FractionSumCheck(DeclaredFractions(geo)))
    ensures var geo := GeometryEntries(raw).value;
      FractionSumMessage in ValidGeometry(raw).value <==> !(0.0 < Sum(DeclaredFractions(geo)) <= 1.0)
  {
    var geo := Subscript(VMap(raw), "GEOMETRY").value.entries;
    assert GeometryEntries(raw) == Some(geo);
    var head := if |geo| == 0 then [NoConfiguration] else [];
    var kps := Keypaths(raw);
    var t := ConfigurationsFrom(raw, kps, geo, 0, GeometryTally(head, [], [])).value;
    var density := DensityCheck(t.configs, ConfigurationsDensity).value;
    var r := ValidGeometry(raw).value;
    assert r == t.msgs + density + FractionSumCheck(t.fractions);
    HeadsInWalk();
    assert WalkMessages(head);
    assert WalkMessages(density);
    ConfigurationsInWalk(raw, kps, geo, 0, GeometryTally(head, [], []));
    ConfigurationsFractions(raw, kps, geo, 0, GeometryTally(head, [], []));
    ConfigurationsIndices(raw, kps, geo, 0, GeometryTally(head, [], []));
    assert geo[0..] == geo;
    EmptyNeutral(ConfigIndices(geo));
    EmptyNeutral(DeclaredFractions(geo));
    assert t.configs == ConfigIndices(geo);
    assert t.fractions == DeclaredFractions(geo);
    FractionMessageUntagged();
    GeometryTail(t.msgs, density, FractionSumCheck(t.fractions));
  }

  lemma GeometryTail(ms: seq<string>, density: seq<string>, fractions: seq<string>)
    requires WalkMessages(ms) && WalkMessages(density) && (fractions == [] || fractions == [FractionSumMessage])
    requires 'Y' !in FractionSumMessage
    ensures EndsWith(ms + density + fractions, density + fractions)
    ensures FractionSumMessage in ms + density + fractions <==> fractions != []
  {
    AppendAssoc(ms, density, fractions);
    EndsWithAppend(ms, density + fractions);
    forall m | m in ms + density ensures m != FractionSumMessage {
      assert 'Y' in m;
    }
  }

  /**
   * An empty GEOMETRY section never yields "GEOMETRY sections needs at least
   * one CONFIGURATION": the CONFIGURATION density test takes `max` of no
   * indices and aborts the check first.
   */
  lemma EmptyGeometryAborts(raw: Entries)
    requires GeometryEntries(raw) == Some([])
    ensures ValidGeometry(raw) == Crash
  {
  }

  // ----- index density at the PLANE, OBJECT and NOISE_SOURCE levels -----

  lemma {:induction false} ObjectIndices(kps: seq<string>, plane: string, es: Entries, i: nat, acc: Tally)
    requires i <= |es|
    requires ObjectsFrom(kps, plane, es, i, acc).Ok?
    ensures Indexable(es[i..], "OBJECT_")
    ensures ObjectsFrom(kps, plane, es, i, acc).value.indices == acc.indices + PrefixedIndices(es[i..], "OBJECT_")
    decreases |es| - i
  {
    if i < |es| {
      ObjectIndices(kps, plane, es, i + 1, ObjectStep(kps, plane, es[i], acc).value);
      SliceShift(es, i);
      assert es[i..][1..] == es[i + 1..];
    } else {
      assert es[i..] == [];
    }
  }

  /** A plane's OBJECT density test runs over the indices of its OBJECT_ keys. */
  lemma PlaneDensity(kps: seq<string>, k: string, ck: string, cv: Value)
    requires PlaneEntry(kps, k, ck, cv).Ok?
    ensures cv.VMap? && Indexable(cv.entries, "OBJECT_") && PrefixedIndices(cv.entries, "OBJECT_") != []
    ensures EndsWith(PlaneEntry(kps, k, ck, cv).value.msgs,
      DensityCheck(PrefixedIndices(cv.entries, "OBJECT_"), ObjectsDensity(k + "." + ck)).value)
  {
    ObjectIndices(kps, k + "." + ck, cv.entries, 0, Tally([], []));
    assert cv.entries[0..] == cv.entries;
    var name := k + "." + ck;
    var index := IndexOf(ck).value;
    var params := Subscript(cv, "PARAMETERS").value;
    var objects := ObjectsFrom(kps, name, cv.entries, 0, Tally([], [])).value;
    var density := DensityCheck(objects.indices, ObjectsDensity(name)).value;
    var front := (if index < 1 then [InvalidEntry(name)] else []) +
      (if "REDSHIFT" !in Keys(params.entries) then [MissingRedshift(name)] else []) + objects.msgs;
    assert objects.indices == PrefixedIndices(cv.entries, "OBJECT_");
    assert PlaneEntry(kps, k, ck, cv).value.msgs == front + density;
    EndsWithAppend(front, density);
  }

  lemma PrefixesExclusive(s: string)
    requires StartsWith(s, "NOISE_SOURCE_")
    ensures !StartsWith(s, "PLANE_")
  {
    assert s[0] == "NOISE_SOURCE_"[0];
  }

  /** The keys of `es[i..]` with `prefix`, one key peeled off. */
  lemma PrefixedStep(es: Entries, i: nat, prefix: string)
    requires i < |es| && Indexable(es[i + 1..], prefix)
    requires StartsWith(es[i].0, prefix) ==> IndexOf(es[i].0).Some?
    ensures Indexable(es[i..], prefix)
    ensures PrefixedIndices(es[i..], prefix) ==
      (if StartsWith(es[i].0, prefix) then [IndexOf(es[i].0).value] else []) + PrefixedIndices(es[i + 1..], prefix)
  {
    var s, rest := es[i..], es[i + 1..];
    forall j | 0 <= j < |s| && StartsWith(s[j].0, prefix) ensures IndexOf(s[j].0).Some? {
      if j == 0 {
        assert s[j] == es[i];
      } else {
        assert s[j] == rest[j - 1];
        assert StartsWith(rest[j - 1].0, prefix) ==> IndexOf(rest[j - 1].0).Some?;
      }
    }
    assert s != [] && s[0] == es[i];
    assert s[1..] == es[i + 1..];
  }

  /** The child loop, one step unfolded. */
  lemma ChildrenUnfold(raw: Entries, kps: seq<string>, k: string, es: Entries, i: nat, acc: ConfigTally)
    requires i < |es|
    requires ChildrenFrom(raw, kps, k, es, i, acc).Ok?
    ensures ChildStep(raw, kps, k, es[i], acc).Ok?
    ensures ChildrenFrom(raw, kps, k, es, i, acc) ==
      ChildrenFrom(raw, kps, k, es, i + 1, ChildStep(raw, kps, k, es[i], acc).value)
  {
  }

  /** One child adds its index to the PLANE or the NOISE_SOURCE indices, by its prefix. */
  lemma ChildStepIndices(raw: Entries, kps: seq<string>, k: string, entry: (string, Value), acc: ConfigTally)
    requires ChildStep(raw, kps, k, entry, acc).Ok?
    ensures StartsWith(entry.0, "PLANE_") || StartsWith(entry.0, "NOISE_SOURCE_") ==> IndexOf(entry.0).Some?
    ensures ChildStep(raw, kps, k, entry, acc).value.planes ==
      acc.planes + (if StartsWith(entry.0, "PLANE_") then [IndexOf(entry.0).value] else [])
    ensures ChildStep(raw, kps, k, entry, acc).value.noise ==
      acc.noise + (if StartsWith(entry.0, "NOISE_SOURCE_") then [IndexOf(entry.0).value] else [])
  {
    if StartsWith(entry.0, "NOISE_SOURCE_") {
      PrefixesExclusive(entry.0);
    }
  }

  lemma {:induction false} ChildIndices(raw: Entries, kps: seq<string>, k: string, es: Entries, i: nat, acc: ConfigTally)
    requires i <= |es|
    requires ChildrenFrom(raw, kps, k, es, i, acc).Ok?
    ensures Indexable(es[i..], "PLANE_") && Indexable(es[i..], "NOISE_SOURCE_")
    ensures ChildrenFrom(raw, kps, k, es, i, acc).value.planes == acc.planes + PrefixedIndices(es[i..], "PLANE_")
    ensures ChildrenFrom(raw, kps, k, es, i, acc).value.noise == acc.noise + PrefixedIndices(es[i..], "NOISE_SOURCE_")
    decreases |es| - i
  {
    if i < |es| {
      ChildrenUnfold(raw, kps, k, es, i, acc);
      var acc' := ChildStep(raw, kps, k, es[i], acc).value;
      ChildStepIndices(raw, kps, k, es[i], acc);
      ChildIndices(raw, kps, k, es, i + 1, acc');
      PrefixedStep(es, i, "PLANE_");
      PrefixedStep(es, i, "NOISE_SOURCE_");
      var key := es[i].0;
      AppendAssoc(acc.planes, if StartsWith(key, "PLANE_") then [IndexOf(key).value] else [],
        PrefixedIndices(es[i + 1..], "PLANE_"));
      AppendAssoc(acc.noise, if StartsWith(key, "NOISE_SOURCE_") then [IndexOf(key).value] else [],
        PrefixedIndices(es[i + 1..], "NOISE_SOURCE_"));
    } else {
      assert es[i..] == [];
    }
  }

  /**
   * A configuration's messages end with the PLANE density test over the
   * indices of its PLANE_ keys and the NOISE_SOURCE density test over the
   * indices of its own NOISE_SOURCE_ keys, which draws nothing when it has
   * none.
   */
  lemma ConfigurationDensity(raw: Entries, kps: seq<string>, k: string, cv: Value)
    requires ConfigurationEntry(raw, kps, k, cv).Ok?
    ensures cv.VMap? && Indexable(cv.entries, "PLANE_") && Indexable(cv.entries, "NOISE_SOURCE_")
    ensures PrefixedIndices(cv.entries, "PLANE_") != []
    ensures EndsWith(ConfigurationEntry(raw, kps, k, cv).value.msgs,
      DensityCheck(PrefixedIndices(cv.entries, "PLANE_"), PlanesDensity(k)).value +
      OptionalDensityCheck(PrefixedIndices(cv.entries, "NOISE_SOURCE_"), NoiseDensity(k)))
  {
    ChildIndices(raw, kps, k, cv.entries, 0, ConfigTally([], [], []));
    assert cv.entries[0..] == cv.entries;
    var index := IndexOf(k).value;
    var fraction := FractionEntry(k, cv.entries).value;
    var children := ChildrenFrom(raw, kps, k, cv.entries, 0, ConfigTally([], [], [])).value;
    var planes := DensityCheck(children.planes, PlanesDensity(k)).value;
    var noise := OptionalDensityCheck(children.noise, NoiseDensity(k));
    var front := (if !StartsWith(k, "CONFIGURATION_") then [InvalidEntry(k)] else []) +
      (if index < 1 then [InvalidEntry(k)] else []) +
      fraction.0 +
      (if |cv.entries| == 0 then [NoPlane(k)] else []) +
      children.msgs;
    assert children.planes == PrefixedIndices(cv.entries, "PLANE_");
    assert children.noise == PrefixedIndices(cv.entries, "NOISE_SOURCE_");
    assert ConfigurationEntry(raw, kps, k, cv).value.msgs == front + planes + noise;
    AppendAssoc(front, planes, noise);
    EndsWithAppend(front, planes + noise);
  }

  // ----- REDSHIFT among a plane's PARAMETERS -----

  /**
   * Messages about a single OBJECT or NOISE_SOURCE entry: each opens with
   * "GEOMETRY.", so with G, while the REDSHIFT and OBJECT density messages of
   * a plane open with R and O.
   */
  predicate EntryMessages(ms: seq<string>) {
    forall m :: m in ms ==> |m| > 0 && m[0] == 'G'
  }

  lemma EntryMessagesAppend(a: seq<string>, b: seq<string>)
    requires EntryMessages(a) && EntryMessages(b)
    ensures EntryMessages(a + b)
  {
  }

  lemma NamedEntryOpens(kps: seq<string>, name: string, key: string, v: Value)
    requires NamedEntry(kps, name, key, v).Ok?
    ensures EntryMessages(NamedEntry(kps, name, key, v).value.msgs)
  {
    assert InvalidEntry(name)[0] == 'G';
    assert SingleName(name)[0] == 'G';
    assert MissingSpecies(name)[0] == 'G';
  }

  lemma {:induction false} ObjectsOpen(kps: seq<string>, plane: string, es: Entries, i: nat, acc: Tally)
    requires i <= |es| && EntryMessages(acc.msgs)
    requires ObjectsFrom(kps, plane, es, i, acc).Ok?
    ensures EntryMessages(ObjectsFrom(kps, plane, es, i, acc).value.msgs)
    decreases |es| - i
  {
    if i < |es| {
      ObjectsUnfold(kps, plane, es, i, acc);
      if StartsWith(es[i].0, "OBJECT_") {
        var n := NamedEntry(kps, plane + "." + es[i].0, es[i].0, es[i].1).value;
        NamedEntryOpens(kps, plane + "." + es[i].0, es[i].0, es[i].1);
        EntryMessagesAppend(acc.msgs, n.msgs);
      }
      ObjectsOpen(kps, plane, es, i + 1, ObjectStep(kps, plane, es[i], acc).value);
    }
  }

  /**
   * A plane draws "REDSHIFT is missing from GEOMETRY.<k>.<plane>" exactly when
   * REDSHIFT is not among the keys of its PARAMETERS.
   */
  lemma PlaneRedshift(kps: seq<string>, k: string, ck: string, cv: Value)
    requires PlaneEntry(kps, k, ck, cv).Ok?
    ensures Subscript(cv, "PARAMETERS").Ok? && Subscript(cv, "PARAMETERS").value.VMap?
    ensures MissingRedshift(k + "." + ck) in PlaneEntry(kps, k, ck, cv).value.msgs <==>
      "REDSHIFT" !in Keys(Subscript(cv, "PARAMETERS").value.entries)
  {
    var name := k + "." + ck;
    var index := IndexOf(ck).value;
    var params := Subscript(cv, "PARAMETERS").value;
    var objects := ObjectsFrom(kps, name, cv.entries, 0, Tally([], [])).value;
    var density := DensityCheck(objects.indices, ObjectsDensity(name)).value;
    var invalid := if index < 1 then [InvalidEntry(name)] else [];
    var redshift := if "REDSHIFT" !in Keys(params.entries) then [MissingRedshift(name)] else [];
    ObjectsOpen(kps, name, cv.entries, 0, Tally([], []));
    assert PlaneEntry(kps, k, ck, cv).value.msgs == invalid + redshift + objects.msgs + density;
    PlaneMessageOpenings(name);
    RedshiftAmongOthers(invalid, redshift, objects.msgs, density, MissingRedshift(name), InvalidEntry(name), ObjectsDensity(name));
  }

  lemma PlaneMessageOpenings(name: string)
    ensures MissingRedshift(name)[0] == 'R' && InvalidEntry(name)[0] == 'G' && ObjectsDensity(name)[0] == 'O'
  {
  }

  /** A message that leads with R is found among others leading with G or O only where it was put. */
  lemma RedshiftAmongOthers(a: seq<string>, b: seq<string>, c: seq<string>, d: seq<string>, m: string, x: string, y: string)
    requires |m| > 0 && m[0] == 'R' && (b == [] || b == [m])
    requires |x| > 0 && x[0] == 'G' && (a == [] || a == [x])
    requires EntryMessages(c)
    requires |y| > 0 && y[0] == 'O' && (d == [] || d == [y])
    ensures m in a + b + c + d <==> b != []
  {
  }

  // ----- SPECIES references -----

  /** No SPECIES keypath contains `.name.`. */
  predicate Unmatched(kps: seq<string>, name: string) {
    forall x :: x in kps && StartsWith(x, "SPECIES") ==> !Contains(x, "." + name + ".")
  }

  /**
   * An OBJECT or NOISE_SOURCE entry draws its "missing from the SPECIES
   * section" message exactly once when it is not a single name or its name
   * matches no SPECIES keypath, and not at all otherwise.
   */
  lemma NamedEntrySpecies(kps: seq<string>, name: string, key: string, v: Value)
    requires NamedEntry(kps, name, key, v).Ok?
    ensures multiset(NamedEntry(kps, name, key, v).value.msgs)[MissingSpecies(name)] ==
      if !v.VStr? || Unmatched(kps, v.s) then 1 else 0
  {
    var index := IndexOf(key).value;
    var paths := MatchingPaths(kps, "SPECIES", v).value;
    var m := MissingSpecies(name);
    var front := (if index < 1 then [InvalidEntry(name)] else []) + (if !v.VStr? then [SingleName(name)] else []);
    var last := if paths == [] then [m] else [];
    assert NamedEntry(kps, name, key, v).value.msgs == front + last;
    assert |InvalidEntry(name)| != |m| && |SingleName(name)| != |m|;
    assert m !in front;
    assert multiset(front)[m] == 0;
    if v.VStr? {
      if !Unmatched(kps, v.s) {
        var x :| x in kps && StartsWith(x, "SPECIES") && Contains(x, "." + v.s + ".");
        assert x in paths;
      }
      if paths != [] {
        assert paths[0] in paths;
      }
    }
  }

  lemma PrefixTrans(a: seq<string>, b: seq<string>, c: seq<string>)
    requires a <= b && b <= c
    ensures a <= c
  {
    assert forall x :: 0 <= x < |a| ==> a[x] == b[x] == c[x];
  }

  /** An appended contribution is kept by the accumulator it is appended to. */
  lemma AppendKept(a: seq<string>, b: seq<string>)
    ensures a <= a + b && Kept(b, a + b)
  {
    forall m | m in b ensures m in a + b {
      var x :| 0 <= x < |b| && b[x] == m;
      assert (a + b)[|a| + x] == m;
    }
  }

  lemma ObjectsUnfold(kps: seq<string>, plane: string, es: Entries, i: nat, acc: Tally)
    requires i < |es|
    requires ObjectsFrom(kps, plane, es, i, acc).Ok?
    ensures ObjectStep(kps, plane, es[i], acc).Ok?
    ensures ObjectsFrom(kps, plane, es, i, acc) ==
      ObjectsFrom(kps, plane, es, i + 1, ObjectStep(kps, plane, es[i], acc).value)
  {
  }

  /** The OBJECT loop only appends. */
  lemma {:induction false} ObjectsGrow(kps: seq<string>, plane: string, es: Entries, i: nat, acc: Tally)
    requires i <= |es|
    requires ObjectsFrom(kps, plane, es, i, acc).Ok?
    ensures acc.msgs <= ObjectsFrom(kps, plane, es, i, acc).value.msgs
    decreases |es| - i
  {
    if i < |es| {
      ObjectsUnfold(kps, plane, es, i, acc);
      var acc' := ObjectStep(kps, plane, es[i], acc).value;
      ObjectsGrow(kps, plane, es, i + 1, acc');
      if StartsWith(es[i].0, "OBJECT_") {
        AppendKept(acc.msgs, NamedEntry(kps, plane + "." + es[i].0, es[i].0, es[i].1).value.msgs);
      }
      PrefixTrans(acc.msgs, acc'.msgs, ObjectsFrom(kps, plane, es, i, acc).value.msgs);
    }
  }

  /** The messages of the OBJECT at position `j` are kept by the OBJECT loop. */
  lemma {:induction false} ObjectKept(kps: seq<string>, plane: string, es: Entries, i: nat, acc: Tally, j: nat)
    requires i <= j < |es| && StartsWith(es[j].0, "OBJECT_")
    requires ObjectsFrom(kps, plane, es, i, acc).Ok?
    ensures NamedEntry(kps, plane + "." + es[j].0, es[j].0, es[j].1).Ok?
    ensures Kept(NamedEntry(kps, plane + "." + es[j].0, es[j].0, es[j].1).value.msgs, ObjectsFrom(kps, plane, es, i, acc).value.msgs)
    decreases |es| - i
  {
    ObjectsUnfold(kps, plane, es, i, acc);
    var acc' := ObjectStep(kps, plane, es[i], acc).value;
    if j == i {
      var n := NamedEntry(kps, plane + "." + es[i].0, es[i].0, es[i].1).value;
      AppendKept(acc.msgs, n.msgs);
      ObjectsGrow(kps, plane, es, i + 1, acc');
      KeptTrans(n.msgs, acc'.msgs, ObjectsFrom(kps, plane, es, i, acc).value.msgs);
    } else {
      ObjectKept(kps, plane, es, i + 1, acc', j);
    }
  }

  /** What one child contributes is among the messages of its step. */
  lemma ChildStepKeeps(raw: Entries, kps: seq<string>, k: string, entry: (string, Value), acc: ConfigTally)
    requires ChildStep(raw, kps, k, entry, acc).Ok?
    ensures acc.msgs <= ChildStep(raw, kps, k, entry, acc).value.msgs
    ensures Classify(entry.0) == PlaneChild ==>
      PlaneEntry(kps, k, entry.0, entry.1).Ok? &&
      Kept(PlaneEntry(kps, k, entry.0, entry.1).value.msgs, ChildStep(raw, kps, k, entry, acc).value.msgs)
    ensures Classify(entry.0) == NoiseSourceChild ==>
      NamedEntry(kps, k + "." + entry.0, entry.0, entry.1).Ok? &&
      Kept(NamedEntry(kps, k + "." + entry.0, entry.0, entry.1).value.msgs, ChildStep(raw, kps, k, entry, acc).value.msgs)
    ensures Classify(entry.0) == InvalidChild ==>
      NotValidEntry(k + "." + entry.0) in ChildStep(raw, kps, k, entry, acc).value.msgs
  {
    var (ck, cv) := entry;
    match Classify(ck)
    case PlaneChild => AppendKept(acc.msgs, PlaneEntry(kps, k, ck, cv).value.msgs);
    case NoiseSourceChild => AppendKept(acc.msgs, NamedEntry(kps, k + "." + ck, ck, cv).value.msgs);
    case TimeseriesChild => AppendKept(acc.msgs, TimeseriesEntry(raw, kps, k, cv).value);
    case FractionChild =>
    case InvalidChild => AppendKept(acc.msgs, [NotValidEntry(k + "." + ck)]);
  }

  /** The child loop only appends. */
  lemma {:induction false} ChildrenGrow(raw: Entries, kps: seq<string>, k: string, es: Entries, i: nat, acc: ConfigTally)
    requires i <= |es|
    requires ChildrenFrom(raw, kps, k, es, i, acc).Ok?
    ensures acc.msgs <= ChildrenFrom(raw, kps, k, es, i, acc).value.msgs
    decreases |es| - i
  {
    if i < |es| {
      ChildrenUnfold(raw, kps, k, es, i, acc);
      var acc' := ChildStep(raw, kps, k, es[i], acc).value;
      ChildStepKeeps(raw, kps, k, es[i], acc);
      ChildrenGrow(raw, kps, k, es, i + 1, acc');
      PrefixTrans(acc.msgs, acc'.msgs, ChildrenFrom(raw, kps, k, es, i, acc).value.msgs);
    }
  }

  /** What the child at position `j` contributes is kept by the child loop. */
  lemma {:induction false} ChildKept(raw: Entries, kps: seq<string>, k: string, es: Entries, i: nat, acc: ConfigTally, j: nat)
    requires i <= j < |es|
    requires ChildrenFrom(raw, kps, k, es, i, acc).Ok?
    ensures Classify(es[j].0) == PlaneChild ==>
      PlaneEntry(kps, k, es[j].0, es[j].1).Ok? &&
      Kept(PlaneEntry(kps, k, es[j].0, es[j].1).value.msgs, ChildrenFrom(raw, kps, k, es, i, acc).value.msgs)
    ensures Classify(es[j].0) == NoiseSourceChild ==>
      NamedEntry(kps, k + "." + es[j].0, es[j].0, es[j].1).Ok? &&
      Kept(NamedEntry(kps, k + "." + es[j].0, es[j].0, es[j].1).value.msgs, ChildrenFrom(raw, kps, k, es, i, acc).value.msgs)
    ensures Classify(es[j].0) == InvalidChild ==>
      NotValidEntry(k + "." + es[j].0) in ChildrenFrom(raw, kps, k, es, i, acc).value.msgs
    decreases |es| - i
  {
    ChildrenUnfold(raw, kps, k, es, i, acc);
    var acc' := ChildStep(raw, kps, k, es[i], acc).value;
    var t := ChildrenFrom(raw, kps, k, es, i, acc).value;
    if j == i {
      ChildStepKeeps(raw, kps, k, es[i], acc);
      ChildrenGrow(raw, kps, k, es, i + 1, acc');
      PrefixKept(acc'.msgs, t.msgs);
      var (ck, cv) := es[i];
      match Classify(ck)
      case PlaneChild => KeptTrans(PlaneEntry(kps, k, ck, cv).value.msgs, acc'.msgs, t.msgs);
      case NoiseSourceChild => KeptTrans(NamedEntry(kps, k + "." + ck, ck, cv).value.msgs, acc'.msgs, t.msgs);
      case _ =>
    } else {
      ChildKept(raw, kps, k, es, i + 1, acc', j);
    }
  }

  lemma ConfigurationKeeps(raw: Entries, kps: seq<string>, k: string, cv: Value)
    requires ConfigurationEntry(raw, kps, k, cv).Ok?
    ensures !StartsWith(k, "CONFIGURATION_") ==> InvalidEntry(k) in ConfigurationEntry(raw, kps, k, cv).value.msgs
    ensures cv.VMap? && ChildrenFrom(raw, kps, k, cv.entries, 0, ConfigTally([], [], [])).Ok?
    ensures Kept(ChildrenFrom(raw, kps, k, cv.entries, 0, ConfigTally([], [], [])).value.msgs,
      ConfigurationEntry(raw, kps, k, cv).value.msgs)
  {
  }

  /** The messages of the configuration at position `j` are kept by the configuration loop. */
  lemma {:induction false} ConfigurationKept(raw: Entries, kps: seq<string>, geo: Entries, i: nat, acc: GeometryTally, j: nat)
    requires i <= j < |geo|
    requires ConfigurationsFrom(raw, kps, geo, i, acc).Ok?
    ensures ConfigurationEntry(raw, kps, geo[j].0, geo[j].1).Ok?
    ensures Kept(ConfigurationEntry(raw, kps, geo[j].0, geo[j].1).value.msgs, ConfigurationsFrom(raw, kps, geo, i, acc).value.msgs)
    decreases |geo| - i
  {
    ConfigurationsUnfold(raw, kps, geo, i, acc);
    var acc' := ConfigurationStep(raw, kps, geo[i], acc).value;
    if j == i {
      ConfigurationStepShape(raw, kps, geo[i], acc);
      var c := ConfigurationEntry(raw, kps, geo[i].0, geo[i].1).value;
      AppendKept(acc.msgs, c.msgs);
      ConfigurationsGrow(raw, kps, geo, i + 1, acc');
      KeptTrans(c.msgs, acc'.msgs, ConfigurationsFrom(raw, kps, geo, i, acc).value.msgs);
    } else {
      ConfigurationKept(raw, kps, geo, i + 1, acc', j);
    }
  }

  /** The messages of the configuration at position `j` of GEOMETRY reach the check's output. */
  lemma GeometryKeeps(raw: Entries, j: nat)
    requires ValidGeometry(raw).Ok?
    requires GeometryEntries(raw).Some? && j < |GeometryEntries(raw).value|
    ensures var geo := GeometryEntries(raw).value;
      ConfigurationEntry(raw, Keypaths(raw), geo[j].0, geo[j].1).Ok? &&
      Kept(ConfigurationEntry(raw, Keypaths(raw), geo[j].0, geo[j].1).value.msgs, ValidGeometry(raw).value)
  {
    var geo := GeometryEntries(raw).value;
    var head := if |geo| == 0 then [NoConfiguration] else [];
    var kps := Keypaths(raw);
    var t := ConfigurationsFrom(raw, kps, geo, 0, GeometryTally(head, [], [])).value;
    ConfigurationKept(raw, kps, geo, 0, GeometryTally(head, [], []), j);
    var r := ValidGeometry(raw).value;
    var density := DensityCheck(t.configs, ConfigurationsDensity).value;
    assert r == t.msgs + density + FractionSumCheck(t.fractions);
    AppendAssoc(t.msgs, density, FractionSumCheck(t.fractions));
    AppendKept(t.msgs, density + FractionSumCheck(t.fractions));
    KeptTrans(ConfigurationEntry(raw, kps, geo[j].0, geo[j].1).value.msgs, t.msgs, r);
  }

  /** A key of GEOMETRY without the CONFIGURATION_ prefix is reported as an invalid entry. */
  lemma UnknownGeometryKeyReported(raw: Entries, j: nat)
    requires ValidGeometry(raw).Ok?
    requires GeometryEntries(raw).Some? && j < |GeometryEntries(raw).value|
    requires !StartsWith(GeometryEntries(raw).value[j].0, "CONFIGURATION_")
    ensures InvalidEntry(GeometryEntries(raw).value[j].0) in ValidGeometry(raw).value
  {
    var geo := GeometryEntries(raw).value;
    GeometryKeeps(raw, j);
    ConfigurationKeeps(raw, Keypaths(raw), geo[j].0, geo[j].1);
  }

  /** A child of a configuration that is no PLANE_, NOISE_SOURCE_, TIMESERIES or FRACTION is reported. */
  lemma UnknownChildReported(raw: Entries, j: nat, c: nat)
    requires ValidGeometry(raw).Ok?
    requires GeometryEntries(raw).Some? && j < |GeometryEntries(raw).value|
    requires GeometryEntries(raw).value[j].1.VMap? && c < |GeometryEntries(raw).value[j].1.entries|
    requires Classify(GeometryEntries(raw).value[j].1.entries[c].0) == InvalidChild
    ensures NotValidEntry(GeometryEntries(raw).value[j].0 + "." + GeometryEntries(raw).value[j].1.entries[c].0)
      in ValidGeometry(raw).value
  {
    var geo := GeometryEntries(raw).value;
    var (k, cv) := geo[j];
    GeometryKeeps(raw, j);
    ConfigurationKeeps(raw, Keypaths(raw), k, cv);
    ChildKept(raw, Keypaths(raw), k, cv.entries, 0, ConfigTally([], [], []), c);
  }

  /**
   * An OBJECT of a plane whose name matches no SPECIES keypath draws its
   * "missing from the SPECIES section" message, and the message reaches the
   * check's output.
   */
  lemma UnmatchedObjectReported(raw: Entries, j: nat, c: nat, o: nat)
    requires ValidGeometry(raw).Ok?
    requires GeometryEntries(raw).Some? && j < |GeometryEntries(raw).value|
    requires GeometryEntries(raw).value[j].1.VMap? && c < |GeometryEntries(raw).value[j].1.entries|
    requires Classify(GeometryEntries(raw).value[j].1.entries[c].0) == PlaneChild
    requires GeometryEntries(raw).value[j].1.entries[c].1.VMap?
    requires o < |GeometryEntries(raw).value[j].1.entries[c].1.entries|
    requires StartsWith(GeometryEntries(raw).value[j].1.entries[c].1.entries[o].0, "OBJECT_")
    requires GeometryEntries(raw).value[j].1.entries[c].1.entries[o].1.VStr?
    requires Unmatched(Keypaths(raw), GeometryEntries(raw).value[j].1.entries[c].1.entries[o].1.s)
    ensures MissingSpecies(GeometryEntries(raw).value[j].0 + "." + GeometryEntries(raw).value[j].1.entries[c].0 + "." +
      GeometryEntries(raw).value[j].1.entries[c].1.entries[o].0) in ValidGeometry(raw).value
  {
    var kps := Keypaths(raw);
    var geo := GeometryEntries(raw).value;
    var (k, cv) := geo[j];
    var (ck, pv) := cv.entries[c];
    var (ok, ov) := pv.entries[o];
    var name := k + "." + ck + "." + ok;
    GeometryKeeps(raw, j);
    ConfigurationKeeps(raw, kps, k, cv);
    ChildKept(raw, kps, k, cv.entries, 0, ConfigTally([], [], []), c);
    ObjectKept(kps, k + "." + ck, pv.entries, 0, Tally([], []), o);
    NamedEntrySpecies(kps, name, ok, ov);
    assert MissingSpecies(name) in NamedEntry(kps, name, ok, ov).value.msgs;
  }

  /**
   * A NOISE_SOURCE whose name matches no SPECIES keypath draws its "missing
   * from the SPECIES section" message, and the message reaches the check's
   * output.
   */
  lemma UnmatchedNoiseSourceReported(raw: Entries, j: nat, c: nat)
    requires ValidGeometry(raw).Ok?
    requires GeometryEntries(raw).Some? && j < |GeometryEntries(raw).value|
    requires GeometryEntries(raw).value[j].1.VMap? && c < |GeometryEntries(raw).value[j].1.entries|
    requires Classify(GeometryEntries(raw).value[j].1.entries[c].0) == NoiseSourceChild
    requires GeometryEntries(raw).value[j].1.entries[c].1.VStr?
    requires Unmatched(Keypaths(raw), GeometryEntries(raw).value[j].1.entries[c].1.s)
    ensures MissingSpecies(GeometryEntries(raw).value[j].0 + "." + GeometryEntries(raw).value[j].1.entries[c].0)
      in ValidGeometry(raw).value
  {
    var kps := Keypaths(raw);
    var geo := GeometryEntries(raw).value;
    var (k, cv) := geo[j];
    var (ck, nv) := cv.entries[c];
    GeometryKeeps(raw, j);
    ConfigurationKeeps(raw, kps, k, cv);
    ChildKept(raw, kps, k, cv.entries, 0, ConfigTally([], [], []), c);
    NamedEntrySpecies(kps, k + "." + ck, ck, nv);
    assert MissingSpecies(k + "." + ck) in NamedEntry(kps, k + "." + ck, ck, nv).value.msgs;
  }

  // ----- the FRACTION sum on concrete inputs -----

  lemma FractionSumExamples()
    ensures FractionSumCheck([0.5, 0.6]) == [FractionSumMessage]
    ensures FractionSumCheck([0.0]) == [FractionSumMessage]
    ensures FractionSumCheck([0.4, 0.5]) == []
  {
    assert [0.5, 0.6][1..] == [0.6];
    assert [0.4, 0.5][1..] == [0.5];
  }
}
