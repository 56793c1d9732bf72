/**
 * Which defect of a GEOMETRY entry draws which message: an index below one,
 * a FRACTION that is missing or not a number, a name that is not a string,
 * and the tests of a TIMESERIES block. These complement GeometryProps, which
 * states the index lists, the density tests and the SPECIES references.
 */
module GeometryMessages {
  import opened Outcomes
  import opened Strings
  import opened ConfigTree
  import opened Indexing
  import opened GeometrySpec
  import opened GeometryProps
  import opened GeometryCheck

  // ----- indices below one and values that are not a single name -----

  /**
   * An OBJECT or NOISE_SOURCE is reported as an invalid entry exactly when
   * its index is below one, and as "must be a single name" exactly when its
   * value is not a string.
   */
  lemma NamedEntryMessages(kps: seq<string>, name: string, key: string, v: Value)
    requires NamedEntry(kps, name, key, v).Ok?
    ensures InvalidEntry(name) in NamedEntry(kps, name, key, v).value.msgs <==> IndexOf(key).value < 1
    ensures SingleName(name) in NamedEntry(kps, name, key, v).value.msgs <==> !v.VStr?
  {
    var index := IndexOf(key).value;
    var paths := MatchingPaths(kps, "SPECIES", v).value;
    var invalid := if index < 1 then [InvalidEntry(name)] else [];
    var single := if !v.VStr? then [SingleName(name)] else [];
    var species := if paths == [] then [MissingSpecies(name)] else [];
    assert NamedEntry(kps, name, key, v).value.msgs == invalid + single + species;
    assert |InvalidEntry(name)| != |SingleName(name)|;
    assert |InvalidEntry(name)| != |MissingSpecies(name)|;
    assert |SingleName(name)| != |MissingSpecies(name)|;
  }

  /** PlaneEntry, once each of its steps is known to complete. */
  lemma PlaneEntryOk(kps: seq<string>, k: string, ck: string, cv: Value, index: int,
      params: Entries, objects: Tally, density: seq<string>)
    requires IndexOf(ck) == Some(index) && Subscript(cv, "PARAMETERS") == Ok(VMap(params))
    requires ObjectsFrom(kps, k + "." + ck, cv.entries, 0, Tally([], [])) == Ok(objects)
    requires DensityCheck(objects.indices, ObjectsDensity(k + "." + ck)) == Ok(density)
    ensures PlaneEntry(kps, k, ck, cv) == Ok(Indexed(
      (if index < 1 then [InvalidEntry(k + "." + ck)] else []) +
      (if "REDSHIFT" !in Keys(params) then [MissingRedshift(k + "." + ck)] else []) +
      objects.msgs + density,
      index))
  {
  }

  /** A plane whose index is below one is reported as an invalid entry. */
  lemma PlaneIndexReported(kps: seq<string>, k: string, ck: string, cv: Value)
    requires PlaneEntry(kps, k, ck, cv).Ok?
    ensures IndexOf(ck).value < 1 ==> InvalidEntry(k + "." + ck) in PlaneEntry(kps, k, ck, cv).value.msgs
  {
    var name := k + "." + ck;
    var params := Subscript(cv, "PARAMETERS");
    assert params.Ok? && params.value.VMap?;
    var objects := ObjectsFrom(kps, name, cv.entries, 0, Tally([], []));
    assert objects.Ok?;
    var density := DensityCheck(objects.value.indices, ObjectsDensity(name));
    assert density.Ok?;
    PlaneEntryOk(kps, k, ck, cv, IndexOf(ck).value, params.value.entries, objects.value, density.value);
  }

  /**
   * The FRACTION test draws ".FRACTION is missing" exactly when there is no
   * FRACTION and ".FRACTION must be a float" exactly when it is a dictionary,
   * list or None; it contributes the declared fraction, and a message exactly
   * when it contributes none.
   */
  lemma FractionMessages(k: string, es: Entries)
    requires FractionEntry(k, es).Ok?
    ensures FractionMissing(k) in FractionEntry(k, es).value.0 <==> "FRACTION" !in Keys(es)
    ensures FractionNotFloat(k) in FractionEntry(k, es).value.0 <==>
      "FRACTION" in Keys(es) && FloatOf(Get(es, "FRACTION").value).NotConvertible?
    ensures FractionEntry(k, es).value.1 == DeclaredFraction(VMap(es))
    ensures FractionEntry(k, es).value.0 == [] <==> FractionEntry(k, es).value.1 != []
  {
    assert |FractionMissing(k)| != |FractionNotFloat(k)|;
  }

  /**
   * A configuration whose index is below one is reported as an invalid entry,
   * and its FRACTION messages reach the configuration's messages.
   */
  lemma ConfigurationMessages(raw: Entries, kps: seq<string>, k: string, cv: Value)
    requires ConfigurationEntry(raw, kps, k, cv).Ok?
    ensures cv.VMap?
    ensures IndexOf(k).value < 1 ==> InvalidEntry(k) in ConfigurationEntry(raw, kps, k, cv).value.msgs
    ensures "FRACTION" !in Keys(cv.entries) ==> FractionMissing(k) in ConfigurationEntry(raw, kps, k, cv).value.msgs
    ensures "FRACTION" in Keys(cv.entries) && FloatOf(Get(cv.entries, "FRACTION").value).NotConvertible? ==>
      FractionNotFloat(k) in ConfigurationEntry(raw, kps, k, cv).value.msgs
  {
    var index := IndexOf(k).value;
    var fraction := FractionEntry(k, cv.entries).value;
    var children := ChildrenFrom(raw, kps, k, cv.entries, 0, ConfigTally([], [], [])).value;
    var planes := DensityCheck(children.planes, PlanesDensity(k)).value;
    var noise := OptionalDensityCheck(children.noise, NoiseDensity(k));
    ConfigurationEntryOk(raw, kps, k, cv, index, fraction, children, planes, noise);
    FractionMessages(k, cv.entries);
  }

  /**
   * A configuration with no entries aborts at `max` of its empty PLANE list,
   * so its "must have at least one PLANE" message is never seen.
   */
  lemma EmptyConfigurationAborts(raw: Entries, kps: seq<string>, k: string)
    ensures ConfigurationEntry(raw, kps, k, VMap([])).Crash?
  {
    var empty := ConfigTally([], [], []);
    assert ChildrenFrom(raw, kps, k, [], 0, empty) == Ok(empty);
  }

  /**
   * Indices 0 and 2 pass the density test (two indices, largest 2), so an
   * index below one is reported only by its own invalid-entry message.
   */
  lemma ZeroIndexPassesDensity()
    ensures IndexOf("PLANE_0") == Some(0) && IndexOf("PLANE_-1") == Some(-1)
    ensures DensityCheck([0, 2], PlanesDensity("CONFIGURATION_1")) == Ok([])
  {
    PlaneZeroIndex();
    PlaneMinusOneIndex();
    assert Max([0, 2]) == 2;
  }

  lemma PlaneZeroIndex()
    ensures IndexOf("PLANE_0") == Some(0)
  {
    SingleDigitIndex("PLANE_0", '0');
  }

  /** `int("-1")` is -1. */
  lemma PlaneMinusOneIndex()
    ensures IndexOf("PLANE_-1") == Some(-1)
  {
    assert LastSegment("PLANE_-1") == "-1";
    assert "-1"[1..] == "1";
  }

  /**
   * PLANE_1 and PLANE_01 both have index 1, and the indices 1, 1 and 3 pass
   * the density test (three indices, largest 3) though 2 is missing: the
   * test is exact only for distinct indices.
   */
  lemma DuplicateIndexPassesDensity()
    ensures IndexOf("PLANE_1") == Some(1) && IndexOf("PLANE_01") == Some(1) && IndexOf("PLANE_3") == Some(3)
    ensures DensityCheck([1, 1, 3], PlanesDensity("CONFIGURATION_1")) == Ok([])
  {
    PlaneOneIndex();
    PlaneThreeIndex();
    LeadingZeroIndex();
    RepeatedIndicesDense();
  }

  lemma PlaneOneIndex()
    ensures IndexOf("PLANE_1") == Some(1)
  {
    SingleDigitIndex("PLANE_1", '1');
  }

  lemma PlaneThreeIndex()
    ensures IndexOf("PLANE_3") == Some(3)
  {
    SingleDigitIndex("PLANE_3", '3');
  }

  /** Three indices whose largest is 3 pass, whatever they repeat. */
  lemma RepeatedIndicesDense()
    ensures DensityCheck([1, 1, 3], PlanesDensity("CONFIGURATION_1")) == Ok([])
  {
    assert Max([1, 1, 3]) == 3;
  }

  /** A plane key ending in `_` and one digit has that digit as its index. */
  lemma SingleDigitIndex(key: string, d: char)
    requires |key| == 7 && key[..6] == "PLANE_" && key[6] == d && '0' <= d <= '9'
    ensures IndexOf(key) == Some((d - '0') as int)
  {
    assert key[..|key| - 1] == "PLANE_";
    assert LastSegment(key[..|key| - 1]) == [];
    assert LastSegment(key) == [d];
    assert [d][..0] == [];
    assert AllDigits([d]) && DigitsValue([d]) == (d - '0') as nat;
  }

  /** PLANE_01 has index 1: `int("01")` is 1. */
  lemma LeadingZeroIndex()
    ensures IndexOf("PLANE_01") == Some(1)
  {
    assert LastSegment("PLANE_01") == "01";
    assert "01"[..1] == "0" && "0"[..0] == [];
    assert AllDigits("01");
    assert DigitsValue("0") == 0;
    assert DigitsValue("01") == 1;
  }

  // ----- TIMESERIES -----

  /** No keypath of configuration `k` contains `.name.`. */
  predicate Unplaced(kps: seq<string>, k: string, name: string) {
    forall x :: x in kps && StartsWith(x, "GEOMETRY." + k + ".") ==> !Contains(x, "." + name + ".")
  }

  /**
   * A name listed under TIMESERIES.OBJECTS, when its test completes, is a
   * string; it draws its "missing from the SPECIES section" message when no
   * SPECIES keypath mentions it, and its "missing from GEOMETRY.<k>" message
   * when no keypath of the configuration mentions it. When some SPECIES
   * keypath mentions it, the first such keypath leads to a dictionary (any
   * other value aborts the check), and the MODEL message is drawn when that
   * dictionary has no MODEL.
   */
  lemma TimeseriesObjectMessages(raw: Entries, kps: seq<string>, k: string, obj: Value)
    requires TimeseriesObject(raw, kps, k, obj).Ok?
    ensures obj.VStr?
    ensures Unmatched(kps, obj.s) ==> TimeseriesNoSpecies(obj.s, k) in TimeseriesObject(raw, kps, k, obj).value
    ensures Unplaced(kps, k, obj.s) ==> TimeseriesNotInConfiguration(obj.s, k) in TimeseriesObject(raw, kps, k, obj).value
    ensures !Unmatched(kps, obj.s) ==>
      var first := Lookup(VMap(raw), Split(MatchingPaths(kps, "SPECIES", obj).value[0], '.'));
      first.Found? && first.node.VMap? &&
      ("MODEL" !in Keys(first.node.entries) ==> TimeseriesNoModel(obj.s, k) in TimeseriesObject(raw, kps, k, obj).value)
  {
    var species := MatchingPaths(kps, "SPECIES", obj).value;
    var model := SpeciesModel(raw, species, obj.s, k).value;
    var inConfig := MatchingPaths(kps, "GEOMETRY." + k + ".", obj).value;
    var placed := if inConfig == [] then [TimeseriesNotInConfiguration(obj.s, k)] else [];
    assert TimeseriesObject(raw, kps, k, obj).value == model + placed;
    if species != [] {
      assert species[0] in species;
    }
    if inConfig != [] {
      assert inConfig[0] in inConfig;
    }
    if !Unmatched(kps, obj.s) {
      var x :| x in kps && StartsWith(x, "SPECIES") && Contains(x, "." + obj.s + ".");
      assert x in species;
    }
  }

  lemma TimeseriesObjectsUnfold(raw: Entries, kps: seq<string>, k: string, items: seq<Value>, i: nat, acc: seq<string>)
    requires i < |items|
    requires TimeseriesObjectsFrom(raw, kps, k, items, i, acc).Ok?
    ensures TimeseriesObject(raw, kps, k, items[i]).Ok?
    ensures TimeseriesObjectsFrom(raw, kps, k, items, i, acc) ==
      TimeseriesObjectsFrom(raw, kps, k, items, i + 1, acc + TimeseriesObject(raw, kps, k, items[i]).value)
  {
  }

  /** The TIMESERIES.OBJECTS loop only appends. */
  lemma {:induction false} TimeseriesObjectsGrow(raw: Entries, kps: seq<string>, k: string, items: seq<Value>, i: nat, acc: seq<string>)
    requires i <= |items|
    requires TimeseriesObjectsFrom(raw, kps, k, items, i, acc).Ok?
    ensures acc <= TimeseriesObjectsFrom(raw, kps, k, items, i, acc).value
    decreases |items| - i
  {
    if i < |items| {
      TimeseriesObjectsUnfold(raw, kps, k, items, i, acc);
      var ms := TimeseriesObject(raw, kps, k, items[i]).value;
      TimeseriesObjectsGrow(raw, kps, k, items, i + 1, acc + ms);
      AppendKept(acc, ms);
      PrefixTrans(acc, acc + ms, TimeseriesObjectsFrom(raw, kps, k, items, i, acc).value);
    }
  }

  /** The messages of the name at position `j` are kept by the TIMESERIES.OBJECTS loop. */
  lemma {:induction false} TimeseriesObjectKept(raw: Entries, kps: seq<string>, k: string, items: seq<Value>, i: nat, acc: seq<string>, j: nat)
    requires i <= j < |items|
    requires TimeseriesObjectsFrom(raw, kps, k, items, i, acc).Ok?
    ensures TimeseriesObject(raw, kps, k, items[j]).Ok?
    ensures Kept(TimeseriesObject(raw, kps, k, items[j]).value, TimeseriesObjectsFrom(raw, kps, k, items, i, acc).value)
    decreases |items| - i
  {
    TimeseriesObjectsUnfold(raw, kps, k, items, i, acc);
    var ms := TimeseriesObject(raw, kps, k, items[i]).value;
    if j == i {
      AppendKept(acc, ms);
      TimeseriesObjectsGrow(raw, kps, k, items, i + 1, acc + ms);
      KeptTrans(ms, acc + ms, TimeseriesObjectsFrom(raw, kps, k, items, i, acc).value);
    } else {
      TimeseriesObjectKept(raw, kps, k, items, i + 1, acc + ms, j);
    }
  }

  /** The NITES entry at `j` is the first one, from `i` on, that `float()` does not convert. */
  predicate FirstUnconverted(nites: seq<Value>, i: nat, j: nat) {
    i <= j < |nites| && !FloatOf(nites[j]).Converted? &&
    forall l :: i <= l < j ==> FloatOf(nites[l]).Converted?
  }

  /**
   * The NITES test draws nothing exactly when every entry converts; otherwise
   * the first entry that does not convert decides: a dictionary, list or
   * None draws the message, a non-numeric string aborts the check.
   */
  lemma {:induction false} NitesReport(k: string, nites: seq<Value>, i: nat)
    requires i <= |nites|
    ensures NitesFrom(k, nites, i) == Ok([]) <==> forall l :: i <= l < |nites| ==> FloatOf(nites[l]).Converted?
    ensures forall j: nat :: FirstUnconverted(nites, i, j) ==>
      NitesFrom(k, nites, i) == if FloatOf(nites[j]).NotConvertible? then Ok([NitesNotNumeric(k)]) else Crash
    decreases |nites| - i
  {
    if i < |nites| {
      NitesReport(k, nites, i + 1);
      if FloatOf(nites[i]).Converted? {
        assert NitesFrom(k, nites, i) == NitesFrom(k, nites, i + 1);
        forall j | FirstUnconverted(nites, i, j)
          ensures FirstUnconverted(nites, i + 1, j)
        {
        }
      } else {
        forall j | FirstUnconverted(nites, i, j)
          ensures j == i
        {
        }
      }
    }
  }

  /**
   * A completed TIMESERIES block is a dictionary. A missing OBJECTS or NITES
   * draws its "is missing the ... parameter" message and one that is not a
   * list its "must be a list" message; every listed name is a string whose
   * messages are kept; and when NITES is a list, its first entry that does
   * not convert is a dictionary, list or None and draws the "must be
   * numeric" message.
   */
  lemma TimeseriesReport(raw: Entries, kps: seq<string>, k: string, cv: Value)
    requires TimeseriesEntry(raw, kps, k, cv).Ok?
    ensures cv.VMap?
    ensures Get(cv.entries, "OBJECTS").None? ==> TimeseriesMissing(k, "OBJECTS") in TimeseriesEntry(raw, kps, k, cv).value
    ensures Get(cv.entries, "OBJECTS").Some? && !Get(cv.entries, "OBJECTS").value.VList? ==>
      TimeseriesNotList(k, "OBJECTS") in TimeseriesEntry(raw, kps, k, cv).value
    ensures Get(cv.entries, "NITES").None? ==> TimeseriesMissing(k, "NITES") in TimeseriesEntry(raw, kps, k, cv).value
    ensures Get(cv.entries, "NITES").Some? && !Get(cv.entries, "NITES").value.VList? ==>
      TimeseriesNotList(k, "NITES") in TimeseriesEntry(raw, kps, k, cv).value
    ensures Get(cv.entries, "OBJECTS").Some? && Get(cv.entries, "OBJECTS").value.VList? ==>
      forall j :: 0 <= j < |Get(cv.entries, "OBJECTS").value.items| ==>
        TimeseriesObject(raw, kps, k, Get(cv.entries, "OBJECTS").value.items[j]).Ok? &&
        Get(cv.entries, "OBJECTS").value.items[j].VStr? &&
        Kept(TimeseriesObject(raw, kps, k, Get(cv.entries, "OBJECTS").value.items[j]).value, TimeseriesEntry(raw, kps, k, cv).value)
    ensures Get(cv.entries, "NITES").Some? && Get(cv.entries, "NITES").value.VList? ==>
      forall j: nat :: FirstUnconverted(Get(cv.entries, "NITES").value.items, 0, j) ==>
        FloatOf(Get(cv.entries, "NITES").value.items[j]).NotConvertible? &&
        NitesNotNumeric(k) in TimeseriesEntry(raw, kps, k, cv).value
  {
    var objects :=
      match Get(cv.entries, "OBJECTS")
      case None => Ok([TimeseriesMissing(k, "OBJECTS")])
      case Some(VList(items)) => TimeseriesObjectsFrom(raw, kps, k, items, 0, [])
      case Some(_) => Ok([TimeseriesNotList(k, "OBJECTS")]);
    var nites :=
      match Get(cv.entries, "NITES")
      case None => Ok([TimeseriesMissing(k, "NITES")])
      case Some(VList(items)) => NitesFrom(k, items, 0)
      case Some(_) => Ok([TimeseriesNotList(k, "NITES")]);
    var r := TimeseriesEntry(raw, kps, k, cv).value;
    assert objects.Ok? && nites.Ok? && r == objects.value + nites.value;
    AppendKept(objects.value, nites.value);
    match Get(cv.entries, "OBJECTS") {
      case Some(VList(items)) =>
        forall j | 0 <= j < |items|
          ensures TimeseriesObject(raw, kps, k, items[j]).Ok? && items[j].VStr?
          ensures Kept(TimeseriesObject(raw, kps, k, items[j]).value, r)
        {
          TimeseriesObjectKept(raw, kps, k, items, 0, [], j);
          TimeseriesObjectMessages(raw, kps, k, items[j]);
          PrefixKept(objects.value, r);
        }
      case _ =>
    }
    match Get(cv.entries, "NITES") {
      case Some(VList(items)) => NitesReport(k, items, 0);
      case _ =>
    }
  }

  /** SPECIES {LENS: {NAME: LENS, MODEL: ia}}, as the only section. */
  const LensSpecies: Entries :=
    [("SPECIES", VMap([("LENS", VMap([("NAME", VStr("LENS")), ("MODEL", VStr("ia"))]))]))]

  lemma LensSpeciesKeypaths()
    ensures Keypaths(LensSpecies) == ["SPECIES", "SPECIES.LENS", "SPECIES.LENS.NAME", "SPECIES.LENS.MODEL"]
  {
    var lens := VMap([("NAME", VStr("LENS")), ("MODEL", VStr("ia"))]);
    var species := VMap([("LENS", lens)]);
    assert KeypathsFrom(lens, 1) == ["MODEL"];
    assert KeypathsFrom(lens, 0) == ["NAME", "MODEL"];
    var inLens := Prefixed("LENS.", ["NAME", "MODEL"]);
    assert inLens[0] == "LENS.NAME" && inLens[1] == "LENS.MODEL";
    assert inLens == ["LENS.NAME", "LENS.MODEL"];
    assert "LENS" + "." == "LENS." && "SPECIES" + "." == "SPECIES.";
    assert KeypathsFrom(species, 1) == [];
    assert KeypathsFrom(species, 0) == ["LENS"] + Prefixed("LENS" + ".", KeypathsFrom(lens, 0)) + KeypathsFrom(species, 1);
    assert KeypathsFrom(species, 0) == ["LENS", "LENS.NAME", "LENS.MODEL"];
    var inSpecies := Prefixed("SPECIES.", ["LENS", "LENS.NAME", "LENS.MODEL"]);
    assert inSpecies[0] == "SPECIES.LENS" && inSpecies[1] == "SPECIES.LENS.NAME" && inSpecies[2] == "SPECIES.LENS.MODEL";
    assert inSpecies == ["SPECIES.LENS", "SPECIES.LENS.NAME", "SPECIES.LENS.MODEL"];
    assert KeypathsFrom(VMap(LensSpecies), 1) == [];
    assert KeypathsFrom(VMap(LensSpecies), 0) ==
      ["SPECIES"] + Prefixed("SPECIES" + ".", KeypathsFrom(species, 0)) + KeypathsFrom(VMap(LensSpecies), 1);
  }

  /** A word that opens with a dot is not found where every offset it fits at is dot-free. */
  lemma DotWordAbsent(s: string, w: string, n: nat)
    requires w != [] && w[0] == '.'
    requires n <= |s| && '.' !in s[..n] && |s| - |w| < n
    ensures !Contains(s, w)
  {
    ContainsAt(s, w);
    forall i | 0 <= i <= |s|
      ensures !StartsWith(s[i..], w)
    {
      if i + |w| <= |s| {
        assert s[..n][i] == s[i];
        assert s[i..][..|w|][0] == s[i];
      }
    }
  }

  /** A keypath outside the prefix, or not naming the species, is skipped. */
  lemma MatchSkip(kps: seq<string>, prefix: string, name: string)
    requires kps != [] && !(StartsWith(kps[0], prefix) && Contains(kps[0], "." + name + "."))
    ensures MatchingPaths(kps, prefix, VStr(name)) == MatchingPaths(kps[1..], prefix, VStr(name))
  {
  }

  /** A keypath under the prefix that names the species is kept, ahead of the rest. */
  lemma MatchTake(kps: seq<string>, prefix: string, name: string)
    requires kps != [] && StartsWith(kps[0], prefix) && Contains(kps[0], "." + name + ".")
    ensures MatchingPaths(kps, prefix, VStr(name)).Ok?
    ensures MatchingPaths(kps, prefix, VStr(name)).value
      == [kps[0]] + MatchingPaths(kps[1..], prefix, VStr(name)).value
  {
  }

  /** SPECIES has no `.LENS.` in it. */
  lemma SpeciesPathLacks(s: string, w: string)
    requires s == "SPECIES" && w == ".LENS."
    ensures !Contains(s, w)
  {
    DotWordAbsent(s, w, 7);
  }

  /** SPECIES.LENS has no `.LENS.` in it: the one dot is too near the end. */
  lemma LensPathLacks(s: string, w: string)
    requires s == "SPECIES.LENS" && w == ".LENS."
    ensures !Contains(s, w)
  {
    assert s[..7] == "SPECIES";
    DotWordAbsent(s, w, 7);
  }

  /** SPECIES.LENS.NAME has `.LENS.` at offset 7. */
  lemma NamePathHas(s: string, w: string)
    requires s == "SPECIES.LENS.NAME" && w == ".LENS."
    ensures Contains(s, w)
  {
    ContainsAt(s, w);
    assert StartsWith(s[7..], w);
  }

  /** When the first two keypaths miss and the third matches, the third is found first. */
  lemma ThirdMatchesFirst(kps: seq<string>, prefix: string, name: string)
    requires |kps| >= 3
    requires !Contains(kps[0], "." + name + ".") && !Contains(kps[1], "." + name + ".")
    requires StartsWith(kps[2], prefix) && Contains(kps[2], "." + name + ".")
    ensures var found := MatchingPaths(kps, prefix, VStr(name));
      found.Ok? && found.value != [] && found.value[0] == kps[2]
  {
    MatchSkip(kps, prefix, name);
    assert kps[1..][1..] == kps[2..];
    MatchSkip(kps[1..], prefix, name);
    MatchTake(kps[2..], prefix, name);
  }

  /** The first match of LENS over the LensSpecies keypaths, given as a list. */
  lemma LensFirstMatchOf(kps: seq<string>, name: string)
    requires |kps| >= 3 && kps[0] == "SPECIES" && kps[1] == "SPECIES.LENS" && kps[2] == "SPECIES.LENS.NAME"
    requires name == "LENS"
    ensures var found := MatchingPaths(kps, "SPECIES", VStr(name));
      found.Ok? && found.value != [] && found.value[0] == kps[2]
  {
    var w := "." + name + ".";
    assert w == ".LENS.";
    SpeciesPathLacks(kps[0], w);
    LensPathLacks(kps[1], w);
    NamePathHas(kps[2], w);
    assert StartsWith(kps[2], "SPECIES");
    ThirdMatchesFirst(kps, "SPECIES", name);
  }

  /** Of those keypaths, SPECIES.LENS.NAME is the first to contain `.LENS.`. */
  lemma LensSpeciesFirstMatch()
    ensures var found := MatchingPaths(Keypaths(LensSpecies), "SPECIES", VStr("LENS"));
      found.Ok? && found.value != [] && found.value[0] == "SPECIES.LENS.NAME"
  {
    LensSpeciesKeypaths();
    LensFirstMatchOf(Keypaths(LensSpecies), "LENS");
  }

  /** A listed object whose first SPECIES keypath does not lead to a dictionary aborts the check. */
  lemma SpeciesPathAborts(raw: Entries, kps: seq<string>, k: string, name: string)
    requires var species := MatchingPaths(kps, "SPECIES", VStr(name)).value;
      species != [] && !(Lookup(VMap(raw), Split(species[0], '.')).Found? &&
        Lookup(VMap(raw), Split(species[0], '.')).node.VMap?)
    ensures TimeseriesObject(raw, kps, k, VStr(name)) == Crash
  {
  }

  /** Three dot-free pieces joined by dots split back into those pieces. */
  lemma SplitThree(a: string, b: string, c: string)
    requires '.' !in a && '.' !in b && '.' !in c
    ensures Split(a + "." + b + "." + c, '.') == [a, b, c]
  {
    SplitNoSeparator(c, '.');
    SplitAtSeparator(b, '.', c);
    assert a + "." + b + "." + c == a + ['.'] + (b + ['.'] + c);
    SplitAtSeparator(a, '.', b + ['.'] + c);
  }

  /** In LensSpecies, SPECIES.LENS.NAME holds the string LENS. */
  lemma LensNameLookup(raw: Entries, p: string)
    requires raw == LensSpecies && p == "SPECIES.LENS.NAME"
    ensures Lookup(VMap(raw), Split(p, '.')) == Found(VStr("LENS"))
  {
    var a, b, c := "SPECIES", "LENS", "NAME";
    assert a + "." + b + "." + c == p;
    SplitThree(a, b, c);
    var path := [a, b, c];
    assert path[1..] == [b, c] && path[1..][1..] == [c] && path[1..][1..][1..] == [];
    var inner := [("NAME", VStr("LENS")), ("MODEL", VStr("ia"))];
    var mid := [("LENS", VMap(inner))];
    assert raw == [(a, VMap(mid))];
    assert Get(inner, c) == Some(VStr("LENS"));
    assert Lookup(VMap(inner), [c]) == Found(VStr("LENS"));
    assert Get(mid, b) == Some(VMap(inner));
    assert Lookup(VMap(mid), [b, c]) == Found(VStr("LENS"));
    assert Get(raw, a) == Some(VMap(mid));
  }

  /**
   * With keypaths that name keys only, the first SPECIES keypath mentioning
   * a species between dots runs on into one of its fields: for SPECIES
   * {LENS: {NAME: LENS, MODEL: ia}} it is SPECIES.LENS.NAME, whose value is a
   * string, so `.keys()` raises and the listed object aborts the check.
   */
  lemma LeafSpeciesPathAborts()
    ensures TimeseriesObject(LensSpecies, Keypaths(LensSpecies), "CONFIGURATION_1", VStr("LENS")) == Crash
  {
    LensSpeciesFirstMatch();
    LensNameLookup(LensSpecies, MatchingPaths(Keypaths(LensSpecies), "SPECIES", VStr("LENS")).value[0]);
    SpeciesPathAborts(LensSpecies, Keypaths(LensSpecies), "CONFIGURATION_1", "LENS");
  }
}
