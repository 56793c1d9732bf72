/**
 * `check_valid_geometry` as the step-by-step procedure it is: nested loops
 * over configurations, their children, the OBJECTs of each plane and the
 * TIMESERIES lists, appending to a message list and to lists of detected
 * indices and fractions. Each loop is a method proved equal to the fold in
 * GeometrySpec that describes it; returning `Crash` stands for an exception
 * escaping the check.
 */
module GeometryCheck {
  import opened Outcomes
  import opened Strings
  import opened ConfigTree
  import opened Indexing
  import opened GeometrySpec

  /** The body shared by the OBJECT and NOISE_SOURCE branches. */
  method CheckNamedEntry(kps: seq<string>, name: string, key: string, v: Value) returns (r: Result<Indexed>)
    ensures r == NamedEntry(kps, name, key, v)
  {
    var index: int;
    match IndexOf(key) {
      case None => return Crash;
      case Some(n) => index := n;
    }
    var errs: seq<string> := [];
    if index < 1 {
      errs := errs + [InvalidEntry(name)];
    }
    if !v.VStr? {
      errs := errs + [SingleName(name)];
    }
    var species := MatchingPaths(kps, "SPECIES", v);
    if species.Crash? {
      return Crash;
    }
    if species.value == [] {
      errs := errs + [MissingSpecies(name)];
    }
    assert errs == (if index < 1 then [InvalidEntry(name)] else []) +
      (if !v.VStr? then [SingleName(name)] else []) +
      (if species.value == [] then [MissingSpecies(name)] else []);
    return Ok(Indexed(errs, index));
  }

  /** The OBJECT loop of the plane `GEOMETRY.<plane>` with keys `es`. */
  method CheckObjects(kps: seq<string>, plane: string, es: Entries) returns (r: Result<Tally>)
    ensures r == ObjectsFrom(kps, plane, es, 0, Tally([], []))
  {
    var errs: seq<string> := [];
    var detected: seq<int> := [];
    for i := 0 to |es|
      invariant ObjectsFrom(kps, plane, es, 0, Tally([], [])) == ObjectsFrom(kps, plane, es, i, Tally(errs, detected))
    {
      var (objKey, objValue) := es[i];
      if StartsWith(objKey, "OBJECT_") {
        var entry := CheckNamedEntry(kps, plane + "." + objKey, objKey, objValue);
        if entry.Crash? {
          return Crash;
        }
        errs := errs + entry.value.msgs;
        detected := detected + [entry.value.index];
      }
    }
    return Ok(Tally(errs, detected));
  }

  /** The PLANE branch for the child `ck` of configuration `k`. */
  method CheckPlane(kps: seq<string>, k: string, ck: string, cv: Value) returns (r: Result<Indexed>)
    ensures r == PlaneEntry(kps, k, ck, cv)
  {
    var name := k + "." + ck;
    var index: int;
    match IndexOf(ck) {
      case None => return Crash;
      case Some(n) => index := n;
    }
    var errs: seq<string> := [];
    if index < 1 {
      errs := errs + [InvalidEntry(name)];
    }
    var params := Subscript(cv, "PARAMETERS");
    if params.Crash? || !params.value.VMap? {
      return Crash;
    }
    if "REDSHIFT" !in Keys(params.value.entries) {
      errs := errs + [MissingRedshift(name)];
    }
    ghost var checked := errs;
    assert checked == (if index < 1 then [InvalidEntry(name)] else []) +
      (if "REDSHIFT" !in Keys(params.value.entries) then [MissingRedshift(name)] else []);
    var objects := CheckObjects(kps, name, cv.entries);
    if objects.Crash? {
      return Crash;
    }
    errs := errs + objects.value.msgs;
    var detected := objects.value.indices;
    if detected == [] {
      return Crash;
    }
    if |detected| != Max(detected) {
      errs := errs + [ObjectsDensity(name)];
    }
    assert errs == checked + objects.value.msgs + DensityCheck(detected, ObjectsDensity(name)).value;
    return Ok(Indexed(errs, index));
  }

  /** The loop over the names listed under TIMESERIES.OBJECTS of configuration `k`. */
  method CheckTimeseriesObjects(raw: Entries, kps: seq<string>, k: string, items: seq<Value>) returns (r: Outcome)
    ensures r == TimeseriesObjectsFrom(raw, kps, k, items, 0, [])
  {
    var errs: seq<string> := [];
    for i := 0 to |items|
      invariant TimeseriesObjectsFrom(raw, kps, k, items, 0, []) == TimeseriesObjectsFrom(raw, kps, k, items, i, errs)
    {
      var obj := items[i];
      var species := MatchingPaths(kps, "SPECIES", obj);
      if species.Crash? || !obj.VStr? {
        assert TimeseriesObject(raw, kps, k, obj) == Crash;
        return Crash;
      }
      var model: seq<string> := [];
      if species.value == [] {
        model := [TimeseriesNoSpecies(obj.s, k)];
      } else {
        match Lookup(VMap(raw), Split(species.value[0], '.')) {
          case Found(VMap(e)) =>
            if "MODEL" !in Keys(e) {
              model := [TimeseriesNoModel(obj.s, k)];
            }
          case _ =>
            assert SpeciesModel(raw, species.value, obj.s, k) == Crash;
            return Crash;
        }
      }
      assert SpeciesModel(raw, species.value, obj.s, k) == Ok(model);
      var inConfig := MatchingPaths(kps, "GEOMETRY." + k + ".", obj).value;
      var placed: seq<string> := [];
      if inConfig == [] {
        placed := [TimeseriesNotInConfiguration(obj.s, k)];
      }
      assert TimeseriesObject(raw, kps, k, obj) == Ok(model + placed);
      errs := errs + (model + placed);
    }
    return Ok(errs);
  }

  /** The conversion of every listed NITES entry, stopping at the first failure. */
  method CheckNites(k: string, nites: seq<Value>) returns (r: Outcome)
    ensures r == NitesFrom(k, nites, 0)
  {
    for i := 0 to |nites|
      invariant NitesFrom(k, nites, 0) == NitesFrom(k, nites, i)
    {
      match FloatOf(nites[i]) {
        case Converted(_) =>
        case NotConvertible => return Ok([NitesNotNumeric(k)]);
        case Malformed => return Crash;
      }
    }
    return Ok([]);
  }

  /** The TIMESERIES branch of configuration `k`. */
  method CheckTimeseries(raw: Entries, kps: seq<string>, k: string, cv: Value) returns (r: Outcome)
    ensures r == TimeseriesEntry(raw, kps, k, cv)
  {
    if !cv.VMap? {
      return Crash;
    }
    var errs: seq<string> := [];
    ghost var objectPart :=
      match Get(cv.entries, "OBJECTS")
      case None => Ok([TimeseriesMissing(k, "OBJECTS")])
      case Some(VList(items)) => TimeseriesObjectsFrom(raw, kps, k, items, 0, [])
      case Some(_) => Ok([TimeseriesNotList(k, "OBJECTS")]);
    ghost var nitePart :=
      match Get(cv.entries, "NITES")
      case None => Ok([TimeseriesMissing(k, "NITES")])
      case Some(VList(items)) => NitesFrom(k, items, 0)
      case Some(_) => Ok([TimeseriesNotList(k, "NITES")]);
    match Get(cv.entries, "OBJECTS") {
      case None =>
        errs := errs + [TimeseriesMissing(k, "OBJECTS")];
        assert errs == [TimeseriesMissing(k, "OBJECTS")];
      case Some(objects) =>
        if !objects.VList? {
          errs := errs + [TimeseriesNotList(k, "OBJECTS")];
          assert errs == [TimeseriesNotList(k, "OBJECTS")];
        } else {
          var listed := CheckTimeseriesObjects(raw, kps, k, objects.items);
          if listed.Crash? {
            return Crash;
          }
          errs := errs + listed.value;
          assert errs == listed.value;
        }
    }
    assert objectPart == Ok(errs);
    match Get(cv.entries, "NITES") {
      case None =>
        errs := errs + [TimeseriesMissing(k, "NITES")];
      case Some(nites) =>
        if !nites.VList? {
          errs := errs + [TimeseriesNotList(k, "NITES")];
        } else {
          var numeric := CheckNites(k, nites.items);
          if numeric.Crash? {
            return Crash;
          }
          errs := errs + numeric.value;
        }
    }
    assert errs == objectPart.value + nitePart.value;
    return Ok(errs);
  }

  /** The loop over the children `es` of configuration `k`. */
  method CheckChildren(raw: Entries, kps: seq<string>, k: string, es: Entries) returns (r: Result<ConfigTally>)
    ensures r == ChildrenFrom(raw, kps, k, es, 0, ConfigTally([], [], []))
  {
    var errs: seq<string> := [];
    var planes: seq<int> := [];
    var noise: seq<int> := [];
    for i := 0 to |es|
      invariant ChildrenFrom(raw, kps, k, es, 0, ConfigTally([], [], [])) ==
        ChildrenFrom(raw, kps, k, es, i, ConfigTally(errs, planes, noise))
    {
      ghost var acc := ConfigTally(errs, planes, noise);
      var (ck, cv) := es[i];
      if StartsWith(ck, "PLANE_") {
        var plane := CheckPlane(kps, k, ck, cv);
        if plane.Crash? {
          assert ChildStep(raw, kps, k, es[i], acc) == Crash;
          return Crash;
        }
        errs := errs + plane.value.msgs;
        planes := planes + [plane.value.index];
      } else if StartsWith(ck, "NOISE_SOURCE_") {
        var source := CheckNamedEntry(kps, k + "." + ck, ck, cv);
        if source.Crash? {
          assert ChildStep(raw, kps, k, es[i], acc) == Crash;
          return Crash;
        }
        errs := errs + source.value.msgs;
        noise := noise + [source.value.index];
      } else if ck == "TIMESERIES" {
        var series := CheckTimeseries(raw, kps, k, cv);
        if series.Crash? {
          assert ChildStep(raw, kps, k, es[i], acc) == Crash;
          return Crash;
        }
        errs := errs + series.value;
      } else if ck != "FRACTION" {
        errs := errs + [NotValidEntry(k + "." + ck)];
      }
      assert ChildStep(raw, kps, k, es[i], acc) == Ok(ConfigTally(errs, planes, noise));
    }
    return Ok(ConfigTally(errs, planes, noise));
  }

  /** The FRACTION test of configuration `k`, whose entries are `es`. */
  method CheckFraction(k: string, es: Entries) returns (r: Result<(seq<string>, seq<real>)>)
    ensures r == FractionEntry(k, es)
  {
    match Get(es, "FRACTION") {
      case None =>
        return Ok(([FractionMissing(k)], []));
      case Some(f) =>
        match FloatOf(f) {
          case Converted(x) => return Ok(([], [x]));
          case NotConvertible => return Ok(([FractionNotFloat(k)], []));
          case Malformed => return Crash;
        }
    }
  }

  /** The body of the configuration loop for the key `k` with configuration `cv`. */
  method CheckConfiguration(raw: Entries, kps: seq<string>, k: string, cv: Value) returns (r: Result<ConfigReport>)
    ensures r == ConfigurationEntry(raw, kps, k, cv)
  {
    ConfigurationCompletes(raw, kps, k, cv);
    var errs: seq<string> := [];
    var fractions: seq<real>;
    if !StartsWith(k, "CONFIGURATION_") {
      errs := errs + [InvalidEntry(k)];
    }
    var index: int;
    match IndexOf(k) {
      case None => return Crash;
      case Some(n) => index := n;
    }
    if index < 1 {
      errs := errs + [InvalidEntry(k)];
    }
    if !cv.VMap? {
      return Crash;
    }
    ghost var named := errs;
    assert named == (if !StartsWith(k, "CONFIGURATION_") then [InvalidEntry(k)] else []) +
      (if index < 1 then [InvalidEntry(k)] else []);
    var fraction := CheckFraction(k, cv.entries);
    if fraction.Crash? {
      return Crash;
    }
    errs := errs + fraction.value.0;
    fractions := fraction.value.1;
    if |cv.entries| == 0 {
      errs := errs + [NoPlane(k)];
    }
    ghost var preamble := errs;
    assert preamble == named + fraction.value.0 + (if |cv.entries| == 0 then [NoPlane(k)] else []);
    var children := CheckChildren(raw, kps, k, cv.entries);
    if children.Crash? {
      return Crash;
    }
    errs := errs + children.value.msgs;
    var planes := children.value.planes;
    if planes == [] {
      return Crash;
    }
    var planesDensity: seq<string> := [];
    if |planes| != Max(planes) {
      planesDensity := [PlanesDensity(k)];
    }
    errs := errs + planesDensity;
    var noise := children.value.noise;
    var noiseDensity: seq<string> := [];
    if noise != [] && |noise| != Max(noise) {
      noiseDensity := [NoiseDensity(k)];
    }
    errs := errs + noiseDensity;
    assert DensityCheck(planes, PlanesDensity(k)) == Ok(planesDensity);
    assert OptionalDensityCheck(noise, NoiseDensity(k)) == noiseDensity;
    assert errs == preamble + children.value.msgs + planesDensity + noiseDensity;
    ConfigurationEntryOk(raw, kps, k, cv, index, fraction.value, children.value, planesDensity, noiseDensity);
    return Ok(ConfigReport(errs, index, fractions));
  }

  /**
   * A configuration completes exactly when its key has an integer index, it
   * is a dictionary, its FRACTION test and child loop complete, and it has at
   * least one PLANE. Noise sources are not needed.
   */
  lemma ConfigurationCompletes(raw: Entries, kps: seq<string>, k: string, cv: Value)
    ensures ConfigurationEntry(raw, kps, k, cv).Ok? <==>
      IndexOf(k).Some? && cv.VMap? && FractionEntry(k, cv.entries).Ok? &&
      ChildrenFrom(raw, kps, k, cv.entries, 0, ConfigTally([], [], [])).Ok? &&
      ChildrenFrom(raw, kps, k, cv.entries, 0, ConfigTally([], [], [])).value.planes != []
  {
  }

  /** ConfigurationEntry when every step of it succeeds, given the result of each step. */
  lemma ConfigurationEntryOk(raw: Entries, kps: seq<string>, k: string, cv: Value, index: int,
      fraction: (seq<string>, seq<real>), children: ConfigTally, planes: seq<string>, noise: seq<string>)
    requires IndexOf(k) == Some(index) && cv.VMap?
    requires FractionEntry(k, cv.entries) == Ok(fraction)
    requires ChildrenFrom(raw, kps, k, cv.entries, 0, ConfigTally([], [], [])) == Ok(children)
    requires DensityCheck(children.planes, PlanesDensity(k)) == Ok(planes)
    requires OptionalDensityCheck(children.noise, NoiseDensity(k)) == noise
    ensures ConfigurationEntry(raw, kps, k, cv) == Ok(ConfigReport(
      (if !StartsWith(k, "CONFIGURATION_") then [InvalidEntry(k)] else []) +
      (if index < 1 then [InvalidEntry(k)] else []) +
      fraction.0 +
      (if |cv.entries| == 0 then [NoPlane(k)] else []) +
      children.msgs + planes + noise,
      index,
      fraction.1))
  {
  }

  /** The loop over the configurations `geo`, starting from the messages `head`. */
  method CheckConfigurations(raw: Entries, kps: seq<string>, geo: Entries, head: seq<string>) returns (r: Result<GeometryTally>)
    ensures r == ConfigurationsFrom(raw, kps, geo, 0, GeometryTally(head, [], []))
  {
    var errs := head;
    var configs: seq<int> := [];
    var fractions: seq<real> := [];
    for i := 0 to |geo|
      invariant ConfigurationsFrom(raw, kps, geo, 0, GeometryTally(head, [], [])) ==
        ConfigurationsFrom(raw, kps, geo, i, GeometryTally(errs, configs, fractions))
    {
      var (k, cv) := geo[i];
      var c := CheckConfiguration(raw, kps, k, cv);
      if c.Crash? {
        return Crash;
      }
      errs := errs + c.value.msgs;
      configs := configs + [c.value.index];
      fractions := fractions + c.value.fractions;
    }
    return Ok(GeometryTally(errs, configs, fractions));
  }

  /** `check_valid_geometry`. */
  method CheckValidGeometry(raw: Entries) returns (r: Outcome)
    ensures r == ValidGeometry(raw)
  {
    var geometry := Subscript(VMap(raw), "GEOMETRY");
    if geometry.Crash? || !geometry.value.VMap? {
      return Crash;
    }
    var geo := geometry.value.entries;
    var errs: seq<string> := [];
    if |geo| == 0 {
      errs := errs + [NoConfiguration];
    }
    assert errs == if |geo| == 0 then [NoConfiguration] else [];
    var tally := CheckConfigurations(raw, Keypaths(raw), geo, errs);
    if tally.Crash? {
      return Crash;
    }
    errs := tally.value.msgs;
    var configs := tally.value.configs;
    if configs == [] {
      return Crash;
    }
    if |configs| != Max(configs) {
      errs := errs + [ConfigurationsDensity];
    }
    ghost var counted := errs;
    assert counted == tally.value.msgs + DensityCheck(configs, ConfigurationsDensity).value;
    if !(0.0 < Sum(tally.value.fractions) <= 1.0) {
      errs := errs + [FractionSumMessage];
    }
    assert errs == counted + FractionSumCheck(tally.value.fractions);
    assert ValidGeometry(raw) == Ok(errs);
    return Ok(errs);
  }
}
