/**
 * What `check_valid_geometry` computes, stated as functions over the
 * as-authored configuration. The GEOMETRY section maps CONFIGURATION_<n>
 * keys to configurations; a configuration holds a FRACTION, PLANE_<n>
 * dictionaries (each with PARAMETERS and OBJECT_<n> names), NOISE_SOURCE_<n>
 * names and an optional TIMESERIES block. The check walks that tree in key
 * order and appends a message for every defect it finds.
 *
 * Each loop of the check is described by a fold over the entries it walks,
 * carrying what the loop accumulates (messages and detected indices); the
 * methods in GeometryCheck are proved equal to these folds.
 *
 * Where the code as written cannot run or evidently does something other than
 * what was meant, these definitions follow the intended behaviour (see
 * Findings for the code as written):
 *  - the `+` missing before `" .FRACTION ..."` is supplied, the text kept;
 *  - `'REDSHIFT' not in config_k in ...` is read as a test of the plane's
 *    PARAMETERS keys;
 *  - a NOISE_SOURCE index is read from its own key, not from `obj_k`;
 *  - the FRACTION entry of a configuration is not a child to classify;
 *  - NOISE_SOURCE indices are gathered per configuration;
 *  - the MODEL lookup calls the instance's own lookup helper.
 */
module GeometrySpec {
  import opened Outcomes
  import opened Strings
  import opened ConfigTree
  import opened Indexing

  // ----- messages, with the source's own spelling and spacing -----

  function InvalidEntry(name: string): string { "GEOMETRY." + name + " is an invalid Config File entry" }
  function FractionMissing(k: string): string { "GEOMETRY." + k + " .FRACTION is missing" }
  function FractionNotFloat(k: string): string { "GEOMETRY." + k + " .FRACTION must be a float" }
  function NoPlane(k: string): string { "CEOMETRY." + k + " must have at least one PLANE" }
  function MissingRedshift(name: string): string { "REDSHIFT is missing from GEOMETRY." + name }
  function SingleName(name: string): string { "GEOMETRY." + name + " must be a single name" }
  function MissingSpecies(name: string): string { "GEOMETRY." + name + " is missing from the SPECIES section" }
  function ObjectsDensity(name: string): string {
    "OBJECTs in the GEOMETRY." + name + " section must be indexed as 1, 2, 3, ..."
  }
  function TimeseriesMissing(k: string, param: string): string {
    "GEOMETRY." + k + ".TIMESERIES is missing the " + param + " parameter"
  }
  function TimeseriesNotList(k: string, param: string): string {
    "GEOMETRY." + k + ".TIMESERIES." + param + " must be a list"
  }
  function TimeseriesNoSpecies(obj: string, k: string): string {
    obj + "in GEOMETRY." + k + ".TIMESERIES.OBJECTS is missing from the SPECIES section"
  }
  function TimeseriesNoModel(obj: string, k: string): string {
    "MODEL for " + obj + " in GEOMETRY." + k + ".TIMESERIES.OBJECTS is missing from the SPECIES section"
  }
  function TimeseriesNotInConfiguration(obj: string, k: string): string {
    obj + " in GEOMETRY." + k + ".TIMESERIES.OBJECTS is missing from GEOMETRY." + k
  }
  function NitesNotNumeric(k: string): string {
    "Listed NITES in GEOMETRY." + k + ".TIMESERIES.NITES must be numeric"
  }
  function NotValidEntry(name: string): string { "GEOMETRY." + name + " is not a valid entry" }
  function PlanesDensity(k: string): string {
    "PLANEs in the GEOMETRY." + k + " section must be indexed as 1, 2, 3, ..."
  }
  function NoiseDensity(k: string): string {
    "NOISE_SOURCEs in the GEOMETRY." + k + " section must be indexed as 1, 2, 3, ..."
  }
  const NoConfiguration: string := "GEOMETRY sections needs at least one CONFIGURATION"
  const ConfigurationsDensity: string := "CONFIGURATIONs in the GEOMETRY section must be indexed as 1, 2, 3, ..."
  // Spelled in four pieces so that the verifier can inspect its letters.
  const FractionSumMessage: string :=
    "CONFIGURATION FR" + "ACTIONs must sum" + " to a number bet" + "ween 0.0 and 1.0"

  // ----- helpers -----

  /**
   * `int(key.split('_')[-1])`. A suffix that is not an integer raises
   * ValueError, which the check does not catch (it catches only TypeError,
   * which `int` of a string never raises).
   */
  function IndexOf(key: string): Option<int> {
    ParseInt(LastSegment(key))
  }

  /**
   * `[x for x in keypaths if x.startswith(prefix) and x.find('.' + name + '.') != -1]`.
   * Building `'.' + name + '.'` raises TypeError when `name` is not a string,
   * but only once some keypath passes the `startswith` test.
   */
  function MatchingPaths(kps: seq<string>, prefix: string, name: Value): (r: Result<seq<string>>)
    ensures r.Crash? <==> !name.VStr? && exists x :: x in kps && StartsWith(x, prefix)
    ensures r.Ok? && !name.VStr? ==> r.value == []
    ensures r.Ok? && name.VStr? ==>
      forall x :: x in r.value <==> x in kps && StartsWith(x, prefix) && Contains(x, "." + name.s + ".")
  {
    if kps == [] then Ok([])
    else
      var rest :- MatchingPaths(kps[1..], prefix, name);
      assert forall x :: x in kps <==> x == kps[0] || x in kps[1..];
      if !StartsWith(kps[0], prefix) then Ok(rest)
      else if !name.VStr? then Crash
      else if Contains(kps[0], "." + name.s + ".") then Ok([kps[0]] + rest)
      else Ok(rest)
  }

  /** Python `sum(fractions)`, over exact reals. */
  function Sum(xs: seq<real>): real {
    if xs == [] then 0.0 else xs[0] + Sum(xs[1..])
  }

  /** The closing test of the check: the fractions must sum into (0, 1]. */
  function FractionSumCheck(fractions: seq<real>): (r: seq<string>)
    ensures r == [] || r == [FractionSumMessage]
    ensures r == [] <==> 0.0 < Sum(fractions) <= 1.0
  {
    if !(0.0 < Sum(fractions) <= 1.0) then [FractionSumMessage] else []
  }

  // ----- OBJECT_<n> and NOISE_SOURCE_<n>: an index and a SPECIES name -----

  /** What one indexed, named entry contributes: its messages and its index. */
  datatype Indexed = Indexed(msgs: seq<string>, index: int)

  /**
   * The shared body of the OBJECT and NOISE_SOURCE branches for the entry
   * `GEOMETRY.<name>` whose index is read from `key` and whose value is `v`:
   * the index must be positive, the value a single name, and the name must
   * occur between dots in some SPECIES keypath.
   */
  function NamedEntry(kps: seq<string>, name: string, key: string, v: Value): (r: Result<Indexed>)
    ensures r.Crash? <==>
      IndexOf(key).None? || (!v.VStr? && exists x :: x in kps && StartsWith(x, "SPECIES"))
    ensures r.Ok? ==> r.value.index == IndexOf(key).value
  {
    match IndexOf(key)
    case None => Crash
    case Some(index) =>
      var paths :- MatchingPaths(kps, "SPECIES", v);
      Ok(Indexed(
        (if index < 1 then [InvalidEntry(name)] else []) +
        (if !v.VStr? then [SingleName(name)] else []) +
        (if paths == [] then [MissingSpecies(name)] else []),
        index))
  }

  /** What the OBJECT loop of one plane accumulates. */
  datatype Tally = Tally(msgs: seq<string>, indices: seq<int>)

  /** One key of a plane: OBJECT_<n> keys are checked, any other key is passed over. */
  function ObjectStep(kps: seq<string>, plane: string, entry: (string, Value), acc: Tally): Result<Tally> {
    if !StartsWith(entry.0, "OBJECT_") then Ok(acc)
    else
      var n :- NamedEntry(kps, plane + "." + entry.0, entry.0, entry.1);
      Ok(Tally(acc.msgs + n.msgs, acc.indices + [n.index]))
  }

  /** The OBJECT loop over the keys `es[i..]` of the plane `GEOMETRY.<plane>`. */
  function ObjectsFrom(kps: seq<string>, plane: string, es: Entries, i: nat, acc: Tally): Result<Tally>
    requires i <= |es|
    decreases |es| - i
  {
    if i == |es| then Ok(acc)
    else
      var acc' :- ObjectStep(kps, plane, es[i], acc);
      ObjectsFrom(kps, plane, es, i + 1, acc')
  }

  // ----- PLANE_<n> -----

  /** What the child loop of one configuration accumulates. */
  datatype ConfigTally = ConfigTally(msgs: seq<string>, planes: seq<int>, noise: seq<int>)

  /**
   * The PLANE branch for the child `ck` of configuration `k`: the index, the
   * REDSHIFT among the plane's PARAMETERS (a plane that is not a dictionary or
   * lacks PARAMETERS, or PARAMETERS that are not a dictionary, abort the
   * check), the OBJECT loop and the OBJECT density test (`max` of no indices
   * aborts the check).
   */
  function PlaneEntry(kps: seq<string>, k: string, ck: string, cv: Value): (r: Result<Indexed>)
    ensures r.Ok? ==> IndexOf(ck).Some? && r.value.index == IndexOf(ck).value
    ensures r.Ok? ==> cv.VMap? && "PARAMETERS" in Keys(cv.entries)
  {
    var name := k + "." + ck;
    match IndexOf(ck)
    case None => Crash
    case Some(index) =>
      var params :- Subscript(cv, "PARAMETERS");
      if !params.VMap? then Crash
      else
        var objects :- ObjectsFrom(kps, name, cv.entries, 0, Tally([], []));
        var density :- DensityCheck(objects.indices, ObjectsDensity(name));
        Ok(Indexed(
          (if index < 1 then [InvalidEntry(name)] else []) +
          (if "REDSHIFT" !in Keys(params.entries) then [MissingRedshift(name)] else []) +
          objects.msgs + density,
          index))
  }

  // ----- TIMESERIES -----

  /**
   * One name listed under TIMESERIES.OBJECTS of configuration `k`: it must
   * occur in a SPECIES keypath, the first such species must define a MODEL,
   * and it must occur in a keypath of the configuration itself. A name that is
   * not a string aborts the check, whether at the substring search or when the
   * message is built.
   */
  function TimeseriesObject(raw: Entries, kps: seq<string>, k: string, obj: Value): (r: Result<seq<string>>)
    ensures !obj.VStr? ==> r.Crash?
  {
    var species :- MatchingPaths(kps, "SPECIES", obj);
    if !obj.VStr? then Crash
    else
      var model :- SpeciesModel(raw, species, obj.s, k);
      var inConfig := MatchingPaths(kps, "GEOMETRY." + k + ".", obj).value;
      Ok(model + (if inConfig == [] then [TimeseriesNotInConfiguration(obj.s, k)] else []))
  }

  /**
   * The SPECIES test of the name `name`: `species` are the SPECIES keypaths
   * that mention it; the first of them must lead to a section with a MODEL.
   */
  function SpeciesModel(raw: Entries, species: seq<string>, name: string, k: string): Result<seq<string>> {
    if species == [] then Ok([TimeseriesNoSpecies(name, k)])
    else
      match Lookup(VMap(raw), Split(species[0], '.'))
      case Found(VMap(e)) => Ok(if "MODEL" !in Keys(e) then [TimeseriesNoModel(name, k)] else [])
      case _ => Crash
  }

  /** The loop over TIMESERIES.OBJECTS `items[i..]`, appending to `acc`. */
  function TimeseriesObjectsFrom(raw: Entries, kps: seq<string>, k: string, items: seq<Value>, i: nat, acc: seq<string>): Outcome
    requires i <= |items|
    decreases |items| - i
  {
    if i == |items| then Ok(acc)
    else
      var ms :- TimeseriesObject(raw, kps, k, items[i]);
      TimeseriesObjectsFrom(raw, kps, k, items, i + 1, acc + ms)
  }

  /**
   * `[int(float(x)) for x in nites]` under `except TypeError`: the first
   * entry that is not a number, string or bool draws the message, and the
   * first string that is not a numeral aborts the check (ValueError).
   */
  function NitesFrom(k: string, nites: seq<Value>, i: nat): (r: Outcome)
    requires i <= |nites|
    ensures r.Ok? ==> r.value == [] || r.value == [NitesNotNumeric(k)]
    decreases |nites| - i
  {
    if i == |nites| then Ok([])
    else
      match FloatOf(nites[i])
      case Converted(_) => NitesFrom(k, nites, i + 1)
      case NotConvertible => Ok([NitesNotNumeric(k)])
      case Malformed => Crash
  }

  /** The TIMESERIES branch of configuration `k`: its OBJECTS, then its NITES. */
  function TimeseriesEntry(raw: Entries, kps: seq<string>, k: string, cv: Value): (r: Outcome)
    ensures r.Ok? ==> cv.VMap?
  {
    if !cv.VMap? then Crash
    else
      var objects :-
        match Get(cv.entries, "OBJECTS")
        case None => Ok([TimeseriesMissing(k, "OBJECTS")])
        case Some(VList(items)) => TimeseriesObjectsFrom(raw, kps, k, items, 0, [])
        case Some(_) => Ok([TimeseriesNotList(k, "OBJECTS")]);
      var nites :-
        match Get(cv.entries, "NITES")
        case None => Ok([TimeseriesMissing(k, "NITES")])
        case Some(VList(items)) => NitesFrom(k, items, 0)
        case Some(_) => Ok([TimeseriesNotList(k, "NITES")]);
      Ok(objects + nites)
  }

  // ----- the children of a configuration -----

  /** How the child loop classifies a key of a configuration. */
  datatype ChildKind = PlaneChild | NoiseSourceChild | TimeseriesChild | FractionChild | InvalidChild

  /** The `if`/`elif` chain of the child loop, with FRACTION set aside. */
  function Classify(ck: string): (c: ChildKind)
    ensures c == InvalidChild <==>
      !StartsWith(ck, "PLANE_") && !StartsWith(ck, "NOISE_SOURCE_") && ck != "TIMESERIES" && ck != "FRACTION"
  {
    if StartsWith(ck, "PLANE_") then PlaneChild
    else if StartsWith(ck, "NOISE_SOURCE_") then NoiseSourceChild
    else if ck == "TIMESERIES" then TimeseriesChild
    else if ck == "FRACTION" then FractionChild
    else InvalidChild
  }

  /** One child `entry` of configuration `k`. */
  function ChildStep(raw: Entries, kps: seq<string>, k: string, entry: (string, Value), acc: ConfigTally): Result<ConfigTally> {
    var (ck, cv) := entry;
    match Classify(ck)
    case PlaneChild =>
      var p :- PlaneEntry(kps, k, ck, cv);
      Ok(ConfigTally(acc.msgs + p.msgs, acc.planes + [p.index], acc.noise))
    case NoiseSourceChild =>
      var n :- NamedEntry(kps, k + "." + ck, ck, cv);
      Ok(ConfigTally(acc.msgs + n.msgs, acc.planes, acc.noise + [n.index]))
    case TimeseriesChild =>
      var ms :- TimeseriesEntry(raw, kps, k, cv);
      Ok(acc.(msgs := acc.msgs + ms))
    case FractionChild => Ok(acc)
    case InvalidChild => Ok(acc.(msgs := acc.msgs + [NotValidEntry(k + "." + ck)]))
  }

  /** The child loop over `es[i..]` of configuration `k`. */
  function ChildrenFrom(raw: Entries, kps: seq<string>, k: string, es: Entries, i: nat, acc: ConfigTally): Result<ConfigTally>
    requires i <= |es|
    decreases |es| - i
  {
    if i == |es| then Ok(acc)
    else
      var acc' :- ChildStep(raw, kps, k, es[i], acc);
      ChildrenFrom(raw, kps, k, es, i + 1, acc')
  }

  // ----- CONFIGURATION_<n> -----

  /**
   * The FRACTION test of a configuration: the messages it draws and the
   * fraction it contributes to the sum (none when missing or not a number).
   */
  function FractionEntry(k: string, es: Entries): (r: Result<(seq<string>, seq<real>)>)
    ensures r.Crash? <==> "FRACTION" in Keys(es) && FloatOf(Get(es, "FRACTION").value).Malformed?
    ensures r.Ok? ==> |r.value.1| <= 1
  {
    match Get(es, "FRACTION")
    case None => Ok(([FractionMissing(k)], []))
    case Some(f) =>
      match FloatOf(f)
      case Converted(x) => Ok(([], [x]))
      case NotConvertible => Ok(([FractionNotFloat(k)], []))
      case Malformed => Crash
  }

  /** What one configuration contributes: messages, its index, its fraction if any. */
  datatype ConfigReport = ConfigReport(msgs: seq<string>, index: int, fractions: seq<real>)

  /**
   * The body of the configuration loop for the key `k` of GEOMETRY with the
   * configuration `cv`: the key's prefix and index, the FRACTION, the child
   * loop, and the PLANE and NOISE_SOURCE density tests. `max` of no PLANE
   * indices aborts the check; the NOISE_SOURCE test runs over this
   * configuration's own noise sources and is skipped when it has none.
   */
  function ConfigurationEntry(raw: Entries, kps: seq<string>, k: string, cv: Value): (r: Result<ConfigReport>)
    ensures r.Ok? ==> IndexOf(k).Some? && r.value.index == IndexOf(k).value
    ensures r.Ok? ==> cv.VMap?
  {
    match IndexOf(k)
    case None => Crash
    case Some(index) =>
      if !cv.VMap? then Crash
      else
        var fraction :- FractionEntry(k, cv.entries);
        var children :- ChildrenFrom(raw, kps, k, cv.entries, 0, ConfigTally([], [], []));
        var planes :- DensityCheck(children.planes, PlanesDensity(k));
        var noise := OptionalDensityCheck(children.noise, NoiseDensity(k));
        Ok(ConfigReport(
          (if !StartsWith(k, "CONFIGURATION_") then [InvalidEntry(k)] else []) +
          (if index < 1 then [InvalidEntry(k)] else []) +
          fraction.0 +
          (if |cv.entries| == 0 then [NoPlane(k)] else []) +
          children.msgs + planes + noise,
          index,
          fraction.1))
  }

  /** What the configuration loop accumulates. */
  datatype GeometryTally = GeometryTally(msgs: seq<string>, configs: seq<int>, fractions: seq<real>)

  /** One key of GEOMETRY with its configuration. */
  function ConfigurationStep(raw: Entries, kps: seq<string>, entry: (string, Value), acc: GeometryTally): Result<GeometryTally> {
    var c :- ConfigurationEntry(raw, kps, entry.0, entry.1);
    Ok(GeometryTally(acc.msgs + c.msgs, acc.configs + [c.index], acc.fractions + c.fractions))
  }

  /** The configuration loop over `geo[i..]`. */
  function ConfigurationsFrom(raw: Entries, kps: seq<string>, geo: Entries, i: nat, acc: GeometryTally): Result<GeometryTally>
    requires i <= |geo|
    decreases |geo| - i
  {
    if i == |geo| then Ok(acc)
    else
      var acc' :- ConfigurationStep(raw, kps, geo[i], acc);
      ConfigurationsFrom(raw, kps, geo, i + 1, acc')
  }

  /**
   * `check_valid_geometry` on the as-authored configuration `raw`: a missing
   * or non-dictionary GEOMETRY aborts the check; otherwise the configuration
   * loop, the CONFIGURATION density test and the FRACTION sum test.
   */
  function ValidGeometry(raw: Entries): Outcome {
    var geometry :- Subscript(VMap(raw), "GEOMETRY");
    if !geometry.VMap? then Crash
    else
      var geo := geometry.entries;
      var head := if |geo| == 0 then [NoConfiguration] else [];
      var t :- ConfigurationsFrom(raw, Keypaths(raw), geo, 0, GeometryTally(head, [], []));
      var density :- DensityCheck(t.configs, ConfigurationsDensity);
      Ok(t.msgs + density + FractionSumCheck(t.fractions))
  }
}
