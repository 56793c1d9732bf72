/**
 * Four places where `check_valid_geometry` as written does something other
 * than what its comments and messages say it is for. Each is stated here as
 * written, with an input that shows the difference; the rest of the model
 * follows the intended behaviour, whose properties are proved in
 * GeometryProps.
 */
module Findings {
  import opened Outcomes
  import opened Strings
  import opened ConfigTree
  import opened Indexing
  import opened GeometrySpec

  // ----- the REDSHIFT test of a plane -----

  /**
   * `'REDSHIFT' not in config_k in params.keys()` is a chained comparison:
   * REDSHIFT is not a substring of the plane's key, and the plane's key is
   * one of its own PARAMETERS.
   */
  function RedshiftTestAsWritten(ck: string, paramKeys: seq<string>): (missing: bool)
    ensures missing ==> ck in paramKeys
  {
    !Contains(ck, "REDSHIFT") && ck in paramKeys
  }

  /** A plane whose PARAMETERS lack REDSHIFT is not reported as written. */
  lemma RedshiftMissedAsWritten()
    ensures !RedshiftTestAsWritten("PLANE_1", [])
    ensures "REDSHIFT" !in Keys([])
  {
  }

  // ----- the FRACTION key among a configuration's children -----

  /** The child dispatch as written: FRACTION has no branch of its own. */
  function ClassifyAsWritten(ck: string): (c: ChildKind)
    ensures c != FractionChild
    ensures c == InvalidChild <==> !StartsWith(ck, "PLANE_") && !StartsWith(ck, "NOISE_SOURCE_") && ck != "TIMESERIES"
  {
    if StartsWith(ck, "PLANE_") then PlaneChild
    else if StartsWith(ck, "NOISE_SOURCE_") then NoiseSourceChild
    else if ck == "TIMESERIES" then TimeseriesChild
    else InvalidChild
  }

  /**
   * As written, the FRACTION every configuration must have falls into the
   * unexpected-entry branch, so every well-formed configuration draws
   * "GEOMETRY.<k>.FRACTION is not a valid entry".
   */
  lemma FractionFlaggedAsWritten()
    ensures ClassifyAsWritten("FRACTION") == InvalidChild
  {
    assert "FRACTION"[0] != "PLANE_"[0];
    assert "FRACTION"[0] != "NOISE_SOURCE_"[0];
  }

  /** With FRACTION set aside, a configuration's FRACTION adds nothing to the child loop. */
  lemma FractionNotFlagged(raw: Entries, kps: seq<string>, k: string, v: Value, acc: ConfigTally)
    ensures Classify("FRACTION") == FractionChild
    ensures ChildStep(raw, kps, k, ("FRACTION", v), acc) == Ok(acc)
  {
    assert "FRACTION"[0] != "PLANE_"[0];
    assert "FRACTION"[0] != "NOISE_SOURCE_"[0];
  }

  // ----- the NOISE_SOURCE index list -----

  /**
   * The NOISE_SOURCE density test as written: `detected_noise_sources` is
   * created once for the whole GEOMETRY section, so configuration `k` is
   * tested on the indices of every configuration before it as well.
   */
  function NoiseDensityAsWritten(earlier: seq<int>, own: seq<int>, k: string): (o: Outcome)
    ensures o.Crash? <==> earlier == [] && own == []
  {
    DensityCheck(earlier + own, NoiseDensity(k))
  }

  /**
   * Two configurations that each have NOISE_SOURCE_1: as written the second
   * one is told to index its noise sources as 1, 2, 3, ...; tested on its own
   * indices it is not.
   */
  lemma SharedNoiseListAsWritten()
    ensures NoiseDensityAsWritten([1], [1], "CONFIGURATION_2") == Ok([NoiseDensity("CONFIGURATION_2")])
    ensures DensityCheck([1], NoiseDensity("CONFIGURATION_2")) == Ok([])
  {
    assert [1] + [1] == [1, 1];
  }

  /**
   * A configuration without noise sources: as written it aborts the check
   * only while no configuration before it has had one; the per-configuration
   * test skips it.
   */
  lemma NoNoiseSourceAsWritten(k: string)
    ensures NoiseDensityAsWritten([], [], k) == Crash
    ensures NoiseDensityAsWritten([1], [], k) == Ok([])
    ensures OptionalDensityCheck([], NoiseDensity(k)) == []
  {
    assert [1] + [] == [1];
  }

  /**
   * On the first configuration that has noise sources, the shared list holds
   * only its own indices, and the per-configuration test agrees with the code.
   */
  lemma FirstNoiseListAgrees(own: seq<int>, k: string)
    requires own != []
    ensures NoiseDensityAsWritten([], own, k) == Ok(OptionalDensityCheck(own, NoiseDensity(k)))
  {
    assert [] + own == own;
  }

  // ----- the NOISE_SOURCE index itself -----

  /**
   * The NOISE_SOURCE index as written: `int(obj_k.split('_')[-1])`, where
   * `obj_k` is whatever key the OBJECT loop of the last plane visited ended
   * on (`None` when no plane has been visited yet, which raises
   * UnboundLocalError).
   */
  function NoiseIndexAsWritten(lastObjectKey: Option<string>): (r: Result<int>)
    ensures lastObjectKey.None? ==> r.Crash?
    ensures lastObjectKey.Some? ==> (r.Ok? <==> IndexOf(lastObjectKey.value).Some?)
  {
    match lastObjectKey
    case None => Crash
    case Some(key) =>
      match IndexOf(key)
      case None => Crash
      case Some(n) => Ok(n)
  }

  /**
   * NOISE_SOURCE_1 after a plane whose last key is OBJECT_2 is recorded as
   * index 2; a NOISE_SOURCE before any plane aborts the check.
   */
  lemma StaleObjectKeyAsWritten()
    ensures NoiseIndexAsWritten(Some("OBJECT_2")) == Ok(2)
    ensures IndexOf("NOISE_SOURCE_1") == Some(1)
    ensures NoiseIndexAsWritten(None) == Crash
  {
    ObjectTwoIndex();
    NoiseSourceOneIndex();
  }

  /** OBJECT_2 has index 2. */
  lemma ObjectTwoIndex()
    ensures IndexOf("OBJECT_2") == Some(2)
  {
    DigitAfterUnderscore("OBJECT_", '2');
    assert "OBJECT_" + ['2'] == "OBJECT_2";
  }

  /** NOISE_SOURCE_1 has index 1. */
  lemma NoiseSourceOneIndex()
    ensures IndexOf("NOISE_SOURCE_1") == Some(1)
  {
    DigitAfterUnderscore("NOISE_SOURCE_", '1');
    assert "NOISE_SOURCE_" + ['1'] == "NOISE_SOURCE_1";
  }

  /** A key ending in `_` and one digit has that digit as its index. */
  lemma DigitAfterUnderscore(prefix: string, d: char)
    requires prefix != [] && prefix[|prefix| - 1] == '_' && IsDigit(d)
    ensures IndexOf(prefix + [d]) == Some((d - '0') as int)
  {
    var key := prefix + [d];
    assert key[..|key| - 1] == prefix;
    assert LastSegment(prefix) == [];
    assert LastSegment(key) == [d];
    assert [d][..0] == [];
    assert AllDigits([d]) && DigitsValue([d]) == (d - '0') as nat;
  }
}
