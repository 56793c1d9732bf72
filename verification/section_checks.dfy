/**
 * The three existence/shape checks of `AllChecks`: `check_top_level_existence`,
 * `check_low_level_existence` and
 * `check_not_allowed_to_be_drawn_from_a_distribution`.
 *
 * The last two read the as-authored configuration through
 * `self.config_lookup(self.config_dict_format(...))`. As written, the class
 * never assigns `self.config_dict` and hands `config_dict_format` the list
 * from `param.split('.')` as one argument, so both checks raise on their first
 * parameter. The model follows the evident intent: the path is the parameter
 * split at its dots, looked up in the as-authored configuration one
 * dictionary subscript at a time.
 */
module SectionChecks {
  import opened Outcomes
  import opened Strings
  import opened ConfigTree

  /** The six sections every configuration must have, in the order they are checked. */
  const Sections: seq<string> := ["DATASET", "SURVEY", "IMAGE", "COSMOLOGY", "SPECIES", "GEOMETRY"]

  function MissingSection(name: string): string {
    "Missing " + name + " section from config file"
  }

  /** The top-level messages for `names`, in order: one per name absent from `full`. */
  function TopLevelErrors(names: seq<string>, full: Entries): seq<string> {
    if names == [] then []
    else
      (if names[0] !in Keys(full) then [MissingSection(names[0])] else []) + TopLevelErrors(names[1..], full)
  }

  /** `check_top_level_existence`, which inspects the keys of the full configuration. */
  method CheckTopLevelExistence(full: Entries) returns (errs: seq<string>)
    ensures errs == TopLevelErrors(Sections, full)
  {
    errs := [];
    for i := 0 to |Sections|
      invariant errs + TopLevelErrors(Sections[i..], full) == TopLevelErrors(Sections, full)
    {
      var name := Sections[i];
      ghost var before := errs;
      ghost var here := if name !in Keys(full) then [MissingSection(name)] else [];
      assert Sections[i..][0] == name && Sections[i..][1..] == Sections[i + 1..];
      assert TopLevelErrors(Sections[i..], full) == here + TopLevelErrors(Sections[i + 1..], full);
      if name !in Keys(full) {
        errs := errs + [MissingSection(name)];
      }
      assert errs == before + here;
      AppendAssoc(before, here, TopLevelErrors(Sections[i + 1..], full));
    }
    assert Sections[|Sections|..] == [];
  }

  predicate DistinctNames(names: seq<string>) {
    forall i, j :: 0 <= i < j < |names| ==> names[i] != names[j]
  }

  lemma MissingSectionInjective(a: string, b: string)
    requires MissingSection(a) == MissingSection(b)
    ensures a == b
  {
    var pre := "Missing ";
    var post := " section from config file";
    assert pre + a + post == pre + (a + post);
    assert pre + b + post == pre + (b + post);
    assert a + post == (pre + (a + post))[|pre|..];
    assert b + post == (pre + (b + post))[|pre|..];
    SuffixCancel(a, b, post);
  }

  /**
   * Exactly one message per absent name, none for a present name, and no
   * other message.
   */
  lemma {:induction false} TopLevelCounts(names: seq<string>, full: Entries)
    requires DistinctNames(names)
    ensures forall n :: n in names ==>
      multiset(TopLevelErrors(names, full))[MissingSection(n)] == if n in Keys(full) then 0 else 1
    ensures forall m :: m in TopLevelErrors(names, full) ==>
      exists n :: n in names && n !in Keys(full) && m == MissingSection(n)
  {
    if names != [] {
      var rest := names[1..];
      assert DistinctNames(rest);
      TopLevelCounts(rest, full);
      forall n | n in names
        ensures multiset(TopLevelErrors(names, full))[MissingSection(n)] == if n in Keys(full) then 0 else 1
      {
        assert TopLevelErrors(names, full) ==
          (if names[0] !in Keys(full) then [MissingSection(names[0])] else []) + TopLevelErrors(rest, full);
        if n == names[0] {
          assert n !in rest;
          forall m | m in TopLevelErrors(rest, full) ensures m != MissingSection(n) {
            var n' :| n' in rest && n' !in Keys(full) && m == MissingSection(n');
            if m == MissingSection(n) { MissingSectionInjective(n, n'); }
          }
          assert MissingSection(n) !in TopLevelErrors(rest, full);
          assert multiset(TopLevelErrors(rest, full))[MissingSection(n)] == 0;
        } else {
          assert n in rest;
          if MissingSection(names[0]) == MissingSection(n) { MissingSectionInjective(names[0], n); }
        }
      }
    }
  }

  lemma SectionsDistinct()
    ensures DistinctNames(Sections)
  {
    forall i, j | 0 <= i < j < |Sections| ensures Sections[i] != Sections[j] {
      assert Sections[i][0] != Sections[j][0] || |Sections[i]| != |Sections[j]|;
    }
  }

  /** `check_top_level_existence` reports each of the six sections exactly when it is missing. */
  lemma TopLevelReport(full: Entries)
    ensures forall n :: n in Sections ==>
      multiset(TopLevelErrors(Sections, full))[MissingSection(n)] == if n in Keys(full) then 0 else 1
    ensures forall m :: m in TopLevelErrors(Sections, full) ==>
      exists n :: n in Sections && n !in Keys(full) && m == MissingSection(n)
    ensures TopLevelErrors(Sections, full) == [] <==> forall n :: n in Sections ==> n in Keys(full)
  {
    SectionsDistinct();
    TopLevelCounts(Sections, full);
    if TopLevelErrors(Sections, full) == [] {
      forall n | n in Sections ensures n in Keys(full) {
        assert multiset(TopLevelErrors(Sections, full))[MissingSection(n)] == 0;
      }
    } else {
      var m := TopLevelErrors(Sections, full)[0];
      assert m in TopLevelErrors(Sections, full);
    }
  }

  /** The parameters that must be present (lines 67-81). */
  const LowLevelParams: set<string> := {
    "DATASET.NAME",
    "DATASET.PARAMETERS.SIZE",
    "COSMOLOGY.PARAMETERS.H0",
    "COSMOLOGY.PARAMETERS.Om0",
    "IMAGE.PARAMETERS.exposure_time",
    "IMAGE.PARAMETERS.numPix",
    "IMAGE.PARAMETERS.pixel_scale",
    "IMAGE.PARAMETERS.psf_type",
    "IMAGE.PARAMETERS.read_noise",
    "IMAGE.PARAMETERS.ccd_gain",
    "SURVEY.PARAMETERS.BANDS",
    "SURVEY.PARAMETERS.seeing",
    "SURVEY.PARAMETERS.magnitude_zero_point",
    "SURVEY.PARAMETERS.sky_brightness",
    "SURVEY.PARAMETERS.num_exposures"}

  /** The parameters that may not be drawn from a distribution (lines 92-101). */
  const FixedParams: set<string> := {
    "DATASET.NAME",
    "DATASET.PARAMETERS.SIZE",
    "DATASET.PARAMETERS.OUTDIR",
    "IMAGE.PARAMETERS.numPix",
    "COSMOLOGY.PARAMETERS.H0",
    "COSMOLOGY.PARAMETERS.Om0",
    "COSMOLOGY.PARAMETERS.Tcmb0",
    "COSMOLOGY.PARAMETERS.Neff",
    "COSMOLOGY.PARAMETERS.m_nu",
    "COSMOLOGY.PARAMETERS.Ob0"}

  /**
   * The source keeps each parameter list in a Python set, whose iteration
   * order is not fixed; `order` is the order one run happens to use, some
   * arrangement of the listed parameters.
   */
  predicate IsEnumeration(order: seq<string>, params: set<string>) {
    multiset(order) == multiset(params)
  }

  /** The two per-parameter checks. */
  datatype ParamRule = MustExist | NotDistribution

  /** The message a rule emits for a parameter. */
  function ParamMessage(rule: ParamRule, param: string): string {
    match rule
    case MustExist => param + "is missing from the Config File"
    case NotDistribution => param + " cannot be drawn from a distribution"
  }

  /** `config_lookup(config_dict_format(*param.split('.')))` on the as-authored configuration. */
  function Resolve(raw: Entries, param: string): Resolution {
    Lookup(VMap(raw), Split(param, '.'))
  }

  /**
   * Whether `param` draws a message. Only KeyError is caught (lines 85, 105),
   * so subscripting a string, number, list or None on the way aborts the check.
   */
  function Verdict(rule: ParamRule, raw: Entries, param: string): (r: Result<bool>)
    ensures r.Crash? <==> Resolve(raw, param).NotSubscriptable?
    ensures rule == MustExist && r.Ok? ==> (r.value <==> Resolve(raw, param).KeyMissing?)
    ensures rule == NotDistribution && r.Ok? ==>
      (r.value <==> Resolve(raw, param).Found? && Resolve(raw, param).node.VMap?)
  {
    match Resolve(raw, param)
    case NotSubscriptable => Crash
    case KeyMissing => Ok(rule == MustExist)
    case Found(v) => Ok(rule == NotDistribution && v.VMap?)
  }

  /** The messages of one check over `order`, or a crash if any parameter crashes. */
  function ParamScan(rule: ParamRule, raw: Entries, order: seq<string>): Outcome {
    if order == [] then Ok([])
    else
      var hit :- Verdict(rule, raw, order[0]);
      var rest :- ParamScan(rule, raw, order[1..]);
      Ok((if hit then [ParamMessage(rule, order[0])] else []) + rest)
  }

  /** `errs + o`: messages gathered so far followed by what the rest of the loop yields. */
  function Prepend(errs: seq<string>, o: Outcome): Outcome {
    match o
    case Crash => Crash
    case Ok(rest) => Ok(errs + rest)
  }

  lemma PrependAssoc(a: seq<string>, b: seq<string>, o: Outcome)
    ensures Prepend(a, Prepend(b, o)) == Prepend(a + b, o)
    ensures Prepend([], o) == o
  {
    if o.Ok? {
      assert a + (b + o.value) == (a + b) + o.value;
      assert [] + o.value == o.value;
    }
  }

  /** One step of the scan: the first parameter's verdict, then the rest. */
  lemma ParamScanStep(rule: ParamRule, raw: Entries, order: seq<string>)
    requires order != []
    ensures ParamScan(rule, raw, order) ==
      match Verdict(rule, raw, order[0])
      case Crash => Crash
      case Ok(hit) => Prepend(if hit then [ParamMessage(rule, order[0])] else [], ParamScan(rule, raw, order[1..]))
  {
  }

  /** `check_low_level_existence`. */
  method CheckLowLevelExistence(raw: Entries, order: seq<string>) returns (o: Outcome)
    requires IsEnumeration(order, LowLevelParams)
    ensures o == ParamScan(MustExist, raw, order)
  {
    var errs := [];
    assert order[0..] == order;
    PrependAssoc([], [], ParamScan(MustExist, raw, order));
    for i := 0 to |order|
      invariant ParamScan(MustExist, raw, order) == Prepend(errs, ParamScan(MustExist, raw, order[i..]))
    {
      var param := order[i];
      assert order[i..][0] == param && order[i..][1..] == order[i + 1..];
      ParamScanStep(MustExist, raw, order[i..]);
      PrependAssoc(errs, [param + "is missing from the Config File"], ParamScan(MustExist, raw, order[i + 1..]));
      PrependAssoc(errs, [], ParamScan(MustExist, raw, order[i + 1..]));
      assert errs + [] == errs;
      match Lookup(VMap(raw), Split(param, '.'))
      case NotSubscriptable =>
        return Crash;
      case KeyMissing =>
        errs := errs + [param + "is missing from the Config File"];
      case Found(_) =>
    }
    assert order[|order|..] == [] && errs + [] == errs;
    return Ok(errs);
  }

  /** `check_not_allowed_to_be_drawn_from_a_distribution`. */
  method CheckNotAllowedToBeDrawn(raw: Entries, order: seq<string>) returns (o: Outcome)
    requires IsEnumeration(order, FixedParams)
    ensures o == ParamScan(NotDistribution, raw, order)
  {
    var errs := [];
    assert order[0..] == order;
    PrependAssoc([], [], ParamScan(NotDistribution, raw, order));
    for i := 0 to |order|
      invariant ParamScan(NotDistribution, raw, order) == Prepend(errs, ParamScan(NotDistribution, raw, order[i..]))
    {
      var param := order[i];
      assert order[i..][0] == param && order[i..][1..] == order[i + 1..];
      ParamScanStep(NotDistribution, raw, order[i..]);
      PrependAssoc(errs, [param + " cannot be drawn from a distribution"], ParamScan(NotDistribution, raw, order[i + 1..]));
      PrependAssoc(errs, [], ParamScan(NotDistribution, raw, order[i + 1..]));
      assert errs + [] == errs;
      match Lookup(VMap(raw), Split(param, '.'))
      case NotSubscriptable =>
        return Crash;
      case KeyMissing =>
        // the parameter is absent: nothing to check
      case Found(v) =>
        if v.VMap? {
          errs := errs + [param + " cannot be drawn from a distribution"];
        }
    }
    assert order[|order|..] == [] && errs + [] == errs;
    return Ok(errs);
  }

  lemma ParamMessageInjective(rule: ParamRule, a: string, b: string)
    requires ParamMessage(rule, a) == ParamMessage(rule, b)
    ensures a == b
  {
    match rule
    case MustExist => SuffixCancel(a, b, "is missing from the Config File");
    case NotDistribution => SuffixCancel(a, b, " cannot be drawn from a distribution");
  }

  /** A scan crashes exactly when some parameter's lookup meets a value that cannot be subscripted. */
  lemma {:induction false} ParamScanCrash(rule: ParamRule, raw: Entries, order: seq<string>)
    ensures ParamScan(rule, raw, order).Crash? <==>
      exists p :: p in order && Verdict(rule, raw, p).Crash?
  {
    if order != [] {
      ParamScanCrash(rule, raw, order[1..]);
      assert forall p :: p in order <==> p == order[0] || p in order[1..];
    }
  }

  /**
   * A scan that completes emits a parameter's message once for each time the
   * parameter is walked with a positive verdict, and never otherwise.
   */
  lemma {:induction false} ParamScanCount(rule: ParamRule, raw: Entries, order: seq<string>, p: string)
    requires ParamScan(rule, raw, order).Ok?
    ensures multiset(ParamScan(rule, raw, order).value)[ParamMessage(rule, p)] ==
      if Verdict(rule, raw, p) == Ok(true) then multiset(order)[p] else 0
  {
    if order != [] {
      var head := order[0];
      ParamScanCount(rule, raw, order[1..], p);
      assert order == [head] + order[1..];
      assert multiset(order)[p] == multiset([head])[p] + multiset(order[1..])[p];
      if ParamMessage(rule, head) == ParamMessage(rule, p) {
        ParamMessageInjective(rule, head, p);
      }
    }
  }

  /** Every message of a completed scan belongs to a walked parameter with a positive verdict. */
  lemma {:induction false} ParamScanMessages(rule: ParamRule, raw: Entries, order: seq<string>)
    requires ParamScan(rule, raw, order).Ok?
    ensures forall m :: m in ParamScan(rule, raw, order).value ==>
      exists p :: p in order && Verdict(rule, raw, p) == Ok(true) && m == ParamMessage(rule, p)
  {
    if order != [] {
      ParamScanMessages(rule, raw, order[1..]);
      assert forall p :: p in order[1..] ==> p in order;
    }
  }

  /**
   * `check_low_level_existence` reports a required parameter exactly once when
   * its path is absent from the as-authored configuration and never when it
   * resolves; it reports nothing else, and nothing at all when every path
   * resolves.
   */
  lemma LowLevelReport(raw: Entries, order: seq<string>)
    requires IsEnumeration(order, LowLevelParams)
    ensures ParamScan(MustExist, raw, order).Crash? <==>
      exists p :: p in LowLevelParams && Resolve(raw, p).NotSubscriptable?
    ensures ParamScan(MustExist, raw, order).Ok? ==>
      forall p :: p in LowLevelParams ==>
        multiset(ParamScan(MustExist, raw, order).value)[ParamMessage(MustExist, p)] ==
          if Resolve(raw, p).KeyMissing? then 1 else 0
    ensures ParamScan(MustExist, raw, order).Ok? ==>
      forall m :: m in ParamScan(MustExist, raw, order).value ==>
        exists p :: p in LowLevelParams && Resolve(raw, p).KeyMissing? && m == ParamMessage(MustExist, p)
    ensures (forall p :: p in LowLevelParams ==> Resolve(raw, p).Found?) ==>
      ParamScan(MustExist, raw, order) == Ok([])
  {
    MustExistScan(raw, order, LowLevelParams);
  }

  /**
   * `check_not_allowed_to_be_drawn_from_a_distribution` skips absent
   * parameters and reports a present one exactly once when its value is a
   * dictionary (a distribution), never when it is a scalar or a list.
   */
  lemma NotAllowedReport(raw: Entries, order: seq<string>)
    requires IsEnumeration(order, FixedParams)
    ensures ParamScan(NotDistribution, raw, order).Crash? <==>
      exists p :: p in FixedParams && Resolve(raw, p).NotSubscriptable?
    ensures ParamScan(NotDistribution, raw, order).Ok? ==>
      forall p :: p in FixedParams ==>
        multiset(ParamScan(NotDistribution, raw, order).value)[ParamMessage(NotDistribution, p)] ==
          if Resolve(raw, p).Found? && Resolve(raw, p).node.VMap? then 1 else 0
    ensures ParamScan(NotDistribution, raw, order).Ok? ==>
      forall m :: m in ParamScan(NotDistribution, raw, order).value ==>
        exists p :: p in FixedParams && Resolve(raw, p).Found? && Resolve(raw, p).node.VMap? &&
          m == ParamMessage(NotDistribution, p)
  {
    NotDistributionScan(raw, order, FixedParams);
  }

  /** LowLevelReport over any enumerated set of required paths. */
  lemma MustExistScan(raw: Entries, order: seq<string>, params: set<string>)
    requires IsEnumeration(order, params)
    ensures ParamScan(MustExist, raw, order).Crash? <==>
      exists p :: p in params && Resolve(raw, p).NotSubscriptable?
    ensures ParamScan(MustExist, raw, order).Ok? ==>
      forall p :: p in params ==>
        multiset(ParamScan(MustExist, raw, order).value)[ParamMessage(MustExist, p)] ==
          if Resolve(raw, p).KeyMissing? then 1 else 0
    ensures ParamScan(MustExist, raw, order).Ok? ==>
      forall m :: m in ParamScan(MustExist, raw, order).value ==>
        exists p :: p in params && Resolve(raw, p).KeyMissing? && m == ParamMessage(MustExist, p)
    ensures (forall p :: p in params ==> Resolve(raw, p).Found?) ==>
      ParamScan(MustExist, raw, order) == Ok([])
  {
    ScanReport(MustExist, raw, order, params);
  }

  /** NotAllowedReport over any enumerated set of fixed paths. */
  lemma NotDistributionScan(raw: Entries, order: seq<string>, params: set<string>)
    requires IsEnumeration(order, params)
    ensures ParamScan(NotDistribution, raw, order).Crash? <==>
      exists p :: p in params && Resolve(raw, p).NotSubscriptable?
    ensures ParamScan(NotDistribution, raw, order).Ok? ==>
      forall p :: p in params ==>
        multiset(ParamScan(NotDistribution, raw, order).value)[ParamMessage(NotDistribution, p)] ==
          if Resolve(raw, p).Found? && Resolve(raw, p).node.VMap? then 1 else 0
    ensures ParamScan(NotDistribution, raw, order).Ok? ==>
      forall m :: m in ParamScan(NotDistribution, raw, order).value ==>
        exists p :: p in params && Resolve(raw, p).Found? && Resolve(raw, p).node.VMap? &&
          m == ParamMessage(NotDistribution, p)
  {
    ScanReport(NotDistribution, raw, order, params);
  }

  /** The scan over an enumeration of a parameter set, stated over the set itself. */
  lemma ScanReport(rule: ParamRule, raw: Entries, order: seq<string>, params: set<string>)
    requires IsEnumeration(order, params)
    ensures ParamScan(rule, raw, order).Crash? <==>
      exists p :: p in params && Verdict(rule, raw, p).Crash?
    ensures ParamScan(rule, raw, order).Ok? ==>
      forall p :: p in params ==>
        multiset(ParamScan(rule, raw, order).value)[ParamMessage(rule, p)] ==
          if Verdict(rule, raw, p) == Ok(true) then 1 else 0
    ensures ParamScan(rule, raw, order).Ok? ==>
      forall m :: m in ParamScan(rule, raw, order).value ==>
        exists p :: p in params && Verdict(rule, raw, p) == Ok(true) && m == ParamMessage(rule, p)
    ensures (forall p :: p in params ==> Verdict(rule, raw, p) == Ok(false)) ==>
      ParamScan(rule, raw, order) == Ok([])
  {
    assert forall p :: p in order <==> p in params by {
      forall p ensures p in order <==> p in params {
        assert p in order <==> p in multiset(order);
        assert p in params <==> p in multiset(params);
      }
    }
    ParamScanCrash(rule, raw, order);
    if ParamScan(rule, raw, order).Ok? {
      var r := ParamScan(rule, raw, order).value;
      forall p | p in params
        ensures multiset(r)[ParamMessage(rule, p)] == if Verdict(rule, raw, p) == Ok(true) then 1 else 0
      {
        ParamScanCount(rule, raw, order, p);
      }
      ParamScanMessages(rule, raw, order);
      if forall p :: p in params ==> Verdict(rule, raw, p) == Ok(false) {
        if r != [] {
          assert r[0] in r;
        }
      }
    }
  }

  /**
   * The order in which the set of parameters happens to be walked changes
   * only the order of the messages, never which messages there are.
   */
  lemma ParamOrderIrrelevant(rule: ParamRule, raw: Entries, order1: seq<string>, order2: seq<string>)
    requires multiset(order1) == multiset(order2)
    ensures ParamScan(rule, raw, order1).Crash? <==> ParamScan(rule, raw, order2).Crash?
    ensures ParamScan(rule, raw, order1).Ok? ==>
      multiset(ParamScan(rule, raw, order1).value) == multiset(ParamScan(rule, raw, order2).value)
  {
    assert forall p :: p in order1 <==> p in order2 by {
      forall p ensures p in order1 <==> p in order2 {
        assert p in order1 <==> p in multiset(order1);
        assert p in order2 <==> p in multiset(order2);
      }
    }
    ParamScanCrash(rule, raw, order1);
    ParamScanCrash(rule, raw, order2);
    if ParamScan(rule, raw, order1).Ok? {
      var r1 := ParamScan(rule, raw, order1).value;
      var r2 := ParamScan(rule, raw, order2).value;
      forall m ensures multiset(r1)[m] == multiset(r2)[m] {
        SameCount(rule, raw, order1, order2, m);
      }
    }
  }

  lemma SameCount(rule: ParamRule, raw: Entries, order1: seq<string>, order2: seq<string>, m: string)
    requires multiset(order1) == multiset(order2)
    requires ParamScan(rule, raw, order1).Ok? && ParamScan(rule, raw, order2).Ok?
    ensures multiset(ParamScan(rule, raw, order1).value)[m] == multiset(ParamScan(rule, raw, order2).value)[m]
  {
    if exists p :: m == ParamMessage(rule, p) {
      var p :| m == ParamMessage(rule, p);
      ParamScanCount(rule, raw, order1, p);
      ParamScanCount(rule, raw, order2, p);
    } else {
      ParamScanMessages(rule, raw, order1);
      ParamScanMessages(rule, raw, order2);
      assert m !in ParamScan(rule, raw, order1).value;
      assert m !in ParamScan(rule, raw, order2).value;
    }
  }
}
