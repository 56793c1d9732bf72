/**
 * The check runner (`AllChecks.__init__`): it runs every `check_` method in
 * the order `dir()` lists them, which is alphabetical, turns a check that
 * raises into the single message "CheckFunctionError: <name>", concatenates
 * the messages, and raises ConfigFileError exactly when there are any.
 *
 * The `dir()`/`eval` reflection is replaced by the explicit list of the four
 * check names. Printing the messages and the `sys.exit()` in `run_checks` are
 * not modelled; the runner returns the messages and whether it raised.
 */
module Runner {
  import opened Outcomes
  import opened ConfigTree
  import opened SectionChecks
  import opened GeometrySpec
  import opened GeometryCheck

  /** The `check_` methods of AllChecks, in `dir()` order. */
  const CheckNames: seq<string> := [
    "check_low_level_existence",
    "check_not_allowed_to_be_drawn_from_a_distribution",
    "check_top_level_existence",
    "check_valid_geometry"
  ]

  /** The message that stands for a check that raised. */
  function CheckFunctionError(name: string): string {
    "CheckFunctionError: " + name
  }

  /** What one check adds to the total: its messages, or the one crash message. */
  function Contribution(o: Outcome, name: string): (ms: seq<string>)
    ensures o.Ok? ==> ms == o.value
    ensures o.Crash? ==> ms == [CheckFunctionError(name)]
  {
    match o
    case Ok(errs) => errs
    case Crash => [CheckFunctionError(name)]
  }

  /**
   * The outcome of the check `CheckNames[i]`. The top-level check reads the
   * full (defaulted) configuration; the others read the as-authored one.
   * `lowOrder` and `fixedOrder` are the orders in which Python happens to
   * iterate the two parameter sets.
   */
  function CheckOutcome(i: nat, full: Entries, raw: Entries, lowOrder: seq<string>, fixedOrder: seq<string>): Outcome
    requires i < |CheckNames|
  {
    if i == 0 then ParamScan(MustExist, raw, lowOrder)
    else if i == 1 then ParamScan(NotDistribution, raw, fixedOrder)
    else if i == 2 then Ok(TopLevelErrors(Sections, full))
    else ValidGeometry(raw)
  }

  /** The outcomes of all four checks, in check order. */
  function CheckOutcomes(full: Entries, raw: Entries, lowOrder: seq<string>, fixedOrder: seq<string>): (outs: seq<Outcome>)
    ensures |outs| == |CheckNames|
    ensures forall i :: 0 <= i < |CheckNames| ==> outs[i] == CheckOutcome(i, full, raw, lowOrder, fixedOrder)
  {
    seq(|CheckNames|, i requires 0 <= i < |CheckNames| => CheckOutcome(i, full, raw, lowOrder, fixedOrder))
  }

  /** The messages gathered from the first `n` checks, given their outcomes. */
  function Gathered(outs: seq<Outcome>, n: nat): seq<string>
    requires n <= |outs| <= |CheckNames|
  {
    if n == 0 then [] else Gathered(outs, n - 1) + Contribution(outs[n - 1], CheckNames[n - 1])
  }

  /** One check of the runner, dispatched by position instead of by `eval`. */
  method RunCheck(i: nat, full: Entries, raw: Entries, lowOrder: seq<string>, fixedOrder: seq<string>) returns (o: Outcome)
    requires i < |CheckNames|
    requires IsEnumeration(lowOrder, LowLevelParams) && IsEnumeration(fixedOrder, FixedParams)
    ensures o == CheckOutcome(i, full, raw, lowOrder, fixedOrder)
  {
    if i == 0 {
      o := CheckLowLevelExistence(raw, lowOrder);
    } else if i == 1 {
      o := CheckNotAllowedToBeDrawn(raw, fixedOrder);
    } else if i == 2 {
      var errs := CheckTopLevelExistence(full);
      o := Ok(errs);
    } else {
      o := CheckValidGeometry(raw);
    }
  }

  /**
   * `AllChecks(full_dict, config_dict)`: the concatenated messages of the
   * checks, and whether ConfigFileError is raised.
   */
  method RunChecks(full: Entries, raw: Entries, lowOrder: seq<string>, fixedOrder: seq<string>)
      returns (total: seq<string>, raised: bool)
    requires IsEnumeration(lowOrder, LowLevelParams) && IsEnumeration(fixedOrder, FixedParams)
    ensures total == Gathered(CheckOutcomes(full, raw, lowOrder, fixedOrder), |CheckNames|)
    ensures raised <==> total != []
  {
    ghost var outs := CheckOutcomes(full, raw, lowOrder, fixedOrder);
    total := [];
    for i := 0 to |CheckNames|
      invariant total == Gathered(outs, i)
    {
      var o := RunCheck(i, full, raw, lowOrder, fixedOrder);
      assert o == outs[i];
      var errs: seq<string>;
      match o {
        case Ok(ms) => errs := ms;
        case Crash => errs := [CheckFunctionError(CheckNames[i])];
      }
      assert errs == Contribution(outs[i], CheckNames[i]);
      total := total + errs;
    }
    raised := |total| != 0;
  }

  // ----- properties of the runner -----

  lemma {:induction false} GatheredGrows(outs: seq<Outcome>, m: nat, n: nat)
    requires m <= n <= |outs| <= |CheckNames|
    ensures Gathered(outs, m) <= Gathered(outs, n)
    decreases n - m
  {
    if m < n {
      GatheredGrows(outs, m, n - 1);
      var a, b := Gathered(outs, m), Gathered(outs, n - 1);
      assert Gathered(outs, n) == b + Contribution(outs[n - 1], CheckNames[n - 1]);
      assert forall x :: 0 <= x < |a| ==> a[x] == b[x] == Gathered(outs, n)[x];
    }
  }

  /**
   * Every check's contribution sits, whole, in the total: right after the
   * contributions of the checks before it. A check that raises therefore
   * adds its one message and suppresses no other check's output.
   */
  lemma CheckIsolated(outs: seq<Outcome>, i: nat)
    requires i < |outs| == |CheckNames|
    ensures var total, at := Gathered(outs, |CheckNames|), |Gathered(outs, i)|;
      at + |Contribution(outs[i], CheckNames[i])| <= |total| &&
      total[at..at + |Contribution(outs[i], CheckNames[i])|] == Contribution(outs[i], CheckNames[i])
  {
    var c := Contribution(outs[i], CheckNames[i]);
    var before := Gathered(outs, i);
    GatheredGrows(outs, i + 1, |CheckNames|);
    var total := Gathered(outs, |CheckNames|);
    assert Gathered(outs, i + 1) == before + c;
    assert total[..|before| + |c|] == before + c;
    assert total[|before|..|before| + |c|] == (before + c)[|before|..];
  }

  /** A check that raises puts its CheckFunctionError message into the total. */
  lemma CrashReported(outs: seq<Outcome>, i: nat)
    requires i < |outs| == |CheckNames| && outs[i].Crash?
    ensures CheckFunctionError(CheckNames[i]) in Gathered(outs, |CheckNames|)
  {
    var m := CheckFunctionError(CheckNames[i]);
    var total, at := Gathered(outs, |CheckNames|), |Gathered(outs, i)|;
    CheckIsolated(outs, i);
    assert Contribution(outs[i], CheckNames[i]) == [m];
    assert total[at..at + 1] == [m];
    assert total[at] == total[at..at + 1][0];
  }

  /** No message is gathered exactly when every check completes with no messages. */
  lemma {:induction false} GatheredEmpty(outs: seq<Outcome>, n: nat)
    requires n <= |outs| <= |CheckNames|
    ensures Gathered(outs, n) == [] <==> forall i :: 0 <= i < n ==> outs[i] == Ok([])
  {
    if n > 0 {
      GatheredEmpty(outs, n - 1);
      var before, c := Gathered(outs, n - 1), Contribution(outs[n - 1], CheckNames[n - 1]);
      assert Gathered(outs, n) == before + c;
      assert c == [] <==> outs[n - 1] == Ok([]);
      assert (forall i :: 0 <= i < n ==> outs[i] == Ok([])) <==>
        (forall i :: 0 <= i < n - 1 ==> outs[i] == Ok([])) && outs[n - 1] == Ok([]);
    }
  }

  /**
   * ConfigFileError is raised exactly when some check reports a message or
   * raises.
   */
  lemma RaisedIffDefect(full: Entries, raw: Entries, lowOrder: seq<string>, fixedOrder: seq<string>)
    ensures Gathered(CheckOutcomes(full, raw, lowOrder, fixedOrder), |CheckNames|) == [] <==>
      forall i :: 0 <= i < |CheckNames| ==> CheckOutcome(i, full, raw, lowOrder, fixedOrder) == Ok([])
  {
    GatheredEmpty(CheckOutcomes(full, raw, lowOrder, fixedOrder), |CheckNames|);
  }

  // ----- the runner as written -----

  /**
   * The check outcomes as the code is written: `config_lookup` and
   * `check_valid_geometry` read `self.config_dict`, which the class never
   * assigns, so every check but the top-level one raises AttributeError.
   */
  function CheckOutcomesAsWritten(full: Entries): (outs: seq<Outcome>)
    ensures |outs| == |CheckNames|
  {
    [Crash, Crash, Ok(TopLevelErrors(Sections, full)), Crash]
  }

  /** As written, every configuration is rejected, whatever it holds. */
  lemma AlwaysRaisesAsWritten(full: Entries)
    ensures CheckFunctionError(CheckNames[0]) in Gathered(CheckOutcomesAsWritten(full), |CheckNames|)
    ensures CheckFunctionError(CheckNames[3]) in Gathered(CheckOutcomesAsWritten(full), |CheckNames|)
    ensures Gathered(CheckOutcomesAsWritten(full), |CheckNames|) != []
  {
    CrashReported(CheckOutcomesAsWritten(full), 0);
    CrashReported(CheckOutcomesAsWritten(full), 3);
  }
}
