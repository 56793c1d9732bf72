/**
 * The parsed configuration tree and the keyed view of it that the checks use:
 * dictionary subscripting, lookup along a dotted path (the stand-in for
 * building `['A']['B']` strings and evaluating them), and keypath enumeration
 * (the stand-in for `KeyPathDict.keypaths()`).
 */
module ConfigTree {
  import opened Outcomes
  import opened Strings

  /**
   * A value of the parsed configuration. A mapping keeps its entries in
   * insertion order, because the checks walk keys in that order and the order
   * of their messages follows it.
   */
  datatype Value =
    | VMap(entries: seq<(string, Value)>)
    | VList(items: seq<Value>)
    | VStr(s: string)
    | VNum(r: real)
    | VBool(b: bool)
    | VNull

  /** The contents of a dictionary, in key order. */
  type Entries = seq<(string, Value)>

  /** Python `d.keys()`. */
  function Keys(e: Entries): (ks: seq<string>)
    ensures |ks| == |e|
    ensures forall i :: 0 <= i < |e| ==> ks[i] == e[i].0
  {
    seq(|e|, i requires 0 <= i < |e| => e[i].0)
  }

  /** Python `d[k]` on a dictionary whose keys are unique: absent keys give `None`. */
  function Get(e: Entries, k: string): (r: Option<Value>)
    ensures r.None? <==> k !in Keys(e)
    ensures r.Some? ==> (k, r.value) in e
  {
    if e == [] then None
    else if e[0].0 == k then Some(e[0].1)
    else
      var r := Get(e[1..], k);
      assert forall j :: 1 <= j < |e| ==> Keys(e)[j] == Keys(e[1..])[j - 1];
      r
  }

  /**
   * Python `v[k]` with a string key where the code does not catch the error:
   * a missing key (KeyError) and a value that is not a dictionary (TypeError)
   * both abort the check.
   */
  function Subscript(v: Value, k: string): (r: Result<Value>)
    ensures r.Ok? <==> v.VMap? && k in Keys(v.entries)
    ensures r.Ok? ==> (k, r.value) in v.entries
  {
    if v.VMap? then
      match Get(v.entries, k)
      case Some(c) => Ok(c)
      case None => Crash
    else Crash
  }

  /** How a chain of subscripts `v[p0][p1]...` ends. */
  datatype Resolution =
    | Found(node: Value)
    | KeyMissing          // KeyError: some dictionary on the way lacks the key
    | NotSubscriptable    // TypeError: a string, number, list or None on the way

  /** Follows `path` from `v` one dictionary subscript at a time. */
  function Lookup(v: Value, path: seq<string>): Resolution
    decreases path
  {
    if path == [] then Found(v)
    else
      match v
      case VMap(e) =>
        (match Get(e, path[0])
         case None => KeyMissing
         case Some(c) => Lookup(c, path[1..]))
      case _ => NotSubscriptable
  }

  /** What Python dictionaries guarantee, plus keys free of the path separator. */
  predicate WellFormed(v: Value)
    decreases v
  {
    match v
    case VMap(e) =>
      (forall i, j :: 0 <= i < j < |e| ==> e[i].0 != e[j].0) &&
      (forall i :: 0 <= i < |e| ==> '.' !in e[i].0 && WellFormed(e[i].1))
    case _ => true
  }

  function Prefixed(p: string, s: seq<string>): (r: seq<string>)
    ensures |r| == |s| && forall i :: 0 <= i < |s| ==> r[i] == p + s[i]
  {
    seq(|s|, i requires 0 <= i < |s| => p + s[i])
  }

  /**
   * The keypaths of the entries `owner.entries[i..]`: each key, followed by
   * the keypaths below it when its value is itself a dictionary, joined with
   * the separator `.`.
   */
  function KeypathsFrom(owner: Value, i: nat): seq<string>
    requires owner.VMap? && i <= |owner.entries|
    decreases owner, |owner.entries| - i
  {
    if i == |owner.entries| then []
    else
      var (k, v) := owner.entries[i];
      [k] + (if v.VMap? then Prefixed(k + ".", KeypathsFrom(v, 0)) else []) + KeypathsFrom(owner, i + 1)
  }

  /** `KeyPathDict(d, keypath_separator='.').keypaths()`: every node of `d`, in order. */
  function Keypaths(e: Entries): seq<string> {
    KeypathsFrom(VMap(e), 0)
  }

  lemma {:induction false} GetUnique(e: Entries, j: nat)
    requires j < |e|
    requires forall a, b :: 0 <= a < b < |e| ==> e[a].0 != e[b].0
    ensures Get(e, e[j].0) == Some(e[j].1)
  {
    if j > 0 {
      assert e[0].0 != e[j].0;
      GetUnique(e[1..], j - 1);
      assert e[1..][j - 1] == e[j];
    }
  }

  /** Every keypath, split at its dots, leads to a node of the tree. */
  lemma {:induction false} KeypathResolves(owner: Value, i: nat, kp: string)
    requires owner.VMap? && i <= |owner.entries| && WellFormed(owner)
    requires kp in KeypathsFrom(owner, i)
    ensures Lookup(owner, Split(kp, '.')).Found?
    decreases owner, |owner.entries| - i
  {
    var e := owner.entries;
    var (k, v) := e[i];
    var below := if v.VMap? then Prefixed(k + ".", KeypathsFrom(v, 0)) else [];
    assert KeypathsFrom(owner, i) == [k] + below + KeypathsFrom(owner, i + 1);
    GetUnique(e, i);
    assert '.' !in k && WellFormed(v);
    if kp == k {
      SplitNoSeparator(k, '.');
    } else if kp in below {
      var n :| 0 <= n < |below| && below[n] == kp;
      var rest := KeypathsFrom(v, 0)[n];
      KeypathResolves(v, 0, rest);
      assert kp == k + ['.'] + rest;
      SplitAtSeparator(k, '.', rest);
    } else {
      KeypathResolves(owner, i + 1, kp);
    }
  }

  lemma {:induction false} EntryKeypaths(owner: Value, i: nat, j: nat)
    requires owner.VMap? && i <= j < |owner.entries|
    ensures owner.entries[j].0 in KeypathsFrom(owner, i)
    ensures owner.entries[j].1.VMap? ==>
      forall x :: x in KeypathsFrom(owner.entries[j].1, 0) ==>
        owner.entries[j].0 + "." + x in KeypathsFrom(owner, i)
    decreases j - i
  {
    var (k, v) := owner.entries[i];
    var below := if v.VMap? then Prefixed(k + ".", KeypathsFrom(v, 0)) else [];
    assert KeypathsFrom(owner, i) == [k] + below + KeypathsFrom(owner, i + 1);
    if j > i {
      EntryKeypaths(owner, i + 1, j);
    } else if v.VMap? {
      forall x | x in KeypathsFrom(v, 0)
        ensures k + "." + x in KeypathsFrom(owner, i)
      {
        var n :| 0 <= n < |KeypathsFrom(v, 0)| && KeypathsFrom(v, 0)[n] == x;
        assert below[n] == k + "." + x;
      }
    }
  }

  /** Conversely, every non-empty path that leads to a node is listed as a keypath. */
  lemma {:induction false} ResolvedPathIsKeypath(owner: Value, path: seq<string>)
    requires owner.VMap? && path != []
    requires Lookup(owner, path).Found?
    ensures Join(path, ".") in KeypathsFrom(owner, 0)
    decreases path
  {
    var e := owner.entries;
    var c := Get(e, path[0]).value;
    var j :| 0 <= j < |e| && e[j] == (path[0], c);
    EntryKeypaths(owner, 0, j);
    if |path| > 1 {
      assert c.VMap?;
      ResolvedPathIsKeypath(c, path[1..]);
    }
  }

  /** The three ways Python `float(x)` can end. */
  datatype Conversion =
    | Converted(r: real)
    | NotConvertible   // TypeError: a dictionary, list or None
    | Malformed        // ValueError: a string that is not a number

  /** Python `float(x)` for a configuration value. */
  function FloatOf(v: Value): (c: Conversion)
    ensures c.NotConvertible? <==> v.VMap? || v.VList? || v.VNull?
    ensures v.VNum? ==> c == Converted(v.r)
  {
    match v
    case VNum(r) => Converted(r)
    case VBool(b) => Converted(if b then 1.0 else 0.0)
    case VStr(s) => (match ParseFloat(s) case Some(r) => Converted(r) case None => Malformed)
    case _ => NotConvertible
  }
}
