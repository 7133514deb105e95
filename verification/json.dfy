/**
 * The payloads the datastore keeps: the values Python's JSON decoder produces
 * (None, booleans, integers, strings, lists and dicts), plus the raw response
 * text, which is simply a string.
 *
 * A dict is a sequence of (key, value) fields in insertion order, because the
 * zap-count accessor reads the FIRST key of a dict. A decoded dict never
 * repeats a key (`DistinctKeys`); lookups take the first field with the key.
 */
module Json {
  import opened Wrappers

  datatype Json =
    | JNull                                  // Python None / JSON null
    | JBool(b: bool)
    | JNum(n: int)
    | JStr(s: string)
    | JArr(elems: seq<Json>)
    | JObj(fields: seq<(string, Json)>)

  /** The keys of a dict. */
  function KeySet(fields: seq<(string, Json)>): set<string>
  {
    set i | 0 <= i < |fields| :: fields[i].0
  }

  /** No key occurs in two fields, as in every dict the JSON decoder builds. */
  predicate DistinctKeys(fields: seq<(string, Json)>)
  {
    forall i, j :: 0 <= i < j < |fields| ==> fields[i].0 != fields[j].0
  }

  /** Index of the first field holding key `k`. */
  function Find(fields: seq<(string, Json)>, k: string): (i: nat)
    requires k in KeySet(fields)
    ensures i < |fields| && fields[i].0 == k
    ensures forall j :: 0 <= j < i ==> fields[j].0 != k
  {
    if fields[0].0 == k then 0
    else
      assert k in KeySet(fields[1..]) by {
        var j :| 0 <= j < |fields| && fields[j].0 == k;
        assert fields[1..][j - 1].0 == k;
      }
      1 + Find(fields[1..], k)
  }

  /** Python `j[k]` for a string key: a dict lookup; None where Python raises
      (KeyError for a missing key, TypeError for anything but a dict). */
  function Subscript(j: Json, k: string): (r: Option<Json>)
    ensures r.Some? <==> j.JObj? && k in KeySet(j.fields)
    ensures r.Some? ==> exists i :: 0 <= i < |j.fields| && j.fields[i] == (k, r.value)
    ensures j.JObj? && DistinctKeys(j.fields) && r.Some? ==>
              forall i :: 0 <= i < |j.fields| && j.fields[i].0 == k ==> j.fields[i].1 == r.value
  {
    if j.JObj? && k in KeySet(j.fields) then Some(j.fields[Find(j.fields, k)].1) else None
  }

  /** Chained subscripts `j[k0][k1]...`; None as soon as one of them raises. */
  function Path(j: Json, keys: seq<string>): Option<Json>
    decreases |keys|
  {
    if keys == [] then Some(j)
    else match Subscript(j, keys[0])
      case None => None
      case Some(child) => Path(child, keys[1..])
  }

  predicate IsNumber(j: Json)
  {
    j.JBool? || j.JNum?
  }

  /** Python's numeric value of a bool or int (`True == 1`). */
  function Number(j: Json): int
    requires IsNumber(j)
  {
    if j.JBool? then (if j.b then 1 else 0) else j.n
  }

  /**
   * Python's `==` on decoded payloads: numbers by value (so `True == 1`),
   * strings by content, lists element by element, and dicts by key set and the
   * value under each key, whatever the order of their fields.
   */
  function Equal(a: Json, b: Json): (r: bool)
    ensures r ==> (a.JNull? <==> b.JNull?) && (a.JStr? <==> b.JStr?) && (IsNumber(a) <==> IsNumber(b))
    ensures r ==> (a.JArr? <==> b.JArr?) && (a.JObj? <==> b.JObj?)
    ensures a.JNull? || a.JStr? ==> (r <==> a == b)
    ensures IsNumber(a) && IsNumber(b) ==> (r <==> Number(a) == Number(b))
    decreases a
  {
    match a
    case JNull => b.JNull?
    case JBool(_) => IsNumber(b) && Number(a) == Number(b)
    case JNum(_) => IsNumber(b) && Number(a) == Number(b)
    case JStr(s) => b.JStr? && b.s == s
    case JArr(xs) =>
      && b.JArr?
      && |xs| == |b.elems|
      && forall i :: 0 <= i < |xs| ==> Equal(xs[i], b.elems[i])
    case JObj(fs) =>
      && b.JObj?
      && KeySet(fs) == KeySet(b.fields)
      && forall k :: k in KeySet(fs) ==>
           Equal(fs[Find(fs, k)].1, b.fields[Find(b.fields, k)].1)
  }

  /** Every payload equals itself, so comparing the kept payload with itself
      never reports a change. */
  lemma {:induction false} EqualReflexive(a: Json)
    ensures Equal(a, a)
    decreases a
  {
    match a
    case JArr(xs) =>
      forall i | 0 <= i < |xs|
        ensures Equal(xs[i], xs[i])
      {
        EqualReflexive(xs[i]);
      }
    case JObj(fs) =>
      forall k | k in KeySet(fs)
        ensures Equal(fs[Find(fs, k)].1, fs[Find(fs, k)].1)
      {
        EqualReflexive(fs[Find(fs, k)].1);
      }
    case _ =>
  }

  /** Python equality is symmetric on payloads too. */
  lemma {:induction false} EqualSymmetric(a: Json, b: Json)
    requires Equal(a, b)
    ensures Equal(b, a)
    decreases a
  {
    match a
    case JArr(xs) =>
      forall i | 0 <= i < |xs|
        ensures Equal(b.elems[i], xs[i])
      {
        EqualSymmetric(xs[i], b.elems[i]);
      }
    case JObj(fs) =>
      forall k | k in KeySet(b.fields)
        ensures Equal(b.fields[Find(b.fields, k)].1, fs[Find(fs, k)].1)
      {
        EqualSymmetric(fs[Find(fs, k)].1, b.fields[Find(b.fields, k)].1);
      }
    case _ =>
  }

  /** Two dicts holding the same (key, value) fields, in whatever order, are
      equal: a refresh that only reorders a dict's keys is not a change. */
  lemma ReorderedDictsAreEqual(fs: seq<(string, Json)>, gs: seq<(string, Json)>)
    requires DistinctKeys(fs) && DistinctKeys(gs)
    requires forall p :: p in fs <==> p in gs
    ensures Equal(JObj(fs), JObj(gs))
  {
    forall k | k in KeySet(fs) ensures k in KeySet(gs) {
      var i :| 0 <= i < |fs| && fs[i].0 == k;
      assert fs[i] in gs;
    }
    forall k | k in KeySet(gs) ensures k in KeySet(fs) {
      var j :| 0 <= j < |gs| && gs[j].0 == k;
      assert gs[j] in fs;
    }
    forall k | k in KeySet(fs)
      ensures Equal(fs[Find(fs, k)].1, gs[Find(gs, k)].1)
    {
      var i := Find(fs, k);
      assert fs[i] in gs;
      var j :| 0 <= j < |gs| && gs[j] == fs[i];
      assert j == Find(gs, k);
      EqualReflexive(fs[i].1);
    }
  }
}
