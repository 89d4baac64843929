/**
 * The value bridge: the conversion of a decoded value tree into Python
 * objects, given here as a function, together with a rule-by-rule reference
 * relation and the proof that the two agree.
 */
module Bridge {
  import opened Values
  import opened Python
  import Entries

  /** The Python object a number becomes: the integer view if there is one, else the float view, else `None`. */
  function ConvertNumber(n: JsonNumber): PyObject {
    if n.asI64.Some? then PyInt(n.asI64.value as int)
    else if n.asF64.Some? then PyFloat(n.asF64.value)
    else PyNone
  }

  /** `convert_to_py`: the Python object a decoded value becomes. */
  function Convert(v: Value): PyObject {
    match v
    case Null => PyNone
    case Bool(b) => PyBool(b)
    case Number(n) => ConvertNumber(n)
    case String(s) => PyStr(s)
    case Array(arr) => PyList(seq(|arr|, i requires 0 <= i < |arr| => Convert(arr[i])))
    case Object(obj) =>
      PyDict(Entries.BuildDict(seq(|obj|, i requires 0 <= i < |obj| => (obj[i].0, Convert(obj[i].1)))))
  }

  /** An object's entries with their values converted, in the map's order, before they go into the dict. */
  function ConvertPairs(obj: seq<(string, Value)>): seq<(string, PyObject)> {
    seq(|obj|, i requires 0 <= i < |obj| => (obj[i].0, Convert(obj[i].1)))
  }

  /**
   * The conversion rules, one per variant, stated as a relation between a
   * value and a Python object: the absence value for `Null`, the same boolean,
   * the exact integer of the `i64` view whenever there is one, otherwise the
   * float view, otherwise `None`, the same text, a list converting each
   * element in order, and a dict with the same keys in the same order, each
   * holding its value's conversion.
   */
  ghost predicate Mirrors(v: Value, p: PyObject) {
    match v
    case Null => p == PyNone
    case Bool(b) => p == PyBool(b)
    case Number(n) =>
      if n.asI64.Some? then p.PyInt? && p.i == n.asI64.value as int
      else if n.asF64.Some? then p.PyFloat? && p.f == n.asF64.value
      else p.PyNone?
    case String(s) => p == PyStr(s)
    case Array(arr) =>
      && p.PyList?
      && |p.items| == |arr|
      && forall i | 0 <= i < |arr| :: Mirrors(arr[i], p.items[i])
    case Object(obj) =>
      && p.PyDict?
      && |p.entries| == |obj|
      && forall i | 0 <= i < |obj| :: p.entries[i].0 == obj[i].0 && Mirrors(obj[i].1, p.entries[i].1)
  }

  /** `null` becomes `None`, a boolean the same boolean, a string the same text. */
  lemma ConvertLeaves(b: bool, s: string)
    ensures Convert(Null) == PyNone
    ensures Convert(Bool(b)) == PyBool(b)
    ensures Convert(String(s)) == PyStr(s)
  {
  }

  /** A number becomes an `int` with the exact `i64` value whenever it has that view, even if it also has a float view. */
  lemma ConvertPrefersInteger(n: JsonNumber)
    ensures n.asI64.Some? ==> Convert(Number(n)) == PyInt(n.asI64.value as int)
    ensures n.asI64.None? && n.asF64.Some? ==> Convert(Number(n)) == PyFloat(n.asF64.value)
    ensures n.asI64.None? && n.asF64.None? ==> Convert(Number(n)) == PyNone
  {
  }

  /** An array becomes a list of the same length whose i-th element is the conversion of the i-th element. */
  lemma ConvertArray(arr: seq<Value>)
    ensures Convert(Array(arr)).PyList?
    ensures |Convert(Array(arr)).items| == |arr|
    ensures forall i | 0 <= i < |arr| :: Convert(Array(arr)).items[i] == Convert(arr[i])
  {
  }

  /**
   * An object with distinct keys becomes a dict holding exactly its keys, in
   * the map's iteration order, each mapped to the conversion of its value.
   */
  lemma ConvertObject(obj: seq<(string, Value)>)
    requires Entries.DistinctKeys(obj)
    ensures Convert(Object(obj)).PyDict?
    ensures |Convert(Object(obj)).entries| == |obj|
    ensures forall i | 0 <= i < |obj| ::
      Convert(Object(obj)).entries[i] == (obj[i].0, Convert(obj[i].1))
  {
    var pairs := ConvertPairs(obj);
    assert Entries.DistinctKeys(pairs) by {
      forall i, j | 0 <= i < j < |pairs| ensures pairs[i].0 != pairs[j].0 {
        assert pairs[i].0 == obj[i].0 && pairs[j].0 == obj[j].0;
      }
    }
    Entries.BuildDictDistinct(pairs);
  }

  /** Whatever the object, the dict holds each of its keys exactly once and no other. */
  lemma ConvertObjectKeys(obj: seq<(string, Value)>)
    ensures Convert(Object(obj)).PyDict?
    ensures Entries.DistinctKeys(Convert(Object(obj)).entries)
    ensures Entries.KeySet(Convert(Object(obj)).entries) == Entries.KeySet(obj)
  {
    var pairs := ConvertPairs(obj);
    Entries.BuildDictKeys(pairs);
    assert Entries.KeySet(pairs) == Entries.KeySet(obj) by {
      forall k | k in Entries.KeySet(obj) ensures k in Entries.KeySet(pairs) {
        var i :| 0 <= i < |obj| && obj[i].0 == k;
        assert pairs[i].0 == k;
      }
    }
  }

  /** On every well-formed tree the conversion follows each of the rules, all the way down. */
  lemma {:induction false} ConvertMirrors(v: Value)
    requires WellFormed(v)
    ensures Mirrors(v, Convert(v))
  {
    match v
    case Array(arr) =>
      forall i | 0 <= i < |arr| ensures Mirrors(arr[i], Convert(Array(arr)).items[i]) {
        ConvertMirrors(arr[i]);
      }
    case Object(obj) =>
      ConvertObject(obj);
      forall i | 0 <= i < |obj|
        ensures Convert(Object(obj)).entries[i].0 == obj[i].0
        ensures Mirrors(obj[i].1, Convert(Object(obj)).entries[i].1)
      {
        ConvertMirrors(obj[i].1);
      }
    case _ =>
  }

  /** The rules leave no choice: a Python object that follows them is the conversion. */
  lemma {:induction false} MirrorsOnlyConvert(v: Value, p: PyObject)
    requires WellFormed(v) && Mirrors(v, p)
    ensures p == Convert(v)
  {
    match v
    case Array(arr) =>
      var q := Convert(v);
      forall i | 0 <= i < |arr| ensures p.items[i] == q.items[i] {
        MirrorsOnlyConvert(arr[i], p.items[i]);
      }
      assert p.items == q.items;
    case Object(obj) =>
      var q := Convert(v);
      ConvertObject(obj);
      forall i | 0 <= i < |obj| ensures p.entries[i] == q.entries[i] {
        MirrorsOnlyConvert(obj[i].1, p.entries[i].1);
      }
      assert p.entries == q.entries;
    case _ =>
  }

  /** Together: on well-formed trees the conversion is exactly the object the rules describe. */
  lemma ConvertCharacterised(v: Value, p: PyObject)
    requires WellFormed(v)
    ensures Mirrors(v, p) <==> p == Convert(v)
  {
    if Mirrors(v, p) {
      MirrorsOnlyConvert(v, p);
    } else {
      ConvertMirrors(v);
    }
  }
}
