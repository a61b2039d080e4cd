/**
 * Parsed JSON as the scripts see it after `json.loads`, together with the
 * handful of Python behaviours they apply to such values: truthiness,
 * `dict.get`, `a or b`, iteration with `for`, and `str()` (what an
 * f-string placeholder prints).
 */
module PyJson {
  import opened Wrappers
  import opened Text

  /**
   * A JSON value. A float is kept as the text Python's `str()` gives for
   * it (no arithmetic is done on floats anywhere in the pipeline); an
   * object is its key/value pairs in insertion order, with distinct keys
   * as `json.loads` produces them.
   */
  datatype Json =
    | Null
    | Bool(b: bool)
    | Int(i: int)
    | Float(repr: string)
    | Str(s: string)
    | Array(items: seq<Json>)
    | Object(fields: seq<(string, Json)>)

  type Fields = seq<(string, Json)>

  function Lookup(fs: Fields, key: string): Option<Json>
  {
    if fs == [] then None
    else if fs[0].0 == key then Some(fs[0].1)
    else Lookup(fs[1..], key)
  }

  /** A key is found in `a + b` where it is first found in `a`, and otherwise in `b`. */
  lemma {:induction false} LookupAppend(a: Fields, b: Fields, key: string)
    ensures Lookup(a + b, key) == if Lookup(a, key).Some? then Lookup(a, key) else Lookup(b, key)
  {
    if a == [] {
      assert a + b == b;
    } else {
      assert (a + b)[1..] == a[1..] + b;
      LookupAppend(a[1..], b, key);
    }
  }

  /** A key is found at its first occurrence. */
  lemma {:induction false} LookupAt(fs: Fields, i: nat, key: string)
    requires i < |fs| && fs[i].0 == key
    requires forall j :: 0 <= j < i ==> fs[j].0 != key
    ensures Lookup(fs, key) == Some(fs[i].1)
  {
    if i > 0 {
      LookupAt(fs[1..], i - 1, key);
    }
  }

  /** A key that no entry carries is not found. */
  lemma {:induction false} LookupAbsent(fs: Fields, key: string)
    requires forall j :: 0 <= j < |fs| ==> fs[j].0 != key
    ensures Lookup(fs, key) == None
  {
    if fs != [] {
      LookupAbsent(fs[1..], key);
    }
  }

  /** `d.get(key, default)`. */
  function GetOr(fs: Fields, key: string, default: Json): Json
  {
    match Lookup(fs, key)
    case Some(v) => v
    case None => default
  }

  /** `d.get(key)`: `None` when the key is absent. */
  function Get(fs: Fields, key: string): Json
  {
    GetOr(fs, key, Null)
  }

  /** Python truthiness: `None`, `False`, zero, `""`, `[]` and `{}` are false. */
  predicate Truthy(j: Json)
  {
    match j
    case Null => false
    case Bool(b) => b
    case Int(i) => i != 0
    case Float(r) => r != "0.0" && r != "-0.0"
    case Str(s) => s != ""
    case Array(xs) => xs != []
    case Object(fs) => fs != []
  }

  /** `a or b`. */
  function Or(a: Json, b: Json): Json
  {
    if Truthy(a) then a else b
  }

  /**
   * The values `for x in j` visits: the items of a list, the characters
   * of a string, the keys of a dict; `None` when `j` is not iterable
   * (iterating it raises `TypeError`).
   */
  function Iterate(j: Json): Option<seq<Json>>
  {
    match j
    case Array(xs) => Some(xs)
    case Str(s) => Some(seq(|s|, i requires 0 <= i < |s| => Str([s[i]])))
    case Object(fs) => Some(seq(|fs|, i requires 0 <= i < |fs| => Str(fs[i].0)))
    case _ => None
  }

  /** `str(j)`: what an f-string placeholder prints for `j`. */
  function Show(j: Json): string
  {
    if j.Str? then j.s else Repr(j)
  }

  /** `repr(j)`, with strings quoted by `'` and not escaped. */
  function Repr(j: Json): string
    decreases j
  {
    match j
    case Null => "None"
    case Bool(b) => if b then "True" else "False"
    case Int(i) => IntStr(i)
    case Float(r) => r
    case Str(s) => "'" + s + "'"
    case Array(xs) => "[" + ReprItems(xs) + "]"
    case Object(fs) => "{" + ReprFields(fs) + "}"
  }

  function ReprItems(xs: seq<Json>): string
    decreases xs
  {
    if xs == [] then ""
    else Repr(xs[0]) + (if |xs| == 1 then "" else ", " + ReprItems(xs[1..]))
  }

  function ReprFields(fs: Fields): string
    decreases fs
  {
    if fs == [] then ""
    else
      assert fs[0] in fs && fs[0].1 < fs[0];
      "'" + fs[0].0 + "': " + Repr(fs[0].1)
      + (if |fs| == 1 then "" else ", " + ReprFields(fs[1..]))
  }
}
