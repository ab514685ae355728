/**
 * Parsed JSON values, as the client sees a response body after `response.json()`,
 * with the Python operations the client applies to them: truthiness (`if not x`),
 * `dict.get`, `==`, `type(x).__name__` and `repr`.
 */
module Json {
  import opened Wrappers
  import opened Text

  /** A parsed body; `Null` is Python's `None` (also the result of an empty body). */
  datatype Json =
    | Null
    | Bool(b: bool)
    | Int(i: int)
    | Str(s: string)
    | List(items: seq<Json>)
    | Object(fields: map<string, Json>)

  /** `bool(v)`: None, False, 0, "", [] and {} are falsy. */
  predicate Truthy(v: Json)
  {
    match v
    case Null => false
    case Bool(b) => b
    case Int(i) => i != 0
    case Str(s) => s != ""
    case List(xs) => xs != []
    case Object(m) => m != map[]
  }

  /** `fields.get(key, default)`. */
  function Get(fields: map<string, Json>, key: string, default: Json): Json
  {
    if key in fields then fields[key] else default
  }

  /** `type(v).__name__`. */
  function TypeName(v: Json): string
  {
    match v
    case Null => "NoneType"
    case Bool(_) => "bool"
    case Int(_) => "int"
    case Str(_) => "str"
    case List(_) => "list"
    case Object(_) => "dict"
  }

  /** The integer a value stands for in arithmetic and comparisons (`bool` is a subtype of `int`). */
  function AsNumber(v: Json): Option<int>
  {
    match v
    case Bool(b) => Some(if b then 1 else 0)
    case Int(i) => Some(i)
    case _ => None
  }

  /** Python's `a == b` on parsed values (so `True == 1`, element-wise on lists and dicts). */
  predicate PyEquals(a: Json, b: Json)
    decreases a
  {
    if AsNumber(a).Some? && AsNumber(b).Some? then AsNumber(a) == AsNumber(b)
    else if a.List? && b.List? then
      |a.items| == |b.items| && forall i :: 0 <= i < |a.items| ==> PyEquals(a.items[i], b.items[i])
    else if a.Object? && b.Object? then
      a.fields.Keys == b.fields.Keys && forall k :: k in a.fields ==> PyEquals(a.fields[k], b.fields[k])
    else a == b
  }

  lemma {:induction false} PyEqualsReflexive(a: Json)
    ensures PyEquals(a, a)
    decreases a
  {
    match a
    case List(xs) =>
      forall i | 0 <= i < |xs| ensures PyEquals(xs[i], xs[i]) {
        PyEqualsReflexive(xs[i]);
      }
    case Object(m) =>
      forall k | k in m ensures PyEquals(m[k], m[k]) {
        PyEqualsReflexive(m[k]);
      }
    case _ =>
  }

  /** `repr(v)`; a dict's entries are listed in sorted key order. */
  function Repr(v: Json): string
    decreases v
  {
    match v
    case Null => "None"
    case Bool(b) => if b then "True" else "False"
    case Int(i) => IntToString(i)
    case Str(s) => "'" + s + "'"
    case List(xs) => "[" + Join(seq(|xs|, j requires 0 <= j < |xs| => Repr(xs[j])), ", ") + "]"
    case Object(m) =>
      var keys := Sorted(m.Keys);
      "{" + Join(seq(|keys|, j requires 0 <= j < |keys| => "'" + keys[j] + "': " + Repr(m[keys[j]])), ", ") + "}"
  }

  /** `len(v)`, for the values that have a length. */
  function PyLen(v: Json): Option<nat>
  {
    match v
    case Str(s) => Some(|s|)
    case List(xs) => Some(|xs|)
    case Object(m) => Some(|m|)
    case _ => None
  }

  /** `list(v)`: a list's elements, a string's characters, a dict's keys (in sorted order); None when not iterable. */
  function Iterate(v: Json): (r: Option<seq<Json>>)
    ensures r.Some? <==> PyLen(v).Some?
    ensures r.Some? ==> |r.value| == PyLen(v).value
    ensures v.List? ==> r == Some(v.items)
  {
    match v
    case List(xs) => Some(xs)
    case Str(s) => Some(seq(|s|, i requires 0 <= i < |s| => Str([s[i]])))
    case Object(m) =>
      var keys := Sorted(m.Keys);
      Some(seq(|keys|, i requires 0 <= i < |keys| => Str(keys[i])))
    case _ => None
  }

  /** A truthy value that has a length has a non-zero one. */
  lemma TruthyLength(v: Json)
    requires PyLen(v).Some?
    ensures Truthy(v) <==> PyLen(v).value > 0
  {
    if v.Object? && v.fields != map[] {
      var k :| k in v.fields;
      assert k in v.fields.Keys;
    }
  }

  /** `str(v)`: a string is itself, anything else its `repr`. */
  function PyStr(v: Json): string
  {
    if v.Str? then v.s else Repr(v)
  }
}
