/** JSON documents as Python's json module loads them, and the small readers the checker applies to them. */
module Json {

  datatype Option<+T> = None | Some(value: T)

  /** A number keeps whether it was written as a float: Python compares 1 and 1.0 equal but prints them apart. */
  datatype Json =
    | Null
    | Bool(b: bool)
    | Num(n: real, float: bool)
    | Str(s: string)
    | Arr(items: seq<Json>)
    | Obj(fields: map<string, Json>)

  type Object = map<string, Json>

  /** The members of a mapping; no members for anything else. */
  function Fields(j: Json): Object {
    if j.Obj? then j.fields else map[]
  }

  /** The elements of a list; none for anything else. */
  function Elements(j: Json): seq<Json> {
    if j.Arr? then j.items else []
  }

  /** `dict.get`: a missing member reads as null. */
  function Get(m: Object, key: string): Json {
    if key in m then m[key] else Null
  }

  /** `dict.get` with a default, which an explicit null does not trigger. */
  function GetOr(m: Object, key: string, default: Json): Json {
    if key in m then m[key] else default
  }

  /** The strings of a list, in order. */
  function Strings(j: Json): seq<string> {
    OnlyStrings(Elements(j))
  }

  function OnlyStrings(xs: seq<Json>): seq<string> {
    if xs == [] then []
    else (if xs[0].Str? then [xs[0].s] else []) + OnlyStrings(xs[1..])
  }

  function StringSet(j: Json): set<string> {
    set s <- Strings(j)
  }

  /** Python's `bool(value)`. */
  predicate Truthy(j: Json) {
    match j
    case Null => false
    case Bool(b) => b
    case Num(n, _) => n != 0.0
    case Str(s) => s != ""
    case Arr(items) => items != []
    case Obj(fields) => fields != map[]
  }

  /** `isinstance(value, (int, float))`, which admits booleans. */
  predicate IsNumber(j: Json) {
    j.Num? || j.Bool?
  }

  function NumberOf(j: Json): real
    requires IsNumber(j)
  {
    if j.Num? then j.n else if j.b then 1.0 else 0.0
  }

  /** Python's `==`: booleans compare as the numbers 0 and 1, an int equals the float of its value. */
  predicate PyEq(a: Json, b: Json) {
    if IsNumber(a) && IsNumber(b) then NumberOf(a) == NumberOf(b)
    else if a.Arr? && b.Arr? then
      |a.items| == |b.items| && forall i :: 0 <= i < |a.items| ==> PyEq(a.items[i], b.items[i])
    else if a.Obj? && b.Obj? then
      a.fields.Keys == b.fields.Keys && forall k :: k in a.fields ==> PyEq(a.fields[k], b.fields[k])
    else a == b
  }

  /** Instance equality of JSON Schema Core 2020-12, section 4.2.2: numbers by value, booleans apart from numbers. */
  predicate JsonEq(a: Json, b: Json) {
    if a.Num? && b.Num? then a.n == b.n
    else if a.Arr? && b.Arr? then
      |a.items| == |b.items| && forall i :: 0 <= i < |a.items| ==> JsonEq(a.items[i], b.items[i])
    else if a.Obj? && b.Obj? then
      a.fields.Keys == b.fields.Keys && forall k :: k in a.fields ==> JsonEq(a.fields[k], b.fields[k])
    else a == b
  }

  /** Corresponding scalars are of the same kind: no boolean stands opposite a number, no int opposite a float. */
  predicate KindsAgree(a: Json, b: Json) {
    match (a, b)
    case (Bool(_), Num(_, _)) => false
    case (Num(_, _), Bool(_)) => false
    case (Num(_, f), Num(_, g)) => f == g
    case (Arr(xs), Arr(ys)) => forall i :: 0 <= i < |xs| && i < |ys| ==> KindsAgree(xs[i], ys[i])
    case (Obj(m), Obj(w)) => forall k :: k in m && k in w ==> KindsAgree(m[k], w[k])
    case _ => true
  }

  /** Python's equality is identity exactly up to the number kinds it blurs. */
  lemma {:induction false} PyEqIsIdentityUpToKinds(a: Json, b: Json)
    ensures a == b <==> PyEq(a, b) && KindsAgree(a, b)
  {
    match (a, b) {
      case (Arr(xs), Arr(ys)) =>
        forall i | 0 <= i < |xs| && i < |ys|
          ensures xs[i] == ys[i] <==> PyEq(xs[i], ys[i]) && KindsAgree(xs[i], ys[i])
        {
          PyEqIsIdentityUpToKinds(xs[i], ys[i]);
        }
      case (Obj(m), Obj(w)) =>
        forall k | k in m && k in w
          ensures m[k] == w[k] <==> PyEq(m[k], w[k]) && KindsAgree(m[k], w[k])
        {
          PyEqIsIdentityUpToKinds(m[k], w[k]);
        }
      case _ =>
    }
  }

  lemma {:induction false} PyEqReflexive(a: Json)
    ensures PyEq(a, a)
  {
    match a {
      case Arr(xs) => forall i | 0 <= i < |xs| ensures PyEq(xs[i], xs[i]) { PyEqReflexive(xs[i]); }
      case Obj(m) => forall k | k in m ensures PyEq(m[k], m[k]) { PyEqReflexive(m[k]); }
      case _ =>
    }
  }

  lemma {:induction false} PyEqSymmetric(a: Json, b: Json)
    requires PyEq(a, b)
    ensures PyEq(b, a)
  {
    match a {
      case Arr(xs) => forall i | 0 <= i < |xs| ensures PyEq(b.items[i], xs[i]) { PyEqSymmetric(xs[i], b.items[i]); }
      case Obj(m) => forall k | k in m ensures PyEq(b.fields[k], m[k]) { PyEqSymmetric(m[k], b.fields[k]); }
      case _ =>
    }
  }

  lemma {:induction false} PyEqTransitive(a: Json, b: Json, c: Json)
    requires PyEq(a, b) && PyEq(b, c)
    ensures PyEq(a, c)
  {
    match a {
      case Arr(xs) =>
        forall i | 0 <= i < |xs| ensures PyEq(xs[i], c.items[i]) {
          PyEqTransitive(xs[i], b.items[i], c.items[i]);
        }
      case Obj(m) =>
        forall k | k in m ensures PyEq(m[k], c.fields[k]) {
          PyEqTransitive(m[k], b.fields[k], c.fields[k]);
        }
      case _ =>
    }
  }

  /** Every `$ref` string that occurs anywhere inside a value. */
  function Refs(j: Json): set<string> {
    match j
    case Arr(items) => set i, r | 0 <= i < |items| && r in Refs(items[i]) :: r
    case Obj(m) =>
      (if "$ref" in m && m["$ref"].Str? then {m["$ref"].s} else {})
      + set k, r | k in m && r in Refs(m[k]) :: r
    case _ => {}
  }

  /** The reference a mapping holds, if it holds one as a string. */
  function RefOf(j: Json): Option<string> {
    if j.Obj? && "$ref" in j.fields && j.fields["$ref"].Str? then Some(j.fields["$ref"].s) else None
  }
}
