/** Runtime values of indicators, the type tags they are checked against,
    and Python's `==` on them. */
module Values {

  datatype Option<T> = None | Some(value: T)

  /** The values an indicator can hold: Python float, int, list and str.
      Numbers are kept exact; only `+`, `*` and `==` are applied to them. */
  datatype Value =
    | VFloat(r: real)
    | VInt(i: int)
    | VList(items: seq<Value>)
    | VStr(s: string)

  /** The declared type of an indicator (the Python class stored in `data_type`). */
  datatype TypeTag = Float | Int | List | Str

  /** The schema's spelling of each type. */
  function TypeName(t: TypeTag): string
  {
    match t
    case Float => "float"
    case Int => "int"
    case List => "list"
    case Str => "str"
  }

  /** The fixed lookup table that stands in for evaluating the schema's type
      name: a name outside the table has no type. */
  function ResolveType(name: string): (r: Option<TypeTag>)
    ensures r.Some? ==> TypeName(r.value) == name
    ensures r.None? <==> forall t: TypeTag :: TypeName(t) != name
  {
    if name == "float" then Some(Float)
    else if name == "int" then Some(Int)
    else if name == "list" then Some(List)
    else if name == "str" then Some(Str)
    else None
  }

  /** `isinstance(v, t)` for the four supported classes. */
  predicate Conforms(v: Value, t: TypeTag)
  {
    match t
    case Float => v.VFloat?
    case Int => v.VInt?
    case List => v.VList?
    case Str => v.VStr?
  }

  /** The class every value is an instance of; it is the only one. */
  function TagOf(v: Value): (t: TypeTag)
    ensures Conforms(v, t)
    ensures forall u: TypeTag :: Conforms(v, u) ==> u == t
  {
    match v
    case VFloat(_) => Float
    case VInt(_) => Int
    case VList(_) => List
    case VStr(_) => Str
  }

  /** What calling the type with no argument yields: 0.0, 0, [] or "". */
  function Zero(t: TypeTag): (v: Value)
    ensures Conforms(v, t)
    ensures v == VFloat(0.0) || v == VInt(0) || v == VList([]) || v == VStr("")
  {
    match t
    case Float => VFloat(0.0)
    case Int => VInt(0)
    case List => VList([])
    case Str => VStr("")
  }

  /** Python's `==`: an int equals a float of the same magnitude, lists are
      equal when they have the same length and equal elements, and values of
      otherwise different kinds are never equal. Every value equals itself,
      so writing back an unchanged value never marks its indicator as
      changed; a list equals only a list and a string only a string. */
  predicate PyEq(a: Value, b: Value): (r: bool)
    ensures a == b ==> r
    ensures r ==> (a.VList? <==> b.VList?) && (a.VStr? <==> b.VStr?)
    decreases a
  {
    match a
    case VFloat(x) =>
      (b.VFloat? && b.r == x) || (b.VInt? && b.i as real == x)
    case VInt(n) =>
      (b.VInt? && b.i == n) || (b.VFloat? && b.r == n as real)
    case VStr(s) =>
      b.VStr? && b.s == s
    case VList(xs) =>
      b.VList? && |b.items| == |xs| &&
      forall k :: 0 <= k < |xs| ==> PyEq(xs[k], b.items[k])
  }

  /** Python's `!=` on these values does not depend on the order of its operands. */
  lemma {:induction false} PyEqSymmetric(a: Value, b: Value)
    requires PyEq(a, b)
    ensures PyEq(b, a)
    decreases a
  {
    match a
    case VList(xs) =>
      forall k | 0 <= k < |xs|
        ensures PyEq(b.items[k], xs[k])
      {
        PyEqSymmetric(xs[k], b.items[k]);
      }
    case _ =>
  }

  /** Equality across kinds: the int 1 equals the float 1.0, yet the two
      values are different. */
  lemma IntEqualsFloat()
    ensures PyEq(VInt(1), VFloat(1.0)) && VInt(1) != VFloat(1.0)
  {
  }
}
