/** Typed value cells and the avatar's contents seen as a value: organ name
    to indicator name to indicator. */
module Indicators {
  import opened Values

  /** A named, typed value cell (class `Indicator`, Avatar.py:4-23). */
  datatype Indicator = Indicator(name: string, dataType: TypeTag, value: Value)

  /** `Indicator(name, data_type, value=None)`: a missing initial value is
      replaced by the zero value of the declared type. The supplied value is
      not checked against the type. */
  function NewIndicator(name: string, dataType: TypeTag, initial: Option<Value>): (ind: Indicator)
    ensures ind.name == name && ind.dataType == dataType
    ensures initial.None? ==> ind.value == Zero(dataType) && Conforms(ind.value, dataType)
    ensures initial.Some? ==> ind.value == initial.value
  {
    Indicator(name, dataType, if initial.Some? then initial.value else Zero(dataType))
  }

  /** The failures the core raises: a missing organ or indicator (KeyError),
      a value of the wrong type (ValueError), a type name that does not
      resolve, and a formula expression that cannot be evaluated. */
  datatype Error =
    | NotFound(key: string)
    | TypeMismatch(indicator: string)
    | UnknownType(typeName: string)
    | ExpressionError

  /** An (organ name, indicator name) pair. */
  type Key = (string, string)

  /** Organ name to indicator name to indicator. */
  type Store = map<string, map<string, Indicator>>

  predicate Has(st: Store, k: Key)
  {
    k.0 in st && k.1 in st[k.0]
  }

  function At(st: Store, k: Key): Indicator
    requires Has(st, k)
  {
    st[k.0][k.1]
  }

  /** `st` with the value of the indicator at `k` replaced; its name and
      declared type stay. */
  function Write(st: Store, k: Key, v: Value): (st': Store)
    requires Has(st, k)
    ensures Has(st', k) && At(st', k) == At(st, k).(value := v)
    ensures SameShape(st, st')
    ensures forall q: Key :: Has(st, q) && q != k ==> At(st', q) == At(st, q)
  {
    st[k.0 := st[k.0][k.1 := At(st, k).(value := v)]]
  }

  /** The same organs, each with the same indicator names. */
  predicate SameShape(a: Store, b: Store)
  {
    a.Keys == b.Keys && forall o :: o in a ==> a[o].Keys == b[o].Keys
  }

  /** Every indicator's value is an instance of its declared type. */
  ghost predicate Conforming(st: Store)
  {
    forall k: Key :: Has(st, k) ==> Conforms(At(st, k).value, At(st, k).dataType)
  }

  /** Every indicator is stored under its own name. */
  ghost predicate NamesMatch(st: Store)
  {
    forall k: Key :: Has(st, k) ==> At(st, k).name == k.1
  }

  /** `b` has the shape of `a`, every indicator keeps its name and declared
      type, and only indicators at keys in `touched` may hold another value. */
  ghost predicate OnlyChanged(a: Store, b: Store, touched: set<Key>)
  {
    && SameShape(a, b)
    && (forall k: Key :: Has(a, k) ==>
          At(b, k).name == At(a, k).name && At(b, k).dataType == At(a, k).dataType)
    && (forall k: Key :: Has(a, k) && k !in touched ==> At(b, k) == At(a, k))
  }

  lemma SameShapeHas(a: Store, b: Store, k: Key)
    requires SameShape(a, b)
    ensures Has(a, k) <==> Has(b, k)
  {
  }

  /** Changes compose: touching `s` and then `t` touches at most `s + t`. */
  lemma OnlyChangedTrans(a: Store, b: Store, c: Store, s: set<Key>, t: set<Key>)
    requires OnlyChanged(a, b, s) && OnlyChanged(b, c, t)
    ensures OnlyChanged(a, c, s + t)
  {
    forall k: Key | Has(a, k)
      ensures Has(b, k)
    {
      SameShapeHas(a, b, k);
    }
  }

  /** A store in which every value is unchanged except for its declared
      type and name keeps conformance and matching names. */
  lemma OnlyChangedKeeps(a: Store, b: Store, touched: set<Key>)
    requires OnlyChanged(a, b, touched)
    requires NamesMatch(a)
    requires forall k: Key :: Has(b, k) && k in touched ==> Conforms(At(b, k).value, At(b, k).dataType)
    requires forall k: Key :: Has(a, k) && k !in touched ==> Conforms(At(a, k).value, At(a, k).dataType)
    ensures NamesMatch(b) && Conforming(b)
  {
    forall k: Key | Has(b, k)
      ensures Has(a, k)
    {
      SameShapeHas(a, b, k);
    }
  }
}
