/** A small closed language for formula expressions. It stands in for the
    general evaluator the source hands each expression to. An expression sees
    exactly two values: `value` (the target's current value) and
    `trigger_value` (the trigger's current value). Its operators follow
    Python's `+`, `*` and `[*xs, y]` on the supported values. */
module Expressions {
  import opened Values

  datatype Expr =
    | Current                          // `value`
    | Trigger                          // `trigger_value`
    | Lit(v: Value)                    // a constant
    | Plus(left: Expr, right: Expr)    // `left + right`
    | Times(left: Expr, right: Expr)   // `left * right`
    | Splat(items: Expr, last: Expr)   // `[*items, last]`

  /** Python's `s * n` on a list or string: `n` copies, none when n <= 0. */
  function Repeat<T>(s: seq<T>, n: int): (r: seq<T>)
    ensures |r| == if n <= 0 then 0 else n * |s|
    ensures |s| > 0 ==> forall i :: 0 <= i < |r| ==> r[i] == s[i % |s|]
    decreases n
  {
    if n <= 0 || |s| == 0 then []
    else
      assert n * |s| == (n - 1) * |s| + |s|;
      ModInLastBlock(|s|, n - 1);
      Repeat(s, n - 1) + s
  }

  /** Within the block of `k` positions after `q` full blocks, the
      remainder modulo `k` is the offset into the block. */
  lemma {:induction false} ModInLastBlock(k: int, q: nat)
    requires k > 0
    ensures forall i :: q * k <= i < q * k + k ==> i % k == i - q * k
  {
    forall i | q * k <= i < q * k + k
      ensures i % k == i - q * k
    {
      var d := i / k - q;
      assert k * d == (i - q * k) - i % k;
      MulSign(k, d);
    }
  }

  /** A non-zero multiple of `k` is at least `k` away from zero. */
  lemma MulSign(k: int, d: int)
    requires k > 0
    ensures d >= 1 ==> k * d >= k
    ensures d <= -1 ==> k * d <= -k
  {
    if d >= 1 {
      assert k * d == k + k * (d - 1);
    } else if d <= -1 {
      assert k * d == -k + k * (d + 1);
    }
  }

  /** The elements that `*s` unpacks from a list or a string (a string
      unpacks into its one-character strings); None for a number. */
  function Unpack(v: Value): (r: Option<seq<Value>>)
    ensures r.Some? <==> (v.VList? || v.VStr?)
    ensures v.VList? ==> r == Some(v.items)
    ensures v.VStr? ==>
      r.Some? && |r.value| == |v.s| && forall k :: 0 <= k < |v.s| ==> r.value[k] == VStr([v.s[k]])
  {
    match v
    case VList(xs) => Some(xs)
    case VStr(s) => Some(seq(|s|, k requires 0 <= k < |s| => VStr([s[k]])))
    case _ => None
  }

  /** Python's `a + b`: numbers add (an int with a float gives a float),
      lists and strings concatenate; any other pair is a TypeError (None). */
  function Add(a: Value, b: Value): (r: Option<Value>)
    ensures r.Some? <==>
      ((a.VFloat? || a.VInt?) && (b.VFloat? || b.VInt?)) ||
      (a.VList? && b.VList?) || (a.VStr? && b.VStr?)
    ensures a.VList? && b.VList? ==> r == Some(VList(a.items + b.items))
  {
    match (a, b)
    case (VFloat(x), VFloat(y)) => Some(VFloat(x + y))
    case (VFloat(x), VInt(n)) => Some(VFloat(x + n as real))
    case (VInt(n), VFloat(y)) => Some(VFloat(n as real + y))
    case (VInt(m), VInt(n)) => Some(VInt(m + n))
    case (VList(xs), VList(ys)) => Some(VList(xs + ys))
    case (VStr(s), VStr(t)) => Some(VStr(s + t))
    case _ => None
  }

  /** Python's `a * b`: numbers multiply, a list or string times an int
      repeats it; any other pair is a TypeError (None). */
  function Mul(a: Value, b: Value): (r: Option<Value>)
    ensures r.Some? <==>
      ((a.VFloat? || a.VInt?) && (b.VFloat? || b.VInt?)) ||
      ((a.VList? || a.VStr?) && b.VInt?) || (a.VInt? && (b.VList? || b.VStr?))
  {
    match (a, b)
    case (VFloat(x), VFloat(y)) => Some(VFloat(x * y))
    case (VFloat(x), VInt(n)) => Some(VFloat(x * n as real))
    case (VInt(n), VFloat(y)) => Some(VFloat(n as real * y))
    case (VInt(m), VInt(n)) => Some(VInt(m * n))
    case (VList(xs), VInt(n)) => Some(VList(Repeat(xs, n)))
    case (VInt(n), VList(xs)) => Some(VList(Repeat(xs, n)))
    case (VStr(s), VInt(n)) => Some(VStr(Repeat(s, n)))
    case (VInt(n), VStr(s)) => Some(VStr(Repeat(s, n)))
    case _ => None
  }

  /** Evaluates `e` with `value` bound to `current` and `trigger_value` bound
      to `trigger`. None is an ExpressionError: an operator applied to values
      it does not accept. */
  function Eval(e: Expr, current: Value, trigger: Value): Option<Value>
  {
    match e
    case Current => Some(current)
    case Trigger => Some(trigger)
    case Lit(v) => Some(v)
    case Plus(l, r) =>
      (match (Eval(l, current, trigger), Eval(r, current, trigger))
       case (Some(x), Some(y)) => Add(x, y)
       case _ => None)
    case Times(l, r) =>
      (match (Eval(l, current, trigger), Eval(r, current, trigger))
       case (Some(x), Some(y)) => Mul(x, y)
       case _ => None)
    case Splat(items, last) =>
      (match (Eval(items, current, trigger), Eval(last, current, trigger))
       case (Some(x), Some(y)) =>
         (match Unpack(x)
          case Some(xs) => Some(VList(xs + [y]))
          case None => None)
       case _ => None)
  }

  /** The type `e` produces when `value` has type `ct` and `trigger_value`
      has type `tt`, or None when some operator in it may be misapplied. */
  function TypeOf(e: Expr, ct: TypeTag, tt: TypeTag): Option<TypeTag>
  {
    match e
    case Current => Some(ct)
    case Trigger => Some(tt)
    case Lit(v) => Some(TagOf(v))
    case Plus(l, r) =>
      (match (TypeOf(l, ct, tt), TypeOf(r, ct, tt))
       case (Some(a), Some(b)) => AddType(a, b)
       case _ => None)
    case Times(l, r) =>
      (match (TypeOf(l, ct, tt), TypeOf(r, ct, tt))
       case (Some(a), Some(b)) => MulType(a, b)
       case _ => None)
    case Splat(items, last) =>
      (match (TypeOf(items, ct, tt), TypeOf(last, ct, tt))
       case (Some(a), Some(_)) => if a == List || a == Str then Some(List) else None
       case _ => None)
  }

  function AddType(a: TypeTag, b: TypeTag): Option<TypeTag>
  {
    match (a, b)
    case (Int, Int) => Some(Int)
    case (Float, Float) => Some(Float)
    case (Float, Int) => Some(Float)
    case (Int, Float) => Some(Float)
    case (List, List) => Some(List)
    case (Str, Str) => Some(Str)
    case _ => None
  }

  function MulType(a: TypeTag, b: TypeTag): Option<TypeTag>
  {
    match (a, b)
    case (Int, Int) => Some(Int)
    case (Float, Float) => Some(Float)
    case (Float, Int) => Some(Float)
    case (Int, Float) => Some(Float)
    case (List, Int) => Some(List)
    case (Int, List) => Some(List)
    case (Str, Int) => Some(Str)
    case (Int, Str) => Some(Str)
    case _ => None
  }

  /** `+` and `*` accept every pair of values of the types their typing
      accepts, and give a value of the type it predicts. */
  lemma AddSound(x: Value, y: Value, a: TypeTag, b: TypeTag)
    requires Conforms(x, a) && Conforms(y, b) && AddType(a, b).Some?
    ensures Add(x, y).Some? && Conforms(Add(x, y).value, AddType(a, b).value)
  {
  }

  lemma MulSound(x: Value, y: Value, a: TypeTag, b: TypeTag)
    requires Conforms(x, a) && Conforms(y, b) && MulType(a, b).Some?
    ensures Mul(x, y).Some? && Conforms(Mul(x, y).value, MulType(a, b).value)
  {
  }

  /** Typing is sound: a typed expression evaluated on values of the assumed
      types never fails and yields a value of the type it was given. */
  lemma {:induction false} EvalSound(e: Expr, ct: TypeTag, tt: TypeTag, current: Value, trigger: Value)
    requires Conforms(current, ct) && Conforms(trigger, tt)
    requires TypeOf(e, ct, tt).Some?
    ensures Eval(e, current, trigger).Some?
    ensures Conforms(Eval(e, current, trigger).value, TypeOf(e, ct, tt).value)
  {
    match e
    case Current =>
    case Trigger =>
    case Lit(v) =>
    case Plus(l, r) =>
      EvalSound(l, ct, tt, current, trigger);
      EvalSound(r, ct, tt, current, trigger);
      AddSound(Eval(l, current, trigger).value, Eval(r, current, trigger).value,
               TypeOf(l, ct, tt).value, TypeOf(r, ct, tt).value);
    case Times(l, r) =>
      EvalSound(l, ct, tt, current, trigger);
      EvalSound(r, ct, tt, current, trigger);
      MulSound(Eval(l, current, trigger).value, Eval(r, current, trigger).value,
               TypeOf(l, ct, tt).value, TypeOf(r, ct, tt).value);
    case Splat(items, last) =>
      EvalSound(items, ct, tt, current, trigger);
      EvalSound(last, ct, tt, current, trigger);
  }
}
