/** The propagation engine (`Avatar.apply_formulas`, Avatar.py:110-138) as
    functions on the store: one rule, one pass over the rule list, and the
    loop of passes that runs until the frontier of changed indicators is
    empty. */
module Propagation {
  import opened Values
  import opened Expressions
  import opened Indicators

  /** A formula rule: when `trigger` has changed, `target` is set to `expr`. */
  datatype Formula = Formula(trigger: Key, target: Key, expr: Expr)

  /** The indicators some rule of `fs` writes. */
  function Targets(fs: seq<Formula>): set<Key>
  {
    set f | f in fs :: f.target
  }

  lemma TargetsPrefix(fs: seq<Formula>, n: nat)
    requires n <= |fs|
    ensures Targets(fs[..n]) <= Targets(fs)
  {
    forall k | k in Targets(fs[..n])
      ensures k in Targets(fs)
    {
      var f :| f in fs[..n] && f.target == k;
      assert f in fs;
    }
  }

  /** The result of evaluating one rule: the store with the target written
      and whether its value changed, or the failure that stopped it. */
  datatype Fired = Wrote(store: Store, changed: bool) | Broke(err: Error)

  /** One rule, as the body of the inner loop runs it (Avatar.py:124-137):
      look up the target, then the trigger, evaluate the expression with
      `value` and `trigger_value` bound, write the result into the target
      whatever it is, and report a change when Python's `!=` holds between
      the old and the new value. No type check is made on the result. */
  function Fire(st: Store, f: Formula): (r: Fired)
    ensures r.Broke? <==>
      !Has(st, f.target) || !Has(st, f.trigger) ||
      Eval(f.expr, At(st, f.target).value, At(st, f.trigger).value).None?
    ensures r.Wrote? ==>
      OnlyChanged(st, r.store, {f.target}) &&
      At(r.store, f.target).value == Eval(f.expr, At(st, f.target).value, At(st, f.trigger).value).value &&
      (r.changed <==> !PyEq(At(st, f.target).value, At(r.store, f.target).value))
  {
    var (o, i) := f.target;
    if o !in st then Broke(NotFound(o))
    else if i !in st[o] then Broke(NotFound(i))
    else
      var current := st[o][i].value;
      var (p, j) := f.trigger;
      if p !in st then Broke(NotFound(p))
      else if j !in st[p] then Broke(NotFound(j))
      else
        match Eval(f.expr, current, st[p][j].value)
        case None => Broke(ExpressionError)
        case Some(v) => Wrote(Write(st, f.target, v), !PyEq(current, v))
  }

  /** The state of a pass: the store so far, the next frontier so far, and
      the failure that aborted the pass, if any. */
  datatype Run = Run(store: Store, next: set<Key>, failure: Option<Error>)

  /** One pass of the outer loop over the rules `fs` in stored order
      (Avatar.py:120-137). A rule runs only when its trigger is in
      `frontier`; it sees the writes of the rules before it; a failure
      ends the pass and keeps the writes made so far. */
  function Pass(st: Store, fs: seq<Formula>, frontier: set<Key>): Run
    decreases |fs|
  {
    if |fs| == 0 then Run(st, {}, None)
    else
      var r := Pass(st, fs[..|fs| - 1], frontier);
      var f := fs[|fs| - 1];
      if r.failure.Some? || f.trigger !in frontier then r
      else
        match Fire(r.store, f)
        case Broke(e) => r.(failure := Some(e))
        case Wrote(st', changed) => Run(st', if changed then r.next + {f.target} else r.next, None)
  }

  /** One more rule of a pass, as the loop body sees it. */
  lemma PassSnoc(st: Store, fs: seq<Formula>, frontier: set<Key>, i: nat)
    requires i < |fs|
    ensures var r := Pass(st, fs[..i], frontier);
      Pass(st, fs[..i + 1], frontier) ==
        if r.failure.Some? || fs[i].trigger !in frontier then r
        else match Fire(r.store, fs[i])
          case Broke(e) => r.(failure := Some(e))
          case Wrote(st', changed) => Run(st', if changed then r.next + {fs[i].target} else r.next, None)
  {
    assert fs[..i + 1][..i] == fs[..i];
  }

  /** A pass writes only rule targets, keeps every organ and indicator with
      its name and declared type, and puts only rule targets in the next
      frontier. */
  lemma {:induction false} PassFrame(st: Store, fs: seq<Formula>, frontier: set<Key>)
    ensures OnlyChanged(st, Pass(st, fs, frontier).store, Targets(fs))
    ensures Pass(st, fs, frontier).next <= Targets(fs)
    decreases |fs|
  {
    if |fs| > 0 {
      var m := |fs| - 1;
      PassFrame(st, fs[..m], frontier);
      var r := Pass(st, fs[..m], frontier);
      var f := fs[m];
      TargetsPrefix(fs, m);
      assert f in fs;
      if r.failure.None? && f.trigger in frontier {
        var w := Fire(r.store, f);
        if w.Wrote? {
          OnlyChangedTrans(st, r.store, w.store, Targets(fs[..m]), {f.target});
        }
      }
    }
  }

  datatype Status = Settled | Failed(err: Error) | Unsettled(frontier: set<Key>)

  datatype Outcome = Outcome(store: Store, status: Status)

  /** The outer loop (Avatar.py:118-138): passes run while the frontier is
      not empty. The source has no bound on the number of passes; `fuel`
      bounds it here, and `Unsettled` reports the frontier left when the
      bound is reached. */
  function Propagate(st: Store, fs: seq<Formula>, frontier: set<Key>, fuel: nat): Outcome
    decreases fuel
  {
    if frontier == {} then Outcome(st, Settled)
    else if fuel == 0 then Outcome(st, Unsettled(frontier))
    else
      var p := Pass(st, fs, frontier);
      if p.failure.Some? then Outcome(p.store, Failed(p.failure.value))
      else Propagate(p.store, fs, p.next, fuel - 1)
  }

  /** Propagation, finished or not, writes only rule targets and never adds
      or removes an organ or an indicator or changes a declared type; a
      frontier left unsettled is never empty and holds the seed or rule
      targets only. */
  lemma {:induction false} PropagateFrame(st: Store, fs: seq<Formula>, frontier: set<Key>, fuel: nat)
    ensures OnlyChanged(st, Propagate(st, fs, frontier, fuel).store, Targets(fs))
    ensures var s := Propagate(st, fs, frontier, fuel).status;
      s.Unsettled? ==> s.frontier != {} && s.frontier <= frontier + Targets(fs)
    decreases fuel
  {
    if frontier != {} && fuel > 0 {
      PassFrame(st, fs, frontier);
      var p := Pass(st, fs, frontier);
      if p.failure.None? {
        PropagateFrame(p.store, fs, p.next, fuel - 1);
        var r := Propagate(p.store, fs, p.next, fuel - 1);
        OnlyChangedTrans(st, p.store, r.store, Targets(fs), Targets(fs));
        assert Targets(fs) + Targets(fs) == Targets(fs);
      }
    }
  }

  /** A run that settled or failed within `n` passes gives the same outcome
      with any larger bound, so the bound hides nothing of a loop that ends. */
  lemma {:induction false} PropagateMoreFuel(st: Store, fs: seq<Formula>, frontier: set<Key>, n: nat, m: nat)
    requires n <= m && !Propagate(st, fs, frontier, n).status.Unsettled?
    ensures Propagate(st, fs, frontier, m) == Propagate(st, fs, frontier, n)
    decreases n
  {
    if frontier != {} && n > 0 {
      var p := Pass(st, fs, frontier);
      if p.failure.None? {
        PropagateMoreFuel(p.store, fs, p.next, n - 1, m - 1);
      }
    }
  }

  lemma PrefixOfPrefix(fs: seq<Formula>, n: nat, j: nat)
    requires j <= n <= |fs|
    ensures fs[..n][..j] == fs[..j]
  {
  }

  /** Once a pass has failed, the remaining rules do nothing. */
  lemma {:induction false} FailureStopsPass(st: Store, fs: seq<Formula>, frontier: set<Key>, n: nat)
    requires n <= |fs|
    requires Pass(st, fs[..n], frontier).failure.Some?
    ensures Pass(st, fs, frontier) == Pass(st, fs[..n], frontier)
    decreases |fs|
  {
    if n < |fs| {
      var m := |fs| - 1;
      PrefixOfPrefix(fs, m, n);
      FailureStopsPass(st, fs[..m], frontier, n);
    } else {
      assert fs[..n] == fs;
    }
  }

  /** A pass that ends without failure had no failure on any prefix. */
  lemma PrefixNoFailure(st: Store, fs: seq<Formula>, frontier: set<Key>, n: nat)
    requires n <= |fs|
    requires Pass(st, fs, frontier).failure.None?
    ensures Pass(st, fs[..n], frontier).failure.None?
  {
    if Pass(st, fs[..n], frontier).failure.Some? {
      FailureStopsPass(st, fs, frontier, n);
    }
  }

  /** The store each rule of a pass sees: the writes of the rules before it. */
  function Before(st: Store, fs: seq<Formula>, frontier: set<Key>, j: nat): Store
    requires j <= |fs|
  {
    Pass(st, fs[..j], frontier).store
  }

  /** Rule `j` ran in the pass and set its target to a value that is not
      `==` to the one it held just before. */
  ghost predicate ChangedBy(st: Store, fs: seq<Formula>, frontier: set<Key>, j: nat)
    requires j < |fs|
  {
    var before := Pass(st, fs[..j], frontier);
    var after := Pass(st, fs[..j + 1], frontier);
    && fs[j].trigger in frontier
    && after.failure.None?
    && Has(before.store, fs[j].target)
    && Has(after.store, fs[j].target)
    && !PyEq(At(before.store, fs[j].target).value, At(after.store, fs[j].target).value)
  }

  /** Whether rule `j` changed its target does not depend on the rules
      after it. */
  lemma ChangedByPrefix(st: Store, fs: seq<Formula>, frontier: set<Key>, n: nat, j: nat)
    requires j < n <= |fs|
    ensures ChangedBy(st, fs[..n], frontier, j) <==> ChangedBy(st, fs, frontier, j)
  {
    PrefixOfPrefix(fs, n, j);
    PrefixOfPrefix(fs, n, j + 1);
  }

  /** The last rule of a pass adds its target to the next frontier exactly
      when it changed it. */
  lemma NextFrontierStep(st: Store, fs: seq<Formula>, frontier: set<Key>)
    requires |fs| > 0 && Pass(st, fs, frontier).failure.None?
    ensures Pass(st, fs[..|fs| - 1], frontier).failure.None?
    ensures Pass(st, fs, frontier).next ==
      Pass(st, fs[..|fs| - 1], frontier).next +
      (if ChangedBy(st, fs, frontier, |fs| - 1) then {fs[|fs| - 1].target} else {})
  {
    var m := |fs| - 1;
    PrefixNoFailure(st, fs, frontier, m);
    assert fs[..m + 1] == fs;
    var r := Pass(st, fs[..m], frontier);
    var f := fs[m];
    if f.trigger in frontier {
      var w := Fire(r.store, f);
      assert w.Wrote?;
      assert ChangedBy(st, fs, frontier, m) <==> w.changed;
    }
  }

  lemma {:induction false} NextOnlyChanged(st: Store, fs: seq<Formula>, frontier: set<Key>, k: Key)
    requires Pass(st, fs, frontier).failure.None?
    requires k in Pass(st, fs, frontier).next
    ensures exists j :: 0 <= j < |fs| && fs[j].target == k && ChangedBy(st, fs, frontier, j)
    decreases |fs|
  {
    var m := |fs| - 1;
    NextFrontierStep(st, fs, frontier);
    if k in Pass(st, fs[..m], frontier).next {
      NextOnlyChanged(st, fs[..m], frontier, k);
      var j :| 0 <= j < m && fs[..m][j].target == k && ChangedBy(st, fs[..m], frontier, j);
      ChangedByPrefix(st, fs, frontier, m, j);
    } else {
      assert fs[m].target == k && ChangedBy(st, fs, frontier, m);
    }
  }

  lemma {:induction false} ChangedInNext(st: Store, fs: seq<Formula>, frontier: set<Key>, j: nat)
    requires Pass(st, fs, frontier).failure.None?
    requires j < |fs| && ChangedBy(st, fs, frontier, j)
    ensures fs[j].target in Pass(st, fs, frontier).next
    decreases |fs|
  {
    var m := |fs| - 1;
    NextFrontierStep(st, fs, frontier);
    if j < m {
      ChangedByPrefix(st, fs, frontier, m, j);
      ChangedInNext(st, fs[..m], frontier, j);
    }
  }

  /** The next frontier holds exactly the targets whose value some rule of
      the pass changed (Avatar.py:136-137). */
  lemma NextFrontierIsChanged(st: Store, fs: seq<Formula>, frontier: set<Key>, k: Key)
    requires Pass(st, fs, frontier).failure.None?
    ensures k in Pass(st, fs, frontier).next <==>
      exists j :: 0 <= j < |fs| && fs[j].target == k && ChangedBy(st, fs, frontier, j)
  {
    if k in Pass(st, fs, frontier).next {
      NextOnlyChanged(st, fs, frontier, k);
    }
    if exists j :: 0 <= j < |fs| && fs[j].target == k && ChangedBy(st, fs, frontier, j) {
      var j :| 0 <= j < |fs| && fs[j].target == k && ChangedBy(st, fs, frontier, j);
      ChangedInNext(st, fs, frontier, j);
    }
  }

  /** The last rule of a pass that writes a target decides its value, and it
      computes that value from the store left by the rules before it, so it
      sees their writes (Avatar.py:121-135). */
  lemma {:induction false} LastWriterWins(st: Store, fs: seq<Formula>, frontier: set<Key>, j: nat)
    requires Pass(st, fs, frontier).failure.None?
    requires j < |fs| && fs[j].trigger in frontier
    requires forall k :: j < k < |fs| && fs[k].trigger in frontier ==> fs[k].target != fs[j].target
    ensures var before := Before(st, fs, frontier, j);
      && Has(before, fs[j].target) && Has(before, fs[j].trigger)
      && Has(Pass(st, fs, frontier).store, fs[j].target)
      && Eval(fs[j].expr, At(before, fs[j].target).value, At(before, fs[j].trigger).value).Some?
      && At(Pass(st, fs, frontier).store, fs[j].target).value ==
         Eval(fs[j].expr, At(before, fs[j].target).value, At(before, fs[j].trigger).value).value
    decreases |fs|
  {
    var m := |fs| - 1;
    PrefixNoFailure(st, fs, frontier, m);
    if j == m {
      assert fs[..m + 1] == fs;
    } else {
      PrefixOfPrefix(fs, m, j);
      LastWriterWins(st, fs[..m], frontier, j);
      assert fs[..m + 1] == fs;
      var r := Pass(st, fs[..m], frontier);
      if fs[m].trigger in frontier {
        var w := Fire(r.store, fs[m]);
        assert w.Wrote?;
        assert At(w.store, fs[j].target) == At(r.store, fs[j].target);
      }
    }
  }

  /** A pass that fails keeps the writes of every rule before the failing
      one: nothing is rolled back. */
  lemma {:induction false} FailureKeepsEarlierWrites(st: Store, fs: seq<Formula>, frontier: set<Key>)
    requires Pass(st, fs, frontier).failure.Some?
    ensures exists j ::
      && 0 <= j < |fs| && fs[j].trigger in frontier
      && Pass(st, fs[..j], frontier).failure.None?
      && Pass(st, fs, frontier).store == Before(st, fs, frontier, j)
      && Fire(Before(st, fs, frontier, j), fs[j]) == Broke(Pass(st, fs, frontier).failure.value)
    decreases |fs|
  {
    var m := |fs| - 1;
    assert fs[..m + 1] == fs;
    if Pass(st, fs[..m], frontier).failure.Some? {
      FailureKeepsEarlierWrites(st, fs[..m], frontier);
      var j :| 0 <= j < m && fs[..m][j].trigger in frontier &&
        Pass(st, fs[..m][..j], frontier).failure.None? &&
        Pass(st, fs[..m], frontier).store == Before(st, fs[..m], frontier, j) &&
        Fire(Before(st, fs[..m], frontier, j), fs[..m][j]) == Broke(Pass(st, fs[..m], frontier).failure.value);
      PrefixOfPrefix(fs, m, j);
      assert Before(st, fs[..m], frontier, j) == Before(st, fs, frontier, j);
    } else {
      assert Before(st, fs, frontier, m) == Pass(st, fs[..m], frontier).store;
    }
  }

  /** Every rule the frontier triggers reproduces its target's current value. */
  ghost predicate Stable(st: Store, fs: seq<Formula>, frontier: set<Key>)
  {
    forall f :: f in fs && f.trigger in frontier ==>
      Has(st, f.target) && Has(st, f.trigger) &&
      Eval(f.expr, At(st, f.target).value, At(st, f.trigger).value) == Some(At(st, f.target).value)
  }

  lemma WriteSame(st: Store, k: Key)
    requires Has(st, k)
    ensures Write(st, k, At(st, k).value) == st
  {
    assert st[k.0][k.1 := At(st, k)] == st[k.0];
  }

  /** At a fixed point a pass changes nothing and leaves an empty frontier. */
  lemma {:induction false} StablePassIsIdle(st: Store, fs: seq<Formula>, frontier: set<Key>)
    requires Stable(st, fs, frontier)
    ensures Pass(st, fs, frontier) == Run(st, {}, None)
    decreases |fs|
  {
    if |fs| > 0 {
      var m := |fs| - 1;
      assert Stable(st, fs[..m], frontier) by {
        forall f | f in fs[..m] ensures f in fs { }
      }
      StablePassIsIdle(st, fs[..m], frontier);
      var f := fs[m];
      if f.trigger in frontier {
        assert f in fs;
        WriteSame(st, f.target);
      }
    }
  }

  /** Propagation from a stable frontier ends after one pass with the store
      as it was. */
  lemma StablePropagationIsIdle(st: Store, fs: seq<Formula>, frontier: set<Key>, fuel: nat)
    requires Stable(st, fs, frontier) && fuel >= 1
    ensures Propagate(st, fs, frontier, fuel) == Outcome(st, Settled)
  {
    StablePassIsIdle(st, fs, frontier);
  }

  /** An indicator that triggers no rule starts a propagation that changes
      nothing and ends after one pass. */
  lemma UntriggeredIsIdle(st: Store, fs: seq<Formula>, changed: Key, fuel: nat)
    requires forall f :: f in fs ==> f.trigger != changed
    requires fuel >= 1
    ensures Propagate(st, fs, {changed}, fuel) == Outcome(st, Settled)
  {
    assert Stable(st, fs, {changed});
    StablePassIsIdle(st, fs, {changed});
  }

  /** Every rule refers to existing indicators and its expression is typed
      with the result type of its target. */
  ghost predicate WellTyped(st: Store, fs: seq<Formula>)
  {
    forall f :: f in fs ==>
      Has(st, f.target) && Has(st, f.trigger) &&
      TypeOf(f.expr, At(st, f.target).dataType, At(st, f.trigger).dataType) == Some(At(st, f.target).dataType)
  }

  lemma WellTypedKept(a: Store, b: Store, fs: seq<Formula>, touched: set<Key>)
    requires WellTyped(a, fs) && OnlyChanged(a, b, touched)
    ensures WellTyped(b, fs)
  {
    forall f | f in fs
      ensures Has(b, f.target) && Has(b, f.trigger)
    {
      SameShapeHas(a, b, f.target);
      SameShapeHas(a, b, f.trigger);
    }
  }

  lemma PassKeepsWellTyped(st: Store, fs: seq<Formula>, frontier: set<Key>)
    requires WellTyped(st, fs)
    ensures WellTyped(Pass(st, fs, frontier).store, fs)
  {
    PassFrame(st, fs, frontier);
    WellTypedKept(st, Pass(st, fs, frontier).store, fs, Targets(fs));
  }

  /** With well-typed rules a pass never fails and keeps every indicator an
      instance of its declared type. */
  lemma {:induction false} WellTypedPass(st: Store, fs: seq<Formula>, frontier: set<Key>)
    requires WellTyped(st, fs) && Conforming(st)
    ensures Pass(st, fs, frontier).failure.None?
    ensures Conforming(Pass(st, fs, frontier).store)
    decreases |fs|
  {
    if |fs| > 0 {
      var m := |fs| - 1;
      assert WellTyped(st, fs[..m]) by {
        forall f | f in fs[..m] ensures f in fs { }
      }
      WellTypedPass(st, fs[..m], frontier);
      var r := Pass(st, fs[..m], frontier);
      var f := fs[m];
      if f.trigger in frontier {
        assert f in fs;
        PassFrame(st, fs[..m], frontier);
        WellTypedKept(st, r.store, fs, Targets(fs[..m]));
        var t, g := At(r.store, f.target), At(r.store, f.trigger);
        EvalSound(f.expr, t.dataType, g.dataType, t.value, g.value);
        var w := Fire(r.store, f);
        forall k: Key | Has(w.store, k)
          ensures Conforms(At(w.store, k).value, At(w.store, k).dataType)
        {
          SameShapeHas(r.store, w.store, k);
        }
      }
    }
  }

  /** With well-typed rules propagation never fails and keeps every
      indicator an instance of its declared type. */
  lemma {:induction false} WellTypedPropagation(st: Store, fs: seq<Formula>, frontier: set<Key>, fuel: nat)
    requires WellTyped(st, fs) && Conforming(st)
    ensures !Propagate(st, fs, frontier, fuel).status.Failed?
    ensures Conforming(Propagate(st, fs, frontier, fuel).store)
    decreases fuel
  {
    if frontier != {} && fuel > 0 {
      WellTypedPass(st, fs, frontier);
      var p := Pass(st, fs, frontier);
      assert Propagate(st, fs, frontier, fuel) == Propagate(p.store, fs, p.next, fuel - 1);
      PassKeepsWellTyped(st, fs, frontier);
      WellTypedPropagation(p.store, fs, p.next, fuel - 1);
    }
  }

  /** Termination rests on value equality alone: a rule that adds one to its
      own trigger never settles, however many passes are allowed. */
  lemma {:induction false} SelfIncrementNeverSettles(st: Store, k: Key, fuel: nat)
    requires Has(st, k) && At(st, k).value.VInt?
    ensures Propagate(st, [Formula(k, k, Plus(Current, Lit(VInt(1))))], {k}, fuel).status == Unsettled({k})
    decreases fuel
  {
    var fs := [Formula(k, k, Plus(Current, Lit(VInt(1))))];
    if fuel > 0 {
      assert fs[..0] == [];
      assert Pass(st, fs[..0], {k}) == Run(st, {}, None);
      var n := At(st, k).value.i;
      assert Eval(fs[0].expr, VInt(n), VInt(n)) == Some(VInt(n + 1));
      var w := Fire(st, fs[0]);
      assert w == Wrote(Write(st, k, VInt(n + 1)), true);
      var p := Pass(st, fs, {k});
      assert p == Run(w.store, {k}, None);
      SelfIncrementNeverSettles(p.store, k, fuel - 1);
    }
  }
}
