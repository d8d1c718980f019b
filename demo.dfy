/** The demonstration of main.py: a heart, lungs and brain schema with four
    rules, the initial case data, and one update of the heart rate. */
module Demo {
  import opened Values
  import opened Indicators
  import opened Expressions
  import opened Propagation
  import opened Updates

  const Rate: Key := ("heart", "rate")
  const Ecg: Key := ("heart", "ecg")
  const Capacity: Key := ("lungs", "capacity")
  const Size: Key := ("brain", "size")

  /** The rules of main.py:10-15, in their order. */
  const Rules: seq<Formula> := [
    Formula(Rate, Capacity, Plus(Current, Trigger)),          // value + trigger_value
    Formula(Rate, Ecg, Splat(Current, Lit(VInt(1)))),         // [*value, 1]
    Formula(Rate, Size, Times(Current, Lit(VInt(10)))),       // value * 10
    Formula(Capacity, Size, Plus(Current, Trigger))           // value + trigger_value
  ]

  /** The schema of main.py:3-16. */
  const DemoSchema: Schema := Schema(
    [ OrganSchema("heart", [IndicatorSchema("rate", "float"), IndicatorSchema("ecg", "list")]),
      OrganSchema("lungs", [IndicatorSchema("capacity", "float")]),
      OrganSchema("brain", [IndicatorSchema("size", "float")]) ],
    Some(Rules))

  /** The case data of main.py:19-26. */
  const DemoCase: seq<OrganCase> := [
    OrganCase("heart", [("rate", VFloat(60.0)), ("ecg", VList([VInt(1), VInt(2), VInt(3)]))]),
    OrganCase("lungs", [("capacity", VFloat(6.0))]),
    OrganCase("brain", [("size", VFloat(100.0))])
  ]

  /** The demo avatar's store, given the four values. */
  function DemoStore(rate: Value, ecg: Value, capacity: Value, size: Value): (st: Store)
    ensures Has(st, Rate) && Has(st, Ecg) && Has(st, Capacity) && Has(st, Size)
    ensures At(st, Rate).value == rate && At(st, Ecg).value == ecg
    ensures At(st, Capacity).value == capacity && At(st, Size).value == size
  {
    map[
      "heart" := map["rate" := Indicator("rate", Float, rate), "ecg" := Indicator("ecg", List, ecg)],
      "lungs" := map["capacity" := Indicator("capacity", Float, capacity)],
      "brain" := map["size" := Indicator("size", Float, size)]
    ]
  }

  /** Writing one of the four indicators of the demo store. */
  lemma DemoWrite(rate: Value, ecg: Value, capacity: Value, size: Value, k: Key, v: Value)
    requires k in {Rate, Ecg, Capacity, Size}
    ensures Write(DemoStore(rate, ecg, capacity, size), k, v) ==
      if k == Rate then DemoStore(v, ecg, capacity, size)
      else if k == Ecg then DemoStore(rate, v, capacity, size)
      else if k == Capacity then DemoStore(rate, ecg, v, size)
      else DemoStore(rate, ecg, capacity, v)
  {
    var st := DemoStore(rate, ecg, capacity, size);
    var w := Write(st, k, v);
    var d := if k == Rate then DemoStore(v, ecg, capacity, size)
      else if k == Ecg then DemoStore(rate, v, capacity, size)
      else if k == Capacity then DemoStore(rate, ecg, v, size)
      else DemoStore(rate, ecg, capacity, v);
    assert "heart" != "lungs" && "heart" != "brain" && "lungs" != "brain" && "rate" != "ecg";
    assert w.Keys == d.Keys;
    assert w["heart"] == d["heart"];
    assert w["lungs"] == d["lungs"];
    assert w["brain"] == d["brain"];
  }

  const Initial: Store := DemoStore(VFloat(60.0), VList([VInt(1), VInt(2), VInt(3)]), VFloat(6.0), VFloat(100.0))

  /** `Avatar(schema, case_data)` in main.py:32 succeeds with the case data
      values in place and the four rules. */
  lemma DemoConstruction()
    ensures Construct(Some(DemoSchema), Some(DemoCase)) == Loaded(Initial, Rules, None)
  {
    var heart := map["rate" := Indicator("rate", Float, VFloat(0.0)), "ecg" := Indicator("ecg", List, VList([]))];
    var lungs := map["capacity" := Indicator("capacity", Float, VFloat(0.0))];
    var brain := map["size" := Indicator("size", Float, VFloat(0.0))];
    var os := DemoSchema.organs;
    assert BuildOrgan(os[0].indicators) == Built(heart) by {
      var es := os[0].indicators;
      assert BuildOrgan(es[..1]) == Built(map["rate" := Indicator("rate", Float, VFloat(0.0))]) by {
        assert es[..1][..0] == [];
      }
    }
    assert BuildOrgan(os[1].indicators) == Built(lungs) by {
      assert os[1].indicators[..0] == [];
    }
    assert BuildOrgan(os[2].indicators) == Built(brain) by {
      assert os[2].indicators[..0] == [];
    }
    assert LoadOrgans(map[], os[..1]) == Run(map["heart" := heart], {}, None) by {
      assert os[..1][..0] == [];
    }
    assert LoadOrgans(map[], os[..2]) == Run(map["heart" := heart, "lungs" := lungs], {}, None) by {
      assert os[..2][..1] == os[..1];
    }
    assert os == os[..3];
    var zero := DemoStore(VFloat(0.0), VList([]), VFloat(0.0), VFloat(0.0));
    assert LoadOrgans(map[], os) == Run(zero, {}, None);
    assert LoadSchema(map[], [], DemoSchema) == Loaded(zero, Rules, None);
    DemoCaseLoad(zero);
  }

  const Leaves: seq<Entry> := [
    Entry("heart", "rate", VFloat(60.0)),
    Entry("heart", "ecg", VList([VInt(1), VInt(2), VInt(3)])),
    Entry("lungs", "capacity", VFloat(6.0)),
    Entry("brain", "size", VFloat(100.0))
  ]

  /** The case data's leaves, in the order they are loaded. */
  lemma DemoLeaves()
    ensures CaseEntries(DemoCase) == Leaves
  {
    var cs := DemoCase;
    assert OrganEntries("heart", cs[0].values) == Leaves[..2] by {
      assert cs[0].values[..1][..0] == [];
    }
    assert OrganEntries("lungs", cs[1].values) == [Leaves[2]] by {
      assert cs[1].values[..0] == [];
    }
    assert OrganEntries("brain", cs[2].values) == [Leaves[3]] by {
      assert cs[2].values[..0] == [];
    }
    assert CaseEntries(cs[..1]) == Leaves[..2] by {
      assert cs[..1][..0] == [];
    }
    assert CaseEntries(cs[..2]) == Leaves[..3] by {
      assert cs[..2][..1] == cs[..1];
    }
    assert cs[..3][..2] == cs[..2];
    assert cs[..3] == cs;
  }

  lemma Whole<T>(s: seq<T>)
    ensures s[..|s|] == s
  {
  }

  /** One more leaf of a load that has gone well so far. */
  lemma LoadLeaf(st: Store, fs: seq<Formula>, es: seq<Entry>, k: nat, mid: Store, after: Store)
    requires k < |es| && LoadEntries(st, fs, es[..k]) == Outcome(mid, Settled)
    requires Update(mid, fs, es[k].organ, es[k].indicator, es[k].value, false, 0) == Outcome(after, Settled)
    ensures LoadEntries(st, fs, es[..k + 1]) == Outcome(after, Settled)
  {
    assert es[..k + 1] == es[..k] + [es[k]];
    LoadEntriesSnoc(st, fs, es[..k], es[k]);
  }

  /** An update without propagation of one of the four indicators of the
      demo store with a value of its type. */
  lemma DemoSet(rate: Value, ecg: Value, capacity: Value, size: Value, k: Key, v: Value)
    requires k in {Rate, Ecg, Capacity, Size} && (if k == Ecg then v.VList? else v.VFloat?)
    ensures Update(DemoStore(rate, ecg, capacity, size), Rules, k.0, k.1, v, false, 0) ==
      Outcome(if k == Rate then DemoStore(v, ecg, capacity, size)
        else if k == Ecg then DemoStore(rate, v, capacity, size)
        else if k == Capacity then DemoStore(rate, ecg, v, size)
        else DemoStore(rate, ecg, capacity, v), Settled)
  {
    DemoWrite(rate, ecg, capacity, size, k, v);
  }

  /** Loading the case data into the zero store writes its four values. */
  lemma DemoCaseLoad(zero: Store)
    requires zero == DemoStore(VFloat(0.0), VList([]), VFloat(0.0), VFloat(0.0))
    ensures LoadCase(zero, Rules, DemoCase) == Outcome(Initial, Settled)
  {
    var es := Leaves;
    var ecg := VList([VInt(1), VInt(2), VInt(3)]);
    var s1 := DemoStore(VFloat(60.0), VList([]), VFloat(0.0), VFloat(0.0));
    var s2 := DemoStore(VFloat(60.0), ecg, VFloat(0.0), VFloat(0.0));
    var s3 := DemoStore(VFloat(60.0), ecg, VFloat(6.0), VFloat(0.0));
    DemoLeaves();
    DemoSet(VFloat(0.0), VList([]), VFloat(0.0), VFloat(0.0), Rate, VFloat(60.0));
    DemoSet(VFloat(60.0), VList([]), VFloat(0.0), VFloat(0.0), Ecg, ecg);
    DemoSet(VFloat(60.0), ecg, VFloat(0.0), VFloat(0.0), Capacity, VFloat(6.0));
    DemoSet(VFloat(60.0), ecg, VFloat(6.0), VFloat(0.0), Size, VFloat(100.0));
    assert es[..0] == [];
    LoadLeaf(zero, Rules, es, 0, zero, s1);
    LoadLeaf(zero, Rules, es, 1, s1, s2);
    LoadLeaf(zero, Rules, es, 2, s2, s3);
    LoadLeaf(zero, Rules, es, 3, s3, Initial);
    Whole(es);
  }

  /** A rule whose trigger and target exist and whose expression gives
      `v`, different from the target's current value: it writes `v` and
      reports a change. */
  lemma FireWrites(st: Store, f: Formula, v: Value)
    requires Has(st, f.target) && Has(st, f.trigger)
    requires Eval(f.expr, At(st, f.target).value, At(st, f.trigger).value) == Some(v)
    requires !PyEq(At(st, f.target).value, v)
    ensures Fire(st, f) == Wrote(Write(st, f.target, v), true)
  {
  }

  /** A step of a pass whose rule runs and writes. */
  lemma PassFires(st: Store, fs: seq<Formula>, frontier: set<Key>, i: nat, f: Formula, mid: Store, next: set<Key>, st': Store)
    requires i < |fs| && fs[i] == f && f.trigger in frontier
    requires Pass(st, fs[..i], frontier) == Run(mid, next, None)
    requires Fire(mid, f) == Wrote(st', true)
    ensures Pass(st, fs[..i + 1], frontier) == Run(st', next + {f.target}, None)
  {
    PassSnoc(st, fs, frontier, i);
  }

  /** A step of a pass whose rule is not triggered. */
  lemma PassSkips(st: Store, fs: seq<Formula>, frontier: set<Key>, i: nat)
    requires i < |fs| && fs[i].trigger !in frontier
    ensures Pass(st, fs[..i + 1], frontier) == Pass(st, fs[..i], frontier)
  {
    PassSnoc(st, fs, frontier, i);
  }

  /** Two rules in a row that both run and both write. */
  lemma TwoFire(st: Store, fs: seq<Formula>, frontier: set<Key>, s1: Store, s2: Store)
    requires 2 <= |fs| && fs[0].trigger in frontier && fs[1].trigger in frontier
    requires Fire(st, fs[0]) == Wrote(s1, true) && Fire(s1, fs[1]) == Wrote(s2, true)
    ensures Pass(st, fs[..2], frontier) == Run(s2, {fs[0].target, fs[1].target}, None)
  {
    assert fs[..0] == [];
    PassFires(st, fs, frontier, 0, fs[0], st, {}, s1);
    PassFires(st, fs, frontier, 1, fs[1], s1, {} + {fs[0].target}, s2);
    assert {} + {fs[0].target} + {fs[1].target} == {fs[0].target, fs[1].target};
  }

  /** Three rules in a row that all run and all write. */
  lemma ThreeFire(st: Store, fs: seq<Formula>, frontier: set<Key>, s1: Store, s2: Store, s3: Store)
    requires 3 <= |fs| && fs[0].trigger in frontier && fs[1].trigger in frontier && fs[2].trigger in frontier
    requires Fire(st, fs[0]) == Wrote(s1, true) && Fire(s1, fs[1]) == Wrote(s2, true) && Fire(s2, fs[2]) == Wrote(s3, true)
    ensures Pass(st, fs[..3], frontier) == Run(s3, {fs[0].target, fs[1].target, fs[2].target}, None)
  {
    TwoFire(st, fs, frontier, s1, s2);
    PassFires(st, fs, frontier, 2, fs[2], s2, {fs[0].target, fs[1].target}, s3);
    assert {fs[0].target, fs[1].target} + {fs[2].target} == {fs[0].target, fs[1].target, fs[2].target};
  }

  /** A pass over four rules of which the first three run and write and
      the last is not triggered. */
  lemma FireFireFireSkip(st: Store, fs: seq<Formula>, frontier: set<Key>, s1: Store, s2: Store, s3: Store)
    requires |fs| == 4 && fs[0].trigger in frontier && fs[1].trigger in frontier && fs[2].trigger in frontier
    requires fs[3].trigger !in frontier
    requires Fire(st, fs[0]) == Wrote(s1, true) && Fire(s1, fs[1]) == Wrote(s2, true) && Fire(s2, fs[2]) == Wrote(s3, true)
    ensures Pass(st, fs, frontier) == Run(s3, {fs[0].target, fs[1].target, fs[2].target}, None)
  {
    ThreeFire(st, fs, frontier, s1, s2, s3);
    PassSkips(st, fs, frontier, 3);
    Whole(fs);
  }

  /** A pass over four rules of which only the last is triggered, and it
      writes. */
  lemma SkipSkipSkipFire(st: Store, fs: seq<Formula>, frontier: set<Key>, s1: Store)
    requires |fs| == 4 && fs[0].trigger !in frontier && fs[1].trigger !in frontier && fs[2].trigger !in frontier
    requires fs[3].trigger in frontier && Fire(st, fs[3]) == Wrote(s1, true)
    ensures Pass(st, fs, frontier) == Run(s1, {fs[3].target}, None)
  {
    assert fs[..0] == [];
    PassSkips(st, fs, frontier, 0);
    PassSkips(st, fs, frontier, 1);
    PassSkips(st, fs, frontier, 2);
    PassFires(st, fs, frontier, 3, fs[3], st, {}, s1);
    Whole(fs);
  }

  /** The four rules, each on any store holding its trigger and target
      with the demo's types. */
  lemma CapacityRule(st: Store, rate: real, capacity: real)
    requires Has(st, Rate) && Has(st, Capacity) && rate != 0.0
    requires At(st, Rate).value == VFloat(rate) && At(st, Capacity).value == VFloat(capacity)
    ensures Fire(st, Rules[0]) == Wrote(Write(st, Capacity, VFloat(capacity + rate)), true)
  {
    assert Rules[0] == Formula(Rate, Capacity, Plus(Current, Trigger));
    FireWrites(st, Rules[0], VFloat(capacity + rate));
  }

  lemma EcgRule(st: Store, ecg: seq<Value>)
    requires Has(st, Rate) && Has(st, Ecg) && At(st, Ecg).value == VList(ecg)
    ensures Fire(st, Rules[1]) == Wrote(Write(st, Ecg, VList(ecg + [VInt(1)])), true)
  {
    assert Rules[1] == Formula(Rate, Ecg, Splat(Current, Lit(VInt(1))));
    assert !PyEq(VList(ecg), VList(ecg + [VInt(1)]));
    FireWrites(st, Rules[1], VList(ecg + [VInt(1)]));
  }

  lemma SizeRule(st: Store, size: real)
    requires Has(st, Rate) && Has(st, Size) && At(st, Size).value == VFloat(size) && size != 0.0
    ensures Fire(st, Rules[2]) == Wrote(Write(st, Size, VFloat(size * 10.0)), true)
  {
    assert Rules[2] == Formula(Rate, Size, Times(Current, Lit(VInt(10))));
    FireWrites(st, Rules[2], VFloat(size * 10.0));
  }

  lemma SizeFromCapacityRule(st: Store, capacity: real, size: real)
    requires Has(st, Capacity) && Has(st, Size) && capacity != 0.0
    requires At(st, Capacity).value == VFloat(capacity) && At(st, Size).value == VFloat(size)
    ensures Fire(st, Rules[3]) == Wrote(Write(st, Size, VFloat(size + capacity)), true)
  {
    assert Rules[3] == Formula(Capacity, Size, Plus(Current, Trigger));
    FireWrites(st, Rules[3], VFloat(size + capacity));
  }

  /** A pass from a changed heart rate: the capacity gains the rate, the ecg
      gains a 1, the brain size is multiplied by ten, and all three change;
      the rule keyed on the capacity waits for the next pass. */
  lemma HeartRatePass(st: Store, rate: real, ecg: seq<Value>, capacity: real, size: real)
    requires Has(st, Rate) && Has(st, Ecg) && Has(st, Capacity) && Has(st, Size)
    requires At(st, Rate).value == VFloat(rate) && At(st, Ecg).value == VList(ecg)
    requires At(st, Capacity).value == VFloat(capacity) && At(st, Size).value == VFloat(size)
    requires rate != 0.0 && size != 0.0
    ensures Pass(st, Rules, {Rate}) ==
      Run(Write(Write(Write(st, Capacity, VFloat(capacity + rate)), Ecg, VList(ecg + [VInt(1)])), Size, VFloat(size * 10.0)),
          {Capacity, Ecg, Size}, None)
  {
    var s1 := Write(st, Capacity, VFloat(capacity + rate));
    var s2 := Write(s1, Ecg, VList(ecg + [VInt(1)]));
    var s3 := Write(s2, Size, VFloat(size * 10.0));
    assert Capacity != Ecg && Size != Ecg && Size != Capacity;
    CapacityRule(st, rate, capacity);
    EcgRule(s1, ecg);
    SizeRule(s2, size);
    FireFireFireSkip(st, Rules, {Rate}, s1, s2, s3);
  }

  /** A pass from the three targets of the heart rate: only the rule keyed
      on the capacity runs, and it adds the capacity to the brain size. */
  lemma TargetsPass(st: Store, capacity: real, size: real)
    requires Has(st, Capacity) && Has(st, Size)
    requires At(st, Capacity).value == VFloat(capacity) && At(st, Size).value == VFloat(size)
    requires capacity != 0.0
    ensures Pass(st, Rules, {Capacity, Ecg, Size}) == Run(Write(st, Size, VFloat(size + capacity)), {Size}, None)
  {
    assert Rate !in {Capacity, Ecg, Size};
    SizeFromCapacityRule(st, capacity, size);
    SkipSkipSkipFire(st, Rules, {Capacity, Ecg, Size}, Write(st, Size, VFloat(size + capacity)));
  }

  /** A pass from the brain size runs no rule. */
  lemma SizePass(st: Store)
    ensures Pass(st, Rules, {Size}) == Run(st, {}, None)
  {
    assert Rate != Size && Capacity != Size;
    assert Rules[..0] == [];
    PassSkips(st, Rules, {Size}, 0);
    PassSkips(st, Rules, {Size}, 1);
    PassSkips(st, Rules, {Size}, 2);
    PassSkips(st, Rules, {Size}, 3);
    Whole(Rules);
  }

  /** Three passes, the last of which leaves an empty frontier. */
  lemma ThreePasses(st: Store, fs: seq<Formula>, frontier: set<Key>, s1: Store, n1: set<Key>, s2: Store, n2: set<Key>, s3: Store)
    requires frontier != {} && n1 != {} && n2 != {}
    requires Pass(st, fs, frontier) == Run(s1, n1, None)
    requires Pass(s1, fs, n1) == Run(s2, n2, None)
    requires Pass(s2, fs, n2) == Run(s3, {}, None)
    ensures Propagate(st, fs, frontier, 3) == Outcome(s3, Settled)
  {
  }

  lemma EcgGainsOne()
    ensures [VInt(1), VInt(2), VInt(3)] + [VInt(1)] == [VInt(1), VInt(2), VInt(3), VInt(1)]
  {
  }

  /** `update_indicator("heart", "rate", 70.0)` in main.py:40 settles after
      three passes: the capacity is 76.0, the ecg gains a 1, and the brain
      size is 100.0 * 10 + 76.0. */
  lemma DemoUpdate()
    ensures Update(Initial, Rules, "heart", "rate", VFloat(70.0), true, 3) ==
      Outcome(DemoStore(VFloat(70.0), VList([VInt(1), VInt(2), VInt(3), VInt(1)]), VFloat(76.0), VFloat(1076.0)),
              Settled)
  {
    var ecg := [VInt(1), VInt(2), VInt(3)];
    var e1 := ecg + [VInt(1)];
    var s0 := DemoStore(VFloat(70.0), VList(ecg), VFloat(6.0), VFloat(100.0));
    var s1 := DemoStore(VFloat(70.0), VList(e1), VFloat(76.0), VFloat(1000.0));
    var s2 := DemoStore(VFloat(70.0), VList(e1), VFloat(76.0), VFloat(1076.0));
    DemoWrite(VFloat(60.0), VList(ecg), VFloat(6.0), VFloat(100.0), Rate, VFloat(70.0));
    assert Update(Initial, Rules, "heart", "rate", VFloat(70.0), true, 3) == Propagate(s0, Rules, {Rate}, 3);
    HeartRatePass(s0, 70.0, ecg, 6.0, 100.0);
    DemoWrite(VFloat(70.0), VList(ecg), VFloat(6.0), VFloat(100.0), Capacity, VFloat(76.0));
    DemoWrite(VFloat(70.0), VList(ecg), VFloat(76.0), VFloat(100.0), Ecg, VList(e1));
    DemoWrite(VFloat(70.0), VList(e1), VFloat(76.0), VFloat(100.0), Size, VFloat(1000.0));
    TargetsPass(s1, 76.0, 1000.0);
    DemoWrite(VFloat(70.0), VList(e1), VFloat(76.0), VFloat(1000.0), Size, VFloat(1076.0));
    SizePass(s2);
    ThreePasses(s0, Rules, {Rate}, s1, {Capacity, Ecg, Size}, s2, {Size}, s2);
    EcgGainsOne();
  }

  // ---------------------------------------------------------------------
  // Two consequences of the code as written

  /** A rule whose expression yields a string for the float lung capacity. */
  const Mistyped: seq<Formula> := [Formula(Rate, Capacity, Lit(VStr("high")))]

  /** Nothing checks what a rule writes: an update of the heart rate with a
      correctly typed value succeeds and leaves a string in the float
      indicator `lungs.capacity`, so the store no longer conforms. */
  lemma RuleResultIsNotTypeChecked()
    ensures var r := Update(Initial, Mistyped, "heart", "rate", VFloat(70.0), true, 2);
      && Conforms(VFloat(70.0), At(Initial, Rate).dataType)
      && r == Outcome(DemoStore(VFloat(70.0), VList([VInt(1), VInt(2), VInt(3)]), VStr("high"), VFloat(100.0)), Settled)
      && At(r.store, Capacity).dataType == Float
      && !Conforming(r.store)
  {
    var s0 := DemoStore(VFloat(70.0), VList([VInt(1), VInt(2), VInt(3)]), VFloat(6.0), VFloat(100.0));
    var s1 := DemoStore(VFloat(70.0), VList([VInt(1), VInt(2), VInt(3)]), VStr("high"), VFloat(100.0));
    DemoWrite(VFloat(60.0), VList([VInt(1), VInt(2), VInt(3)]), VFloat(6.0), VFloat(100.0), Rate, VFloat(70.0));
    DemoWrite(VFloat(70.0), VList([VInt(1), VInt(2), VInt(3)]), VFloat(6.0), VFloat(100.0), Capacity, VStr("high"));
    PassSnoc(s0, Mistyped, {Rate}, 0);
    assert Mistyped[..1] == Mistyped;
    assert Pass(s0, Mistyped, {Rate}) == Run(s1, {Capacity}, None);
    assert Capacity != Rate;
    PassSnoc(s1, Mistyped, {Capacity}, 0);
    assert Pass(s1, Mistyped, {Capacity}) == Run(s1, {}, None);
    assert !Conforms(At(s1, Capacity).value, At(s1, Capacity).dataType);
  }

  /** Two rules on the heart rate that set the brain size to `a` and then
      to `b`: both run, and the second write is the one kept. */
  lemma TwoLiterals(a: real, b: real)
    requires a != 100.0 && a != b
    ensures Pass(Initial, [Formula(Rate, Size, Lit(VFloat(a))), Formula(Rate, Size, Lit(VFloat(b)))], {Rate}) ==
      Run(DemoStore(VFloat(60.0), VList([VInt(1), VInt(2), VInt(3)]), VFloat(6.0), VFloat(b)), {Size}, None)
  {
    var fs := [Formula(Rate, Size, Lit(VFloat(a))), Formula(Rate, Size, Lit(VFloat(b)))];
    var ecg := VList([VInt(1), VInt(2), VInt(3)]);
    var s1 := DemoStore(VFloat(60.0), ecg, VFloat(6.0), VFloat(a));
    var s2 := DemoStore(VFloat(60.0), ecg, VFloat(6.0), VFloat(b));
    DemoWrite(VFloat(60.0), ecg, VFloat(6.0), VFloat(100.0), Size, VFloat(a));
    DemoWrite(VFloat(60.0), ecg, VFloat(6.0), VFloat(a), Size, VFloat(b));
    assert Fire(Initial, fs[0]) == Wrote(s1, true);
    assert Fire(s1, fs[1]) == Wrote(s2, true);
    TwoFire(Initial, fs, {Rate}, s1, s2);
    Whole(fs);
  }

  /** Two rules on the same trigger and target, in either order. */
  const OneThenTwo: seq<Formula> := [Formula(Rate, Size, Lit(VFloat(1.0))), Formula(Rate, Size, Lit(VFloat(2.0)))]
  const TwoThenOne: seq<Formula> := [Formula(Rate, Size, Lit(VFloat(2.0))), Formula(Rate, Size, Lit(VFloat(1.0)))]

  /** Rules run in list order within a pass, so the order of the rule list
      decides which write the target keeps. */
  lemma RuleOrderMatters()
    ensures Pass(Initial, OneThenTwo, {Rate}) ==
      Run(DemoStore(VFloat(60.0), VList([VInt(1), VInt(2), VInt(3)]), VFloat(6.0), VFloat(2.0)), {Size}, None)
    ensures Pass(Initial, TwoThenOne, {Rate}) ==
      Run(DemoStore(VFloat(60.0), VList([VInt(1), VInt(2), VInt(3)]), VFloat(6.0), VFloat(1.0)), {Size}, None)
  {
    TwoLiterals(1.0, 2.0);
    TwoLiterals(2.0, 1.0);
  }
}
