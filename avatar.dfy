/** The classes of Avatar.py with their state updated in place. Each method
    is proved against the function on the store that specifies it: the
    abstract state `State()` after the call is that function of the state
    before it. */
module AvatarModel {
  import opened Values
  import opened Expressions
  import opened Indicators
  import opened Propagation
  import opened Updates

  /** class `Organ` (Avatar.py:26-49): a named dictionary of indicators. */
  class Organ {
    const name: string
    var indicators: map<string, Indicator>

    constructor (name: string)
      ensures this.name == name && indicators == map[]
    {
      this.name := name;
      indicators := map[];
    }

    /** `add_indicator`: insert under the indicator's own name, replacing an
        entry of that name, and leave the other entries alone. */
    method AddIndicator(indicator: Indicator)
      modifies this
      ensures indicators == old(indicators)[indicator.name := indicator]
      ensures indicators.Keys == old(indicators.Keys) + {indicator.name}
      ensures forall n :: n in old(indicators) && n != indicator.name ==> indicators[n] == old(indicators[n])
    {
      indicators := indicators[indicator.name := indicator];
    }
  }

  /** class `Avatar` (Avatar.py:52-157): the organs, by name, and the
      ordered rule list. */
  class Avatar {
    var organs: map<string, Organ>
    var formulas: seq<Formula>

    /** Every organ is stored under its own name, so distinct names hold
        distinct organ objects. */
    ghost predicate Valid()
      reads this
    {
      forall n :: n in organs ==> organs[n].name == n
    }

    /** The avatar's contents as a value. */
    ghost function State(): Store
      reads this, organs.Values
    {
      map n | n in organs :: organs[n].indicators
    }

    /** `Avatar()` without a schema or case data (Avatar.py:67-68). */
    constructor ()
      ensures Valid() && organs == map[] && formulas == [] && State() == map[]
    {
      organs := map[];
      formulas := [];
    }

    /** `add_organ`: insert under the organ's own name, replacing an entry of
        that name, and leave the other entries and the rules alone. */
    method AddOrgan(organ: Organ)
      modifies this
      ensures old(Valid()) ==> Valid()
      ensures organs == old(organs)[organ.name := organ] && formulas == old(formulas)
      ensures organs.Keys == old(organs.Keys) + {organ.name}
      ensures forall n :: n in old(organs) && n != organ.name ==> organs[n] == old(organs[n])
      ensures State() == old(State())[organ.name := organ.indicators]
    {
      organs := organs[organ.name := organ];
    }

    /** `from_schema`: add the organs of the schema, then set the rule list. */
    method FromSchema(schema: Schema) returns (failure: Option<Error>)
      requires Valid()
      modifies this
      ensures Valid()
      ensures fresh(organs.Values - old(organs.Values))
      ensures LoadSchema(old(State()), old(formulas), schema) == Loaded(State(), formulas, failure)
    {
      ghost var st0 := State();
      var k := 0;
      while k < |schema.organs|
        invariant 0 <= k <= |schema.organs|
        invariant Valid() && formulas == old(formulas)
        invariant fresh(organs.Values - old(organs.Values))
        invariant LoadOrgans(st0, schema.organs[..k]) == Run(State(), {}, None)
      {
        var entry := schema.organs[k];
        LoadOrgansSnoc(st0, schema.organs, k);
        var organ, err := NewOrgan(entry);
        if err.Some? {
          LoadOrgansStops(st0, schema.organs, k + 1);
          return err;
        }
        AddOrgan(organ);
        k := k + 1;
      }
      assert schema.organs[..k] == schema.organs;
      formulas := if schema.formulas.Some? then schema.formulas.value else [];
      failure := None;
    }

    /** Replaces the indicator `name` of `organ` and says what that does to
        the abstract state. */
    method SetIndicator(organ: Organ, name: string, indicator: Indicator)
      requires Valid() && organ.name in organs && organs[organ.name] == organ
      modifies organ
      ensures State() == old(State())[organ.name := old(organ.indicators)[name := indicator]]
    {
      organ.indicators := organ.indicators[name := indicator];
      assert forall n :: n in organs && n != organ.name ==> organs[n] != organ;
    }

    /** `update_indicator` (Avatar.py:140-157). On failure the returned
        status carries the error the source raises. */
    method UpdateIndicator(organName: string, indicatorName: string, value: Value,
                           applyFormulas: bool, fuel: nat) returns (status: Status)
      requires Valid()
      modifies organs.Values
      ensures Outcome(State(), status) ==
        Update(old(State()), formulas, organName, indicatorName, value, applyFormulas, fuel)
    {
      if organName !in organs {
        return Failed(NotFound(organName));
      }
      var organ := organs[organName];
      if indicatorName !in organ.indicators {
        return Failed(NotFound(indicatorName));
      }
      var indicator := organ.indicators[indicatorName];
      if !Conforms(value, indicator.dataType) {
        return Failed(TypeMismatch(indicatorName));
      }
      SetIndicator(organ, indicatorName, indicator.(value := value));
      if applyFormulas {
        status := ApplyFormulas((organName, indicatorName), fuel);
      } else {
        status := Settled;
      }
    }

    /** The body of the inner loop of `apply_formulas` for one rule whose
        trigger is in the frontier (Avatar.py:124-137). */
    method FireFormula(f: Formula) returns (changed: bool, failure: Option<Error>)
      requires Valid()
      modifies organs.Values
      ensures Fire(old(State()), f) ==
        if failure.Some? then Broke(failure.value) else Wrote(State(), changed)
      ensures failure.Some? ==> State() == old(State())
    {
      var (o, i) := f.target;
      if o !in organs {
        return false, Some(NotFound(o));
      }
      var target := organs[o];
      if i !in target.indicators {
        return false, Some(NotFound(i));
      }
      var current := target.indicators[i];
      var (p, j) := f.trigger;
      if p !in organs {
        return false, Some(NotFound(p));
      }
      if j !in organs[p].indicators {
        return false, Some(NotFound(j));
      }
      var result := Eval(f.expr, current.value, organs[p].indicators[j].value);
      if result.None? {
        return false, Some(ExpressionError);
      }
      SetIndicator(target, i, current.(value := result.value));
      changed := !PyEq(current.value, result.value);
      failure := None;
    }

    /** `apply_formulas` (Avatar.py:110-138): passes over the rule list, in
        stored order, while the frontier is not empty, at most `fuel` of
        them. */
    method ApplyFormulas(changed: Key, fuel: nat) returns (status: Status)
      requires Valid()
      modifies organs.Values
      ensures Outcome(State(), status) == Propagate(old(State()), formulas, {changed}, fuel)
    {
      ghost var st0 := State();
      var frontier := {changed};
      var remaining := fuel;
      while frontier != {} && remaining > 0
        invariant Propagate(State(), formulas, frontier, remaining) == Propagate(st0, formulas, {changed}, fuel)
        decreases remaining
      {
        ghost var passStart := State();
        var next: set<Key> := {};
        var i := 0;
        while i < |formulas|
          invariant 0 <= i <= |formulas|
          invariant Pass(passStart, formulas[..i], frontier) == Run(State(), next, None)
        {
          var f := formulas[i];
          PassSnoc(passStart, formulas, frontier, i);
          if f.trigger in frontier {
            var c, failure := FireFormula(f);
            if failure.Some? {
              FailureStopsPass(passStart, formulas, frontier, i + 1);
              return Failed(failure.value);
            }
            if c {
              next := next + {f.target};
            }
          }
          i := i + 1;
        }
        assert formulas[..i] == formulas;
        frontier := next;
        remaining := remaining - 1;
      }
      status := if frontier == {} then Settled else Unsettled(frontier);
    }

    /** `from_case_data` (Avatar.py:96-108): every leaf is written with
        `update_indicator` and propagation off; the first failure ends it. */
    method FromCaseData(caseData: seq<OrganCase>) returns (status: Status)
      requires Valid()
      modifies organs.Values
      ensures Outcome(State(), status) == LoadCase(old(State()), formulas, caseData)
    {
      ghost var st0 := State();
      var k := 0;
      while k < |caseData|
        invariant 0 <= k <= |caseData|
        invariant Valid()
        invariant LoadCase(st0, formulas, caseData[..k]) == Outcome(State(), Settled)
      {
        ghost var mid := State();
        status := LoadOrganCase(caseData[k]);
        LoadCaseNext(st0, formulas, caseData, k, mid, Outcome(State(), status));
        if status.Failed? {
          return;
        }
        k := k + 1;
      }
      assert caseData[..k] == caseData;
      status := Settled;
    }

    /** The inner loop of `from_case_data` over the leaves of one organ. */
    method LoadOrganCase(organ: OrganCase) returns (status: Status)
      requires Valid()
      modifies organs.Values
      ensures Outcome(State(), status) == LoadEntries(old(State()), formulas, OrganEntries(organ.name, organ.values))
    {
      ghost var st0 := State();
      var j := 0;
      while j < |organ.values|
        invariant 0 <= j <= |organ.values|
        invariant LoadEntries(st0, formulas, OrganEntries(organ.name, organ.values[..j])) == Outcome(State(), Settled)
      {
        var (name, value) := organ.values[j];
        OrganEntriesSnoc(organ.name, organ.values, j);
        LoadEntriesSnoc(st0, formulas, OrganEntries(organ.name, organ.values[..j]), Entry(organ.name, name, value));
        status := UpdateIndicator(organ.name, name, value, false, 0);
        if status.Failed? {
          OrganEntriesPrefix(organ.name, organ.values, j + 1);
          LoadEntriesStops(st0, formulas, OrganEntries(organ.name, organ.values), j + 1);
          return;
        }
        j := j + 1;
      }
      assert organ.values[..j] == organ.values;
      status := Settled;
    }
  }

  /** A fresh organ holding the indicators of one schema entry
      (Avatar.py:89-92), or the failure of the first type name that does
      not resolve. */
  method NewOrgan(entry: OrganSchema) returns (organ: Organ, failure: Option<Error>)
    ensures fresh(organ) && organ.name == entry.name
    ensures BuildOrgan(entry.indicators) ==
      if failure.Some? then BuildFailed(failure.value) else Built(organ.indicators)
  {
    organ := new Organ(entry.name);
    var j := 0;
    while j < |entry.indicators|
      invariant 0 <= j <= |entry.indicators|
      invariant fresh(organ) && organ.name == entry.name
      invariant BuildOrgan(entry.indicators[..j]) == Built(organ.indicators)
    {
      var e := entry.indicators[j];
      assert entry.indicators[..j + 1][..j] == entry.indicators[..j];
      assert entry.indicators[..j + 1][j] == e;
      var t := ResolveType(e.typeName);
      if t.None? {
        BuildStops(entry.indicators, j + 1);
        return organ, Some(UnknownType(e.typeName));
      }
      organ.AddIndicator(NewIndicator(e.name, t.value, None));
      j := j + 1;
    }
    assert entry.indicators[..j] == entry.indicators;
    failure := None;
  }

  /** `Avatar(schema, case_data)` (Avatar.py:60-72): an empty avatar, then
      the schema when there is one, then the case data when there is some. */
  method NewAvatar(schema: Option<Schema>, caseData: Option<seq<OrganCase>>) returns (a: Avatar, failure: Option<Error>)
    ensures fresh(a) && a.Valid()
    ensures Construct(schema, caseData) == Loaded(a.State(), a.formulas, failure)
  {
    a := new Avatar();
    failure := None;
    if schema.Some? {
      failure := a.FromSchema(schema.value);
      if failure.Some? {
        return;
      }
    }
    if caseData.Some? {
      var s := a.FromCaseData(caseData.value);
      if s.Failed? {
        failure := Some(s.err);
      }
    }
  }
}
