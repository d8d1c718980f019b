/** The avatar's entry points as functions on the store: the checked update
    (`update_indicator`, Avatar.py:140-157), building organs from a schema
    (`from_schema`, Avatar.py:82-94) and loading case data
    (`from_case_data`, Avatar.py:96-108). */
module Updates {
  import opened Values
  import opened Indicators
  import opened Propagation

  /** `update_indicator(organ, indicator, value, apply_formulas)`: look up
      the organ, then the indicator, check the value's type, write it, and
      propagate from it when asked. `fuel` bounds the passes. Without
      propagation an update either settles or fails having changed nothing. */
  function Update(st: Store, fs: seq<Formula>, organ: string, indicator: string, v: Value,
                  applyFormulas: bool, fuel: nat): (r: Outcome)
    ensures !applyFormulas ==> r.status == Settled || (r.status.Failed? && r.store == st)
  {
    if organ !in st then Outcome(st, Failed(NotFound(organ)))
    else if indicator !in st[organ] then Outcome(st, Failed(NotFound(indicator)))
    else if !Conforms(v, st[organ][indicator].dataType) then Outcome(st, Failed(TypeMismatch(indicator)))
    else
      var written := Write(st, (organ, indicator), v);
      if applyFormulas then Propagate(written, fs, {(organ, indicator)}, fuel)
      else Outcome(written, Settled)
  }

  /** An unknown organ or indicator fails with NotFound and changes nothing. */
  lemma UpdateUnknown(st: Store, fs: seq<Formula>, organ: string, indicator: string, v: Value,
                      applyFormulas: bool, fuel: nat)
    requires !Has(st, (organ, indicator))
    ensures var r := Update(st, fs, organ, indicator, v, applyFormulas, fuel);
      r.store == st && r.status.Failed? && r.status.err.NotFound? &&
      r.status.err.key == (if organ !in st then organ else indicator)
  {
  }

  /** A value of the wrong type fails with TypeMismatch and the indicator,
      like every other, keeps its old value. */
  lemma UpdateWrongType(st: Store, fs: seq<Formula>, organ: string, indicator: string, v: Value,
                        applyFormulas: bool, fuel: nat)
    requires Has(st, (organ, indicator)) && !Conforms(v, At(st, (organ, indicator)).dataType)
    ensures Update(st, fs, organ, indicator, v, applyFormulas, fuel) ==
      Outcome(st, Failed(TypeMismatch(indicator)))
  {
  }

  /** Without propagation an update of a well-typed value succeeds, sets the
      named indicator to it, and leaves every other indicator, every name
      and every declared type as it was. */
  lemma UpdateWithoutFormulas(st: Store, fs: seq<Formula>, organ: string, indicator: string, v: Value,
                              fuel: nat)
    requires Has(st, (organ, indicator)) && Conforms(v, At(st, (organ, indicator)).dataType)
    ensures var r := Update(st, fs, organ, indicator, v, false, fuel);
      && r.status == Settled
      && OnlyChanged(st, r.store, {(organ, indicator)})
      && At(r.store, (organ, indicator)).value == v
  {
  }

  /** With propagation an update touches only the named indicator and the
      rule targets, and never adds or removes an organ or an indicator. */
  lemma UpdateWithFormulas(st: Store, fs: seq<Formula>, organ: string, indicator: string, v: Value,
                           fuel: nat)
    requires Has(st, (organ, indicator)) && Conforms(v, At(st, (organ, indicator)).dataType)
    ensures OnlyChanged(st, Update(st, fs, organ, indicator, v, true, fuel).store,
                        {(organ, indicator)} + Targets(fs))
  {
    var written := Write(st, (organ, indicator), v);
    PropagateFrame(written, fs, {(organ, indicator)}, fuel);
    OnlyChangedTrans(st, written, Propagate(written, fs, {(organ, indicator)}, fuel).store,
                     {(organ, indicator)}, Targets(fs));
  }

  /** The direct write is type checked, so with well-typed rules an update
      of a conforming store keeps it conforming and does not fail once the
      indicator exists and the value has its type. */
  lemma UpdateKeepsConforming(st: Store, fs: seq<Formula>, organ: string, indicator: string, v: Value,
                              applyFormulas: bool, fuel: nat)
    requires Conforming(st) && WellTyped(st, fs)
    ensures Conforming(Update(st, fs, organ, indicator, v, applyFormulas, fuel).store)
    ensures Has(st, (organ, indicator)) && Conforms(v, At(st, (organ, indicator)).dataType) ==>
      !Update(st, fs, organ, indicator, v, applyFormulas, fuel).status.Failed?
  {
    if Has(st, (organ, indicator)) && Conforms(v, At(st, (organ, indicator)).dataType) {
      var written := Write(st, (organ, indicator), v);
      assert Conforming(written) by {
        forall k: Key | Has(written, k)
          ensures Conforms(At(written, k).value, At(written, k).dataType)
        {
          SameShapeHas(st, written, k);
        }
      }
      WellTypedKept(st, written, fs, {(organ, indicator)});
      if applyFormulas {
        WellTypedPropagation(written, fs, {(organ, indicator)}, fuel);
      }
    }
  }

  // ---------------------------------------------------------------------
  // Schema

  /** One indicator entry of a schema: a name and the name of its type. */
  datatype IndicatorSchema = IndicatorSchema(name: string, typeName: string)

  /** One organ entry of a schema, with its indicators in schema order. */
  datatype OrganSchema = OrganSchema(name: string, indicators: seq<IndicatorSchema>)

  /** A schema: organs in schema order and, when present, the rule list. */
  datatype Schema = Schema(organs: seq<OrganSchema>, formulas: Option<seq<Formula>>)

  datatype Built = Built(indicators: map<string, Indicator>) | BuildFailed(err: Error)

  /** The indicators of one organ (Avatar.py:89-92): each resolves its type
      name and starts at that type's zero value; a later entry with a name
      already seen replaces the earlier one. Only a type name that does not
      resolve makes it fail. */
  function BuildOrgan(entries: seq<IndicatorSchema>): (b: Built)
    ensures b.BuildFailed? ==> b.err.UnknownType?
    decreases |entries|
  {
    if |entries| == 0 then Built(map[])
    else
      var b := BuildOrgan(entries[..|entries| - 1]);
      var e := entries[|entries| - 1];
      if b.BuildFailed? then b
      else match ResolveType(e.typeName)
        case None => BuildFailed(UnknownType(e.typeName))
        case Some(t) => Built(b.indicators[e.name := NewIndicator(e.name, t, None)])
  }

  function IndicatorNames(entries: seq<IndicatorSchema>): set<string>
  {
    set e | e in entries :: e.name
  }

  /** The last indicator entry named `n`: the one whose type a dictionary
      update keeps. */
  function LastIndicator(entries: seq<IndicatorSchema>, n: string): (e: IndicatorSchema)
    requires n in IndicatorNames(entries)
    ensures e in entries && e.name == n
    decreases |entries|
  {
    var m := |entries| - 1;
    if entries[m].name == n then entries[m]
    else
      assert entries == entries[..m] + [entries[m]];
      assert n in IndicatorNames(entries[..m]);
      LastIndicator(entries[..m], n)
  }

  /** `m` holds exactly the indicators `entries` lists, each under its own
      name, of the type its last entry names, at that type's zero value. */
  ghost predicate Declares(m: map<string, Indicator>, entries: seq<IndicatorSchema>)
  {
    && m.Keys == IndicatorNames(entries)
    && forall n :: n in m ==>
         && ResolveType(LastIndicator(entries, n).typeName) == Some(m[n].dataType)
         && m[n] == NewIndicator(n, m[n].dataType, None)
  }

  /** An organ builds exactly when every type name resolves, and then holds
      exactly what the entries declare; otherwise the error names a type
      name that does not resolve. */
  lemma {:induction false} BuildOrganSpec(entries: seq<IndicatorSchema>)
    ensures BuildOrgan(entries).Built? <==> forall e :: e in entries ==> ResolveType(e.typeName).Some?
    ensures BuildOrgan(entries).BuildFailed? ==>
      exists e :: e in entries && BuildOrgan(entries).err == UnknownType(e.typeName) && ResolveType(e.typeName).None?
    ensures BuildOrgan(entries).Built? ==> Declares(BuildOrgan(entries).indicators, entries)
    decreases |entries|
  {
    if |entries| > 0 {
      var m := |entries| - 1;
      var pre := entries[..m];
      BuildOrganSpec(pre);
      assert entries == pre + [entries[m]];
      var b := BuildOrgan(pre);
      if b.Built? {
        var e := entries[m];
        if ResolveType(e.typeName).Some? {
          DeclaresSnoc(b.indicators, pre, e, ResolveType(e.typeName).value);
        }
      } else {
        var x :| x in pre && b.err == UnknownType(x.typeName) && ResolveType(x.typeName).None?;
        assert x in entries;
      }
    }
  }

  /** Adding the indicator of one more entry keeps the declaration exact. */
  lemma DeclaresSnoc(m: map<string, Indicator>, entries: seq<IndicatorSchema>, e: IndicatorSchema, t: TypeTag)
    requires Declares(m, entries) && ResolveType(e.typeName) == Some(t)
    ensures Declares(m[e.name := NewIndicator(e.name, t, None)], entries + [e])
  {
    var es := entries + [e];
    var m' := m[e.name := NewIndicator(e.name, t, None)];
    assert IndicatorNames(es) == IndicatorNames(entries) + {e.name} by {
      assert forall x :: x in es <==> x in entries || x == e;
    }
    assert m'.Keys == IndicatorNames(es);
    assert es[..|es| - 1] == entries;
    forall n | n in m'
      ensures ResolveType(LastIndicator(es, n).typeName) == Some(m'[n].dataType)
      ensures m'[n] == NewIndicator(n, m'[n].dataType, None)
    {
      if n != e.name {
        assert LastIndicator(es, n) == LastIndicator(entries, n);
      }
    }
  }

  /** The result of loading a schema: the store and the rule list, and the
      failure that cut it short, if any. */
  datatype Loaded = Loaded(store: Store, formulas: seq<Formula>, failure: Option<Error>)

  /** The organs of a schema added in order (Avatar.py:88-93); an organ is
      added only once all of its indicators are built, a later organ of the
      same name replaces an earlier or existing one, and a failure keeps the
      organs added before it, so only a type name can make it fail. */
  function LoadOrgans(st: Store, organs: seq<OrganSchema>): (r: Run)
    ensures r.failure.Some? ==> r.failure.value.UnknownType?
    decreases |organs|
  {
    if |organs| == 0 then Run(st, {}, None)
    else
      var r := LoadOrgans(st, organs[..|organs| - 1]);
      var o := organs[|organs| - 1];
      if r.failure.Some? then r
      else match BuildOrgan(o.indicators)
        case BuildFailed(e) => r.(failure := Some(e))
        case Built(m) => r.(store := r.store[o.name := m])
  }

  /** `from_schema` (Avatar.py:88-94): the organs, then the rule list, or the
      empty list when there is none. The rule list is left alone when an
      organ fails. */
  function LoadSchema(st: Store, formulas: seq<Formula>, schema: Schema): Loaded
  {
    var r := LoadOrgans(st, schema.organs);
    if r.failure.Some? then Loaded(r.store, formulas, r.failure)
    else Loaded(r.store, if schema.formulas.Some? then schema.formulas.value else [], None)
  }

  /** Organ names the schema lists. */
  function OrganNames(organs: seq<OrganSchema>): set<string>
  {
    set o | o in organs :: o.name
  }

  /** The last organ entry named `n`: the one whose indicators a dictionary
      update keeps. */
  function LastNamed(organs: seq<OrganSchema>, n: string): (o: OrganSchema)
    requires n in OrganNames(organs)
    ensures o in organs && o.name == n
    decreases |organs|
  {
    var m := |organs| - 1;
    if organs[m].name == n then organs[m]
    else
      assert organs == organs[..m] + [organs[m]];
      assert n in OrganNames(organs[..m]);
      LastNamed(organs[..m], n)
  }

  /** Loading fails exactly when some type name does not resolve. On success
      the store has the old organs and exactly the listed ones; a listed organ
      holds what its last entry builds (`BuildOrganSpec` says what that is);
      other organs are untouched. */
  lemma {:induction false} LoadOrgansSpec(st: Store, organs: seq<OrganSchema>)
    ensures LoadOrgans(st, organs).failure.None? <==>
      forall o, e :: o in organs && e in o.indicators ==> ResolveType(e.typeName).Some?
    ensures var r := LoadOrgans(st, organs);
      r.failure.None? ==>
        && r.store.Keys == st.Keys + OrganNames(organs)
        && (forall n :: n in st && n !in OrganNames(organs) ==> r.store[n] == st[n])
        && (forall n :: n in OrganNames(organs) ==> Built(r.store[n]) == BuildOrgan(LastNamed(organs, n).indicators))
    decreases |organs|
  {
    if |organs| > 0 {
      var m := |organs| - 1;
      var pre := organs[..m];
      var o := organs[m];
      assert organs == pre + [o];
      LoadOrgansSpec(st, pre);
      BuildOrganSpec(o.indicators);
      var r := LoadOrgans(st, pre);
      assert OrganNames(organs) == OrganNames(pre) + {o.name};
      if r.failure.None? && BuildOrgan(o.indicators).BuildFailed? {
        var e :| e in o.indicators && ResolveType(e.typeName).None?;
        assert o in organs;
      }
      if !(forall p, e :: p in pre && e in p.indicators ==> ResolveType(e.typeName).Some?) {
        var p, e :| p in pre && e in p.indicators && ResolveType(e.typeName).None?;
        assert p in organs;
      }
    }
  }

  /** A schema loaded into an empty avatar gives exactly its organs, each
      holding what its last entry declares, so every indicator sits at the
      zero value of its declared type and the store conforms. */
  lemma SchemaStartsAtZero(schema: Schema)
    requires LoadSchema(map[], [], schema).failure.None?
    ensures var l := LoadSchema(map[], [], schema);
      && l.store.Keys == OrganNames(schema.organs)
      && (forall n :: n in l.store ==> Declares(l.store[n], LastNamed(schema.organs, n).indicators))
      && Conforming(l.store) && NamesMatch(l.store)
      && l.formulas == (if schema.formulas.Some? then schema.formulas.value else [])
  {
    var l := LoadSchema(map[], [], schema);
    LoadOrgansSpec(map[], schema.organs);
    forall n | n in l.store
      ensures Declares(l.store[n], LastNamed(schema.organs, n).indicators)
    {
      BuildOrganSpec(LastNamed(schema.organs, n).indicators);
    }
  }

  // ---------------------------------------------------------------------
  // Case data

  /** One leaf of the case data: organ, indicator and value. */
  datatype Entry = Entry(organ: string, indicator: string, value: Value)

  /** One organ entry of the case data, with its values in order. */
  datatype OrganCase = OrganCase(name: string, values: seq<(string, Value)>)

  function OrganEntries(name: string, values: seq<(string, Value)>): seq<Entry>
  {
    if |values| == 0 then []
    else OrganEntries(name, values[..|values| - 1]) +
         [Entry(name, values[|values| - 1].0, values[|values| - 1].1)]
  }

  /** The leaves of the case data in the order the nested loops visit them. */
  function CaseEntries(cs: seq<OrganCase>): seq<Entry>
  {
    if |cs| == 0 then []
    else CaseEntries(cs[..|cs| - 1]) + OrganEntries(cs[|cs| - 1].name, cs[|cs| - 1].values)
  }

  /** Each leaf as an update without propagation (Avatar.py:106-108); the
      first failure ends the load and keeps the earlier writes. It never
      runs a rule, so it ends settled or failed, and fails only on a missing
      organ or indicator or a mistyped value. */
  function LoadEntries(st: Store, fs: seq<Formula>, es: seq<Entry>): (r: Outcome)
    ensures r.status.Settled? || r.status.Failed?
    ensures r.status.Failed? ==> r.status.err.NotFound? || r.status.err.TypeMismatch?
    decreases |es|
  {
    if |es| == 0 then Outcome(st, Settled)
    else
      var r := LoadEntries(st, fs, es[..|es| - 1]);
      var e := es[|es| - 1];
      if r.status.Failed? then r
      else Update(r.store, fs, e.organ, e.indicator, e.value, false, 0)
  }

  function LoadCase(st: Store, fs: seq<Formula>, cs: seq<OrganCase>): Outcome
  {
    LoadEntries(st, fs, CaseEntries(cs))
  }

  /** The keys a list of leaves names. */
  function EntryKeys(es: seq<Entry>): set<Key>
  {
    set e | e in es :: (e.organ, e.indicator)
  }

  /** Loading leaves never propagates: the rules have no effect on it. */
  lemma {:induction false} LoadIgnoresFormulas(st: Store, fs: seq<Formula>, gs: seq<Formula>, es: seq<Entry>)
    ensures LoadEntries(st, fs, es) == LoadEntries(st, gs, es)
    decreases |es|
  {
    if |es| > 0 {
      LoadIgnoresFormulas(st, fs, gs, es[..|es| - 1]);
    }
  }

  /** Loading leaves writes only the indicators they name and never changes
      the organs, the indicator names or the declared types. */
  lemma {:induction false} LoadEntriesFrame(st: Store, fs: seq<Formula>, es: seq<Entry>)
    ensures OnlyChanged(st, LoadEntries(st, fs, es).store, EntryKeys(es))
    decreases |es|
  {
    if |es| > 0 {
      var m := |es| - 1;
      var e := es[m];
      LoadEntriesFrame(st, fs, es[..m]);
      assert EntryKeys(es) == EntryKeys(es[..m]) + {(e.organ, e.indicator)} by {
        assert es == es[..m] + [e];
      }
      var r := LoadEntries(st, fs, es[..m]);
      if !r.status.Failed? && Has(r.store, (e.organ, e.indicator)) &&
         Conforms(e.value, At(r.store, (e.organ, e.indicator)).dataType) {
        UpdateWithoutFormulas(r.store, fs, e.organ, e.indicator, e.value, 0);
        OnlyChangedTrans(st, r.store, LoadEntries(st, fs, es).store, EntryKeys(es[..m]), {(e.organ, e.indicator)});
      }
    }
  }

  /** No leaf after the `j`-th names the same indicator. */
  predicate LastFor(es: seq<Entry>, j: int)
    requires 0 <= j < |es|
  {
    forall i :: j < i < |es| ==> (es[i].organ, es[i].indicator) != (es[j].organ, es[j].indicator)
  }

  /** Every leaf that no later leaf repeats has its value in `st`. */
  ghost predicate HoldsLastValues(st: Store, es: seq<Entry>)
  {
    forall j :: 0 <= j < |es| && LastFor(es, j) ==>
      Has(st, (es[j].organ, es[j].indicator)) && At(st, (es[j].organ, es[j].indicator)).value == es[j].value
  }

  /** A load that settles leaves every named indicator at the value of the
      last leaf that names it. */
  lemma {:induction false} LoadEntriesValues(st: Store, fs: seq<Formula>, es: seq<Entry>)
    ensures LoadEntries(st, fs, es).status.Settled? ==> HoldsLastValues(LoadEntries(st, fs, es).store, es)
    decreases |es|
  {
    if |es| > 0 {
      var m := |es| - 1;
      var e := es[m];
      var k := (e.organ, e.indicator);
      LoadEntriesValues(st, fs, es[..m]);
      LoadEntriesFrame(st, fs, es[..m]);
      var r := LoadEntries(st, fs, es[..m]);
      if LoadEntries(st, fs, es).status.Settled? {
        assert Has(r.store, k) && Conforms(e.value, At(r.store, k).dataType);
        assert es == es[..m] + [e];
        HoldsLastValuesSnoc(r.store, es[..m], e);
      }
    }
  }

  /** Writing one more leaf keeps the values of the earlier leaves it does
      not repeat. */
  lemma HoldsLastValuesSnoc(st: Store, es: seq<Entry>, e: Entry)
    requires Has(st, (e.organ, e.indicator)) && HoldsLastValues(st, es)
    ensures HoldsLastValues(Write(st, (e.organ, e.indicator), e.value), es + [e])
  {
    var w := Write(st, (e.organ, e.indicator), e.value);
    var es' := es + [e];
    forall j | 0 <= j < |es'| && LastFor(es', j)
      ensures Has(w, (es'[j].organ, es'[j].indicator)) && At(w, (es'[j].organ, es'[j].indicator)).value == es'[j].value
    {
      if j < |es| {
        assert es'[j] == es[j] && es'[|es|] == e;
        assert forall i :: j < i < |es| ==> es'[i] == es[i];
        assert LastFor(es, j);
        SameShapeHas(st, w, (es[j].organ, es[j].indicator));
      }
    }
  }

  /** Loading leaves succeeds exactly when every leaf names an existing
      indicator and has its declared type; a successful load of a
      conforming store leaves it conforming. */
  lemma {:induction false} LoadEntriesSucceeds(st: Store, fs: seq<Formula>, es: seq<Entry>)
    ensures LoadEntries(st, fs, es).status.Settled? <==>
      forall e :: e in es ==> Has(st, (e.organ, e.indicator)) && Conforms(e.value, At(st, (e.organ, e.indicator)).dataType)
    ensures Conforming(st) ==> Conforming(LoadEntries(st, fs, es).store)
    decreases |es|
  {
    if |es| > 0 {
      var m := |es| - 1;
      var e := es[m];
      var k := (e.organ, e.indicator);
      LoadEntriesSucceeds(st, fs, es[..m]);
      LoadEntriesFrame(st, fs, es[..m]);
      assert es == es[..m] + [e];
      var r := LoadEntries(st, fs, es[..m]);
      SameShapeHas(st, r.store, k);
      if !(forall x :: x in es[..m] ==> Has(st, (x.organ, x.indicator)) && Conforms(x.value, At(st, (x.organ, x.indicator)).dataType)) {
        var x :| x in es[..m] && !(Has(st, (x.organ, x.indicator)) && Conforms(x.value, At(st, (x.organ, x.indicator)).dataType));
        assert x in es;
      }
      if Conforming(st) && !r.status.Failed? {
        UpdateKeepsConforming(r.store, [], e.organ, e.indicator, e.value, false, 0);
        LoadIgnoresFormulas(st, fs, [], es);
        LoadIgnoresFormulas(st, fs, [], es[..m]);
      }
    }
  }

  /** Once a type name fails to resolve, the later entries of the organ are
      not looked at. */
  lemma {:induction false} BuildStops(entries: seq<IndicatorSchema>, n: nat)
    requires n <= |entries| && BuildOrgan(entries[..n]).BuildFailed?
    ensures BuildOrgan(entries) == BuildOrgan(entries[..n])
    decreases |entries|
  {
    if n < |entries| {
      var m := |entries| - 1;
      assert entries[..m][..n] == entries[..n];
      BuildStops(entries[..m], n);
    } else {
      assert entries[..n] == entries;
    }
  }

  /** Once an organ of the schema fails, the later organs are not added. */
  lemma {:induction false} LoadOrgansStops(st: Store, organs: seq<OrganSchema>, n: nat)
    requires n <= |organs| && LoadOrgans(st, organs[..n]).failure.Some?
    ensures LoadOrgans(st, organs) == LoadOrgans(st, organs[..n])
    decreases |organs|
  {
    if n < |organs| {
      var m := |organs| - 1;
      assert organs[..m][..n] == organs[..n];
      LoadOrgansStops(st, organs[..m], n);
    } else {
      assert organs[..n] == organs;
    }
  }

  /** Loading one more organ of a schema. */
  lemma LoadOrgansSnoc(st: Store, organs: seq<OrganSchema>, k: nat)
    requires k < |organs|
    ensures var r := LoadOrgans(st, organs[..k]);
      LoadOrgans(st, organs[..k + 1]) ==
        if r.failure.Some? then r
        else match BuildOrgan(organs[k].indicators)
          case BuildFailed(e) => r.(failure := Some(e))
          case Built(m) => r.(store := r.store[organs[k].name := m])
  {
    assert organs[..k + 1][..k] == organs[..k];
  }

  /** Once a leaf fails, the later leaves are not loaded. */
  lemma {:induction false} LoadEntriesStops(st: Store, fs: seq<Formula>, es: seq<Entry>, n: nat)
    requires n <= |es| && LoadEntries(st, fs, es[..n]).status.Failed?
    ensures LoadEntries(st, fs, es) == LoadEntries(st, fs, es[..n])
    decreases |es|
  {
    if n < |es| {
      var m := |es| - 1;
      assert es[..m][..n] == es[..n];
      LoadEntriesStops(st, fs, es[..m], n);
    } else {
      assert es[..n] == es;
    }
  }

  /** Loading one more leaf: nothing when the earlier ones failed, else one
      update without propagation. */
  lemma LoadEntriesSnoc(st: Store, fs: seq<Formula>, es: seq<Entry>, e: Entry)
    ensures LoadEntries(st, fs, es + [e]) ==
      if LoadEntries(st, fs, es).status.Failed? then LoadEntries(st, fs, es)
      else Update(LoadEntries(st, fs, es).store, fs, e.organ, e.indicator, e.value, false, 0)
  {
    assert (es + [e])[..|es|] == es;
  }

  lemma OrganEntriesSnoc(name: string, values: seq<(string, Value)>, j: nat)
    requires j < |values|
    ensures OrganEntries(name, values[..j + 1]) ==
      OrganEntries(name, values[..j]) + [Entry(name, values[j].0, values[j].1)]
  {
    assert values[..j + 1][..j] == values[..j];
  }

  /** Loading `a + b` is loading `a` and then, from the store it leaves,
      loading `b`. */
  lemma {:induction false} LoadEntriesAppend(st: Store, fs: seq<Formula>, a: seq<Entry>, b: seq<Entry>)
    requires LoadEntries(st, fs, a).status.Settled?
    ensures LoadEntries(st, fs, a + b) == LoadEntries(LoadEntries(st, fs, a).store, fs, b)
    decreases |b|
  {
    if |b| == 0 {
      assert a + b == a;
    } else {
      var m := |b| - 1;
      assert a + b == (a + b[..m]) + [b[m]];
      assert b == b[..m] + [b[m]];
      LoadEntriesAppend(st, fs, a, b[..m]);
      LoadEntriesSnoc(st, fs, a + b[..m], b[m]);
      LoadEntriesSnoc(LoadEntries(st, fs, a).store, fs, b[..m], b[m]);
    }
  }

  lemma {:induction false} OrganEntriesPrefix(name: string, values: seq<(string, Value)>, j: nat)
    requires j <= |values|
    ensures |OrganEntries(name, values)| == |values|
    ensures OrganEntries(name, values)[..j] == OrganEntries(name, values[..j])
    decreases |values|
  {
    if |values| > 0 {
      var m := |values| - 1;
      OrganEntriesPrefix(name, values[..m], if j < |values| then j else m);
      if j < |values| {
        assert values[..m][..j] == values[..j];
      } else {
        assert values[..j] == values;
      }
    }
  }

  lemma {:induction false} CaseEntriesPrefixOrgans(cs: seq<OrganCase>, k: nat)
    requires k <= |cs|
    ensures |CaseEntries(cs[..k])| <= |CaseEntries(cs)|
    ensures CaseEntries(cs)[..|CaseEntries(cs[..k])|] == CaseEntries(cs[..k])
    decreases |cs|
  {
    if k < |cs| {
      var m := |cs| - 1;
      assert cs[..m][..k] == cs[..k];
      CaseEntriesPrefixOrgans(cs[..m], k);
    } else {
      assert cs[..k] == cs;
    }
  }

  /** Loading the case data organ by organ: the first `k + 1` organs are the
      first `k` and then the leaves of organ `k`. */
  lemma LoadCaseStep(st: Store, fs: seq<Formula>, cs: seq<OrganCase>, k: nat)
    requires k < |cs|
    requires LoadCase(st, fs, cs[..k]).status.Settled?
    ensures LoadCase(st, fs, cs[..k + 1]) ==
      LoadEntries(LoadCase(st, fs, cs[..k]).store, fs, OrganEntries(cs[k].name, cs[k].values))
  {
    assert cs[..k + 1][..k] == cs[..k];
    LoadEntriesAppend(st, fs, CaseEntries(cs[..k]), OrganEntries(cs[k].name, cs[k].values));
  }

  /** A failure in the first `k` organs is the result of the whole load. */
  lemma LoadCaseStops(st: Store, fs: seq<Formula>, cs: seq<OrganCase>, k: nat)
    requires k <= |cs|
    requires LoadCase(st, fs, cs[..k]).status.Failed?
    ensures LoadCase(st, fs, cs) == LoadCase(st, fs, cs[..k])
  {
    CaseEntriesPrefixOrgans(cs, k);
    LoadEntriesStops(st, fs, CaseEntries(cs), |CaseEntries(cs[..k])|);
  }

  /** One more organ of the case data after the earlier ones loaded: a
      failure in its leaves is the result of the whole load, and otherwise
      the load of the first `k + 1` organs settles where its leaves left
      the store. */
  lemma LoadCaseNext(st: Store, fs: seq<Formula>, cs: seq<OrganCase>, k: nat, mid: Store, out: Outcome)
    requires k < |cs| && LoadCase(st, fs, cs[..k]) == Outcome(mid, Settled)
    requires out == LoadEntries(mid, fs, OrganEntries(cs[k].name, cs[k].values))
    ensures out.status.Failed? ==> LoadCase(st, fs, cs) == out
    ensures !out.status.Failed? ==> out.status == Settled && LoadCase(st, fs, cs[..k + 1]) == out
  {
    LoadCaseStep(st, fs, cs, k);
    LoadEntriesFrame(mid, fs, OrganEntries(cs[k].name, cs[k].values));
    if out.status.Failed? {
      LoadCaseStops(st, fs, cs, k + 1);
    }
  }

  // ---------------------------------------------------------------------
  // Construction

  /** `Avatar(schema, case_data)` (Avatar.py:60-72) on an empty avatar: the
      schema when given, then the case data when given, stopping at the
      first failure. Without a schema the avatar stays empty and any leaf of
      the case data fails, as there is no organ to hold it. */
  function Construct(schema: Option<Schema>, caseData: Option<seq<OrganCase>>): (c: Loaded)
    ensures schema.None? ==>
      && c.store == map[] && c.formulas == []
      && (c.failure.None? <==> caseData.None? || CaseEntries(caseData.value) == [])
  {
    var l := if schema.Some? then LoadSchema(map[], [], schema.value) else Loaded(map[], [], None);
    if l.failure.Some? || caseData.None? then l
    else
      var es := CaseEntries(caseData.value);
      LoadEntriesFrame(l.store, l.formulas, es);
      LoadEntriesSucceeds(l.store, l.formulas, es);
      assert es != [] ==> es[0] in es;
      var c := LoadCase(l.store, l.formulas, caseData.value);
      Loaded(c.store, l.formulas, if c.status.Failed? then Some(c.status.err) else None)
  }

  /** Building an avatar from a schema that loads: it has exactly the
      schema's organs, indicators and rules, each indicator under its own
      name with the type its last schema entry names. Loading the case data
      fails exactly when some leaf names a missing indicator or has the
      wrong type; an indicator no leaf names keeps its zero value, and after
      a load that succeeds every named indicator holds the value of the
      last leaf naming it. */
  lemma ConstructSpec(schema: Schema, caseData: Option<seq<OrganCase>>)
    requires LoadSchema(map[], [], schema).failure.None?
    ensures var c := Construct(Some(schema), caseData);
      var l := LoadSchema(map[], [], schema);
      var es := if caseData.Some? then CaseEntries(caseData.value) else [];
      && c.store.Keys == OrganNames(schema.organs)
      && (forall n :: n in c.store ==> c.store[n].Keys == IndicatorNames(LastNamed(schema.organs, n).indicators))
      && (forall k: Key :: Has(c.store, k) ==>
            && At(c.store, k).name == k.1
            && ResolveType(LastIndicator(LastNamed(schema.organs, k.0).indicators, k.1).typeName) ==
               Some(At(c.store, k).dataType)
            && (k !in EntryKeys(es) ==> At(c.store, k).value == Zero(At(c.store, k).dataType)))
      && Conforming(c.store)
      && c.formulas == (if schema.formulas.Some? then schema.formulas.value else [])
      && (c.failure.None? <==>
            forall e :: e in es ==>
              Has(l.store, (e.organ, e.indicator)) && Conforms(e.value, At(l.store, (e.organ, e.indicator)).dataType))
      && (c.failure.None? ==> HoldsLastValues(c.store, es))
  {
    var l := LoadSchema(map[], [], schema);
    var es := if caseData.Some? then CaseEntries(caseData.value) else [];
    var c := Construct(Some(schema), caseData);
    SchemaStartsAtZero(schema);
    if caseData.Some? {
      LoadEntriesSucceeds(l.store, l.formulas, es);
      LoadEntriesFrame(l.store, l.formulas, es);
      LoadEntriesValues(l.store, l.formulas, es);
    }
    assert OnlyChanged(l.store, c.store, EntryKeys(es));
    DeclaresKept(schema, l.store, c.store, EntryKeys(es));
  }

  /** A load that changes only values keeps what the schema declared, and
      the zero values of the indicators it does not touch. */
  lemma DeclaresKept(schema: Schema, a: Store, b: Store, touched: set<Key>)
    requires forall n :: n in a ==> n in OrganNames(schema.organs) && Declares(a[n], LastNamed(schema.organs, n).indicators)
    requires OnlyChanged(a, b, touched)
    ensures forall n :: n in b ==> n in OrganNames(schema.organs) && b[n].Keys == IndicatorNames(LastNamed(schema.organs, n).indicators)
    ensures forall k: Key :: Has(b, k) ==>
      && k.0 in OrganNames(schema.organs) && k.1 in IndicatorNames(LastNamed(schema.organs, k.0).indicators)
      && At(b, k).name == k.1
      && ResolveType(LastIndicator(LastNamed(schema.organs, k.0).indicators, k.1).typeName) == Some(At(b, k).dataType)
      && (k !in touched ==> At(b, k).value == Zero(At(b, k).dataType))
  {
    forall k: Key | Has(b, k)
      ensures Has(a, k)
    {
      SameShapeHas(a, b, k);
    }
  }
}
