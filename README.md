# Avatar: a reactive store of organ indicators, in Dafny

Avatar.py keeps a person as a set of named organs. Each organ holds named,
typed indicators. A schema declares the organs, the indicators and their
types, plus an ordered list of formula rules. Each rule reads "when
indicator `trigger` has changed, set `target` to `expression`". An
expression sees the target's current value (`value`) and the trigger's
(`trigger_value`). `update_indicator` checks a value's type, writes it, and
propagates the change through the rules. Propagation runs in passes:

- a pass runs every rule whose trigger is in the frontier, in list order;
- each rule's result is written into its target;
- a target joins the next pass's frontier when Python's `!=` holds between
  its old and new value;
- passes continue until the frontier is empty.

The model has two layers:

- **Value layer.** Python's values (`Values`) and a closed expression
  language standing in for the formula evaluator (`Expressions`): `+`,
  `*`, and `[*value, x]` on floats, ints, lists and strings. Indicators and
  the avatar's contents as a value, `Store` = organ name → indicator name →
  indicator (`Indicators`). Rule evaluation, one pass and the pass loop as
  functions on a `Store` (`Propagation`). The checked update, schema
  loading, case-data loading and construction (`Updates`).
- **Object layer.** Classes `Organ` and `Avatar` whose fields the methods
  update in place, as the Python methods do (`AvatarModel`). Each method is
  proved against the value-layer function that specifies it: its abstract
  `State()` afterwards is that function of the state before.

`Demo` replays main.py: it builds the four-rule heart, lungs and brain
avatar and proves the result of updating the heart rate to 70.0.

## Model

| member | source | states |
|---|---|---|
| Values.ResolveType | Avatar.py:91 | a type name resolves exactly when it is one of the supported type names, and then to the type spelled that way |
| Values.TagOf | Avatar.py:153 | `isinstance` (`Conforms`) holds of every value for exactly one of the supported classes |
| Values.Zero | Avatar.py:23 | calling a type with no argument gives 0.0, 0, [] or "", an instance of that type |
| Values.PyEq | Avatar.py:136 | every value is `==` to itself, so an unchanged write never marks a change; a list is `==` only to a list and a string only to a string |
| Values.PyEqSymmetric | Avatar.py:136 | `!=` between old and new value does not depend on operand order |
| Values.IntEqualsFloat | Avatar.py:136 | the int 1 and the float 1.0 are `==` although they are different values |
| Expressions.Repeat | Avatar.py:127-135 | `s * n` on a list or string is n copies of s: n times its length, empty for n <= 0, and element i is element i mod len(s) of s |
| Expressions.Unpack | Avatar.py:127-135 | `*x` unpacks exactly lists and strings, a string into its one-character strings |
| Expressions.Add | Avatar.py:127-135 | `+` is defined exactly on two numbers, two lists or two strings; lists concatenate |
| Expressions.Mul | Avatar.py:127-135 | `*` is defined exactly on two numbers or a sequence and an int |
| Expressions.EvalSound | Avatar.py:127-135 | evaluating (`Eval`) an expression typed for the target's and trigger's types never fails and yields its type |
| Indicators.NewIndicator | Avatar.py:13-23 | a new indicator keeps its name and type and starts at the given value, or at the type's zero value when none is given |
| Indicators.Write | Avatar.py:155 | writing one indicator sets its value, keeps its name and type, and changes no other indicator, organ or name |
| Indicators.OnlyChangedTrans | Avatar.py:119-138 | writes to `s` followed by writes to `t` touch at most `s + t` |
| Propagation.Fire | Avatar.py:124-137 | a rule fails exactly when its target or trigger is missing or its expression fails; otherwise it writes the result into the target only, and reports a change exactly when old `!=` new |
| Propagation.PassFrame | Avatar.py:121-137 | a pass (`Pass`) writes only rule targets, keeps every organ, name and type, and its next frontier holds only targets |
| Propagation.PropagateFrame | Avatar.py:118-138 | propagation (`Propagate`) writes only rule targets; a frontier left over is non-empty and holds only the seed or targets |
| Propagation.PropagateMoreFuel | Avatar.py:118-138 | a run that settled or failed within n passes has the same outcome with any larger bound, so the bound hides nothing of a loop that ends |
| Propagation.FailureStopsPass | Avatar.py:121-137 | once a rule of a pass fails, the later rules do nothing |
| Propagation.NextFrontierIsChanged | Avatar.py:136-138 | an indicator is in the next frontier exactly when some rule of the pass changed it |
| Propagation.LastWriterWins | Avatar.py:121-135 | the last rule of a pass writing a target decides its value, computed from the store the earlier rules left |
| Propagation.FailureKeepsEarlierWrites | Avatar.py:121-137 | a failing pass keeps the writes of every rule before the failing one; nothing is rolled back |
| Propagation.StablePassIsIdle | Avatar.py:121-138 | when every triggered rule reproduces its target's value, a pass changes nothing and empties the frontier |
| Propagation.StablePropagationIsIdle | Avatar.py:118-138 | propagation from such a frontier settles after one pass with the store unchanged |
| Propagation.UntriggeredIsIdle | Avatar.py:118-138 | propagation from an indicator that triggers no rule settles immediately with nothing changed |
| Propagation.WellTypedPass | Avatar.py:121-137 | with well-typed rules a pass never fails and keeps every value an instance of its type |
| Propagation.WellTypedPropagation | Avatar.py:118-138 | with well-typed rules propagation never fails and the store keeps conforming |
| Propagation.SelfIncrementNeverSettles | Avatar.py:118-138 | a rule adding 1 to its own trigger leaves the frontier non-empty after any number of passes |
| Updates.Update | Avatar.py:140-157 | without propagation an update either settles or fails with the store unchanged |
| Updates.UpdateUnknown | Avatar.py:150-151 | an unknown organ, then an unknown indicator, fails with NotFound naming it and changes nothing |
| Updates.UpdateWrongType | Avatar.py:152-154 | a value that is not an instance of the indicator's type fails with TypeMismatch and changes nothing |
| Updates.UpdateWithoutFormulas | Avatar.py:155-157 | without propagation a well-typed update succeeds and changes only the named indicator, to the value |
| Updates.UpdateWithFormulas | Avatar.py:155-157 | with propagation an update touches only the named indicator and rule targets |
| Updates.UpdateKeepsConforming | Avatar.py:150-157 | with well-typed rules an update keeps a conforming store conforming, and an existing, well-typed update never fails |
| Updates.BuildOrgan | Avatar.py:89-92 | building an organ fails only on a type name that does not resolve |
| Updates.BuildOrganSpec | Avatar.py:89-92 | an organ builds exactly when every type name resolves; it then holds exactly the listed indicators, each under its own name, of the type its last entry names, at that type's zero value; otherwise the error names a type name that fails |
| Updates.BuildStops | Avatar.py:90-91 | the first type name that fails to resolve ends the organ's build |
| Updates.LoadOrgans | Avatar.py:88-93 | loading organs fails only on a type name that does not resolve |
| Updates.LoadOrgansSpec | Avatar.py:88-93 | loading organs (`LoadOrgans`) fails exactly when some type name fails; on success the store has the old organs and the listed ones, each listed organ holds exactly what its last entry builds, and the others are untouched |
| Updates.LoadOrgansStops | Avatar.py:88-93 | a failing organ ends the load and the later organs are not added |
| Updates.SchemaStartsAtZero | Avatar.py:82-94 | a schema loaded (`LoadSchema`) into an empty avatar gives exactly its organs, each with exactly the indicators of its last entry, of their declared types and at zero values, and its rules or the empty list |
| Updates.LoadIgnoresFormulas | Avatar.py:106-108 | loading case data never consults the rules |
| Updates.LoadEntries | Avatar.py:106-108 | loading case data never runs a rule: it ends settled or failed, and fails only with NotFound or TypeMismatch |
| Updates.LoadEntriesFrame | Avatar.py:106-108 | loading case data writes only the named indicators and keeps every organ, name and declared type |
| Updates.LoadEntriesValues | Avatar.py:106-108 | a load that succeeds leaves each named indicator at the value of the last leaf that names it |
| Updates.LoadEntriesSucceeds | Avatar.py:106-108 | loading case data succeeds exactly when every leaf names an existing indicator and has its type; success keeps conformance |
| Updates.LoadEntriesStops | Avatar.py:106-108 | the first failing leaf ends the load |
| Updates.LoadEntriesAppend | Avatar.py:106-108 | loading `a + b` is loading `a`, then `b` from its result |
| Updates.LoadCaseStep | Avatar.py:106-108 | loading (`LoadCase`) one more organ is loading its leaves from the store the earlier organs left |
| Updates.LoadCaseStops | Avatar.py:106-108 | a failure within the first organs is the result of the whole load |
| Updates.LoadCaseNext | Avatar.py:104-108 | after the earlier organs loaded, a failure in the next organ's leaves is the result of the whole load, and otherwise the load ends settled and extends by that organ |
| Updates.Construct | Avatar.py:60-72 | without a schema the avatar has no organs and no rules, and case data fails exactly when it has a leaf |
| Updates.ConstructSpec | Avatar.py:60-72 | an avatar built from a schema has exactly its organs, indicators and rules, each indicator under its name with the type its last entry names; case data fails exactly when some leaf is missing or mistyped; an indicator no leaf names stays at its zero value, and after a load that succeeds each named indicator holds the value of the last leaf that names it |
| AvatarModel.Organ.constructor | Avatar.py:34-41 | a new organ has its name and no indicators |
| AvatarModel.Organ.AddIndicator | Avatar.py:43-49 | the indicator is stored under its own name, replacing one of that name, others unchanged |
| AvatarModel.Avatar.constructor | Avatar.py:67-68 | a new avatar has no organs and no rules |
| AvatarModel.Avatar.AddOrgan | Avatar.py:74-80 | the organ is stored under its own name, replacing one of that name, others and the rules unchanged |
| AvatarModel.Avatar.FromSchema | Avatar.py:82-94 | the new state and failure are those of `LoadSchema` on the old state; new organs are fresh objects |
| AvatarModel.Avatar.UpdateIndicator | Avatar.py:140-157 | the new state and status are those of `Update` on the old state |
| AvatarModel.Avatar.FireFormula | Avatar.py:124-137 | the new state, change flag and failure are those of `Fire` on the old state |
| AvatarModel.Avatar.ApplyFormulas | Avatar.py:110-138 | the new state and status are those of `Propagate` from the changed indicator on the old state |
| AvatarModel.Avatar.FromCaseData | Avatar.py:96-108 | the new state and status are those of `LoadCase` on the old state |
| AvatarModel.Avatar.LoadOrganCase | Avatar.py:107-108 | the new state and status are those of loading one organ's leaves |
| AvatarModel.NewOrgan | Avatar.py:89-92 | a fresh organ holding what `BuildOrgan` builds, or its failure |
| AvatarModel.NewAvatar | Avatar.py:60-72 | a fresh avatar whose state, rules and failure are those of `Construct` |
| Demo.DemoConstruction | main.py:29-32 | main.py's schema and case data construct the expected avatar with the four rules |
| Demo.HeartRatePass | main.py:11-13 | on any store holding the demo's four indicators with a float rate, capacity and brain size and a list ecg, where the rate and the brain size are not zero, a pass from a changed heart rate adds the rate to the capacity, appends 1 to the ecg and multiplies the brain size by ten, in that order, and all three enter the next frontier; the capacity rule does not run in this pass |
| Demo.TargetsPass | main.py:14 | on a store with a float capacity that is not zero and a float brain size, a pass from the three changed targets runs only the rule keyed on the capacity, which adds the capacity to the brain size |
| Demo.DemoUpdate | main.py:40 | setting the heart rate to 70.0 settles with capacity 76.0, ecg [1, 2, 3, 1] and brain size 1076.0 |
| Demo.RuleResultIsNotTypeChecked | Avatar.py:127-137 | a rule can write a string into a float indicator during a successful update, leaving the store non-conforming |
| Demo.RuleOrderMatters | Avatar.py:121-135 | two rules writing one target give different results in the two orders |

## Left out

- `from_json_string` (Avatar.py:159-171) is not modelled. It parses two JSON strings and then does what `FromSchema` and `FromCaseData` do; JSON parsing is outside the model.
- Formula expressions are Python source passed to `eval`. The model uses a closed expression language (`Expressions.Expr`) with `value`, `trigger_value`, literals, `+`, `*` and `[*x, y]`. The `person` binding, and every other construct `eval` accepts, is not modelled.
- Type names are resolved by `eval` in the source. The model uses the fixed table float, int, list and str. Any other name that `eval` would accept (another builtin, an expression) is `UnknownType` here.
- `isinstance` also accepts subclasses, e.g. `bool` for `int`. Booleans and other subclasses are not among the modelled values.
- Floats are exact reals. Rounding, infinities and NaN (where `nan != nan` would never settle) are not modelled.
- Indicators are values, not shared objects. Lists are values, so in-place mutation of a list shared between indicators, or with an expression result, is not modelled. `Avatar.Valid` requires every organ to be stored under its own name, which `add_organ` guarantees. `Organ` carries no class invariant; that every indicator sits under its own name is proved of the store instead (`Updates.ConstructSpec`), and writes keep it (`Indicators.Write`).
- Schemas and case data are sequences of entries, not dictionaries: a name may repeat, and the later entry wins as a dictionary update would. A missing `organs`, `indicators` or `data_type` key (a KeyError) cannot be expressed.
- The source repeats passes without bound. `Propagation.Propagate` and `AvatarModel.Avatar.ApplyFormulas` take a `fuel` bound on the number of passes and report `Unsettled(frontier)` when it runs out. A run that ends within the bound ends the same way with any larger one (`Propagation.PropagateMoreFuel`); nothing more is said about a run that does not end within it.
- Exceptions are returned as a `Status` or an `Option<Error>`. When loading fails, `AvatarModel.NewAvatar` returns the partly built avatar with the failure, where the Python constructor raises and the object is never returned.
- main.py's printing (main.py:34-46) is not modelled; its values are stated by `Demo.DemoUpdate`.

## Notes on the code

- **Rule results are not type checked.** Avatar.py:127-135 writes whatever the expression returns into the target; only the direct write of `update_indicator` is checked (Avatar.py:153). `Demo.RuleResultIsNotTypeChecked` shows a successful update that leaves the store non-conforming. `Propagation.WellTypedPropagation` shows that well-typed rules keep it conforming.
- **The brain size rule scales the brain size itself.** main.py:13 computes `value * 10`, and `value` is the target's own current value (Avatar.py:132). The update at main.py:40 therefore takes the brain size to 1000.0 and then, through the capacity rule of main.py:14, to 1076.0 (`Demo.DemoUpdate`).
- **A rule that names a missing organ or indicator raises KeyError.** Avatar.py:124-125 and 133 look up the target and the trigger by subscript. The model reports this as `NotFound` (`Propagation.Fire`).
- **Equality is Python's `!=`.** An int and a float of equal magnitude compare equal (`Values.IntEqualsFloat`). A rule that turns 1 into 1.0 therefore writes the new value without adding its target to the next frontier.
- **`update_indicator` propagates from the key it was given.** Avatar.py:118 seeds the frontier with the organ's and the indicator's own names. The two agree because every organ and indicator is stored under its own name.
