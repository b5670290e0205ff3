# Property containers, upgrade builders and single-operation item transfers

A Dafny model of three small pieces of sequential logic from the BuildingGadgets
rewrite core library:

- **`PropertyContainer` and its `Builder`** (`properties.dfy`, module `Properties`).
  The container maps each property to a value. Properties are keyed by object
  identity. The container also keeps an index from serialisation name to
  property, and the set of `MutableProperty` wrappers whose property may be
  set after `build`. The builder rejects a second property with a name already
  in use. It demotes a mutable property back to immutable when the property is
  put again without its wrapper. Afterwards the container only ever overwrites
  values of keys it already has: through a registered wrapper
  (`setProperty`), or from serialised data whose names it knows
  (`deserializeNBT`).
  Both classes carry their invariant as `Valid()`:
  - the name index and the key set agree;
  - the mutable wrappers wrap keys;
  - no two wrappers wrap the same property.

  The key set of a built container cannot change, because its name index is a
  `const` and `Valid()` ties the keys to it.
- **`UpgradeBuilder` / `BuiltUpgrade`** (`upgrades.dfy`, module `Upgrades`).
  A builder collects a table from traits to modifications: sum, product,
  activation, deactivation, or any other factory. `Build` turns the table into
  an upgrade. The upgrade reports the table's keys as its traits, accepts the
  tiers of a range, and yields, for a trait and a stack, the factory's operator
  or none. Java's 32-bit `int` wrap-around in the sum and product operators is
  written out as `Wrap32`.
- **`IItemIndex`'s single `extractItem` / `insertItem`** (`inventory.dfy`,
  module `Inventory`). Each one opens a fresh bulk transaction, performs the
  one operation with the caller's arguments, commits once, and returns the
  transaction's count. A transaction records what is done to it as a log of
  events. What it answers is left to the implementation, represented by a
  function parameter. `BindingResult` is the three-valued datatype
  `NoBind | Replace | Bind`.

Where the model admits Java `null` (a trait, a factory, a range, a custom factory's result), it becomes `Option.None` (module `Wrappers`). The exceptions the
code throws become `Outcome`/`Result` values: `IllegalArgument` for
`Preconditions.checkArgument` and `NullPointer` for `Objects.requireNonNull`.

## Model

| member | source | states |
|---|---|---|
| Properties.KeyIsIndexed | src/main/java/com/direwolf20/core/properties/PropertyContainer.java:99-104 | every key of a name-indexed table is found under its own name |
| Properties.NamesUnique | src/main/java/com/direwolf20/core/properties/PropertyContainer.java:99-104 | no two keys of a name-indexed table share a name |
| Properties.IndexSize | src/main/java/com/direwolf20/core/properties/PropertyContainer.java:99-104 | the name index has exactly as many entries as the table has keys |
| Properties.WrapperIsIndexed | src/main/java/com/direwolf20/core/properties/PropertyContainer.java:116-117 | a registered wrapper is the one the property-to-wrapper index holds for its own property |
| Properties.IndexedWrappersUnique | src/main/java/com/direwolf20/core/properties/PropertyContainer.java:105-108 | the wrappers kept through that index wrap pairwise distinct properties (at most one wrapper per property) |
| Properties.Deserialized | src/main/java/com/direwolf20/core/properties/PropertyContainer.java:62-69 | reading data keeps the key set; a key whose name is in the data takes the decoded value; every other key keeps its value |
| Properties.DeserializeUnknownIsNoOp | src/main/java/com/direwolf20/core/properties/PropertyContainer.java:63-69 | data that names only unknown properties changes nothing |
| Properties.DeserializeIdempotent | src/main/java/com/direwolf20/core/properties/PropertyContainer.java:62-69 | reading the same data twice has the effect of reading it once |
| Properties.Builder.constructor | src/main/java/com/direwolf20/core/properties/PropertyContainer.java:83-88 | a new builder is empty and valid |
| Properties.Builder.PutProperty | src/main/java/com/direwolf20/core/properties/PropertyContainer.java:99-111 | fails with an argument error, leaving the builder unchanged, exactly when a different property holds the name; otherwise stores the value, indexes the name, drops the property's mutable wrapper, and keeps the invariant |
| Properties.Builder.PutMutableProperty | src/main/java/com/direwolf20/core/properties/PropertyContainer.java:113-119 | fails exactly as the plain put does for the underlying property; otherwise stores the value under the underlying property and leaves the given wrapper as the only one registered for it |
| Properties.Builder.Build | src/main/java/com/direwolf20/core/properties/PropertyContainer.java:121-124 | hands the builder's tables to a new valid container |
| Properties.PropertyContainer.constructor | src/main/java/com/direwolf20/core/properties/PropertyContainer.java:23-27 | the container holds the given tables |
| Properties.PropertyContainer.GetProperty | src/main/java/com/direwolf20/core/properties/PropertyContainer.java:34-37 | empty when the property is absent or its stored value is null, otherwise the stored value |
| Properties.PropertyContainer.ListProperties | src/main/java/com/direwolf20/core/properties/PropertyContainer.java:49-51 | the listed properties are exactly those reachable through their names |
| Properties.PropertyContainer.SetProperty | src/main/java/com/direwolf20/core/properties/PropertyContainer.java:40-46 | true iff the wrapper is registered mutable; then only that property's value changes and reads back as the new value; otherwise nothing changes; the key set never changes |
| Properties.PropertyContainer.SerializeNBT | src/main/java/com/direwolf20/core/properties/PropertyContainer.java:54-59 | one entry per property, under the property's name, holding its encoded value; the entries' names are exactly the index's names; there are as many entries as properties |
| Properties.PropertyContainer.DeserializeNBT | src/main/java/com/direwolf20/core/properties/PropertyContainer.java:62-70 | the new table is `Deserialized` of the old one; the container stays valid |
| Properties.DemotionScenario | src/main/java/com/direwolf20/core/properties/PropertyContainer.java:105-108 | a property put as mutable, put again as plain and then built can no longer be set through the old wrapper, and keeps the plain value |
| Upgrades.Wrap32 | src/main/java/com/direwolf20/core/traits/upgrade/UpgradeBuilder.java:41-51 | Java's `int` result of an exact value is congruent to it modulo 2^32 and equals it when it fits |
| Upgrades.Wrap32Unique | src/main/java/com/direwolf20/core/traits/upgrade/UpgradeBuilder.java:41-51 | that congruence determines the `int` result uniquely |
| Upgrades.Instantiate | src/main/java/com/direwolf20/core/traits/upgrade/UpgradeBuilder.java:41-63 | the four built-in modifications always yield an operator: sum and product an `int` one, activation one that is true and deactivation one that is false, whatever the input; a custom factory's result, null included, is passed on unchanged |
| Upgrades.SumModifierAdds | src/main/java/com/direwolf20/core/traits/upgrade/UpgradeBuilder.java:41-43 | the sum operator for stack `s` maps `i` to `addition(s) + i`, wrapped to `int` |
| Upgrades.ProductModifierMultiplies | src/main/java/com/direwolf20/core/traits/upgrade/UpgradeBuilder.java:49-51 | the product operator for stack `s` maps `i` to `factor(s) * i`, wrapped to `int` |
| Upgrades.BuiltUpgrade.IsValidLevel | src/main/java/com/direwolf20/core/traits/upgrade/UpgradeBuilder.java:80-82 | a level is valid iff the range contains it: every level for an unbounded range, `a <= level <= b` for a closed one, `a < level < b` for an open one |
| Upgrades.ValidLevelsHaveNoGaps | src/main/java/com/direwolf20/core/traits/upgrade/UpgradeBuilder.java:80-82 | a level between two valid levels is valid |
| Upgrades.BuiltUpgrade.GetModificatorFor | src/main/java/com/direwolf20/core/traits/upgrade/UpgradeBuilder.java:86-89 | none for an unregistered trait; an operator for a trait registered with a built-in modification; for a custom factory, exactly what the factory yields for the tier, null included |
| Upgrades.ReportedTraitsHaveOperators | src/main/java/com/direwolf20/core/traits/upgrade/UpgradeBuilder.java:73-89 | in a built upgrade a lookup finds an operator only for a reported trait, and finds none for a reported trait exactly when its custom factory yields null for the stack |
| Upgrades.UpgradeBuilder.constructor | src/main/java/com/direwolf20/core/traits/upgrade/UpgradeBuilder.java:19-25 | a new builder has an empty table |
| Upgrades.UpgradeBuilder.PutModification | src/main/java/com/direwolf20/core/traits/upgrade/UpgradeBuilder.java:36-39 | a null trait or factory is rejected with a null-pointer error before the table changes; otherwise the table gains the entry |
| Upgrades.UpgradeBuilder.SumModifier | src/main/java/com/direwolf20/core/traits/upgrade/UpgradeBuilder.java:41-43 | registers the sum modification for the trait, or rejects a null trait |
| Upgrades.UpgradeBuilder.MultiplicationModifier | src/main/java/com/direwolf20/core/traits/upgrade/UpgradeBuilder.java:49-51 | registers the product modification for the trait, or rejects a null trait |
| Upgrades.UpgradeBuilder.ActivationModifier | src/main/java/com/direwolf20/core/traits/upgrade/UpgradeBuilder.java:57-59 | registers the activation modification for the trait, or rejects a null trait |
| Upgrades.UpgradeBuilder.DeactivationModifier | src/main/java/com/direwolf20/core/traits/upgrade/UpgradeBuilder.java:61-63 | registers the deactivation modification for the trait, or rejects a null trait |
| Upgrades.UpgradeBuilder.Build | src/main/java/com/direwolf20/core/traits/upgrade/UpgradeBuilder.java:65-67 | fails with a null-pointer error exactly for a null range; otherwise the upgrade's trait set is the table's key set, its table is the builder's, and a level is valid iff the range contains it |
| Inventory.Operations | src/main/java/com/direwolf20/core/inventory/IItemIndex.java:15-28 | the operations performed on a transaction, drawn from its log: never more than the log's events, and every performed operation among them |
| Inventory.OperationsAppend | src/main/java/com/direwolf20/core/inventory/IItemIndex.java:15-28 | performing an operation appends it to the transaction's operations, in order; a commit adds none |
| Inventory.ItemIndex.BulkTransaction | src/main/java/com/direwolf20/core/inventory/IItemIndex.java:12 | opens a fresh transaction with an empty log |
| Inventory.BulkItemTransaction.ExtractItem | src/main/java/com/direwolf20/core/inventory/IItemIndex.java:17 | logs the extract with its arguments and returns the implementation's answer for it |
| Inventory.BulkItemTransaction.InsertItem | src/main/java/com/direwolf20/core/inventory/IItemIndex.java:25 | logs the insert with its arguments and returns the implementation's answer for it |
| Inventory.BulkItemTransaction.Commit | src/main/java/com/direwolf20/core/inventory/IItemIndex.java:18 | logs one commit |
| Inventory.ItemIndex.ExtractItem | src/main/java/com/direwolf20/core/inventory/IItemIndex.java:15-20 | opens exactly one new transaction; its log is the one extract with the caller's key, count and simulate flag, followed by one commit, whatever the flag, so its only operation is that extract; the result is that transaction's answer |
| Inventory.ItemIndex.InsertItem | src/main/java/com/direwolf20/core/inventory/IItemIndex.java:23-28 | opens exactly one new transaction; its log is the one insert with the caller's key, count and simulate flag, followed by one commit, whatever the flag, so its only operation is that insert; the result is that transaction's answer |

## Left out

- `reIndex`, `updateIndex`, `bind`, `unbind` and `boundLinks` (src/main/java/com/direwolf20/core/inventory/IItemIndex.java:38-57) are abstract in the interface. No implementation of them is part of this model, so they have no model members. `BindingResult` is modelled only as its three values.
- src/main/java/com/direwolf20/core/inventory/IItemIndex.java contains no transaction implementation, so clamping to what is available, atomic commit, staleness handling and rejecting a second commit are not modelled. So `BulkItemTransaction` only logs its calls. Its answers come from a function parameter, and `ItemIndex` gives the `n`-th transaction it opens the behaviour `behaviour(n)`. The counter `transactionsOpened` exists only in the model.
- Inventory.ItemIndex.ExtractItem and Inventory.ItemIndex.InsertItem: item counts are unbounded integers rather than Java `int`. They are only passed through, never computed with.
- NBT encoding: `Property.serializeValue` and `Property.deserialize` are passed in as the functions `encode` and `decode`. Serialised data is a map from name to an opaque value. No round trip is claimed.
- The warning logged for an unknown name during `deserializeNBT` is output only; the model skips the name.
- Unchecked casts (`property::cast`, the `UnaryOperator<T>` cast in `getModificatorFor`): the container holds one value type `V`. Operators are a tagged datatype over `int` and `boolean`.
- Null `Property` or `MutableProperty` arguments are not modelled: the model's property and wrapper references are never null. In Java, `putProperty` and `putMutableProperty` with a null property throw a null-pointer error when they read its name (src/main/java/com/direwolf20/core/properties/PropertyContainer.java:100), and `setProperty` with a null wrapper returns false (line 41).
- Aliasing after `build`: the container receives the builder's tables by value. Using the builder after `build` is not modelled.
- `floatSumModifier` and `floatMultiplicationModifier` use floating point and are omitted. A custom factory cannot yield a `double` operator in this model.
- Upgrades.UpgradeBuilder.PutModification: requires that the trait is not yet registered. Guava's `ImmutableMap.Builder` decides at `build` what repeated keys do, and that library is not part of this model. The same requirement, for the same reason, is on Upgrades.UpgradeBuilder.SumModifier, MultiplicationModifier, ActivationModifier and DeactivationModifier (next four lines).
- Upgrades.UpgradeBuilder.SumModifier: repeated trait excluded as above. A null `additionFactory`, a factory that yields a null `Integer`, and a null operand would each fail with a null-pointer error only when the operator is applied; the model's `int32` values cannot be null, so these failures are not modelled.
- Upgrades.UpgradeBuilder.MultiplicationModifier: repeated trait excluded as above. A null `multiplicationFactory`, a factory that yields a null `Integer`, and a null operand would each fail with a null-pointer error only when the operator is applied; these failures are not modelled.
- Upgrades.UpgradeBuilder.ActivationModifier: repeated trait excluded as above.
- Upgrades.UpgradeBuilder.DeactivationModifier: repeated trait excluded as above.
- Guava `Range` is modelled by two bounds, each closed, open or unbounded. Guava's check that the lower bound does not exceed the upper one is not modelled.
- `Property`, `MutableProperty`, `Trait`, `UpgradeStack`, `IndexKey` and the `Upgrade` base class are not part of this model beyond what the core uses. That is: a property's name, a wrapper's underlying property, identity for traits and keys, a stack's tier, and the trait set that `Upgrade` stores.
- No concurrency or I/O is involved in the modelled code.
