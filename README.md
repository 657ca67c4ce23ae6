# lorraine-dto-test-gen core, modelled in Dafny

This project models two engines of the lorraine-dto-test-gen library. The
library generates test data-transfer objects (DTOs) and then edits them by
rules.

1. **The tiered value-generator cache** (`ValueGeneratorCacheImpl`), with
   the `NOT_COVERED` sentinel generator (`IValueGenerator`). Generators are
   registered in four tiers:
   - property path;
   - (owning class, property name);
   - (property name, property type);
   - property-type name.

   A lookup consults the tiers in that order and falls back to the
   sentinel. A type generator can also be spread over the superclass chain
   and the directly implemented interfaces of its type.
2. **The condition / edit / rule algebra.**
   - `CombinedCondition` is an AND/OR accumulator over an ordered child list.
   - `IndexCondition` matches one position.
   - `Editor.and` composes editors in sequence.
   - `ConditionBuilder` and `EditBuilder` are the accumulators behind the
     fluent builder.
   - `MappedClassDataEditor` offers an item the rules registered for its
     exact class.
   - `ListVisitor` collects visited items.

Files and modules:

| file | module | models |
|---|---|---|
| types.dfy | `Types` | type descriptors, property values, the exceptions as `Result`/`Outcome` failures, `Integer.toString` |
| generators.dfy | `Generators` | `IValueGenerator` and `NOT_COVERED` |
| type_hierarchy.dfy | `TypeHierarchy` | an explicit superclass / interface table that stands in for reflection |
| generator_cache.dfy | `GeneratorCache` | `ValueGeneratorCacheImpl` as a class with four `map` fields |
| conditions.dfy | `Conditions` | `CombinedCondition`, `IndexCondition`: `isValid` and `toString` loops, proved against recursive folds |
| editors.dfy | `Editors` | `Editor`, `Editor.and`, the `CombinedEditor` object |
| rule_builder.dfy | `RuleBuilder` | `ConditionBuilder`, `EditBuilder` |
| class_editor.dfy | `ClassKeyedEditor` | `MappedClassDataEditor` |
| list_visitor.dfy | `Visitors` | `ListVisitor` |

Where the class documentation and the code disagree, the model follows the
code:

- The class comment of `ValueGeneratorCacheImpl` (line 31) says the second
  tier is keyed by class, name *and property type*. The key class
  (lines 248-295) holds only the owning class and the property name, so the
  model's second-tier key has no type. `ClassTierIgnoresType` states the
  consequence.
- `registerParentsAgainstCache` registers every superclass, the root class
  included. It stops only where there is no superclass.
- `registerInterfacesAgainstCache` covers the type's own direct interfaces
  and the superclass chain of each. It does not cover super-interfaces
  (`SuperInterfaceNotWalked`) or the interfaces of superclasses.
- The `CombinedCondition` constructor accepts an empty child list. Such a
  node evaluates to the operator's default value, and its `toString` fails.

## Model

| member | source | states |
|---|---|---|
| Generators.Generate | src/main/java/uk/co/optimisticpanda/gtest/dto/defaultfill/IValueGenerator.java:27-43 | NOT_COVERED never yields a value: generating from it fails with an unsupported-operation error carrying its fixed message. Any other generator yields what its producer makes. |
| TypeHierarchy.ParentChain | src/java/uk/co/optimisticpanda/gtest/dto/defaultfill/ValueGeneratorCacheImpl.java:141-147 | The superclass chain, nearest first. It is empty exactly when the type has no superclass, starts at the direct superclass, links each class to its superclass, and ends at a class with no superclass (the root is included). |
| TypeHierarchy.InterfaceWalk | src/java/uk/co/optimisticpanda/gtest/dto/defaultfill/ValueGeneratorCacheImpl.java:149-157 | Every direct interface is walked, and so is every class on each direct interface's superclass chain. Everything walked is a direct interface or lies on the superclass chain of one. |
| GeneratorCache.PutAll | src/java/uk/co/optimisticpanda/gtest/dto/defaultfill/ValueGeneratorCacheImpl.java:141-157 | Putting one generator under the names of a list of types. The key set grows by those names, each maps to the generator, and every other entry is unchanged. `NamesOnly` shows that no other name is added. |
| GeneratorCache.NamesOnly | src/java/uk/co/optimisticpanda/gtest/dto/defaultfill/ValueGeneratorCacheImpl.java:141-157 | Every name the puts add is the `getName()` of one of the types put, so the key set grows by exactly those names. |
| GeneratorCache.TypesToRegister | src/java/uk/co/optimisticpanda/gtest/dto/defaultfill/ValueGeneratorCacheImpl.java:113-131 | The type itself always comes first. SINGLE_TYPE adds nothing. The parent modes add the whole superclass chain. The interface modes add every direct interface and every class on each direct interface's superclass chain. Nothing else is added. |
| GeneratorCache.ValueGeneratorCache.LookUpGenerator | src/java/uk/co/optimisticpanda/gtest/dto/defaultfill/ValueGeneratorCacheImpl.java:168-187 | Fixed precedence. A path entry wins whatever the other tiers hold, then (class, name), then (name, type), then the type's name. With no entry the result is NOT_COVERED. The lookup only reads. |
| GeneratorCache.ValueGeneratorCache.constructor | src/java/uk/co/optimisticpanda/gtest/dto/defaultfill/ValueGeneratorCacheImpl.java:50-55 | All four tiers start empty, so every lookup yields NOT_COVERED. |
| GeneratorCache.ValueGeneratorCache.RegisterAPropertyDepthGenerator | src/java/uk/co/optimisticpanda/gtest/dto/defaultfill/ValueGeneratorCacheImpl.java:66-68 | Puts one path key and replaces an earlier generator for it. The other three tiers are unchanged, and any key with that path now resolves to the new generator. |
| GeneratorCache.ValueGeneratorCache.RegisterAClassNamePropertyNameGenerator | src/java/uk/co/optimisticpanda/gtest/dto/defaultfill/ValueGeneratorCacheImpl.java:83-86 | Puts one (class, name) key, with no type. The other tiers are unchanged. Keys with that class and name that no path entry claims now resolve to it. |
| GeneratorCache.ValueGeneratorCache.RegisterAPropertyNameAndTypeGenerator | src/java/uk/co/optimisticpanda/gtest/dto/defaultfill/ValueGeneratorCacheImpl.java:98-101 | Puts one (name, type identity) key. The other tiers are unchanged. Matching keys that the first two tiers pass over now resolve to it. |
| GeneratorCache.ValueGeneratorCache.RegisterATypeGenerator | src/java/uk/co/optimisticpanda/gtest/dto/defaultfill/ValueGeneratorCacheImpl.java:113-131 | The type tier becomes the old one with every name of `TypesToRegister` mapped to the generator. The other tiers are unchanged. A key whose type name is among them, and which the first three tiers pass over, resolves to it. |
| GeneratorCache.ValueGeneratorCache.RegisterASingleTypeGenerator | src/java/uk/co/optimisticpanda/gtest/dto/defaultfill/ValueGeneratorCacheImpl.java:137-139 | The one-argument overload puts only the exact type's name. The other tiers are unchanged. |
| GeneratorCache.ValueGeneratorCache.RegisterParentsAgainstCache | src/java/uk/co/optimisticpanda/gtest/dto/defaultfill/ValueGeneratorCacheImpl.java:141-147 | The recursion puts every name on the superclass chain, root included, and nothing else. |
| GeneratorCache.ValueGeneratorCache.RegisterInterfacesAgainstCache | src/java/uk/co/optimisticpanda/gtest/dto/defaultfill/ValueGeneratorCacheImpl.java:149-157 | The loop puts each direct interface followed by its superclass chain, in declaration order, and nothing else. |
| GeneratorCache.ValueGeneratorCache.Clear | src/java/uk/co/optimisticpanda/gtest/dto/defaultfill/ValueGeneratorCacheImpl.java:192-197 | All four tiers are emptied, so every lookup yields NOT_COVERED. |
| GeneratorCache.DeferredFailure | src/java/uk/co/optimisticpanda/gtest/dto/defaultfill/ValueGeneratorCacheImpl.java:186 | An uncovered key is looked up normally to NOT_COVERED. Only generating from the result fails. |
| GeneratorCache.ClassTierIgnoresType | src/java/uk/co/optimisticpanda/gtest/dto/defaultfill/ValueGeneratorCacheImpl.java:174-176 | Once tier 1 has passed a key over, a (class, name) entry decides it whatever the property type. Two keys that differ only in type resolve alike. |
| GeneratorCache.TypeTierGoesByName | src/java/uk/co/optimisticpanda/gtest/dto/defaultfill/ValueGeneratorCacheImpl.java:178-184 | The type tier matches by name. A distinct type with the same name resolves to the same generator. |
| GeneratorCache.NotCoveredIffUncovered | src/java/uk/co/optimisticpanda/gtest/dto/defaultfill/ValueGeneratorCacheImpl.java:168-187 | If no tier stores the sentinel itself, a lookup yields NOT_COVERED exactly when no tier holds the key. |
| GeneratorCache.SuperInterfaceNotWalked | src/java/uk/co/optimisticpanda/gtest/dto/defaultfill/ValueGeneratorCacheImpl.java:149-157 | Example: a class C extends B and implements I, and I extends J. In ALL mode C, B and I are registered, but J is not. |
| GeneratorCache.NameAndTypeExample | src/test/java/uk/co/optimisticpanda/gtest/dto/ExampleTest2.java:64-83 | A generator is registered for String properties called "name" over a String fallback. "name" resolves to the registered generator; "description" falls through to the type tier. |
| Conditions.BoolOp.DefaultResult | src/main/java/uk/co/optimisticpanda/gtest/dto/condition/CombinedCondition.java:52-54 | The accumulator starts at true for AND and at false for OR. |
| Conditions.AndValidIffAll | src/main/java/uk/co/optimisticpanda/gtest/dto/condition/CombinedCondition.java:79-94 | An AND node is valid iff every child is valid for the same index and item. With no children it is valid. |
| Conditions.OrValidIffAny | src/main/java/uk/co/optimisticpanda/gtest/dto/condition/CombinedCondition.java:79-94 | An OR node is valid iff some child is valid. With no children it is not valid. |
| Conditions.EvalPair | src/main/java/uk/co/optimisticpanda/gtest/dto/condition/CombinedCondition.java:69-94 | A two-child node is its operator applied to the two children's verdicts, in argument order. |
| Conditions.IndexValidIff | src/main/java/uk/co/optimisticpanda/gtest/dto/condition/IndexCondition.java:24-26 | An index condition holds iff the index equals its own, and the item makes no difference. |
| Conditions.IsValid | src/main/java/uk/co/optimisticpanda/gtest/dto/condition/CombinedCondition.java:79-94 | The accumulator loop (`&=` for AND, its OR counterpart for OR) evaluates every child in order with no short-circuit. Its result is the fold of the children's verdicts from the default value. |
| Conditions.RenderPrefixFails | src/main/java/uk/co/optimisticpanda/gtest/dto/condition/CombinedCondition.java:100-107 | The text built from the first n children fails exactly when one of those children fails to render. |
| Conditions.RenderPrefixSticks | src/main/java/uk/co/optimisticpanda/gtest/dto/condition/CombinedCondition.java:100-107 | Once a child fails, the whole rendering fails with that child's error. |
| Conditions.RenderFailsIffEmptyNode | src/main/java/uk/co/optimisticpanda/gtest/dto/condition/CombinedCondition.java:101-102 | `toString` fails exactly when the tree holds a combined node with no children (`iterator.next()` on an empty list), reached through combined nodes and negations. |
| Conditions.ToString | src/main/java/uk/co/optimisticpanda/gtest/dto/condition/CombinedCondition.java:100-107 | Dispatches on the kind of condition. A negation renders its child first. The result is the rendering `Render` defines. |
| Conditions.ToStringCombined | src/main/java/uk/co/optimisticpanda/gtest/dto/condition/CombinedCondition.java:100-107 | The StringBuilder loop produces `(c1) ` and then `OP (ci) ` for each further child, or the first child failure. |
| Conditions.RenderExample | src/main/java/uk/co/optimisticpanda/gtest/dto/condition/IndexCondition.java:33-34 | Index 1 AND index 22 renders as `(INDEX [1]) AND (INDEX [22]) `. |
| Editors.ApplyIsRunAll | src/main/java/uk/co/optimisticpanda/gtest/dto/edit/Editor.java:14-26 | An editor, however nested, makes exactly the primitive changes it contains, in list order. |
| Editors.And | src/main/java/uk/co/optimisticpanda/gtest/dto/edit/Editor.java:24-26 | `a.and(b)` makes the changes of `a` followed by those of `b`. |
| Editors.ApplyAnd | src/main/java/uk/co/optimisticpanda/gtest/dto/edit/Editor.java:24-26 | Applying `a.and(b)` is applying `b` to what `a` produced. |
| Editors.AndChain | src/main/java/uk/co/optimisticpanda/gtest/dto/edit/Editor.java:24-26 | `a.and(b).and(c)` nests as `((a,b),c)`. That tree differs from `a.and(b.and(c))`, but both edit alike. |
| Editors.ApplyAppendPart | src/main/java/uk/co/optimisticpanda/gtest/dto/rulebuilder/impl/EditBuilder.java:32-34 | Appending a part makes the composite run it after everything it ran before. |
| Editors.Edit | src/main/java/uk/co/optimisticpanda/gtest/dto/edit/Editor.java:14-22 | An editor always applies its change to the item in place. It has no applicability test. |
| Editors.CombinedEditor.constructor | src/main/java/uk/co/optimisticpanda/gtest/dto/rulebuilder/impl/EditBuilder.java:29 | A new combined editor holds exactly the initial edit. |
| Editors.CombinedEditor.AddEdit | src/main/java/uk/co/optimisticpanda/gtest/dto/rulebuilder/impl/EditBuilder.java:33 | `addEdit` appends and keeps the earlier parts. |
| RuleBuilder.ConditionBuilder.constructor | src/main/java/uk/co/optimisticpanda/gtest/dto/rulebuilder/impl/ConditionBuilder.java:26-31 | The running condition is the given one. |
| RuleBuilder.NewConditionBuilder | src/main/java/uk/co/optimisticpanda/gtest/dto/rulebuilder/impl/ConditionBuilder.java:26-31 | A missing condition is refused with an invalid-argument error, "Condition must not be null". Otherwise the new builder holds the condition. |
| RuleBuilder.ConditionBuilder.And | src/main/java/uk/co/optimisticpanda/gtest/dto/rulebuilder/impl/ConditionBuilder.java:33-35 | The old condition is wrapped in an AND node with the argument. Its verdict is `previous && c` everywhere. |
| RuleBuilder.ConditionBuilder.Or | src/main/java/uk/co/optimisticpanda/gtest/dto/rulebuilder/impl/ConditionBuilder.java:37-39 | The old condition is wrapped in an OR node with the argument. Its verdict is `previous` or `c`, everywhere. |
| RuleBuilder.ConditionBuilder.Build | src/main/java/uk/co/optimisticpanda/gtest/dto/rulebuilder/impl/ConditionBuilder.java:41-43 | Returns the running condition. |
| RuleBuilder.ChainIsLeftFold | src/main/java/uk/co/optimisticpanda/gtest/dto/rulebuilder/impl/ConditionBuilder.java:33-39 | The left-nested tree left by a run of `and`/`or` calls evaluates to the left fold of and/or in call order. |
| RuleBuilder.BuildChain | src/main/java/uk/co/optimisticpanda/gtest/dto/rulebuilder/impl/ConditionBuilder.java:26-43 | Driving a builder through a run of calls builds the left-nested tree, one node per call. |
| RuleBuilder.IndexThreeOrEven | src/test/java/uk/co/optimisticpanda/gtest/dto/ExampleTest.java:53-57 | `index().is(3).or(not(isOdd()))` holds at positions 0, 2, 3 and 4 and not at 1. |
| RuleBuilder.BuildThenExtend | src/main/java/uk/co/optimisticpanda/gtest/dto/rulebuilder/impl/ConditionBuilder.java:33-43 | A condition built earlier is unchanged by later `and` calls; the later build wraps it. |
| RuleBuilder.EditBuilder.constructor | src/main/java/uk/co/optimisticpanda/gtest/dto/rulebuilder/impl/EditBuilder.java:25-30 | A fresh combined editor holding exactly the initial edit. |
| RuleBuilder.NewEditBuilder | src/main/java/uk/co/optimisticpanda/gtest/dto/rulebuilder/impl/EditBuilder.java:25-30 | A missing edit is refused with an invalid-argument error, "Edit must not be null". Otherwise a fresh combined editor holds exactly that edit. |
| RuleBuilder.EditBuilder.And | src/main/java/uk/co/optimisticpanda/gtest/dto/rulebuilder/impl/EditBuilder.java:32-34 | Appends to the builder's one combined editor, in place. The field never changes. |
| RuleBuilder.EditBuilder.Build | src/main/java/uk/co/optimisticpanda/gtest/dto/rulebuilder/impl/EditBuilder.java:36-38 | Returns the builder's own combined editor, the same object on every call. |
| RuleBuilder.BuildThenAdd | src/main/java/uk/co/optimisticpanda/gtest/dto/rulebuilder/impl/EditBuilder.java:23-38 | An editor obtained from `build` sees an edit added afterwards, and then makes both changes in order. |
| ClassKeyedEditor.ApplyRulesAppend | src/main/java/uk/co/optimisticpanda/gtest/dto/MappedClassDataEditor.java:63-67 | Offering two rule lists one after the other is offering their concatenation. |
| ClassKeyedEditor.ApplyOneRule | src/main/java/uk/co/optimisticpanda/gtest/dto/MappedClassDataEditor.java:64-67 | A rule whose condition fails leaves the item as it was. A rule whose condition holds runs its editor. |
| ClassKeyedEditor.IgnoresItemEval | src/main/java/uk/co/optimisticpanda/gtest/dto/condition/IndexCondition.java:24-26 | A condition built without value tests gives the same verdict for every item. |
| ClassKeyedEditor.FilterThenRun | src/main/java/uk/co/optimisticpanda/gtest/dto/MappedClassDataEditor.java:64-67 | When no condition reads the item, the rule loop equals selecting the rules whose condition holds and running their editors in order. So a rule is applied iff it is valid. |
| ClassKeyedEditor.LaterRuleSeesEarlierEdit | src/main/java/uk/co/optimisticpanda/gtest/dto/MappedClassDataEditor.java:63-67 | A later rule's condition is evaluated after earlier rules have edited the item. Example: "set name to sample-3", then "when name is sample-3, set CHANGED", ends with CHANGED. |
| ClassKeyedEditor.MappedClassDataEditor.constructor | src/main/java/uk/co/optimisticpanda/gtest/dto/MappedClassDataEditor.java:32-39 | No rules are registered. |
| ClassKeyedEditor.MappedClassDataEditor.GetEdits | src/main/java/uk/co/optimisticpanda/gtest/dto/MappedClassDataEditor.java:79-81 | The rules of exactly that class. A class with no entry has none. |
| ClassKeyedEditor.MappedClassDataEditor.AddEditForClass | src/main/java/uk/co/optimisticpanda/gtest/dto/MappedClassDataEditor.java:91-93 | Appends to the class's own list. The lists of all other classes are unchanged. |
| ClassKeyedEditor.MappedClassDataEditor.Edit | src/main/java/uk/co/optimisticpanda/gtest/dto/MappedClassDataEditor.java:62-69 | A null item fails with a null-pointer error. Otherwise only the rules of the item's exact class are offered it, in order, each condition on the current state. The item itself is returned. |
| ClassKeyedEditor.MappedClassDataEditor.EditAll | src/main/java/uk/co/optimisticpanda/gtest/dto/MappedClassDataEditor.java:47-51 | Each position `k` is edited as `edit(k, list[k])`, in order, up to the first null, which fails the call. Every item ends with the properties that `History` gives for the positions before the first null: items past the null are untouched, and an item listed twice is edited at each of its positions. |
| ClassKeyedEditor.HistoryDistinct | src/main/java/uk/co/optimisticpanda/gtest/dto/MappedClassDataEditor.java:47-51 | With no item repeated, each item is edited exactly once, by its class's rules, at its own position. |
| ClassKeyedEditor.HistoryUntouched | src/main/java/uk/co/optimisticpanda/gtest/dto/MappedClassDataEditor.java:47-51 | An item not yet reached keeps its starting properties. |
| ClassKeyedEditor.RepeatedItemEditedTwice | src/main/java/uk/co/optimisticpanda/gtest/dto/MappedClassDataEditor.java:47-51 | The same object listed twice is edited twice, the second time at index 1 on what the first edit left. |
| ClassKeyedEditor.TwoClassesScenario | src/test/java/uk/co/optimisticpanda/gtest/dto/MappedClassDataEditorTest.java:56-75 | There is one always-true rule per class. Editing `[dto1, dto2]` gives each item only its own class's value. |
| Visitors.ListVisitor.constructor | src/java/uk/co/optimisticpanda/gtest/dto/defaultfill/enggen/visit/ListVisitor.java:36-39 | The visitor starts with nothing collected and records the item type. |
| Visitors.ListVisitor.Visit | src/java/uk/co/optimisticpanda/gtest/dto/defaultfill/enggen/visit/ListVisitor.java:45-47 | Appends the item at the end, ignoring the index. |
| Visitors.ListVisitor.GetDtos | src/java/uk/co/optimisticpanda/gtest/dto/defaultfill/enggen/visit/ListVisitor.java:52-54 | The items collected so far, in visit order. It is a copy, not a live view; see "## Left out". |
| Visitors.ListVisitor.GetClazz | src/java/uk/co/optimisticpanda/gtest/dto/defaultfill/enggen/visit/ListVisitor.java:59-61 | The type recorded at construction. The field is a `const`, so the type cannot change after construction. |
| Visitors.CollectAll | src/java/uk/co/optimisticpanda/gtest/dto/defaultfill/enggen/visit/ListVisitor.java:45-61 | Visiting items one by one, at any indices, leaves exactly those items in visit order, and the type unchanged. |
| Visitors.VisitTwice | src/java/uk/co/optimisticpanda/gtest/dto/defaultfill/enggen/visit/ListVisitor.java:45-54 | Example: a fresh visitor shown `a` and then `b`, both at index 7, holds `[a]` after the first visit. After the second it holds `[a]` followed by `b`. (The general law is `Visit`'s contract.) |

## Left out

- Reflection (`getSuperclass`, `getInterfaces`, `getClass`, `getName`) is replaced by an explicit hierarchy table and by a type tag on each item. The table carries a depth so that the superclass walk terminates, as the acyclic class graph guarantees.
- The `hashCode`/`equals` bodies of the key classes become datatype equality.
- The unreachable `default` branch of the mode switch (`IllegalArgumentException`) is not modelled, because the mode datatype has exactly four cases.
- Likewise, the `IllegalStateException` branch of `isValid` cannot be reached with two operators.
- The `null` property type checked in `registerParentsAgainstCache` is not modelled: a type in the model is never missing.
- Java `null` arguments are modelled only where the code handles them:
  - the two builder constructors, as an `Option` argument;
  - `MappedClassDataEditor.edit`, as a nullable item.
- A `null` generator is not modelled, because `Generator` has no null case. In Java, registering `null` stores a null value, and the lookup's `!= null` tests (ValueGeneratorCacheImpl.java:171-183) then fall through to the next tier. In the model, every stored generator decides the lookup.
- `key.getPropertyTypeName()` (ValueGeneratorCacheImpl.java:182) is not part of this model. The type tier is assumed to be keyed by the property type's `getName()`, the same name `registerATypeGenerator` puts.
- The Java `int` index is modelled as an unbounded integer. Indices only take part in equality and parity tests, and the examples stay far from 32-bit limits.
- What a generator produces, and what a primitive editor does to an item, are supplied as function parameters (`produce`, `effect`). Property access (OGNL or reflection) is not part of this model.
- Several classes whose source is not part of this model are used through assumptions about their behaviour:
  - `MapOfLists.get` returns an empty list for a class with no entry, not `null`. `ClassKeyedEditor.MappedClassDataEditor.GetEdits` assumes this. If `get` returned `null`, editing an item of an unregistered class would throw instead of leaving the item unchanged.
  - `new CombinedEditor(edit)` holds exactly that edit, and `addEdit` appends after the earlier parts (`Editors.CombinedEditor`).
  - A combined editor runs its parts in list order (`Editors.Apply`).
  - `new CombinedEditor(this, editor)` holds the receiver and then the argument, in that order (`Editors.And`).
  - `FunctionUtils.indexed()` numbers the items from 0 in list order (`ClassKeyedEditor.MappedClassDataEditor.EditAll`).
  - A rule's `isValid` delegates to its condition, and its `edit` runs its editor unconditionally (`ClassKeyedEditor.Rule`).
- Generators and editors are modelled as pure functions (`produce`, `effect`). A generator or editor that keeps its own state between calls, such as a counter, cannot be expressed.
- The leaf conditions other than `IndexCondition` are not shown in the source (not, even, odd, value-equals, always). Their verdicts are stated as assumptions in `Eval`. Their renderings are a parameter (`Texts`). A negation is assumed to render its child and wrap the child's text, so a failing child fails the negation.
- Editors are values once they are placed in a composite. A `CombinedEditor` object that is nested inside another composite and changed later is not tracked through the nesting. Only the builder's own combined editor is modelled as a shared, live object.
- Visitors.ListVisitor.GetDtos: returns a snapshot of the collected items, not a read-only live view that later visits show through.
- `CombinedVisitor`, the fluent builder interfaces (`IWhereClauseBuilder`, `IAddWhereOrEndBuilder`), the generation engine and `DtoGenerationEngine` are not part of this model. They are plumbing or interface declarations without the implementation shown.
- Thread safety: the library has none, and the model is sequential.
