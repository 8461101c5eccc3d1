# Mocked Django relations, modelled in Dafny

`django_mock_queries` lets Django model code run in unit tests without a
database. Its `mocks.py` holds four small pieces of logic, and this project
models them:

- **Relation accessors.** `MockOneToManyMap` and `MockOneToOneMap` stand in
  for Django's related-object descriptors. Each keeps a dictionary from
  `id(instance)` to a pair of a weak reference to the instance and the
  related value. A to-many read on a miss creates and stores an empty
  `MockSet`; a to-one read on a miss raises `RelatedObjectDoesNotExist`.
  Module `RelationMaps`, file `relation_maps.dfy`.
- **`find_all_models`.** The pre-order walk over each model and its
  multi-table inheritance parents. Module `ModelGraph`, file
  `model_graph.dfy`.
- **`mocked_relations`.** It turns the walk into a list of `patch.object`
  entries: `save`, `objects` and the directly declared relation accessors.
  Module `Planner`, file `planner.dfy`.
- **`PatcherChain`.** It starts, stops, enters and exits that list of
  patchers, and decorates test classes. Module `Chain`, file
  `patcher_chain.dfy`.

Module `Patching` (file `patching.dfy`) gives the chain's call log a
meaning. Activating a patcher records the attribute's current value and
binds the replacement. Deactivating it binds the recorded value again. On
that reading it proves two things:

- `stop` after `start` restores every attribute;
- `__exit__` after `__enter__`, as written, does not always do so.

Modelling choices:

- Garbage collection is an explicit parameter: `live` is the set of objects
  still alive. A weak reference resolves exactly when its referent is in
  `live`.
- An `Instance` carries its `id()` (`addr`) and a `serial` that tells apart
  two objects which occupy the same address at different times.
- A model class is a `Model` value whose `parents` field lists its parent
  models. A value can only contain smaller values, so the inheritance
  relation is acyclic by construction.
- A patcher is a `Patcher` value: its planned entry plus a serial number.
  Two patches of the same attribute are therefore still two distinct
  patcher objects.

Two places where the code does not do what its own structure and comments
suggest; the model follows the code in both:

- `__exit__` (`django_mock_queries/mocks.py:295-298`) exits the patchers in
  list order. Yet `stop` (line 304) deactivates them in reverse, and the
  class docstring (lines 241-245) promises a chain that works "just like one
  from the mock module", whose nested patches unwind last-first.
  `Chain.PatcherChain.Exit` exits in list order, as the code does.
- The skip guard (line 209, "already mocked, so skip it") is meant to skip
  models that are already patched. It is evaluated while the list is
  planned, before any patcher has started. So it never fires for a model the
  same call has already planned: `mocked_relations(Child, Parent)` plans
  `Parent.save` twice. `Planner.ParentPassedTwiceIsPlannedTwice` states this.

## Model

| member | source | states |
|---|---|---|
| `RelationMaps.Lookup` | django_mock_queries/mocks.py:117-123 | the read both accessors share: it hits if and only if there is an entry under `id(instance)` whose weak reference still resolves, and a hit yields that entry's value |
| `RelationMaps.Resolve` | django_mock_queries/mocks.py:122 | calling the weak reference yields its own referent or `None`, never another object |
| `RelationMaps.Store` | django_mock_queries/mocks.py:133 | the write adds or overwrites the key `id(instance)` only, leaves every other id's entry as it was, and files the entry under its owner's id |
| `RelationMaps.ReadAfterWrite` | django_mock_queries/mocks.py:117-133 | after `__set__(instance, v)`, the lookup of the same live instance yields exactly `v` |
| `RelationMaps.WriteIsolated` | django_mock_queries/mocks.py:130-133 | the dictionary is keyed by identity: a write for one live instance does not change the lookup of any other live instance |
| `RelationMaps.DeadOwnerIsMiss` | django_mock_queries/mocks.py:120-123 | an entry whose owner has been collected reads as a miss, the same as no entry at all |
| `RelationMaps.HitIsOwnEntry` | django_mock_queries/mocks.py:157-162 | for a live instance, a lookup hits if and only if the entry under its id was stored for that very object, so a stale entry is never returned for an object that reuses a dead object's id |
| `RelationMaps.RelatedModel` | django_mock_queries/mocks.py:124-125 | the model a to-many miss builds its collection on: the `related` field's model when the original has `related`, otherwise the original's own field's model |
| `RelationMaps.DoesNotExistMessage` | django_mock_queries/mocks.py:164-167 | the message is `Mock `, the owner's name, ` has no `, the accessor name and a final `.`, at exactly those positions |
| `RelationMaps.MockSet.constructor` | django_mock_queries/mocks.py:125 | the new empty collection is typed by the model it is built for |
| `RelationMaps.OneToManyMap.constructor` | django_mock_queries/mocks.py:102-105 | a new accessor wraps the given original descriptor and starts with an empty `map` |
| `RelationMaps.OneToManyMap.Get` | django_mock_queries/mocks.py:107-128 | a read through the class returns the accessor and leaves `map` unchanged; a hit returns the stored value and leaves `map` unchanged; a miss, including an entry with a dead owner, returns a fresh `MockSet` on the related model, and `map` becomes `map` with that value stored for the instance |
| `RelationMaps.OneToManyMap.Set` | django_mock_queries/mocks.py:130-133 | `map` becomes the old `map` with the entry at `id(instance)` replaced by `(instance, value)`, and it stays keyed by owner id |
| `RelationMaps.OneToOneMap.constructor` | django_mock_queries/mocks.py:142-145 | a new accessor wraps the given original descriptor and starts with an empty `map` |
| `RelationMaps.OneToOneMap.Get` | django_mock_queries/mocks.py:147-169 | a read through the class returns the accessor; a hit returns the stored object; a miss raises `RelatedObjectDoesNotExist` with the message `Mock <owner> has no <accessor>.`, or `AttributeError` when the original has no `related`; a read never changes `map` |
| `RelationMaps.OneToOneMap.Set` | django_mock_queries/mocks.py:171-174 | `map` becomes the old `map` with the entry at `id(instance)` replaced by `(instance, value)`, and it stays keyed by owner id |
| `RelationMaps.ReadTwice` | django_mock_queries/mocks.py:117-128 | two to-many reads of the same live instance with no write between them return the same object, and `map` then has exactly the old keys plus `id(instance)` |
| `RelationMaps.WriteThenReadOne` | django_mock_queries/mocks.py:157-174 | a to-one read of a live instance after `__set__` returns the written object and raises nothing |
| `ModelGraph.Expand` | django_mock_queries/mocks.py:185-189 | the walk for one model starts with that model |
| `ModelGraph.FindAllModels` | django_mock_queries/mocks.py:182-189 | the walk yields at least one model per input and starts with the first input |
| `ModelGraph.FindAllModelsAppend` | django_mock_queries/mocks.py:184 | the walk of a concatenation is the concatenation of the walks, so the inputs are handled one after the other, in their given order |
| `ModelGraph.FindAllModelsSplit` | django_mock_queries/mocks.py:184-189 | input `i` appears right after the walk of the inputs before it and is immediately followed by the walk of its own parents |
| `ModelGraph.ExpandMembers` | django_mock_queries/mocks.py:185-189 | a model occurs in the walk of `m` if and only if it is `m` or an ancestor of `m` |
| `ModelGraph.FindAllModelsMembers` | django_mock_queries/mocks.py:182-189 | a model is yielded if and only if it is an input or an ancestor of one: nothing else is yielded and no ancestor is missed |
| `ModelGraph.ExpandIsPreOrder` | django_mock_queries/mocks.py:187-189 | every model the walk of `m` yields after `m` itself is a proper ancestor of `m` |
| `Planner.AccessorName` | django_mock_queries/mocks.py:223-225 | the accessor name is the relation's bare name or the bare name with `_set` |
| `Planner.IsPatched` | django_mock_queries/mocks.py:226-229 | a relation is patched only if its accessor name is in the model's own `__dict__` with a value other than `None`; a name missing from `__dict__` (an inherited relation) is never patched |
| `Planner.RelationEntry` | django_mock_queries/mocks.py:230-236 | the relation patch targets the model under the accessor name, with the one-to-one accessor if and only if the relation is one-to-one and the one-to-many accessor otherwise |
| `Planner.ModelEntries` | django_mock_queries/mocks.py:209-236 | a model contributes no patch if and only if its `save` is already a Mock, and otherwise its first patch is `save` |
| `Planner.Plan` | django_mock_queries/mocks.py:208-236 | the reference plan the loops are proved equal to: empty for no models, and starting with the first input's `save` patch when that `save` is not a Mock |
| `Planner.PlanForStartsWithFirst` | django_mock_queries/mocks.py:208 | the plan of a walk is the patches of its first model followed by the plan of the rest |
| `Planner.PlanRelations` | django_mock_queries/mocks.py:221-236 | the inner loop appends exactly the relation patches of the reference definition, in relation order |
| `Planner.PlanPatchers` | django_mock_queries/mocks.py:206-236 | the nested loops build exactly the reference plan: for each model of the walk in turn, the entries that model contributes |
| `Planner.AccessorNameRule` | django_mock_queries/mocks.py:223-225 | the accessor name is the bare name or the bare name plus `_set`, and it is the latter if and only if the relation is one-to-many and the bare name is not in the model's `__dict__` |
| `Planner.RelationEntryRules` | django_mock_queries/mocks.py:226-236 | a relation patch targets the model itself, names an attribute in its own `__dict__` and wraps that attribute; it uses the one-to-one accessor if and only if the relation is one-to-one, and the one-to-many accessor otherwise |
| `Planner.RelationEntriesMembers` | django_mock_queries/mocks.py:221-236 | a relation patch is planned if and only if it is the patch of a relation whose accessor name is in the model's own `__dict__` with a value other than `None` |
| `Planner.ModelEntriesRules` | django_mock_queries/mocks.py:209-236 | a model whose `save` is already a Mock adds nothing; otherwise `save` comes first, `objects` is added if and only if the attribute exists and then comes second, and every other entry is the patch of a patched relation |
| `Planner.PlanForAppend` | django_mock_queries/mocks.py:208 | planning a concatenation of walks concatenates the plans, so one model's patches stay together, in walk order |
| `Planner.PlanForMembers` | django_mock_queries/mocks.py:208-236 | a patch is planned if and only if some model of the walk contributes it |
| `Planner.PlanTargets` | django_mock_queries/mocks.py:193-237 | every planned patch targets an input or an ancestor of one whose `save` is not a Mock; conversely, every such model has its `save` patched |
| `Planner.ChildWalk` | django_mock_queries/mocks.py:182-189 | the walk of `[Child]` for a child of a parentless `Parent` is `Child, Parent` |
| `Planner.FirstRelationOnly` | django_mock_queries/mocks.py:209-236 | a model with `objects` whose only patched relation is its first contributes exactly `save`, `objects` and that relation's patch |
| `Planner.ChildAndParentPlan` | django_mock_queries/mocks.py:193-237 | for `[Child]` whose parent is `Parent`, the plan is exactly: Child's `save`, `objects` and own relation, then Parent's `save`, `objects` and relation; the relation Child inherits, whose name is not in Child's own `__dict__`, is left out by the direct-only filter |
| `Planner.ParentPassedTwiceIsPlannedTwice` | django_mock_queries/mocks.py:208-215 | the skip guard is evaluated at planning time, so `mocked_relations(Child, Parent)` plans `Parent.save` at two positions |
| `Chain.Numbered` | django_mock_queries/mocks.py:234-237 | one patcher per plan entry, in plan order, with pairwise distinct identities |
| `Chain.DecorateClassRewrapsOnlyTests` | django_mock_queries/mocks.py:263-272 | decorating keeps every attribute name, and it changes an attribute if and only if the name starts with `test` and the value is callable; a changed attribute becomes the chain's wrapper around the old value |
| `Chain.TestClass.constructor` | django_mock_queries/mocks.py:262 | a class with the given attributes |
| `Chain.PatcherChain.constructor` | django_mock_queries/mocks.py:247-255 | the chain keeps the given patchers and `pass_mocks` flag, and no patcher has been called yet |
| `Chain.PatcherChain.Start` | django_mock_queries/mocks.py:300-301 | the log gains one start per patcher, in list order, and the handles come back in that order |
| `Chain.PatcherChain.Stop` | django_mock_queries/mocks.py:303-305 | the log gains one stop per patcher, last patcher first |
| `Chain.PatcherChain.Enter` | django_mock_queries/mocks.py:288-293 | the log gains one enter per patcher, in list order, and the handles come back in that order for the `with` statement |
| `Chain.PatcherChain.Exit` | django_mock_queries/mocks.py:295-298 | the log gains one exit per patcher, in list order (not reversed), each with the same exception triple |
| `Chain.PatcherChain.DecorateClass` | django_mock_queries/mocks.py:262-273 | the class is changed in place to its attributes with exactly the callable test attributes rewrapped, and the same class is returned |
| `Chain.MockedRelations` | django_mock_queries/mocks.py:193-237 | a new chain over one patcher per planned entry, in plan order, with `pass_mocks` false and an empty log |
| `Patching.Activate` | django_mock_queries/mocks.py:293 | activating a patcher keeps the set of attributes the same |
| `Patching.Deactivate` | django_mock_queries/mocks.py:298 | stopping or exiting a patcher succeeds if and only if it is active; it binds the recorded value to its attribute and forgets the record |
| `Patching.ReplayAppend` | django_mock_queries/mocks.py:288-305 | replaying two call logs one after the other is replaying their concatenation |
| `Patching.ActivateThenDeactivate` | django_mock_queries/mocks.py:300-305 | deactivating a patcher right after activating it gives back the world as it was before |
| `Patching.MirroredRestores` | django_mock_queries/mocks.py:300-305 | activating distinct patchers in list order and then deactivating them in mirror order restores every attribute, even when several patchers replace the same attribute |
| `Patching.StartThenStopRestores` | django_mock_queries/mocks.py:300-305 | `stop()` after `start()` puts every patched attribute back |
| `Patching.ForwardExitLeavesReplacement` | django_mock_queries/mocks.py:295-298 | as written, `__exit__` after `__enter__` of two patchers on the same attribute leaves the first patcher's replacement bound instead of the original value |
| `Patching.ReversedExitEvents` | django_mock_queries/mocks.py:295-298 | the corrected `__exit__`: one exit per patcher, the exit of patcher `k` at the mirror position of its activation |
| `Patching.EnterThenReversedExitRestores` | django_mock_queries/mocks.py:295-298 | exiting in reverse list order after `__enter__` puts every patched attribute back, duplicates included |
| `Patching.ForwardExitOverThree` | django_mock_queries/mocks.py:295-298 | for two attributes held as independent slots (neither inherited from the other), entering and then exiting in list order one patcher of the first and two of the second restores the first and drops every record, but leaves the second bound to the replacement of its first patcher |
| `Patching.OnlySave` | django_mock_queries/mocks.py:209-236 | a model without `objects` and without a patched relation contributes its `save` patch alone |
| `Patching.ChildParentSavePlan` | django_mock_queries/mocks.py:193-237 | for such a `Child` of a parentless `Parent`, `mocked_relations(Child, Parent)` plans exactly `Child.save`, `Parent.save`, `Parent.save` |
| `Patching.MockedRelationsExitLeavesParentSave` | django_mock_queries/mocks.py:295-298 | on the chain `mocked_relations(Child, Parent)` builds, `__enter__` then `__exit__` as written leaves `Parent.save` bound to the replacement of a patcher that is no longer active, with no patcher still recorded, so the attributes are not as they were whenever `Parent.save` was a plain value before |
| `Patching.MockedRelationsDuplicatesParentSave` | django_mock_queries/mocks.py:193-237 | the chain built by `mocked_relations(Child, Parent)` holds two distinct patchers of `Parent.save`, which is the case where exiting in list order goes wrong |

## Left out

- `monkey_patch_test_db`, `mock_django_setup`, `mock_django_connection`
  (`django_mock_queries/mocks.py:18-98`): these monkey-patch Django,
  `os.environ` and `MagicMock` process-wide and hold no logic to state.
- Garbage collection and `weakref`: the set of live objects is a parameter
  of every read, and nothing in the model collects an object.
- `MockSet`, from the `query` module, is not part of this model. A new empty
  collection is an opaque fresh object that knows only its model.
- `__getattr__` delegation to the original accessor (lines 135-138 and
  176-179). It forwards attribute reads to an object whose behaviour lies
  outside this file.
- The behaviour of `mock.patch.object` itself is not modelled. Instead, the
  chain records each call it makes on a patcher in an event log.
  `Patching` reads that log as "record the current value, bind the
  replacement; later bind the recorded value again". A patcher whose
  activation fails part-way through the list is not modelled.
- `__call__` and `decorate_callable` (lines 257-260 and 275-286). They stack
  the `mock` library's own decorators and how those inject arguments; that
  behaviour is outside this file.
- Chain.PatcherChain.DecorateClass: the reflection calls (`dir`, `getattr`,
  `setattr`, `hasattr(value, "__call__")`) are inputs. The attributes are a
  map, `dir(cls)` is a list of its names, and the `__call__` test is a flag
  per attribute. A callable test attribute is rewrapped as one decorated
  value; the nested `decorate_class` run that `self(attr_value)` starts for
  a class-valued attribute is not modelled separately.
- Django's `_meta` is replaced by fields of `ModelGraph.Model`: `object_name`,
  the parents, `related_objects`, `many_to_many`, `__dict__`, and whether
  `save` is a Mock and `objects` exists. The original descriptor a relation
  patch wraps is identified by a token.
- Patching.World: every `(model, attribute)` is an independent slot. That a
  child class without `save` in its own `__dict__` resolves `Child.save`
  through `Parent`, and that `mock` removes such an inherited attribute with
  `delattr` on exit instead of binding it again, are not modelled. The
  lemmas about a single attribute, and the `Parent.save` binding of
  `Patching.MockedRelationsExitLeavesParentSave`, do not depend on this;
  what other attributes resolve to afterwards is stated only for attributes
  that do not inherit from one another.
- Chain.Numbered: every chain numbers its patchers from 0, so `Patching`
  replays one chain at a time; two chains active together (a class
  decorated by one `mocked_relations` and a method by another) are not
  modelled. Models are identified by their metadata, not by class identity,
  so two classes with identical metadata would share their slots.
- `find_all_models` is a generator; the model computes its whole output
  sequence at once.

## Findings

| source | as written | input that shows it | evidently intended | confidence | as-written member | corrected member |
|---|---|---|---|---|---|---|
| django_mock_queries/mocks.py:295-298 | `__exit__` exits the patchers in list order | `with mocked_relations(Child, Parent):` where `Child` inherits from `Parent` (so `Parent.save` is patched twice, see `Planner.ParentPassedTwiceIsPlannedTwice`); on exit `Parent.save` is left bound to the first patcher's Mock (shown for a `Child` and `Parent` without `objects` or patched relations) | exit in reverse list order, mirroring `start`/`stop`, so that every attribute is restored | not executed | `Patching.MockedRelationsExitLeavesParentSave` | `Patching.EnterThenReversedExitRestores` |
