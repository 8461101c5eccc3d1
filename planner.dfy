/** The planning half of `mocked_relations`: which attributes of which
    models get patched, with what, and in which order. Django's `_meta` is
    replaced by the fields of `ModelGraph.Model`; a planned patch is a value
    (`patch.object` before it is started). */
module Planner {
  import opened ModelGraph

  /** The `new_callable` a patch will use to build its replacement. */
  datatype Replacement =
      /** `partial(Mock, name=model_name + '.save')` */
    | SaveMock(name: string)
      /** `partial(MockSet, mock_name=model_name + '.objects', cls=model)` */
    | ObjectsMockSet(mockName: string, cls: Model)
      /** `partial(MockOneToOneMap, old_relation)` */
    | OneToOneAccessor(original: nat)
      /** `partial(MockOneToManyMap, old_relation)` */
    | OneToManyAccessor(original: nat)

  /** `patch.object(target, attribute, new_callable=...)`, not yet started. */
  datatype PatchEntry = PatchEntry(target: Model, attribute: string, replacement: Replacement)

  function SaveEntry(m: Model): PatchEntry {
    PatchEntry(m, "save", SaveMock(m.objectName + ".save"))
  }

  function ObjectsEntry(m: Model): PatchEntry {
    PatchEntry(m, "objects", ObjectsMockSet(m.objectName + ".objects", m))
  }

  /** `chain(model._meta.related_objects, model._meta.many_to_many)`. */
  function Relations(m: Model): seq<RelatedField> {
    m.relatedObjects + m.manyToMany
  }

  /** The attribute name a relation is looked up under: a one-to-many
      relation whose bare name is not in the model's `__dict__` gets the
      `_set` suffix. */
  function AccessorName(m: Model, r: RelatedField): (name: string)
    ensures name == r.name || name == r.name + "_set"
  {
    if r.name !in m.classDict && r.cardinality == OneToMany then r.name + "_set" else r.name
  }

  /** A relation is patched when its accessor name is in the model's own
      `__dict__` (so inherited relations are left alone) with a value other
      than `None`. */
  predicate IsPatched(m: Model, r: RelatedField)
    ensures IsPatched(m, r) ==> AccessorName(m, r) in m.classDict && m.classDict[AccessorName(m, r)] != NoneAttr
    ensures AccessorName(m, r) !in m.classDict ==> !IsPatched(m, r)
  {
    AccessorName(m, r) in m.classDict && m.classDict[AccessorName(m, r)].AttrValue?
  }

  /** The patch of a relation: the one-to-one accessor for a one-to-one
      relation, the one-to-many accessor for every other cardinality, each
      wrapping the attribute it replaces. */
  function RelationEntry(m: Model, r: RelatedField): (e: PatchEntry)
    requires IsPatched(m, r)
    ensures e.target == m && e.attribute == AccessorName(m, r)
    ensures e.replacement.OneToOneAccessor? <==> r.cardinality == OneToOne
    ensures !e.replacement.OneToOneAccessor? ==> e.replacement.OneToManyAccessor?
  {
    var name := AccessorName(m, r);
    var original := m.classDict[name].token;
    PatchEntry(m, name, if r.cardinality == OneToOne then OneToOneAccessor(original)
                        else OneToManyAccessor(original))
  }

  /** The relation patches of `m`, for relations `rs`, in their order. */
  function RelationEntries(m: Model, rs: seq<RelatedField>): seq<PatchEntry> {
    if rs == [] then []
    else
      var r := rs[|rs| - 1];
      RelationEntries(m, rs[..|rs| - 1]) + (if IsPatched(m, r) then [RelationEntry(m, r)] else [])
  }

  /** The `save` patch, then the `objects` patch when the attribute exists. */
  function HeadEntries(m: Model): seq<PatchEntry> {
    [SaveEntry(m)] + (if m.hasObjects then [ObjectsEntry(m)] else [])
  }

  /** The patches a model contributes: none when its `save` is already a
      mock, otherwise `save`, `objects`, then its relations. */
  function ModelEntries(m: Model): (r: seq<PatchEntry>)
    ensures r == [] <==> m.saveIsMock
    ensures r != [] ==> r[0] == SaveEntry(m)
  {
    if m.saveIsMock then [] else HeadEntries(m) + RelationEntries(m, Relations(m))
  }

  /** Model `m` contributes patch `e`. */
  predicate Contributes(m: Model, e: PatchEntry) {
    e in ModelEntries(m)
  }

  /** The patches for the models of a walk, model by model. */
  function PlanFor(walk: seq<Model>): seq<PatchEntry> {
    if walk == [] then []
    else PlanFor(walk[..|walk| - 1]) + ModelEntries(walk[|walk| - 1])
  }

  /** The patcher list `mocked_relations(*models)` hands to its chain. */
  function Plan(models: seq<Model>): (r: seq<PatchEntry>)
    ensures models == [] ==> r == []
    ensures models != [] && !models[0].saveIsMock ==> r != [] && r[0] == SaveEntry(models[0])
  {
    PlanForStartsWithFirst(FindAllModels(models));
    PlanFor(FindAllModels(models))
  }

  /** The plan of a walk starts with the patches of the walk's first model. */
  lemma PlanForStartsWithFirst(walk: seq<Model>)
    ensures walk != [] ==> PlanFor(walk) == ModelEntries(walk[0]) + PlanFor(walk[1..])
  {
    if walk != [] {
      ConsOfTail(walk);
      PlanForAppend([walk[0]], walk[1..]);
      PlanForSingleton(walk[0]);
    }
  }

  lemma PlanForSingleton(m: Model)
    ensures PlanFor([m]) == ModelEntries(m)
  {
    assert [m][..0] == [];
  }

  lemma TakeAll<T>(s: seq<T>)
    ensures s[..|s|] == s
  {
  }

  lemma ConsOfTail<T>(s: seq<T>)
    requires s != []
    ensures [s[0]] + s[1..] == s
  {
  }

  lemma PlanForSnoc(walk: seq<Model>, i: nat)
    requires i < |walk|
    ensures PlanFor(walk[..i + 1]) == PlanFor(walk[..i]) + ModelEntries(walk[i])
  {
    assert walk[..i + 1][..i] == walk[..i];
  }

  lemma RelationEntriesSnoc(m: Model, rs: seq<RelatedField>, j: nat)
    requires j < |rs|
    ensures RelationEntries(m, rs[..j + 1])
         == RelationEntries(m, rs[..j]) + (if IsPatched(m, rs[j]) then [RelationEntry(m, rs[j])] else [])
  {
    assert rs[..j + 1][..j] == rs[..j];
  }

  lemma AppendAssoc(a: seq<PatchEntry>, b: seq<PatchEntry>, c: seq<PatchEntry>)
    ensures (a + b) + c == a + (b + c)
  {
  }

  /** The inner loop of `mocked_relations` for one model: the patches it
      appends for the relations `related`, in their order. */
  method PlanRelations(model: Model, related: seq<RelatedField>) returns (entries: seq<PatchEntry>)
    ensures entries == RelationEntries(model, related)
  {
    entries := [];
    for j := 0 to |related|
      invariant entries == RelationEntries(model, related[..j])
    {
      var relatedObject := related[j];
      RelationEntriesSnoc(model, related, j);
      var name := relatedObject.name;
      if name !in model.classDict && relatedObject.cardinality == OneToMany {
        name := name + "_set";
      }
      assert name == AccessorName(model, relatedObject);
      if name in model.classDict {
        var oldRelation := model.classDict[name];
        if oldRelation.AttrValue? {
          var replacement := if relatedObject.cardinality == OneToOne
                             then OneToOneAccessor(oldRelation.token)
                             else OneToManyAccessor(oldRelation.token);
          assert PatchEntry(model, name, replacement) == RelationEntry(model, relatedObject);
          entries := entries + [PatchEntry(model, name, replacement)];
        } else {
          assert !IsPatched(model, relatedObject);
        }
      } else {
        assert !IsPatched(model, relatedObject);
      }
    }
    assert related[..|related|] == related;
  }

  /** The loop of `mocked_relations` that builds the patcher list: for
      every model of the walk, skip it when `save` is already a mock, else
      append the `save` patch, the `objects` patch when the attribute
      exists, and the relation patches. */
  method PlanPatchers(models: seq<Model>) returns (patchers: seq<PatchEntry>)
    ensures patchers == Plan(models)
  {
    var walk := FindAllModels(models);
    patchers := [];
    for i := 0 to |walk|
      invariant patchers == PlanFor(walk[..i])
    {
      var model := walk[i];
      PlanForSnoc(walk, i);
      if model.saveIsMock {
        continue;
      }
      ghost var before := patchers;
      var modelName := model.objectName;
      patchers := patchers + [PatchEntry(model, "save", SaveMock(modelName + ".save"))];
      if model.hasObjects {
        AppendAssoc(before, [SaveEntry(model)], [ObjectsEntry(model)]);
        patchers := patchers + [PatchEntry(model, "objects", ObjectsMockSet(modelName + ".objects", model))];
      }
      assert patchers == before + HeadEntries(model);
      var relationEntries := PlanRelations(model, model.relatedObjects + model.manyToMany);
      AppendAssoc(before, HeadEntries(model), relationEntries);
      patchers := patchers + relationEntries;
    }
    assert walk[..|walk|] == walk;
  }

  /** The suffix rule: the accessor name is the bare name, or the bare name
      with `_set`, and it is the latter exactly for a one-to-many relation
      whose bare name is not in the model's `__dict__`. */
  lemma AccessorNameRule(m: Model, r: RelatedField)
    ensures AccessorName(m, r) == r.name || AccessorName(m, r) == r.name + "_set"
    ensures AccessorName(m, r) != r.name <==> r.cardinality == OneToMany && r.name !in m.classDict
  {
    if r.name !in m.classDict && r.cardinality == OneToMany {
      assert |AccessorName(m, r)| == |r.name| + 4;
    }
  }

  /** A relation patch targets the model itself, names an attribute of the
      model's own `__dict__`, wraps that attribute, and uses the one-to-one
      accessor exactly for a one-to-one relation. */
  lemma RelationEntryRules(m: Model, r: RelatedField)
    requires IsPatched(m, r)
    ensures RelationEntry(m, r).target == m
    ensures RelationEntry(m, r).attribute in m.classDict
    ensures RelationEntry(m, r).replacement.original == m.classDict[RelationEntry(m, r).attribute].token
    ensures RelationEntry(m, r).replacement.OneToOneAccessor? <==> r.cardinality == OneToOne
    ensures RelationEntry(m, r).replacement.OneToManyAccessor? <==> r.cardinality != OneToOne
  {
  }

  /** The relation patches are exactly one per patched relation. */
  lemma {:induction false} RelationEntriesMembers(m: Model, rs: seq<RelatedField>, e: PatchEntry)
    ensures e in RelationEntries(m, rs) <==> exists r :: r in rs && IsPatched(m, r) && e == RelationEntry(m, r)
    decreases |rs|
  {
    if rs != [] {
      var init, r := rs[..|rs| - 1], rs[|rs| - 1];
      RelationEntriesMembers(m, init, e);
      assert rs == init + [r];
      assert forall x :: x in rs <==> x in init || x == r;
    }
  }

  /** The planning rules for one model: a model whose `save` is already a
      mock adds nothing; otherwise `save` comes first, `objects` is patched
      if and only if the attribute exists (and then comes second), and every
      other patch is that of a patched relation. */
  lemma ModelEntriesRules(m: Model)
    ensures m.saveIsMock ==> ModelEntries(m) == []
    ensures !m.saveIsMock ==> |ModelEntries(m)| >= 1 && ModelEntries(m)[0] == SaveEntry(m)
    ensures !m.saveIsMock && m.hasObjects ==> |ModelEntries(m)| >= 2 && ModelEntries(m)[1] == ObjectsEntry(m)
    ensures ObjectsEntry(m) in ModelEntries(m) <==> !m.saveIsMock && m.hasObjects
    ensures forall e :: e in ModelEntries(m) <==>
              !m.saveIsMock &&
              (e == SaveEntry(m) || (m.hasObjects && e == ObjectsEntry(m)) ||
               exists r :: r in Relations(m) && IsPatched(m, r) && e == RelationEntry(m, r))
  {
    forall e | true
      ensures e in RelationEntries(m, Relations(m)) <==>
              exists r :: r in Relations(m) && IsPatched(m, r) && e == RelationEntry(m, r)
    {
      RelationEntriesMembers(m, Relations(m), e);
    }
    assert !ObjectsEntry(m).replacement.OneToOneAccessor? && !ObjectsEntry(m).replacement.OneToManyAccessor?;
  }

  /** Dropping the last element of `a + b`, for a non-empty `b`, drops it
      from `b`. */
  lemma DropLastOfAppend<T>(a: seq<T>, b: seq<T>)
    requires b != []
    ensures (a + b)[..|a + b| - 1] == a + b[..|b| - 1]
    ensures (a + b)[|a + b| - 1] == b[|b| - 1]
  {
  }

  /** Planning a concatenation of walks concatenates the plans, so every
      model's patches stay together and in walk order. */
  lemma {:induction false} PlanForAppend(a: seq<Model>, b: seq<Model>)
    ensures PlanFor(a + b) == PlanFor(a) + PlanFor(b)
    decreases |b|
  {
    if b == [] {
      assert a + b == a;
    } else {
      var init, last := b[..|b| - 1], b[|b| - 1];
      var ab := a + b;
      DropLastOfAppend(a, b);
      calc {
        PlanFor(ab);
        PlanFor(a + init) + ModelEntries(last);
        { PlanForAppend(a, init); }
        (PlanFor(a) + PlanFor(init)) + ModelEntries(last);
        { AppendAssoc(PlanFor(a), PlanFor(init), ModelEntries(last)); }
        PlanFor(a) + (PlanFor(init) + ModelEntries(last));
      }
    }
  }

  /** A patch is planned for a walk exactly when some model of the walk
      contributes it. */
  lemma {:induction false} PlanForMembers(walk: seq<Model>, e: PatchEntry)
    ensures e in PlanFor(walk) <==> exists m :: m in walk && Contributes(m, e)
    decreases |walk|
  {
    if walk != [] {
      var init, last := walk[..|walk| - 1], walk[|walk| - 1];
      PlanForMembers(init, e);
      assert PlanFor(walk) == PlanFor(init) + ModelEntries(last);
      assert e in PlanFor(walk) <==> e in PlanFor(init) || Contributes(last, e);
      forall m | m in walk
        ensures m in init || m == last
      {
        var k :| 0 <= k < |walk| && walk[k] == m;
        if k < |walk| - 1 {
          assert init[k] == m;
        }
      }
      forall m | m in init
        ensures m in walk
      {
        var k :| 0 <= k < |init| && init[k] == m;
        assert walk[k] == m;
      }
    }
  }

  /** Every planned patch targets an input model or an ancestor of one
      whose `save` is not a mock yet, and conversely every such model gets
      its `save` patch. */
  lemma PlanTargets(models: seq<Model>, e: PatchEntry)
    ensures e in Plan(models) ==>
              !e.target.saveIsMock && e in ModelEntries(e.target) &&
              exists m :: m in models && IsAncestorOrSelf(e.target, m)
    ensures forall t :: (exists m :: m in models && IsAncestorOrSelf(t, m)) && !t.saveIsMock ==>
              SaveEntry(t) in Plan(models)
  {
    var walk := FindAllModels(models);
    PlanForMembers(walk, e);
    if e in Plan(models) {
      var m :| m in walk && e in ModelEntries(m);
      ModelEntriesRules(m);
      if e != SaveEntry(m) && e != ObjectsEntry(m) {
        var r :| r in Relations(m) && IsPatched(m, r) && e == RelationEntry(m, r);
      }
      assert e.target == m;
      FindAllModelsMembers(models, m);
    }
    forall t | (exists m :: m in models && IsAncestorOrSelf(t, m)) && !t.saveIsMock
      ensures SaveEntry(t) in Plan(models)
    {
      FindAllModelsMembers(models, t);
      ModelEntriesRules(t);
      PlanForMembers(walk, SaveEntry(t));
    }
  }

  /** The skip guard looks only at whether `save` was a mock before
      planning, so a parent that is passed as well as reached through its
      child is planned twice: `mocked_relations(Child, Parent)` patches
      `Parent.save` at two positions of the chain. */
  lemma ParentPassedTwiceIsPlannedTwice(child: Model, parent: Model)
    requires child.parents == [parent] && !parent.saveIsMock
    ensures exists i, j :: 0 <= i < j < |Plan([child, parent])|
              && Plan([child, parent])[i] == SaveEntry(parent)
              && Plan([child, parent])[j] == SaveEntry(parent)
  {
    var walkP := Expand(parent);
    assert FindAllModels([parent]) == walkP by {
      assert [parent][1..] == [];
    }
    assert FindAllModels(child.parents) == walkP;
    assert [child, parent][1..] == [parent];
    assert [parent][1..] == [];
    assert FindAllModels([child, parent]) == [child] + walkP + walkP;
    assert walkP == [parent] + walkP[1..];
    PlanForAppend([child] + walkP, walkP);
    PlanForAppend([child], walkP);
    PlanForAppend([parent], walkP[1..]);
    assert PlanFor([child]) == ModelEntries(child);
    assert PlanFor([parent]) == ModelEntries(parent);
    ModelEntriesRules(parent);
    var planP := PlanFor(walkP);
    assert planP[0] == SaveEntry(parent);
    var i := |ModelEntries(child)|;
    var j := i + |planP|;
    assert Plan([child, parent]) == ModelEntries(child) + planP + planP;
    assert Plan([child, parent])[i] == SaveEntry(parent);
    assert Plan([child, parent])[j] == SaveEntry(parent);
  }

  /** The walk of `[Child]` for a child of a parentless `Parent`. */
  lemma ChildWalk(child: Model, parent: Model)
    requires child.parents == [parent] && parent.parents == []
    ensures FindAllModels([child]) == [child, parent]
  {
    assert [child][1..] == [] && [parent][1..] == [];
    assert FindAllModels([parent]) == [parent];
  }

  /** The patches of a model with an `objects` manager whose relations are
      `rs`, of which the first is patched and the rest are not. */
  lemma FirstRelationOnly(m: Model, rs: seq<RelatedField>)
    requires !m.saveIsMock && m.hasObjects && Relations(m) == rs
    requires |rs| >= 1 && IsPatched(m, rs[0])
    requires forall k :: 1 <= k < |rs| ==> !IsPatched(m, rs[k])
    ensures ModelEntries(m) == [SaveEntry(m), ObjectsEntry(m), RelationEntry(m, rs[0])]
  {
    assert RelationEntries(m, rs) == [RelationEntry(m, rs[0])] by {
      RelationEntriesSnoc(m, rs, 0);
      assert rs[..0] == [];
      var j := 1;
      while j < |rs|
        invariant 1 <= j <= |rs|
        invariant RelationEntries(m, rs[..j]) == [RelationEntry(m, rs[0])]
      {
        RelationEntriesSnoc(m, rs, j);
        j := j + 1;
      }
      TakeAll(rs);
    }
  }

  /** Planning `[Child]` for a child of a parentless `Parent`, each with an
      `objects` manager and one relation of its own (the child also sees the
      parent's relation, inherited and so not in its `__dict__`): the
      child's `save`, `objects` and own relation, then the parent's `save`,
      `objects` and relation, and nothing else. */
  lemma ChildAndParentPlan(child: Model, parent: Model, tags: RelatedField, items: RelatedField)
    requires child.parents == [parent] && parent.parents == []
    requires !child.saveIsMock && !parent.saveIsMock && child.hasObjects && parent.hasObjects
    requires Relations(child) == [tags, items] && IsPatched(child, tags)
    requires AccessorName(child, items) !in child.classDict
    requires Relations(parent) == [items] && IsPatched(parent, items)
    ensures Plan([child]) == [SaveEntry(child), ObjectsEntry(child), RelationEntry(child, tags),
                              SaveEntry(parent), ObjectsEntry(parent), RelationEntry(parent, items)]
  {
    ChildWalk(child, parent);
    PlanForStartsWithFirst([child, parent]);
    assert [child, parent][1..] == [parent];
    PlanForSingleton(parent);
    FirstRelationOnly(child, [tags, items]);
    FirstRelationOnly(parent, [items]);
  }
}
