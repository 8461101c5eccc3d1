/** The part of Django's model metadata that the relation mocks look at, and
    the walk that lists every model to patch together with its multi-table
    inheritance parents (`find_all_models`). */
module ModelGraph {

  /** Cardinality of a relation as Django's field flags report it. */
  datatype Cardinality = OneToOne | OneToMany | ManyToMany

  /** One entry of `_meta.related_objects` or `_meta.many_to_many`. */
  datatype RelatedField = RelatedField(name: string, cardinality: Cardinality)

  /** What `getattr(model, name, None)` yields for a name in the model's own
      `__dict__`: Python's `None`, or some attribute value (an accessor),
      identified by a token. */
  datatype Attr = NoneAttr | AttrValue(token: nat)

  /** A model class. `parents` are the keys of `_meta.parents` in their
      order; since a value can only contain smaller values, the parent
      relation is acyclic by construction, as Django's inheritance is.
      `saveIsMock` stands for `isinstance(model.save, Mock)`, `hasObjects` for
      `hasattr(model, 'objects')` and `classDict` for `model.__dict__`. */
  datatype Model = Model(
    objectName: string,
    parents: seq<Model>,
    saveIsMock: bool,
    hasObjects: bool,
    relatedObjects: seq<RelatedField>,
    manyToMany: seq<RelatedField>,
    classDict: map<string, Attr>)

  /** `a` is `m` itself or one of the models `m` inherits from. */
  predicate IsAncestorOrSelf(a: Model, m: Model)
    decreases m
  {
    a == m || exists p :: p in m.parents && IsAncestorOrSelf(a, p)
  }

  /** `a` is a model `m` inherits from, directly or indirectly. */
  predicate IsProperAncestor(a: Model, m: Model) {
    exists p :: p in m.parents && IsAncestorOrSelf(a, p)
  }

  /** What the generator yields for one model: the model, then the walk of
      each of its parents in turn. */
  function Expand(m: Model): (r: seq<Model>)
    ensures |r| >= 1 && r[0] == m
    decreases m, 1
  {
    [m] + FindAllModels(m.parents)
  }

  /** `find_all_models(models)`: every model in the given order, each one
      immediately followed by the pre-order walk of its parents; models
      reached along several lineages are yielded once per path. */
  function FindAllModels(models: seq<Model>): (r: seq<Model>)
    ensures |r| >= |models|
    ensures models != [] ==> r[0] == models[0]
    decreases models, 0
  {
    if models == [] then [] else Expand(models[0]) + FindAllModels(models[1..])
  }

  /** The walk of a concatenation is the concatenation of the walks, so each
      input is handled on its own, in input order. */
  lemma {:induction false} FindAllModelsAppend(a: seq<Model>, b: seq<Model>)
    ensures FindAllModels(a + b) == FindAllModels(a) + FindAllModels(b)
    decreases |a|
  {
    if a == [] {
      assert a + b == b;
    } else {
      assert (a + b)[0] == a[0];
      assert (a + b)[1..] == a[1..] + b;
      FindAllModelsAppend(a[1..], b);
    }
  }

  /** Input `models[i]` appears right after the walk of the inputs before it,
      and is immediately followed by the walk of its own parents. */
  lemma {:induction false} FindAllModelsSplit(models: seq<Model>, i: nat)
    requires i < |models|
    ensures FindAllModels(models)
         == FindAllModels(models[..i]) + [models[i]] + FindAllModels(models[i].parents)
            + FindAllModels(models[i + 1..])
  {
    var pre, m, post := models[..i], models[i], models[i + 1..];
    assert models == pre + ([m] + post);
    FindAllModelsAppend(pre, [m] + post);
    assert ([m] + post)[0] == m && ([m] + post)[1..] == post;
  }

  /** A model occurs in the walk of `m` exactly when it is `m` or one of its
      ancestors. */
  lemma {:induction false} ExpandMembers(m: Model, x: Model)
    ensures x in Expand(m) <==> IsAncestorOrSelf(x, m)
    decreases m, 1
  {
    FindAllModelsMembers(m.parents, x);
  }

  /** A model occurs in `find_all_models(models)` exactly when it is one of
      the inputs or an ancestor of one: nothing else is ever yielded and no
      ancestor is missed. */
  lemma {:induction false} FindAllModelsMembers(models: seq<Model>, x: Model)
    ensures x in FindAllModels(models) <==> exists m :: m in models && IsAncestorOrSelf(x, m)
    decreases models, 0
  {
    if models != [] {
      ExpandMembers(models[0], x);
      FindAllModelsMembers(models[1..], x);
      assert forall m :: m in models <==> m == models[0] || m in models[1..];
    }
  }

  /** Pre-order: everything the walk of `m` yields after `m` itself is a
      proper ancestor of `m`. */
  lemma ExpandIsPreOrder(m: Model, k: nat)
    requires 0 < k < |Expand(m)|
    ensures IsProperAncestor(Expand(m)[k], m)
  {
    var x := Expand(m)[k];
    assert x in FindAllModels(m.parents);
    FindAllModelsMembers(m.parents, x);
  }
}
