/** The relation accessors that replace Django's related-object descriptors
    while relations are mocked: `MockOneToManyMap` and `MockOneToOneMap`.
    Each keeps a dictionary from `id(instance)` to a pair of a weak reference
    to the instance and the related value. Garbage collection is not
    modelled; the objects still alive are an explicit `live` set, and a weak
    reference resolves exactly while its referent is in that set. */
module RelationMaps {
  import opened Wrappers
  import opened ModelGraph

  /** What `id()` returns: an address, reused once its object is collected. */
  type Id = nat

  /** A model instance. `addr` is its `id()`; `serial` tells apart objects
      that occupy the same address at different times. */
  datatype Instance = Instance(addr: Id, serial: nat)

  /** `(weakref.ref(owner), value)`, one value of the accessor's `map`. */
  datatype Entry = Entry(owner: Instance, value: object?)

  /** Calling a weak reference to `owner`: the owner while it is alive,
      `None` once it has been collected. */
  function Resolve(owner: Instance, live: set<Instance>): (r: Option<Instance>)
    ensures r.Some? ==> r.value == owner
  {
    if owner in live then Some(owner) else None
  }

  /** No two live objects share an `id()`, as the Python runtime guarantees. */
  predicate IdsUnique(live: set<Instance>) {
    forall a, b :: a in live && b in live && a.addr == b.addr ==> a == b
  }

  /** Every entry sits under the `id()` its owner had when it was stored. */
  predicate WellKeyed(m: map<Id, Entry>) {
    forall a :: a in m ==> m[a].owner.addr == a
  }

  /** The read both accessors perform: the value stored under `id(instance)`,
      provided the entry's weak reference still resolves. An entry whose
      owner is dead is a miss, exactly like no entry at all. */
  function Lookup(m: map<Id, Entry>, instance: Instance, live: set<Instance>): (r: Option<object?>)
    ensures r.Some? <==> instance.addr in m && m[instance.addr].owner in live
    ensures r.Some? ==> r.value == m[instance.addr].value
  {
    if instance.addr in m && Resolve(m[instance.addr].owner, live).Some?
    then Some(m[instance.addr].value)
    else None
  }

  /** `self.map[id(instance)] = (weakref.ref(instance), value)`. */
  function Store(m: map<Id, Entry>, instance: Instance, value: object?): (r: map<Id, Entry>)
    ensures WellKeyed(m) ==> WellKeyed(r)
    ensures r.Keys == m.Keys + {instance.addr}
    ensures forall a :: a in m && a != instance.addr ==> r[a] == m[a]
  {
    m[instance.addr := Entry(instance, value)]
  }

  /** A read of a live instance after a write returns exactly what was
      written. */
  lemma ReadAfterWrite(m: map<Id, Entry>, instance: Instance, value: object?, live: set<Instance>)
    requires instance in live
    ensures Lookup(Store(m, instance, value), instance, live) == Some(value)
  {
  }

  /** The cache is keyed by identity: a write for one live instance leaves
      the read of every other live instance as it was, even when the two
      compare equal in Python. */
  lemma WriteIsolated(m: map<Id, Entry>, a: Instance, b: Instance, value: object?, live: set<Instance>)
    requires IdsUnique(live) && a in live && b in live && a != b
    ensures Lookup(Store(m, a, value), b, live) == Lookup(m, b, live)
  {
  }

  /** An entry whose owner has been collected reads exactly like no entry
      at all. */
  lemma DeadOwnerIsMiss(m: map<Id, Entry>, instance: Instance, live: set<Instance>)
    requires instance.addr in m && m[instance.addr].owner !in live
    ensures Lookup(m, instance, live) == None
    ensures Lookup(m, instance, live) == Lookup(m - {instance.addr}, instance, live)
  {
  }

  /** The liveness check makes a hit mean precisely "this entry was stored
      for this very object": with an id reused after collection, the stale
      entry of the dead object is never returned for the new one. */
  lemma HitIsOwnEntry(m: map<Id, Entry>, instance: Instance, live: set<Instance>)
    requires WellKeyed(m) && IdsUnique(live) && instance in live
    ensures Lookup(m, instance, live).Some?
        <==> instance.addr in m && m[instance.addr].owner == instance
    ensures Lookup(m, instance, live).Some? ==> Lookup(m, instance, live).value == m[instance.addr].value
  {
    if instance.addr in m {
      var owner := m[instance.addr].owner;
      assert owner.addr == instance.addr;
      assert owner in live ==> owner == instance;
    }
  }

  /** A fresh empty `MockSet` over a model (its query methods are not part
      of this model). */
  class MockSet {
    const cls: Model

    constructor (cls: Model)
      ensures this.cls == cls
    {
      this.cls := cls;
    }
  }

  /** The `related` object of a reverse relation descriptor: the field at
      the other end, and the public accessor name. */
  datatype RelatedDescriptor = RelatedDescriptor(fieldModel: Model, accessorName: string)

  /** The descriptor being shadowed: a reverse descriptor has a `related`
      attribute, a forward one exposes its `field` directly. */
  datatype Original = Original(related: Option<RelatedDescriptor>, fieldModel: Model)

  /** The model of the collection a to-many miss creates:
      `getattr(original, 'related', original).field.model`. */
  function RelatedModel(original: Original): (r: Model)
    ensures original.related.Some? ==> r == original.related.value.fieldModel
    ensures original.related.None? ==> r == original.fieldModel
  {
    if original.related.Some? then original.related.value.fieldModel else original.fieldModel
  }

  /** Stands in for a one-to-many or many-to-many relation. */
  class OneToManyMap {
    var entries: map<Id, Entry>
    const original: Original

    ghost predicate Valid()
      reads this
    {
      WellKeyed(entries)
    }

    constructor (original: Original)
      ensures Valid() && this.original == original && entries == map[]
    {
      this.original := original;
      entries := map[];
    }

    /** `__get__(instance, owner)`; `instance` is `None` for a read through
        the class. A hit returns the cached collection; a miss, including an
        entry whose owner was collected, stores and returns a new empty
        collection on the related model. */
    method Get(instance: Option<Instance>, live: set<Instance>) returns (r: object?)
      requires Valid()
      requires instance.Some? ==> instance.value in live
      modifies this
      ensures Valid()
      ensures instance.None? ==> r == this && entries == old(entries)
      ensures instance.Some? && Lookup(old(entries), instance.value, live).Some? ==>
                r == Lookup(old(entries), instance.value, live).value && entries == old(entries)
      ensures instance.Some? && Lookup(old(entries), instance.value, live).None? ==>
                r != null && fresh(r) && r is MockSet && (r as MockSet).cls == RelatedModel(original)
                && entries == Store(old(entries), instance.value, r)
    {
      if instance.None? {
        return this;
      }
      var id := instance.value.addr;
      var entry := if id in entries then Some(entries[id]) else None;
      var oldInstance: Option<Instance> := None;
      var relatedObjects: object? := null;
      if entry.Some? {
        relatedObjects := entry.value.value;
        oldInstance := Resolve(entry.value.owner, live);
      }
      if entry.None? || oldInstance.None? {
        var created := new MockSet(RelatedModel(original));
        relatedObjects := created;
        Set(instance.value, created);
      }
      r := relatedObjects;
    }

    /** `__set__(instance, value)`: overwrite the entry at `id(instance)`
        and nothing else. */
    method Set(instance: Instance, value: object?)
      requires Valid()
      modifies this
      ensures Valid()
      ensures entries == Store(old(entries), instance, value)
    {
      entries := entries[instance.addr := Entry(instance, value)];
    }
  }

  /** The exceptions a to-one read can raise. */
  datatype Error =
    | RelatedObjectDoesNotExist(message: string)
      /** the wrapped descriptor has no `related` attribute */
    | AttributeError(name: string)

  /** A read returns a value or raises. */
  datatype Outcome = Value(value: object?) | Raised(error: Error)

  /** `"Mock %s has no %s." % (owner name, accessor name)`. */
  function DoesNotExistMessage(ownerName: string, accessorName: string): (r: string)
    ensures |r| == |ownerName| + |accessorName| + 14
    ensures r[..5] == "Mock " && r[|r| - 1] == '.'
    ensures r[5..5 + |ownerName|] == ownerName
    ensures r[5 + |ownerName|..13 + |ownerName|] == " has no "
    ensures r[13 + |ownerName|..|r| - 1] == accessorName
  {
    "Mock " + ownerName + " has no " + accessorName + "."
  }

  /** Stands in for a one-to-one relation. */
  class OneToOneMap {
    var entries: map<Id, Entry>
    const original: Original

    ghost predicate Valid()
      reads this
    {
      WellKeyed(entries)
    }

    constructor (original: Original)
      ensures Valid() && this.original == original && entries == map[]
    {
      this.original := original;
      entries := map[];
    }

    /** `__get__(instance, owner)`; `ownerName` is `owner.__name__`. A hit
        returns the stored object; a miss, including an entry whose owner was
        collected, raises `RelatedObjectDoesNotExist` and creates nothing. */
    method Get(instance: Option<Instance>, ownerName: string, live: set<Instance>) returns (r: Outcome)
      requires instance.Some? ==> instance.value in live
      ensures instance.None? ==> r == Value(this)
      ensures instance.Some? && Lookup(entries, instance.value, live).Some? ==>
                r == Value(Lookup(entries, instance.value, live).value)
      ensures instance.Some? && Lookup(entries, instance.value, live).None? && original.related.Some? ==>
                r == Raised(RelatedObjectDoesNotExist(
                       DoesNotExistMessage(ownerName, original.related.value.accessorName)))
      ensures instance.Some? && Lookup(entries, instance.value, live).None? && original.related.None? ==>
                r == Raised(AttributeError("related"))
    {
      if instance.None? {
        return Value(this);
      }
      var id := instance.value.addr;
      var entry := if id in entries then Some(entries[id]) else None;
      var oldInstance: Option<Instance> := None;
      var relatedObject: object? := null;
      if entry.Some? {
        relatedObject := entry.value.value;
        oldInstance := Resolve(entry.value.owner, live);
      }
      if entry.None? || oldInstance.None? {
        if original.related.None? {
          return Raised(AttributeError("related"));
        }
        return Raised(RelatedObjectDoesNotExist(
          DoesNotExistMessage(ownerName, original.related.value.accessorName)));
      }
      r := Value(relatedObject);
    }

    /** `__set__(instance, value)`: overwrite the entry at `id(instance)`
        and nothing else. */
    method Set(instance: Instance, value: object?)
      requires Valid()
      modifies this
      ensures Valid()
      ensures entries == Store(old(entries), instance, value)
    {
      entries := entries[instance.addr := Entry(instance, value)];
    }
  }

  /** Two reads of the same live instance with no write in between return
      the same object, whether the first one hit or created the collection;
      the map then holds exactly one entry more than before at most. */
  method ReadTwice(accessor: OneToManyMap, instance: Instance, live: set<Instance>)
      returns (first: object?, second: object?)
    requires accessor.Valid() && instance in live
    modifies accessor
    ensures accessor.Valid()
    ensures first == second
    ensures accessor.entries.Keys == old(accessor.entries.Keys) + {instance.addr}
  {
    first := accessor.Get(Some(instance), live);
    ReadAfterWrite(old(accessor.entries), instance, first, live);
    second := accessor.Get(Some(instance), live);
  }

  /** After a write, a to-one read of the same live instance returns the
      written object and raises nothing. */
  method WriteThenReadOne(accessor: OneToOneMap, instance: Instance, value: object?,
                          ownerName: string, live: set<Instance>)
      returns (r: Outcome)
    requires accessor.Valid() && instance in live
    modifies accessor
    ensures accessor.Valid()
    ensures r == Value(value)
  {
    accessor.Set(instance, value);
    ReadAfterWrite(old(accessor.entries), instance, value, live);
    r := accessor.Get(Some(instance), ownerName, live);
  }
}
