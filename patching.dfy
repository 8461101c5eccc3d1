/** What a chain's log does to the attributes it patches, under the
    registry-and-restore reading of `patch.object`: activating a patcher
    records the attribute's current value and binds the replacement;
    deactivating it binds the recorded value again. This gives the ordering
    of `start`/`stop` and `__enter__`/`__exit__` its meaning: a deactivation
    order that mirrors the activation order puts every attribute back. */
module Patching {
  import opened Wrappers
  import opened ModelGraph
  import opened Planner
  import opened Chain

  /** The attribute a patch replaces: `(target, attribute)`. */
  datatype Key = Key(target: Model, attribute: string)

  function KeyOf(p: Patcher): Key {
    Key(p.entry.target, p.entry.attribute)
  }

  /** What an attribute is bound to: a value from before the chain, or the
      replacement installed by the patcher with that serial. */
  datatype Value = Bound(token: nat) | Substitute(serial: nat)

  /** The attribute bindings, and the value each active patcher recorded.
      Every `(model, attribute)` is a slot of its own: an attribute a child
      class inherits from its parent is not linked to the parent's slot. */
  datatype World = World(attrs: map<Key, Value>, saved: map<nat, Value>)

  /** Starting or entering a patcher; patching an attribute that does not
      exist fails. */
  function Activate(w: World, p: Patcher): (r: Option<World>)
    ensures r.Some? ==> r.value.attrs.Keys == w.attrs.Keys
  {
    var k := KeyOf(p);
    if k !in w.attrs then None
    else Some(World(w.attrs[k := Substitute(p.serial)], w.saved[p.serial := w.attrs[k]]))
  }

  /** Stopping or exiting a patcher; one that is not active fails. */
  function Deactivate(w: World, p: Patcher): (r: Option<World>)
    ensures r.Some? <==> p.serial in w.saved
    ensures r.Some? ==> r.value.attrs.Keys == w.attrs.Keys + {KeyOf(p)}
    ensures r.Some? ==> r.value.attrs[KeyOf(p)] == w.saved[p.serial] && p.serial !in r.value.saved
  {
    if p.serial !in w.saved then None
    else Some(World(w.attrs[KeyOf(p) := w.saved[p.serial]], w.saved - {p.serial}))
  }

  function Step(w: World, e: Event): Option<World> {
    match e
    case Started(p) => Activate(w, p)
    case Entered(p) => Activate(w, p)
    case Stopped(p) => Deactivate(w, p)
    case Exited(p, _) => Deactivate(w, p)
  }

  /** The world after the calls `events`, or `None` if one of them fails. */
  function Replay(w: World, events: seq<Event>): Option<World>
    decreases |events|
  {
    if events == [] then Some(w)
    else
      match Step(w, events[0])
      case None => None
      case Some(w') => Replay(w', events[1..])
  }

  /** Replaying two logs one after the other is replaying their
      concatenation. */
  lemma {:induction false} ReplayAppend(w: World, a: seq<Event>, b: seq<Event>)
    ensures Replay(w, a + b) == match Replay(w, a) case None => None case Some(w') => Replay(w', b)
    decreases |a|
  {
    if a == [] {
      assert a + b == b;
    } else {
      assert (a + b)[0] == a[0];
      assert (a + b)[1..] == a[1..] + b;
      match Step(w, a[0])
      case None =>
      case Some(w') => ReplayAppend(w', a[1..], b);
    }
  }

  /** Every patcher's attribute exists and no patcher is active yet. */
  predicate Ready(w: World, ps: seq<Patcher>) {
    forall k :: 0 <= k < |ps| ==> KeyOf(ps[k]) in w.attrs && ps[k].serial !in w.saved
  }

  predicate Activates(e: Event, p: Patcher) {
    e == Started(p) || e == Entered(p)
  }

  predicate Deactivates(e: Event, p: Patcher) {
    e == Stopped(p) || (e.Exited? && e.p == p)
  }

  /** Deactivating a patcher right after activating it binds the recorded
      value again and forgets the record: the world is as before. */
  lemma ActivateThenDeactivate(w: World, p: Patcher, w1: World, w2: World)
    requires KeyOf(p) in w.attrs && p.serial !in w.saved
    requires Activate(w, p) == Some(w1) && Deactivate(w1, p) == Some(w2)
    ensures w2 == w
  {
    var key := KeyOf(p);
    assert w2.attrs == w.attrs by {
      forall k | k in w.attrs ensures k in w2.attrs && w2.attrs[k] == w.attrs[k] {}
    }
    assert w2.saved == w.saved by {
      forall s | s in w.saved ensures s in w2.saved && w2.saved[s] == w.saved[s] {}
    }
  }

  /** What remains ready after the first patcher has been activated. */
  lemma ReadyTail(w: World, ps: seq<Patcher>, w1: World)
    requires |ps| > 0 && DistinctSerials(ps) && Ready(w, ps)
    requires Activate(w, ps[0]) == Some(w1)
    ensures DistinctSerials(ps[1..]) && Ready(w1, ps[1..])
  {
    forall k | 0 <= k < |ps| - 1
      ensures KeyOf(ps[1..][k]) in w1.attrs && ps[1..][k].serial !in w1.saved
    {
      assert ps[k + 1].serial != ps[0].serial;
      assert KeyOf(ps[k + 1]) in w.attrs && ps[k + 1].serial !in w.saved;
    }
  }

  /** Activating patchers in list order and then deactivating them in the
      mirror order restores the world exactly, even when several patchers
      replace the same attribute. */
  lemma {:induction false} MirroredRestores(w: World, ps: seq<Patcher>, acts: seq<Event>, deacts: seq<Event>)
    requires DistinctSerials(ps) && Ready(w, ps)
    requires |acts| == |ps| && |deacts| == |ps|
    requires forall k :: 0 <= k < |ps| ==> Activates(acts[k], ps[k]) && Deactivates(deacts[|ps| - 1 - k], ps[k])
    ensures Replay(w, acts + deacts) == Some(w)
    decreases |ps|
  {
    if ps == [] {
      assert acts + deacts == [];
    } else {
      var n := |ps|;
      var p := ps[0];
      assert Activates(acts[0], p);
      var w1 := Activate(w, p).value;
      assert Step(w, acts[0]) == Some(w1);
      var inner := acts[1..] + deacts[..n - 1];
      var last := deacts[n - 1];
      assert acts + deacts == [acts[0]] + (inner + [last]);
      ReplayAppend(w, [acts[0]], inner + [last]);
      assert Replay(w, [acts[0]]) == Some(w1);
      forall k | 0 <= k < n - 1
        ensures Activates(acts[1..][k], ps[1..][k]) && Deactivates(deacts[..n - 1][n - 1 - 1 - k], ps[1..][k])
      {
        assert Deactivates(deacts[n - 1 - (k + 1)], ps[k + 1]);
      }
      ReadyTail(w, ps, w1);
      MirroredRestores(w1, ps[1..], acts[1..], deacts[..n - 1]);
      ReplayAppend(w1, inner, [last]);
      assert Deactivates(last, p);
      var w2 := Deactivate(w1, p).value;
      ActivateThenDeactivate(w, p, w1, w2);
      assert Replay(w1, [last]) == Some(w2);
    }
  }

  /** `start()` followed by `stop()` puts every patched attribute back:
      `stop` deactivates in exactly the reverse order `start` activated. */
  lemma StartThenStopRestores(w: World, ps: seq<Patcher>)
    requires DistinctSerials(ps) && Ready(w, ps)
    ensures Replay(w, StartEvents(ps) + StopEvents(ps)) == Some(w)
  {
    MirroredRestores(w, ps, StartEvents(ps), StopEvents(ps));
  }

  /** `__exit__` as written: after `__enter__`, two patchers of the same
      attribute exited in list order leave the first patcher's replacement
      bound instead of the original value. */
  lemma ForwardExitLeavesReplacement(entry: PatchEntry, exc: ExcInfo)
    ensures var ps := [Patcher(0, entry), Patcher(1, entry)];
            var key := KeyOf(ps[0]);
            var w := World(map[key := Bound(0)], map[]);
            Replay(w, EnterEvents(ps) + ExitEvents(ps, exc)) == Some(World(map[key := Substitute(0)], map[]))
            && Replay(w, EnterEvents(ps) + ExitEvents(ps, exc)) != Some(w)
  {
    var ps := [Patcher(0, entry), Patcher(1, entry)];
    var key := KeyOf(ps[0]);
    var w := World(map[key := Bound(0)], map[]);
    var events := EnterEvents(ps) + ExitEvents(ps, exc);
    assert events == [Entered(ps[0]), Entered(ps[1]), Exited(ps[0], exc), Exited(ps[1], exc)];
    var w1 := World(map[key := Substitute(0)], map[0 := Bound(0)]);
    var w2 := World(map[key := Substitute(1)], map[0 := Bound(0), 1 := Substitute(0)]);
    var w3 := World(map[key := Bound(0)], map[1 := Substitute(0)]);
    var w4 := World(map[key := Substitute(0)], map[]);
    assert w.attrs[key := Substitute(0)] == w1.attrs;
    assert w.saved[0 := Bound(0)] == w1.saved;
    assert Step(w, events[0]) == Some(w1);
    assert w1.attrs[key := Substitute(1)] == w2.attrs;
    assert w1.saved[1 := Substitute(0)] == w2.saved;
    assert Step(w1, events[1]) == Some(w2);
    assert w2.attrs[key := Bound(0)] == w3.attrs;
    assert w2.saved - {0} == w3.saved;
    assert Step(w2, events[2]) == Some(w3);
    assert w3.attrs[key := Substitute(0)] == w4.attrs;
    assert w3.saved - {1} == w4.saved;
    assert Step(w3, events[3]) == Some(w4);
    var tail1 := events[1..];
    var tail2 := tail1[1..];
    var tail3 := tail2[1..];
    assert tail3 == [events[3]] && tail3[1..] == [];
    assert Replay(w3, tail3) == Some(w4);
    assert tail2[0] == events[2];
    assert Replay(w2, tail2) == Some(w4);
    assert tail1[0] == events[1];
    assert Replay(w1, tail1) == Some(w4);
    assert Replay(w, events) == Some(w4);
    assert w4.attrs[key] != w.attrs[key];
  }

  /** A replay that does not fail at its first call goes on from the world
      that call leaves. */
  lemma ReplayStep(w: World, events: seq<Event>, w': World)
    requires events != [] && Step(w, events[0]) == Some(w')
    ensures Replay(w, events) == Replay(w', events[1..])
  {
  }

  /** Three calls that each succeed, replayed in a row. */
  lemma ReplayThree(w: World, e0: Event, e1: Event, e2: Event, w1: World, w2: World, w3: World)
    requires Step(w, e0) == Some(w1) && Step(w1, e1) == Some(w2) && Step(w2, e2) == Some(w3)
    ensures Replay(w, [e0, e1, e2]) == Some(w3)
  {
    var e := [e0, e1, e2];
    ReplayStep(w, e, w1);
    assert e[1..] == [e1, e2];
    ReplayStep(w1, [e1, e2], w2);
    assert [e1, e2][1..] == [e2];
    ReplayStep(w2, [e2], w3);
    assert [e2][1..] == [];
  }

  /** Rebinding `a`, `b`, `b`, then `a` and `b` back, then `b` to `v`. */
  lemma RebindAttrs<K, V>(m: map<K, V>, ka: K, kb: K, x0: V, x1: V, x2: V, v: V)
    requires ka in m && kb in m && ka != kb
    ensures m[ka := x0][kb := x1][kb := x2][ka := m[ka]][kb := m[kb]][kb := v] == m[kb := v]
  {
  }

  /** Recording three values under fresh serials and then dropping them. */
  lemma RecordAndDrop<V>(m: map<nat, V>, x0: V, x1: V, x2: V)
    requires 0 !in m && 1 !in m && 2 !in m
    ensures m[0 := x0][1 := x1][2 := x2] - {0} - {1} - {2} == m
  {
  }

  lemma EnterStep(w: World, p: Patcher)
    requires KeyOf(p) in w.attrs
    ensures Step(w, Entered(p))
         == Some(World(w.attrs[KeyOf(p) := Substitute(p.serial)], w.saved[p.serial := w.attrs[KeyOf(p)]]))
  {
  }

  lemma ExitStep(w: World, p: Patcher, exc: ExcInfo)
    requires p.serial in w.saved
    ensures Step(w, Exited(p, exc)) == Some(World(w.attrs[KeyOf(p) := w.saved[p.serial]], w.saved - {p.serial}))
  {
  }

  /** `__enter__` then `__exit__` as written, over a patcher of one attribute
      followed by two patchers of another: the second attribute is left bound
      to the replacement of a patcher that is no longer active, while the
      first is restored and no patcher stays recorded. */
  lemma ForwardExitOverThree(w: World, a: PatchEntry, b: PatchEntry, exc: ExcInfo)
    requires Key(a.target, a.attribute) != Key(b.target, b.attribute)
    requires Key(a.target, a.attribute) in w.attrs && Key(b.target, b.attribute) in w.attrs
    requires 0 !in w.saved && 1 !in w.saved && 2 !in w.saved
    ensures var ps := [Patcher(0, a), Patcher(1, b), Patcher(2, b)];
            Replay(w, EnterEvents(ps) + ExitEvents(ps, exc))
              == Some(World(w.attrs[Key(b.target, b.attribute) := Substitute(1)], w.saved))
  {
    var p0, p1, p2 := Patcher(0, a), Patcher(1, b), Patcher(2, b);
    var ps := [p0, p1, p2];
    var ka, kb := KeyOf(p0), KeyOf(p1);
    EnterStep(w, p0);
    var w1 := World(w.attrs[ka := Substitute(0)], w.saved[0 := w.attrs[ka]]);
    EnterStep(w1, p1);
    var w2 := World(w1.attrs[kb := Substitute(1)], w1.saved[1 := w1.attrs[kb]]);
    EnterStep(w2, p2);
    var w3 := World(w2.attrs[kb := Substitute(2)], w2.saved[2 := w2.attrs[kb]]);
    ReplayThree(w, Entered(p0), Entered(p1), Entered(p2), w1, w2, w3);
    ExitStep(w3, p0, exc);
    var w4 := World(w3.attrs[ka := w3.saved[0]], w3.saved - {0});
    ExitStep(w4, p1, exc);
    var w5 := World(w4.attrs[kb := w4.saved[1]], w4.saved - {1});
    ExitStep(w5, p2, exc);
    var w6 := World(w5.attrs[kb := w5.saved[2]], w5.saved - {2});
    ReplayThree(w3, Exited(p0, exc), Exited(p1, exc), Exited(p2, exc), w4, w5, w6);
    assert EnterEvents(ps) == [Entered(p0), Entered(p1), Entered(p2)];
    assert ExitEvents(ps, exc) == [Exited(p0, exc), Exited(p1, exc), Exited(p2, exc)];
    ReplayAppend(w, EnterEvents(ps), ExitEvents(ps, exc));
    assert w3.saved[0] == w.attrs[ka] && w4.saved[1] == w.attrs[kb] && w5.saved[2] == Substitute(1);
    RebindAttrs(w.attrs, ka, kb, Substitute(0), Substitute(1), Substitute(2), Substitute(1));
    RecordAndDrop(w.saved, w.attrs[ka], w.attrs[kb], Substitute(1));
  }

  /** The plan of `mocked_relations(Child, Parent)` for a child of a
      parentless `Parent`, neither with an `objects` manager or a patched
      relation: `Child.save`, then `Parent.save` twice. */
  lemma ChildParentSavePlan(child: Model, parent: Model)
    requires child.parents == [parent] && parent.parents == []
    requires !child.saveIsMock && !parent.saveIsMock && !child.hasObjects && !parent.hasObjects
    requires forall r :: r in Relations(child) ==> !IsPatched(child, r)
    requires forall r :: r in Relations(parent) ==> !IsPatched(parent, r)
    ensures Plan([child, parent]) == [SaveEntry(child), SaveEntry(parent), SaveEntry(parent)]
  {
    ChildWalk(child, parent);
    assert FindAllModels([parent]) == [parent] by {
      assert [parent][1..] == [];
    }
    assert [child, parent] == [child] + [parent];
    FindAllModelsAppend([child], [parent]);
    var walk := [child, parent, parent];
    assert FindAllModels([child, parent]) == walk;
    PlanForStartsWithFirst(walk);
    assert walk[1..] == [parent, parent];
    PlanForStartsWithFirst([parent, parent]);
    assert [parent, parent][1..] == [parent];
    PlanForSingleton(parent);
    OnlySave(child);
    OnlySave(parent);
  }

  /** A model with no `objects` manager and no patched relation contributes
      its `save` patch alone. */
  lemma OnlySave(m: Model)
    requires !m.saveIsMock && !m.hasObjects
    requires forall r :: r in Relations(m) ==> !IsPatched(m, r)
    ensures ModelEntries(m) == [SaveEntry(m)]
  {
    var rels := RelationEntries(m, Relations(m));
    if rels != [] {
      RelationEntriesMembers(m, Relations(m), rels[0]);
      assert false;
    }
  }

  /** The finding on its own input: entering and then exiting the chain of
      `mocked_relations(Child, Parent)` as written leaves `Parent.save` bound
      to the replacement of the first `Parent.save` patcher, which is no
      longer active, instead of the value it had before, and no patcher stays
      recorded. Only the `Parent.save` binding is stated: what `Child.save`
      resolves to depends on the lookup through `Parent`, which `World` does
      not model. */
  lemma MockedRelationsExitLeavesParentSave(child: Model, parent: Model, w: World, exc: ExcInfo)
    requires child.parents == [parent] && parent.parents == []
    requires !child.saveIsMock && !parent.saveIsMock && !child.hasObjects && !parent.hasObjects
    requires forall r :: r in Relations(child) ==> !IsPatched(child, r)
    requires forall r :: r in Relations(parent) ==> !IsPatched(parent, r)
    requires Ready(w, Numbered(Plan([child, parent])))
    ensures var ps := Numbered(Plan([child, parent]));
            var r := Replay(w, EnterEvents(ps) + ExitEvents(ps, exc));
            |ps| == 3 && KeyOf(ps[1]) == Key(parent, "save") && ps[1].serial !in w.saved &&
            r.Some? && Key(parent, "save") in r.value.attrs &&
            r.value.attrs[Key(parent, "save")] == Substitute(ps[1].serial) && r.value.saved == w.saved
    ensures w.attrs[Key(parent, "save")].Bound? ==>
              Replay(w, EnterEvents(Numbered(Plan([child, parent]))) + ExitEvents(Numbered(Plan([child, parent])), exc)) != Some(w)
  {
    ChildParentSavePlan(child, parent);
    var ps := Numbered(Plan([child, parent]));
    assert ps == [Patcher(0, SaveEntry(child)), Patcher(1, SaveEntry(parent)), Patcher(2, SaveEntry(parent))];
    assert parent in child.parents;
    assert KeyOf(ps[0]) != KeyOf(ps[1]);
    assert KeyOf(ps[0]) in w.attrs && KeyOf(ps[1]) in w.attrs;
    assert ps[0].serial !in w.saved && ps[1].serial !in w.saved && ps[2].serial !in w.saved;
    ForwardExitOverThree(w, SaveEntry(child), SaveEntry(parent), exc);
  }

  /** `__exit__` as evidently intended: exiting in reverse list order. */
  function ReversedExitEvents(ps: seq<Patcher>, exc: ExcInfo): (r: seq<Event>)
    ensures |r| == |ps|
    ensures forall k :: 0 <= k < |ps| ==> Deactivates(r[|ps| - 1 - k], ps[k])
  {
    seq(|ps|, k requires 0 <= k < |ps| => Exited(ps[|ps| - 1 - k], exc))
  }

  /** With exits in reverse list order, a `with` block puts every patched
      attribute back, duplicated patches included. */
  lemma EnterThenReversedExitRestores(w: World, ps: seq<Patcher>, exc: ExcInfo)
    requires DistinctSerials(ps) && Ready(w, ps)
    ensures Replay(w, EnterEvents(ps) + ReversedExitEvents(ps, exc)) == Some(w)
  {
    MirroredRestores(w, ps, EnterEvents(ps), ReversedExitEvents(ps, exc));
  }

  /** The chain `mocked_relations(Child, Parent)` builds for a child of
      `Parent` holds two distinct patchers of `Parent.save`: the case in
      which exiting in list order goes wrong. */
  lemma MockedRelationsDuplicatesParentSave(child: Model, parent: Model)
    requires child.parents == [parent] && !parent.saveIsMock
    ensures var ps := Numbered(Plan([child, parent]));
            exists i, j :: 0 <= i < j < |ps| && KeyOf(ps[i]) == KeyOf(ps[j]) == Key(parent, "save")
  {
    ParentPassedTwiceIsPlannedTwice(child, parent);
    var plan := Plan([child, parent]);
    var i, j :| 0 <= i < j < |plan| && plan[i] == SaveEntry(parent) && plan[j] == SaveEntry(parent);
    var ps := Numbered(plan);
    assert KeyOf(ps[i]) == Key(parent, "save") && KeyOf(ps[j]) == Key(parent, "save");
  }
}
