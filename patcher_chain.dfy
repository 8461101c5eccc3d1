/** `PatcherChain`: one object that starts, stops, enters and exits a list of
    `mock` patchers, and `mocked_relations`, which builds one from the plan.
    What a single patcher does when started or stopped belongs to the `mock`
    library; here every call made on a patcher is recorded, in order, in the
    chain's event log. */
module Chain {
  import opened ModelGraph
  import opened Planner

  /** One patcher object. Every `patch.object` call creates a distinct
      object; `serial` is that identity, so two patchers planned for the
      same attribute are still two patchers. */
  datatype Patcher = Patcher(serial: nat, entry: PatchEntry)

  /** The `(exc_type, exc_val, exc_tb)` triple `__exit__` receives. */
  datatype ExcInfo = NoException | Raised(excType: string, excValue: nat, traceback: nat)

  /** A call the chain made on one of its patchers. */
  datatype Event =
    | Started(p: Patcher)
    | Stopped(p: Patcher)
    | Entered(p: Patcher)
    | Exited(p: Patcher, exc: ExcInfo)

  /** What `patcher.start()` or `patcher.__enter__()` returns (the mock it
      installed): the patcher and the position of that call in the log. */
  datatype Handle = Handle(patcher: Patcher, call: nat)

  /** Patchers `ps` started one after the other, in list order. */
  function StartEvents(ps: seq<Patcher>): seq<Event> {
    seq(|ps|, k requires 0 <= k < |ps| => Started(ps[k]))
  }

  /** Patchers `ps` entered one after the other, in list order. */
  function EnterEvents(ps: seq<Patcher>): seq<Event> {
    seq(|ps|, k requires 0 <= k < |ps| => Entered(ps[k]))
  }

  /** Patchers `ps` stopped one after the other, last one first. */
  function StopEvents(ps: seq<Patcher>): seq<Event> {
    seq(|ps|, k requires 0 <= k < |ps| => Stopped(ps[|ps| - 1 - k]))
  }

  /** Patchers `ps` exited one after the other, in list order, each with the
      same exception triple. */
  function ExitEvents(ps: seq<Patcher>, exc: ExcInfo): seq<Event> {
    seq(|ps|, k requires 0 <= k < |ps| => Exited(ps[k], exc))
  }

  /** The handles of calls on `ps` logged from position `first` on. */
  function HandlesFrom(ps: seq<Patcher>, first: nat): seq<Handle> {
    seq(|ps|, k requires 0 <= k < |ps| => Handle(ps[k], first + k))
  }

  predicate DistinctSerials(ps: seq<Patcher>) {
    forall i, j :: 0 <= i < j < |ps| ==> ps[i].serial != ps[j].serial
  }

  /** The patcher objects `mocked_relations` creates for its plan, one per
      entry, in plan order. */
  function Numbered(entries: seq<PatchEntry>): (ps: seq<Patcher>)
    ensures |ps| == |entries| && DistinctSerials(ps)
    ensures forall k :: 0 <= k < |ps| ==> ps[k].entry == entries[k]
  {
    seq(|entries|, k requires 0 <= k < |entries| => Patcher(k, entries[k]))
  }

  /** A test-class attribute as `getattr(cls, name)` sees it: a plain value,
      callable or not, or a value some chain has decorated. */
  datatype ClassAttr =
    | Plain(token: nat, isCallable: bool)
    | Decorated(chain: PatcherChain, inner: ClassAttr)

  /** `hasattr(value, "__call__")`; a decorated test is a function. */
  function IsCallable(a: ClassAttr): bool {
    match a
    case Plain(_, c) => c
    case Decorated(_, _) => true
  }

  /** `mock.patch.TEST_PREFIX`. */
  const TestPrefix: string := "test"

  /** `name.startswith(TestPrefix)`. */
  predicate IsTestName(name: string) {
    |TestPrefix| <= |name| && name[..|TestPrefix|] == TestPrefix
  }

  /** The filter of `decorate_class`: only callable attributes whose name
      starts with the test prefix are rewrapped. */
  function DecorateAttr(chain: PatcherChain, name: string, a: ClassAttr): ClassAttr {
    if IsTestName(name) && IsCallable(a) then Decorated(chain, a) else a
  }

  /** The attributes of a class after `chain.decorate_class(cls)`. */
  function DecoratedAttrs(chain: PatcherChain, attrs: map<string, ClassAttr>): map<string, ClassAttr> {
    map n | n in attrs :: DecorateAttr(chain, n, attrs[n])
  }

  /** `decorate_class` keeps every attribute name and changes exactly the
      callable test attributes, each to the chain's wrapper around it. */
  lemma DecorateClassRewrapsOnlyTests(chain: PatcherChain, attrs: map<string, ClassAttr>, n: string)
    requires n in attrs
    ensures DecoratedAttrs(chain, attrs).Keys == attrs.Keys
    ensures DecoratedAttrs(chain, attrs)[n] != attrs[n] <==> IsTestName(n) && IsCallable(attrs[n])
    ensures DecoratedAttrs(chain, attrs)[n] != attrs[n] ==> DecoratedAttrs(chain, attrs)[n] == Decorated(chain, attrs[n])
  {
    var a := attrs[n];
    assert a < Decorated(chain, a);
  }

  /** A test class, whose attributes `decorate_class` rebinds in place. */
  class TestClass {
    var attrs: map<string, ClassAttr>

    constructor (attrs: map<string, ClassAttr>)
      ensures this.attrs == attrs
    {
      this.attrs := attrs;
    }
  }

  class PatcherChain {
    const patchers: seq<Patcher>
    /** Whether decorated tests receive the mocks as extra arguments. */
    const passMocks: bool
    /** Every call made on a patcher, oldest first. */
    var log: seq<Event>

    constructor (patchers: seq<Patcher>, passMocks: bool)
      ensures this.patchers == patchers && this.passMocks == passMocks && log == []
    {
      this.patchers := patchers;
      this.passMocks := passMocks;
      log := [];
    }

    /** `start()`: starts every patcher in list order and returns their
        handles in that order. */
    method Start() returns (handles: seq<Handle>)
      modifies this
      ensures log == old(log) + StartEvents(patchers)
      ensures handles == HandlesFrom(patchers, |old(log)|)
    {
      handles := [];
      for i := 0 to |patchers|
        invariant log == old(log) + StartEvents(patchers[..i])
        invariant handles == HandlesFrom(patchers[..i], |old(log)|)
      {
        handles := handles + [Handle(patchers[i], |log|)];
        log := log + [Started(patchers[i])];
        assert StartEvents(patchers[..i + 1]) == StartEvents(patchers[..i]) + [Started(patchers[i])];
        assert HandlesFrom(patchers[..i + 1], |old(log)|)
            == HandlesFrom(patchers[..i], |old(log)|) + [Handle(patchers[i], |old(log)| + i)];
      }
      assert patchers[..|patchers|] == patchers;
    }

    /** `stop()`: stops every patcher, in reverse list order. */
    method Stop()
      modifies this
      ensures log == old(log) + StopEvents(patchers)
    {
      var i := |patchers|;
      while i > 0
        invariant 0 <= i <= |patchers|
        invariant log == old(log) + StopEvents(patchers[i..])
      {
        i := i - 1;
        log := log + [Stopped(patchers[i])];
        assert StopEvents(patchers[i..]) == StopEvents(patchers[i + 1..]) + [Stopped(patchers[i])];
      }
    }

    /** `__enter__()`: enters every patcher in list order and returns their
        handles in that order, for the `with` statement to bind. */
    method Enter() returns (handles: seq<Handle>)
      modifies this
      ensures log == old(log) + EnterEvents(patchers)
      ensures handles == HandlesFrom(patchers, |old(log)|)
    {
      handles := [];
      for i := 0 to |patchers|
        invariant log == old(log) + EnterEvents(patchers[..i])
        invariant handles == HandlesFrom(patchers[..i], |old(log)|)
      {
        handles := handles + [Handle(patchers[i], |log|)];
        log := log + [Entered(patchers[i])];
        assert EnterEvents(patchers[..i + 1]) == EnterEvents(patchers[..i]) + [Entered(patchers[i])];
        assert HandlesFrom(patchers[..i + 1], |old(log)|)
            == HandlesFrom(patchers[..i], |old(log)|) + [Handle(patchers[i], |old(log)| + i)];
      }
      assert patchers[..|patchers|] == patchers;
    }

    /** `__exit__(exc_type, exc_val, exc_tb)`: exits every patcher with the
        same triple, in list order (not reversed). It returns `None`, so an
        exception raised in the `with` body propagates. */
    method Exit(exc: ExcInfo)
      modifies this
      ensures log == old(log) + ExitEvents(patchers, exc)
    {
      for i := 0 to |patchers|
        invariant log == old(log) + ExitEvents(patchers[..i], exc)
      {
        log := log + [Exited(patchers[i], exc)];
        assert ExitEvents(patchers[..i + 1], exc) == ExitEvents(patchers[..i], exc) + [Exited(patchers[i], exc)];
      }
      assert patchers[..|patchers|] == patchers;
    }

    /** `decorate_class(cls)`: rewraps, in place, every attribute `dir(cls)`
        lists whose name starts with the test prefix and whose value is
        callable, and returns the class itself. `names` is `dir(cls)`. */
    method DecorateClass(cls: TestClass, names: seq<string>) returns (r: TestClass)
      requires forall n :: n in cls.attrs <==> n in names
      requires forall i, j :: 0 <= i < j < |names| ==> names[i] != names[j]
      modifies cls
      ensures r == cls
      ensures cls.attrs == DecoratedAttrs(this, old(cls.attrs))
    {
      for i := 0 to |names|
        invariant cls.attrs.Keys == old(cls.attrs).Keys
        invariant forall n :: n in old(cls.attrs) ==>
                    cls.attrs[n] == if n in names[..i] then DecorateAttr(this, n, old(cls.attrs)[n])
                                    else old(cls.attrs)[n]
      {
        var attr := names[i];
        assert attr !in names[..i];
        assert forall n :: n in names[..i + 1] <==> n in names[..i] || n == attr;
        if !IsTestName(attr) {
          continue;
        }
        var attrValue := cls.attrs[attr];
        if !IsCallable(attrValue) {
          continue;
        }
        cls.attrs := cls.attrs[attr := Decorated(this, attrValue)];
      }
      assert names[..|names|] == names;
      r := cls;
    }
  }

  /** `mocked_relations(*models)`: a chain over one fresh patcher per
      planned patch, in plan order, that does not pass mocks to tests. */
  method MockedRelations(models: seq<Model>) returns (chain: PatcherChain)
    ensures fresh(chain)
    ensures chain.patchers == Numbered(Plan(models)) && !chain.passMocks && chain.log == []
  {
    var patchers := PlanPatchers(models);
    chain := new PatcherChain(Numbered(patchers), false);
  }
}
