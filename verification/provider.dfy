/**
 * Provider: the owning handle of a ProviderImpl, and the engine's
 * finalize callbacks keyed by the owning Provider object.
 *
 * A World records the live Provider objects (by address) with the
 * implementation each one owns, every implementation ever constructed,
 * the owners of the registered finalize callbacks (a multiset: the
 * engine keeps one callback per push), and how many times each
 * implementation has been torn down (run `~ProviderImpl`, which calls
 * ProviderImpl.Teardown). Nothing else holds a ProviderImpl, so it is
 * torn down exactly when its owner lets go of it.
 */
module Provider {
  import opened Envelope
  import opened Json
  import opened Transport
  import opened PhonebookInterface
  import ProviderImpl

  type Addr = nat
  type ImplId = nat

  datatype World = World(
    objects: map<Addr, Option<ImplId>>,
    impls: map<ImplId, ProviderImpl.State>,
    callbacks: multiset<Addr>,
    torndown: multiset<ImplId>,
    next: ImplId)

  const Initial: World := World(map[], map[], multiset{}, multiset{}, 0)

  /** The implementations some live Provider object still owns. */
  function Owned(w: World): set<ImplId> {
    set a | a in w.objects && w.objects[a].Some? :: w.objects[a].value
  }

  /** The implementations that have been torn down. */
  function TornDown(w: World): set<ImplId> {
    SetOf(w.torndown)
  }

  function SetOf(m: multiset<ImplId>): set<ImplId> {
    set i | i in m
  }

  /** Every owner has exactly one finalize callback and nothing else has one. */
  ghost predicate CallbacksMatchOwners(w: World) {
    && (forall a :: a in w.callbacks ==> a in w.objects)
    && (forall a :: a in w.objects ==> w.callbacks[a] == (if w.objects[a].Some? then 1 else 0))
  }

  /** No two live objects share an implementation. */
  ghost predicate OwnersDistinct(w: World) {
    forall a, b :: a in w.objects && b in w.objects && a != b && w.objects[a].Some? && w.objects[b].Some?
                   ==> w.objects[a].value != w.objects[b].value
  }

  /**
   * Every constructed implementation is either owned or has been torn
   * down, never both, and none has been torn down twice.
   */
  ghost predicate OwnedOrTornDownOnce(w: World) {
    && (forall i :: i in w.torndown ==> w.torndown[i] == 1)
    && Owned(w) !! TornDown(w)
    && w.impls.Keys == Owned(w) + TornDown(w)
    && (forall i :: i in w.impls ==> i < w.next)
  }

  /** The bookkeeping invariant of Provider objects and their callbacks. */
  ghost predicate Inv(w: World) {
    CallbacksMatchOwners(w) && OwnersDistinct(w) && OwnedOrTornDownOnce(w)
  }

  lemma InitialInv()
    ensures Inv(Initial)
  {
  }

  /** A new object at `a` takes a new implementation and pushes its callback. */
  function Adopt(w: World, a: Addr, s: ProviderImpl.State): (r: World)
    requires a !in w.objects
    ensures a in r.objects && r.objects[a] == Some(w.next)
    ensures w.next in r.impls && r.impls[w.next] == s
    ensures r.callbacks == w.callbacks + multiset{a}
    ensures r.torndown == w.torndown
    ensures forall b :: b in w.objects ==> b in r.objects && r.objects[b] == w.objects[b]
  {
    World(w.objects[a := Some(w.next)], w.impls[w.next := s],
          w.callbacks + multiset{a}, w.torndown, w.next + 1)
  }

  /**
   * Whether the ProviderImpl constructor is known to return: a startup
   * whose createPhonebook reported failure goes on to `Result::check()`,
   * and Result.hpp is not part of this model.
   */
  predicate StartupCompletes(engine: Engine, providerId: uint16, config: Text, factory: Factory) {
    var created := ProviderImpl.Startup(engine, providerId, config, factory).created;
    created.None? || created.value.success
  }

  /**
   * `Provider::Provider(engine, id, config, pool)`: start a ProviderImpl
   * and push one finalize callback, on its engine, keyed by the new object.
   */
  function Construct(w: World, a: Addr, engine: Engine, providerId: uint16, config: Text, factory: Factory): (r: World)
    requires a !in w.objects
    requires StartupCompletes(engine, providerId, config, factory)
    ensures a in r.objects && r.objects[a] == Some(w.next) && w.next in r.impls
    ensures r.impls[w.next] == ProviderImpl.Startup(engine, providerId, config, factory).state
    ensures r.callbacks == w.callbacks + multiset{a}
    ensures r.torndown == w.torndown
    ensures r.objects == w.objects[a := Some(w.next)]
    ensures r.impls == w.impls[w.next := ProviderImpl.Startup(engine, providerId, config, factory).state]
  {
    Adopt(w, a, ProviderImpl.Startup(engine, providerId, config, factory).state)
  }

  /**
   * `Provider::Provider(Provider&&)`: pop the source's callback, take its
   * implementation, push a callback keyed by the destination. The source
   * must still own an implementation: the C++ code dereferences it.
   */
  function MoveConstruct(w: World, dst: Addr, src: Addr): (r: World)
    requires src in w.objects && w.objects[src].Some?
    requires dst !in w.objects
    ensures dst in r.objects && r.objects[dst] == w.objects[src]
    ensures src in r.objects && r.objects[src].None?
    ensures r.callbacks == w.callbacks - multiset{src} + multiset{dst}
    ensures r.torndown == w.torndown && r.impls == w.impls
    ensures r.objects == w.objects[dst := w.objects[src]][src := None]
  {
    World(w.objects[dst := w.objects[src]][src := None], w.impls,
          w.callbacks - multiset{src} + multiset{dst}, w.torndown, w.next)
  }

  /**
   * `Provider::~Provider`: pop the callback only when the object still
   * owns its implementation; the implementation then dies with it.
   */
  function Destruct(w: World, a: Addr): (r: World)
    requires a in w.objects
    ensures r.objects == w.objects - {a}
    ensures w.objects[a].None? ==> r.callbacks == w.callbacks && r.torndown == w.torndown
    ensures w.objects[a].Some? ==>
              r.callbacks == w.callbacks - multiset{a} && r.torndown == w.torndown + multiset{w.objects[a].value}
    ensures r.impls == w.impls
  {
    match w.objects[a]
    case None => w.(objects := w.objects - {a})
    case Some(i) =>
      w.(objects := w.objects - {a}, callbacks := w.callbacks - multiset{a},
         torndown := w.torndown + multiset{i})
  }

  /**
   * The objects whose finalize callback sits on engine `e`. A callback is
   * pushed on the engine of the implementation its owner holds, so it is
   * the owner's implementation that says which engine runs it.
   */
  function Engaged(w: World, e: Engine): set<Addr> {
    set a | a in w.objects && a in w.callbacks && w.objects[a].Some? && w.objects[a].value in w.impls
              && w.impls[w.objects[a].value].engine == e
  }

  /** The implementations the finalize callbacks of engine `e` release. */
  function Released(w: World, e: Engine): set<ImplId> {
    set a | a in Engaged(w, e) :: w.objects[a].value
  }

  /**
   * Finalization of engine `e`: each callback registered on it runs
   * `self.reset()` on its owner, releasing that owner's implementation,
   * and those callbacks are gone. Other engines' callbacks stay.
   */
  function Finalize(w: World, e: Engine): (r: World)
    ensures r.objects.Keys == w.objects.Keys
    ensures forall a :: a in Engaged(w, e) ==> r.objects[a].None? && r.callbacks[a] == w.callbacks[a] - 1
    ensures forall a :: a in w.objects && a !in Engaged(w, e) ==>
              r.objects[a] == w.objects[a] && r.callbacks[a] == w.callbacks[a]
    ensures r.impls == w.impls && r.next == w.next
    ensures r.torndown == w.torndown + ToMultiset(Released(w, e))
  {
    var gone := Engaged(w, e);
    var objects := map a | a in w.objects :: if a in gone then None else w.objects[a];
    World(objects, w.impls, w.callbacks - ToMultiset(gone), w.torndown + ToMultiset(Released(w, e)), w.next)
  }

  function ToMultiset<T(!new)>(s: set<T>): (m: multiset<T>)
    ensures forall i :: m[i] == (if i in s then 1 else 0)
  {
    multiset(s)
  }

  /** `Provider::operator bool` */
  function IsValid(w: World, a: Addr): (b: bool)
    requires a in w.objects
    ensures b <==> w.objects[a].Some?
  {
    w.objects[a].Some?
  }

  /** `Provider::getConfig`: "{}" once the object owns nothing. */
  function GetConfig(w: World, a: Addr): (r: Outcome<Text>)
    requires a in w.objects
    requires w.objects[a].Some? ==> w.objects[a].value in w.impls
    ensures w.objects[a].None? ==> r == Returned(EmptyObjectText)
    ensures w.objects[a].Some? ==> r == ProviderImpl.GetConfig(w.impls[w.objects[a].value])
  {
    match w.objects[a]
    case None => Returned(Dump(EmptyObject))
    case Some(i) => ProviderImpl.GetConfig(w.impls[i])
  }

  /** Adoption adds exactly the new implementation to the owned ones. */
  lemma AdoptOwned(w: World, a: Addr, s: ProviderImpl.State)
    requires a !in w.objects
    ensures Owned(Adopt(w, a, s)) == Owned(w) + {w.next}
  {
    var r := Adopt(w, a, s);
    forall i | i in Owned(r) ensures i in Owned(w) + {w.next} {
      var b :| b in r.objects && r.objects[b].Some? && r.objects[b].value == i;
      if b != a { assert b in w.objects; }
    }
    forall i | i in Owned(w) + {w.next} ensures i in Owned(r) {
      if i != w.next {
        var b :| b in w.objects && w.objects[b].Some? && w.objects[b].value == i;
        assert b in r.objects && r.objects[b] == w.objects[b];
      } else {
        assert r.objects[a] == Some(i);
      }
    }
  }

  /** The new implementation is owned by no existing object, so owners stay distinct. */
  lemma AdoptDistinct(w: World, a: Addr, s: ProviderImpl.State)
    requires OwnersDistinct(w) && OwnedOrTornDownOnce(w) && a !in w.objects
    ensures OwnersDistinct(Adopt(w, a, s))
  {
    forall b | b in w.objects && w.objects[b].Some? ensures w.objects[b].value != w.next {
      assert w.objects[b].value in Owned(w);
    }
  }

  lemma AdoptPreserves(w: World, a: Addr, s: ProviderImpl.State)
    requires Inv(w) && a !in w.objects
    ensures Inv(Adopt(w, a, s))
  {
    var r := Adopt(w, a, s);
    assert w.next !in w.impls;
    assert OwnedOrTornDownOnce(r) by {
      AdoptOwned(w, a, s);
      assert TornDown(r) == TornDown(w);
    }
    assert CallbacksMatchOwners(r) by {
      assert w.callbacks[a] == 0;
    }
    AdoptDistinct(w, a, s);
  }


  /** Construction registers exactly one callback, keyed by the new object. */
  lemma ConstructPreserves(w: World, a: Addr, engine: Engine, providerId: uint16, config: Text, factory: Factory)
    requires Inv(w) && a !in w.objects
    requires StartupCompletes(engine, providerId, config, factory)
    ensures var r := Construct(w, a, engine, providerId, config, factory);
            Inv(r) && r.callbacks[a] == 1 && IsValid(r, a)
  {
    AdoptPreserves(w, a, ProviderImpl.Startup(engine, providerId, config, factory).state);
    assert w.callbacks[a] == 0;
  }

  /**
   * A move leaves the source owning nothing and without a callback, and
   * the destination owning the implementation with exactly one callback.
   */
  lemma MovePreserves(w: World, dst: Addr, src: Addr)
    requires Inv(w)
    requires src in w.objects && w.objects[src].Some?
    requires dst !in w.objects
    ensures var r := MoveConstruct(w, dst, src);
            && Inv(r)
            && r.callbacks[src] == 0 && r.callbacks[dst] == 1
            && !IsValid(r, src) && IsValid(r, dst)
            && |r.callbacks| == |w.callbacks|
            && GetConfig(r, dst) == GetConfig(w, src)
  {
    var r := MoveConstruct(w, dst, src);
    assert dst !in w.callbacks;
    assert OwnedOrTornDownOnce(r) by {
      MoveOwned(w, dst, src);
      assert TornDown(r) == TornDown(w);
    }
    assert CallbacksMatchOwners(r);
    assert OwnersDistinct(r);
  }

  /** A move hands the implementation over: the owned set does not change. */
  lemma MoveOwned(w: World, dst: Addr, src: Addr)
    requires src in w.objects && w.objects[src].Some?
    requires dst !in w.objects
    ensures Owned(MoveConstruct(w, dst, src)) == Owned(w)
  {
    var r := MoveConstruct(w, dst, src);
    forall i | i in Owned(r) ensures i in Owned(w) {
      var b :| b in r.objects && r.objects[b].Some? && r.objects[b].value == i;
      if b == dst { assert w.objects[src].value == i; } else { assert b in w.objects; }
    }
    forall i | i in Owned(w) ensures i in Owned(r) {
      var b :| b in w.objects && w.objects[b].Some? && w.objects[b].value == i;
      if b == src { assert r.objects[dst].value == i; } else { assert r.objects[b] == w.objects[b]; }
    }
  }

  /** Destruction tears down the owned implementation, if any, and only that. */
  lemma DestructPreserves(w: World, a: Addr)
    requires Inv(w) && a in w.objects
    ensures Inv(Destruct(w, a))
  {
    var r := Destruct(w, a);
    assert OwnedOrTornDownOnce(r) by {
      DestructOwned(w, a);
      if w.objects[a].Some? {
        var i := w.objects[a].value;
        assert i !in TornDown(w);
        assert TornDown(r) == TornDown(w) + {i};
      } else {
        assert TornDown(r) == TornDown(w);
      }
    }
    assert CallbacksMatchOwners(r);
    assert OwnersDistinct(r);
  }

  /** The destroyed object's implementation, and only it, leaves the owned set. */
  lemma DestructOwned(w: World, a: Addr)
    requires OwnersDistinct(w) && a in w.objects
    ensures w.objects[a].None? ==> Owned(Destruct(w, a)) == Owned(w)
    ensures w.objects[a].Some? ==> Owned(Destruct(w, a)) == Owned(w) - {w.objects[a].value}
  {
    var r := Destruct(w, a);
    var gone: set<ImplId> := if w.objects[a].Some? then {w.objects[a].value} else {};
    forall j | j in Owned(w) - gone ensures j in Owned(r) {
      var b :| b in w.objects && w.objects[b].Some? && w.objects[b].value == j;
      assert b != a && b in r.objects;
    }
    forall j | j in Owned(r) ensures j in Owned(w) - gone {
      var b :| b in r.objects && r.objects[b].Some? && r.objects[b].value == j;
      assert b in w.objects && b != a;
    }
    assert Owned(r) == Owned(w) - gone;
  }

  /** The object owns an implementation that runs on engine `e`. */
  predicate OnEngine(w: World, a: Addr, e: Engine) {
    a in w.objects && w.objects[a].Some? && w.objects[a].value in w.impls && w.impls[w.objects[a].value].engine == e
  }

  /** With one callback per owner, engine `e` runs the callbacks of exactly its own objects. */
  lemma EngagedIsOnEngine(w: World, e: Engine)
    requires CallbacksMatchOwners(w)
    ensures forall a :: a in Engaged(w, e) <==> OnEngine(w, a, e)
  {
    forall a | OnEngine(w, a, e) ensures a in Engaged(w, e) {
      assert w.callbacks[a] == 1;
    }
  }

  /** Finalizing `e` releases exactly the owned implementations that run on `e`. */
  lemma ReleasedOnEngine(w: World, e: Engine)
    requires CallbacksMatchOwners(w)
    ensures forall i :: i in Released(w, e) <==> i in Owned(w) && i in w.impls && w.impls[i].engine == e
  {
    forall i | i in Owned(w) && i in w.impls && w.impls[i].engine == e ensures i in Released(w, e) {
      var b :| b in w.objects && w.objects[b].Some? && w.objects[b].value == i;
      assert w.callbacks[b] == 1;
    }
  }

  /** Finalization takes the released implementations, and only them, out of the owned ones. */
  lemma FinalizeOwned(w: World, e: Engine)
    requires OwnersDistinct(w)
    ensures Released(w, e) <= Owned(w)
    ensures Owned(Finalize(w, e)) == Owned(w) - Released(w, e)
  {
    var r := Finalize(w, e);
    forall i | i in Owned(r) ensures i in Owned(w) - Released(w, e) {
      var b :| b in r.objects && r.objects[b].Some? && r.objects[b].value == i;
      assert b !in Engaged(w, e) && r.objects[b] == w.objects[b];
    }
    forall i | i in Owned(w) - Released(w, e) ensures i in Owned(r) {
      var b :| b in w.objects && w.objects[b].Some? && w.objects[b].value == i;
      assert b !in Engaged(w, e);
      assert r.objects[b] == w.objects[b];
    }
  }

  /** Finalization keeps one callback per remaining owner. */
  lemma FinalizeCallbacks(w: World, e: Engine)
    requires CallbacksMatchOwners(w)
    ensures CallbacksMatchOwners(Finalize(w, e))
  {
    var r := Finalize(w, e);
    forall a | a in r.callbacks ensures a in r.objects {
      assert a in w.callbacks;
    }
    forall a | a in r.objects ensures r.callbacks[a] == (if r.objects[a].Some? then 1 else 0) {
      if a in Engaged(w, e) {
        assert w.callbacks[a] == 1;
      }
    }
  }

  /** Adding a set disjoint from a multiset of ones keeps every count at one. */
  lemma AddDisjointOnce(t: multiset<ImplId>, o: set<ImplId>)
    requires forall i :: i in t ==> t[i] == 1
    requires o !! SetOf(t)
    ensures forall i :: i in t + ToMultiset(o) ==> (t + ToMultiset(o))[i] == 1
    ensures SetOf(t + ToMultiset(o)) == SetOf(t) + o
  {
    var m := t + ToMultiset(o);
    forall i | i in m ensures m[i] == 1 {
      assert m[i] == t[i] + ToMultiset(o)[i];
      if i in o {
        assert i !in SetOf(t);
      }
    }
    forall i | i in m ensures i in SetOf(t) + o {
      assert m[i] == t[i] + ToMultiset(o)[i];
    }
    forall i | i in SetOf(t) + o ensures i in m {
      assert m[i] == t[i] + ToMultiset(o)[i];
    }
  }

  /** Releasing owned implementations keeps each teardown count at one. */
  lemma ReleaseOnce(w: World, r: World, o: set<ImplId>)
    requires OwnedOrTornDownOnce(w) && o <= Owned(w)
    requires r.torndown == w.torndown + ToMultiset(o)
    requires Owned(r) == Owned(w) - o && r.impls == w.impls && r.next == w.next
    ensures OwnedOrTornDownOnce(r)
  {
    AddDisjointOnce(w.torndown, o);
    assert TornDown(r) == TornDown(w) + o;
    assert Owned(r) !! TornDown(r);
    assert r.impls.Keys == Owned(r) + TornDown(r);
  }

  /**
   * Finalizing engine `e` keeps the invariant, resets exactly the objects
   * that run on `e`, and leaves every other object as it was.
   */
  lemma FinalizePreserves(w: World, e: Engine)
    requires Inv(w)
    ensures var r := Finalize(w, e);
            && Inv(r)
            && (forall a :: a in w.objects ==> a in r.objects && (IsValid(r, a) <==> IsValid(w, a) && !OnEngine(w, a, e)))
            && (forall a :: a in w.objects && !OnEngine(w, a, e) ==> r.objects[a] == w.objects[a])
  {
    var r := Finalize(w, e);
    EngagedIsOnEngine(w, e);
    FinalizeOwned(w, e);
    assert OwnedOrTornDownOnce(r) by {
      ReleaseOnce(w, r, Released(w, e));
    }
    FinalizeCallbacks(w, e);
    assert OwnersDistinct(r);
  }

  /** One step of a Provider object's life, or of the engine's. */
  datatype Event =
    | New(a: Addr, engine: Engine, providerId: uint16, config: Text, factory: Factory)
    | Move(dst: Addr, src: Addr)
    | Delete(a: Addr)
    | EngineFinalize(engine: Engine)

  /** The C++ requirements of each step: fresh addresses, a movable source, a live object. */
  predicate Enabled(w: World, e: Event) {
    match e
    case New(a, engine, providerId, config, factory) =>
      a !in w.objects && StartupCompletes(engine, providerId, config, factory)
    case Move(dst, src) => src in w.objects && w.objects[src].Some? && dst !in w.objects
    case Delete(a) => a in w.objects
    case EngineFinalize(_) => true
  }

  function Step(w: World, e: Event): World
    requires Enabled(w, e)
  {
    match e
    case New(a, engine, providerId, config, factory) => Construct(w, a, engine, providerId, config, factory)
    case Move(dst, src) => MoveConstruct(w, dst, src)
    case Delete(a) => Destruct(w, a)
    case EngineFinalize(engine) => Finalize(w, engine)
  }

  /** The world after a sequence of steps; None once a step is not allowed. */
  function Run(w: World, events: seq<Event>): Option<World>
    decreases |events|
  {
    if |events| == 0 then Some(w)
    else if !Enabled(w, events[0]) then None
    else Run(Step(w, events[0]), events[1..])
  }

  lemma StepPreserves(w: World, e: Event)
    requires Inv(w) && Enabled(w, e)
    ensures Inv(Step(w, e))
  {
    match e
    case New(a, engine, providerId, config, factory) => ConstructPreserves(w, a, engine, providerId, config, factory);
    case Move(dst, src) => MovePreserves(w, dst, src);
    case Delete(a) => DestructPreserves(w, a);
    case EngineFinalize(engine) => FinalizePreserves(w, engine);
  }

  /** Every reachable world keeps the bookkeeping invariant. */
  lemma {:induction false} RunPreserves(w: World, events: seq<Event>)
    requires Inv(w) && Run(w, events).Some?
    ensures Inv(Run(w, events).value)
    decreases |events|
  {
    if |events| > 0 {
      StepPreserves(w, events[0]);
      RunPreserves(Step(w, events[0]), events[1..]);
    }
  }

  /**
   * Whatever Provider objects are created, moved and destroyed, no
   * implementation is torn down twice; once an engine finalizes, every
   * implementation ever constructed on it has been torn down exactly
   * once, and those on other engines are untouched.
   */
  lemma TeardownExactlyOnce(events: seq<Event>, e: Engine)
    requires Run(Initial, events).Some?
    ensures var w := Run(Initial, events).value;
            && (forall i :: w.torndown[i] <= 1)
            && (forall i :: i in w.impls && w.impls[i].engine == e ==> Finalize(w, e).torndown[i] == 1)
            && (forall i :: i in w.impls && w.impls[i].engine != e ==> Finalize(w, e).torndown[i] == w.torndown[i])
  {
    InitialInv();
    RunPreserves(Initial, events);
    var w := Run(Initial, events).value;
    FinalizePreserves(w, e);
    ReleasedOnEngine(w, e);
    FinalizeOwned(w, e);
    var r := Finalize(w, e);
    forall i | i in w.impls && w.impls[i].engine == e ensures r.torndown[i] == 1 {
      assert i !in Owned(r);
      assert i in TornDown(r);
    }
  }

  /** `n` copies of `s`, one after another. */
  function Repeat<T>(s: seq<T>, n: nat): seq<T> {
    if n == 0 then [] else s + Repeat(s, n - 1)
  }

  /**
   * The backends whose `destroy` implementation `i` has called so far:
   * each time it is torn down, `~ProviderImpl` runs ProviderImpl.Teardown.
   */
  function DestroyCalls(w: World, i: ImplId): seq<Phonebook>
    requires i in w.impls
  {
    Repeat(ProviderImpl.Teardown(w.impls[i]), w.torndown[i])
  }

  /** Zero copies are nothing, one copy is the sequence itself. */
  lemma RepeatAtMostOnce<T>(s: seq<T>, n: nat)
    requires n <= 1
    ensures |Repeat(s, n)| <= |s|
    ensures n == 1 ==> Repeat(s, n) == s
  {
    assert Repeat(s, 0) == [];
  }

  /**
   * However Provider objects are moved and destroyed, a bound backend's
   * `destroy` runs at most once; once its engine finalizes, it has run
   * exactly once, on that backend.
   */
  lemma BackendDestroyedOnce(events: seq<Event>, e: Engine, i: ImplId)
    requires Run(Initial, events).Some?
    ensures var w := Run(Initial, events).value;
            i in w.impls ==>
              && |DestroyCalls(w, i)| <= 1
              && (w.impls[i].engine == e ==> DestroyCalls(Finalize(w, e), i) == ProviderImpl.Teardown(w.impls[i]))
  {
    TeardownExactlyOnce(events, e);
    var w := Run(Initial, events).value;
    if i in w.impls {
      RepeatAtMostOnce(ProviderImpl.Teardown(w.impls[i]), w.torndown[i]);
      if w.impls[i].engine == e {
        RepeatAtMostOnce(ProviderImpl.Teardown(w.impls[i]), Finalize(w, e).torndown[i]);
      }
    }
  }
}
