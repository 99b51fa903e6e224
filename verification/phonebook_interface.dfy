/**
 * The backend interface and the registration half of the factory.
 *
 * A backend instance is a tagged variant carrying the name it was
 * registered under. Registering a backend type stores, under its name,
 * a constructor for `create` and one for `open`; each stored
 * constructor tags the instance it builds with that name.
 */
module PhonebookInterface {
  import opened Envelope
  import opened Json
  import opened Transport
  import DummyBackend

  /**
   * The concrete backends. `Foreign` stands for any backend defined
   * outside this model, described only by what its three operations
   * answer.
   */
  datatype Impl =
    | Dummy(dummy: DummyBackend.DummyPhonebook)
    | Foreign(config: Text, sum: (int32, int32) -> Result<int32>, destroyed: Result<bool>)

  /** A PhonebookInterface instance: its `m_name` tag and its implementation. */
  datatype Phonebook = Phonebook(name: string, impl: Impl)

  /** Whether `computeSum(x, y)` is defined behaviour for this backend. */
  predicate SumDefined(p: Phonebook, x: int32, y: int32) {
    p.impl.Dummy? ==> InInt32(x as int + y as int)
  }

  /** `getConfig()` */
  function BackendGetConfig(p: Phonebook): Text {
    match p.impl
    case Dummy(d) => DummyBackend.GetConfig(d)
    case Foreign(config, _, _) => config
  }

  /** `computeSum(x, y)` */
  function BackendComputeSum(p: Phonebook, x: int32, y: int32): Result<int32>
    requires SumDefined(p, x, y)
  {
    match p.impl
    case Dummy(d) => DummyBackend.ComputeSum(d, x, y)
    case Foreign(_, sum, _) => sum(x, y)
  }

  /** `destroy()` */
  function BackendDestroy(p: Phonebook): Result<bool> {
    match p.impl
    case Dummy(d) => DummyBackend.Destroy(d)
    case Foreign(_, _, destroyed) => destroyed
  }

  /** A backend type's static `create` or `open`: it builds an instance or throws. */
  type Ctor = (Engine, Json) -> Outcome<Phonebook>

  /** The class given to YP_REGISTER_BACKEND, seen through its two static functions. */
  datatype BackendType = BackendType(create: Ctor, open: Ctor)

  /**
   * Calling the lambda registration stores under `tag`: build with the
   * backend type's constructor, then overwrite `m_name` with the
   * captured name.
   */
  function Invoke(tag: string, ctor: Ctor, engine: Engine, config: Json): (r: Outcome<Phonebook>)
    ensures r.Returned? <==> ctor(engine, config).Returned?
    ensures r.Returned? ==> r.value.name == tag
    ensures r.Returned? ==> r.value.impl == ctor(engine, config).value.impl
    ensures r.Raised? ==> r.error == ctor(engine, config).error
  {
    match ctor(engine, config)
    case Returned(p) => Returned(p.(name := tag))
    case Raised(e) => Raised(e)
  }

  /**
   * PhonebookFactory's two static maps, `create_fn` and `open_fn`. Each
   * entry stands for the lambda that registration stores under its key:
   * the backend type's constructor, tagging with that key (see Invoke).
   */
  datatype Factory = Factory(createFn: map<string, Ctor>, openFn: map<string, Ctor>)

  const EmptyFactory: Factory := Factory(map[], map[])

  /** The constructor of __YpBackendRegistration: fills (or overwrites) both maps. */
  function Register(f: Factory, name: string, t: BackendType): (r: Factory)
    ensures name in r.createFn && name in r.openFn
    ensures r.createFn[name] == t.create && r.openFn[name] == t.open
    ensures r.createFn.Keys == f.createFn.Keys + {name}
    ensures r.openFn.Keys == f.openFn.Keys + {name}
    ensures forall n :: n in f.createFn && n != name ==> r.createFn[n] == f.createFn[n]
    ensures forall n :: n in f.openFn && n != name ==> r.openFn[n] == f.openFn[n]
  {
    Factory(f.createFn[name := t.create], f.openFn[name := t.open])
  }

  /** Registering a name a second time replaces both earlier entries. */
  lemma RegisterOverwrites(f: Factory, name: string, t1: BackendType, t2: BackendType)
    ensures Register(Register(f, name, t1), name, t2) == Register(f, name, t2)
  {
  }

  /** One YP_REGISTER_BACKEND line: a name and a backend type. */
  datatype Registration = Registration(name: string, backend: BackendType)

  /** The names a list of registrations registers. */
  function Names(regs: seq<Registration>): set<string>
    decreases |regs|
  {
    if |regs| == 0 then {} else {regs[0].name} + Names(regs[1..])
  }

  /** The static initialisers, run one after the other. */
  function RegisterAll(f: Factory, regs: seq<Registration>): (r: Factory)
    ensures r.createFn.Keys == f.createFn.Keys + Names(regs)
    ensures r.openFn.Keys == f.openFn.Keys + Names(regs)
    decreases |regs|
  {
    if |regs| == 0 then f
    else RegisterAll(Register(f, regs[0].name, regs[0].backend), regs[1..])
  }

  /** A name is registered exactly when some registration in the list carries it. */
  lemma {:induction false} NamesMembership(regs: seq<Registration>, name: string)
    ensures name in Names(regs) <==> exists i :: 0 <= i < |regs| && regs[i].name == name
    decreases |regs|
  {
    if |regs| > 0 {
      NamesMembership(regs[1..], name);
      if name in Names(regs[1..]) {
        var i :| 0 <= i < |regs[1..]| && regs[1..][i].name == name;
        assert regs[i + 1].name == name;
      }
      if exists i :: 0 <= i < |regs| && regs[i].name == name {
        var i :| 0 <= i < |regs| && regs[i].name == name;
        if i > 0 {
          assert regs[1..][i - 1].name == name;
        }
      }
    }
  }

  /** The entry a name ends up with is the one from its last registration. */
  lemma {:induction false} RegisterAllLastWins(f: Factory, regs: seq<Registration>, k: nat)
    requires k < |regs|
    requires forall j :: k < j < |regs| ==> regs[j].name != regs[k].name
    ensures regs[k].name in RegisterAll(f, regs).createFn && regs[k].name in RegisterAll(f, regs).openFn
    ensures RegisterAll(f, regs).createFn[regs[k].name] == regs[k].backend.create
    ensures RegisterAll(f, regs).openFn[regs[k].name] == regs[k].backend.open
    decreases |regs|
  {
    NamesMembership(regs, regs[k].name);
    var g := Register(f, regs[0].name, regs[0].backend);
    if k == 0 {
      RegisterAllKeeps(g, regs[1..], regs[0].name);
    } else {
      RegisterAllLastWins(g, regs[1..], k - 1);
    }
  }

  /** Registrations under other names leave an entry alone. */
  lemma {:induction false} RegisterAllKeeps(f: Factory, regs: seq<Registration>, name: string)
    requires name in f.createFn && name in f.openFn
    requires forall j :: 0 <= j < |regs| ==> regs[j].name != name
    ensures RegisterAll(f, regs).createFn[name] == f.createFn[name]
    ensures RegisterAll(f, regs).openFn[name] == f.openFn[name]
    decreases |regs|
  {
    if |regs| > 0 {
      RegisterAllKeeps(Register(f, regs[0].name, regs[0].backend), regs[1..], name);
    }
  }
}
