/**
 * The lookup half of PhonebookFactory: `createPhonebook` and
 * `openPhonebook` find the name in their own map and call the stored
 * entry, or return a null pointer when the name is not registered.
 * A call returns `Returned(None)` for null, `Returned(Some(p))` for an
 * instance, and `Raised(e)` when the backend's constructor throws.
 */
module Backend {
  import opened Envelope
  import opened Json
  import opened Transport
  import opened PhonebookInterface

  /** `PhonebookFactory::createPhonebook` */
  function CreatePhonebook(f: Factory, name: string, engine: Engine, config: Json): (r: Outcome<Option<Phonebook>>)
    ensures name !in f.createFn ==> r == Returned(None)
    ensures name in f.createFn ==> r.Raised? || r.value.Some?
    ensures r.Returned? && r.value.Some? ==>
              name in f.createFn && Invoke(name, f.createFn[name], engine, config) == Returned(r.value.value)
    ensures r.Raised? ==>
              name in f.createFn && Invoke(name, f.createFn[name], engine, config) == Raised(r.error)
  {
    if name !in f.createFn then Returned(None)
    else
      match Invoke(name, f.createFn[name], engine, config)
      case Returned(p) => Returned(Some(p))
      case Raised(e) => Raised(e)
  }

  /** `PhonebookFactory::openPhonebook` */
  function OpenPhonebook(f: Factory, name: string, engine: Engine, config: Json): (r: Outcome<Option<Phonebook>>)
    ensures name !in f.openFn ==> r == Returned(None)
    ensures name in f.openFn ==> r.Raised? || r.value.Some?
    ensures r.Returned? && r.value.Some? ==>
              name in f.openFn && Invoke(name, f.openFn[name], engine, config) == Returned(r.value.value)
    ensures r.Raised? ==>
              name in f.openFn && Invoke(name, f.openFn[name], engine, config) == Raised(r.error)
  {
    if name !in f.openFn then Returned(None)
    else
      match Invoke(name, f.openFn[name], engine, config)
      case Returned(p) => Returned(Some(p))
      case Raised(e) => Raised(e)
  }

  /**
   * The two entry points consult their own map only: `create` never
   * depends on `open_fn`, and `open` never depends on `create_fn`.
   */
  lemma EntryPointsIndependent(f1: Factory, f2: Factory, name: string, engine: Engine, config: Json)
    ensures f1.createFn == f2.createFn ==>
              CreatePhonebook(f1, name, engine, config) == CreatePhonebook(f2, name, engine, config)
    ensures f1.openFn == f2.openFn ==>
              OpenPhonebook(f1, name, engine, config) == OpenPhonebook(f2, name, engine, config)
  {
  }

  /** A name present in only one map yields an instance only through that entry point. */
  lemma OneSidedName(f: Factory, name: string, engine: Engine, config: Json)
    ensures name in f.createFn && name !in f.openFn ==>
              OpenPhonebook(f, name, engine, config) == Returned(None)
    ensures name in f.openFn && name !in f.createFn ==>
              CreatePhonebook(f, name, engine, config) == Returned(None)
  {
  }

  /**
   * After registering a backend type under `name`, either entry point
   * builds what the type's own constructor builds, tagged with `name`,
   * or rethrows what it threw.
   */
  lemma RegisteredInstancesTagged(f: Factory, name: string, t: BackendType, engine: Engine, config: Json)
    ensures var r := CreatePhonebook(Register(f, name, t), name, engine, config);
            match t.create(engine, config)
            case Returned(p) => r == Returned(Some(p.(name := name)))
            case Raised(e) => r == Raised(e)
    ensures var r := OpenPhonebook(Register(f, name, t), name, engine, config);
            match t.open(engine, config)
            case Returned(p) => r == Returned(Some(p.(name := name)))
            case Raised(e) => r == Raised(e)
  {
  }
}
