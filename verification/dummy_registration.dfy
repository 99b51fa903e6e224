/**
 * `YP_REGISTER_BACKEND(dummy, DummyPhonebook)`: the dummy backend's two
 * static constructors, and the process-wide registry as it stands once
 * static initialisation has run.
 */
module DummyRegistration {
  import opened Envelope
  import opened Json
  import opened Transport
  import opened PhonebookInterface
  import Backend
  import DummyBackend

  const DummyName: string := "dummy"

  /** DummyPhonebook seen through its static `create` and `open`; neither throws. */
  const DummyType: BackendType :=
    BackendType((e: Engine, c: Json) => Returned(Phonebook("", Dummy(DummyBackend.Create(e, c)))),
                (e: Engine, c: Json) => Returned(Phonebook("", Dummy(DummyBackend.Open(e, c)))))

  /** The registry after the static registrations of this repository. */
  const StaticRegistry: Factory := Register(EmptyFactory, DummyName, DummyType)

  /** The dummy backend built by the registry, tagged "dummy". */
  function DummyInstance(engine: Engine, config: Json): Phonebook {
    Phonebook(DummyName, Dummy(DummyBackend.DummyPhonebook(engine, config)))
  }

  /**
   * Creating or opening "dummy" always yields a dummy instance named
   * "dummy" holding exactly the given configuration; any other name
   * yields null.
   */
  lemma StaticRegistryLookups(name: string, engine: Engine, config: Json)
    ensures name == DummyName ==>
              Backend.CreatePhonebook(StaticRegistry, name, engine, config) == Returned(Some(DummyInstance(engine, config)))
    ensures name == DummyName ==>
              Backend.OpenPhonebook(StaticRegistry, name, engine, config) == Returned(Some(DummyInstance(engine, config)))
    ensures name != DummyName ==>
              Backend.CreatePhonebook(StaticRegistry, name, engine, config) == Returned(None)
    ensures name != DummyName ==>
              Backend.OpenPhonebook(StaticRegistry, name, engine, config) == Returned(None)
  {
  }

  /** The dummy instance echoes its configuration, adds, and tears down successfully. */
  lemma DummyInstanceBehaviour(engine: Engine, config: Json, x: int32, y: int32)
    requires InInt32(x as int + y as int)
    ensures BackendGetConfig(DummyInstance(engine, config)) == Dump(config)
    ensures var r := BackendComputeSum(DummyInstance(engine, config), x, y);
            r.success && r.value.Some? && r.value.value as int == x as int + y as int
    ensures BackendDestroy(DummyInstance(engine, config)) == Result(true, "", Some(true))
  {
  }
}
