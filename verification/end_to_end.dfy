/**
 * The behaviour the repository's tests exercise, composed from the
 * modules above: a provider started with the dummy configuration, a
 * client that finds it at the engine's own address, and a sum that
 * travels from a handle to the provider and back.
 */
module EndToEnd {
  import opened Envelope
  import opened Json
  import opened Transport
  import opened PhonebookInterface
  import opened Handles
  import opened DummyRegistration
  import ProviderImpl
  import ClientOps
  import HandleOps
  import Provider

  /** The server side of one request: the provider it reaches answers it. */
  function Deliver(s: ProviderImpl.State, req: Request): Result<int32>
    requires ProviderImpl.Serves(s, req.target) && req.rpc == ComputeSumRpcName
    requires ProviderImpl.RpcDefined(s, req.x, req.y)
  {
    ProviderImpl.ComputeSumRpc(s, req.x, req.y)
  }

  /** A provider configured with type "dummy" binds a dummy backend holding that configuration. */
  lemma DummyTypeBinds(engine: Engine, providerId: uint16, config: Text, backendConfig: Json)
    requires ProviderImpl.StartupSelection(config) == Some(ProviderImpl.Selection(DummyName, backendConfig))
    ensures var boot := ProviderImpl.Startup(engine, providerId, config, StaticRegistry);
            && boot.state.backend == Some(DummyInstance(engine, backendConfig))
            && boot.created == Some(DefaultResult())
  {
    StaticRegistryLookups(DummyName, engine, backendConfig);
  }

  /**
   * Any other type leaves the provider without a backend and a failed
   * Result, so the Provider constructor is not known to complete; the
   * state it leaves answers every sum with the no-phonebook failure.
   */
  lemma OtherTypeFails(engine: Engine, providerId: uint16, config: Text, x: int32, y: int32)
    requires ProviderImpl.StartupSelection(config).Some?
    requires ProviderImpl.StartupSelection(config).value.backendType != DummyName
    ensures var boot := ProviderImpl.Startup(engine, providerId, config, StaticRegistry);
            && boot.state.backend.None?
            && boot.created == Some(FailedResult(ProviderImpl.UnknownTypeMessage(ProviderImpl.StartupSelection(config).value.backendType)))
            && !Provider.StartupCompletes(engine, providerId, config, StaticRegistry)
            && ProviderImpl.ComputeSumRpc(boot.state, x, y) == FailedResult(ProviderImpl.NoPhonebookMessage)
  {
    ProviderImpl.UnknownTypeStartup(engine, providerId, config, StaticRegistry);
  }

  /**
   * Feeding a provider's exported configuration to a fresh provider
   * binds a backend of the same type and configuration, which exports
   * the same configuration again.
   */
  lemma ProviderConfigRoundTrip(engine: Engine, providerId: uint16, config: Text,
                                engine2: Engine, providerId2: uint16)
    requires ProviderImpl.Startup(engine, providerId, config, StaticRegistry).state.backend.Some?
    ensures var s1 := ProviderImpl.Startup(engine, providerId, config, StaticRegistry).state;
            var exported := ProviderImpl.GetConfig(s1);
            && exported.Returned?
            && var s2 := ProviderImpl.Startup(engine2, providerId2, exported.value, StaticRegistry).state;
            && s2.backend.Some?
            && s2.backend.value.name == s1.backend.value.name
            && BackendGetConfig(s2.backend.value) == BackendGetConfig(s1.backend.value)
            && ProviderImpl.GetConfig(s2) == exported
  {
    var sel := ProviderImpl.StartupSelection(config).value;
    assert sel.backendType == DummyName;
    DummyTypeBinds(engine, providerId, config, sel.config);
    var s1 := ProviderImpl.Startup(engine, providerId, config, StaticRegistry).state;
    var exported := ProviderImpl.GetConfig(s1);
    assert exported == Returned(Dump(ProviderImpl.ConfigDocument(sel)));
    ProviderImpl.SelectionRoundTrip(sel);
    DummyTypeBinds(engine2, providerId2, exported.value, sel.config);
  }

  /** The provider configuration both tests start from. */
  const TestConfig: Text := Dump(ProviderImpl.ConfigDocument(ProviderImpl.Selection(DummyName, EmptyObject)))

  /** The provider both tests start at id 42 on the engine's own address. */
  function TestProvider(address: string): ProviderImpl.State {
    ProviderImpl.Startup(Engine(address), 42, TestConfig, StaticRegistry).state
  }

  /**
   * The transport answers the tests rely on: the engine's own address
   * resolves to itself, and the identity query answers "YP" exactly for
   * the provider handle the test provider serves, since it is the only
   * YP provider on that engine.
   */
  ghost predicate TestTransport(address: string, lookup: string -> Outcome<Endpoint>,
                          identity: ProviderRef -> Outcome<string>)
  {
    && lookup(address) == Returned(Endpoint(address))
    && (forall ref :: identity(ref) == Returned(ProviderImpl.Identity) <==> ProviderImpl.Serves(TestProvider(address), ref))
  }

  /**
   * The client test: a checked handle to the provider's id is valid, a
   * checked handle to id 55 throws a YP::Exception, and an unchecked one
   * is returned anyway.
   */
  lemma ClientTest(address: string, lookup: string -> Outcome<Endpoint>,
                   identity: ProviderRef -> Outcome<string>)
    requires TestTransport(address, lookup, identity)
    ensures TestProvider(address).backend.Some?
    ensures Provider.StartupCompletes(Engine(address), 42, TestConfig, StaticRegistry)
    ensures var c := Client(Some(ClientImpl(Engine(address))));
            var h := ClientOps.MakePhonebookHandle(c, address, 42, true, lookup, identity);
            h.Returned? && HandleOps.IsValid(h.value)
    ensures var c := Client(Some(ClientImpl(Engine(address))));
            var h := ClientOps.MakePhonebookHandle(c, address, 55, true, lookup, identity);
            h.Raised? && h.error.YpError?
    ensures var c := Client(Some(ClientImpl(Engine(address))));
            ClientOps.MakePhonebookHandle(c, address, 55, false, lookup, identity).Returned?
  {
    ProviderImpl.SelectionRoundTrip(ProviderImpl.Selection(DummyName, EmptyObject));
    DummyTypeBinds(Engine(address), 42, TestConfig, EmptyObject);
    ClientOps.ExpectsProviderIdentity();
  }

  /**
   * A sum sent through a checked handle reaches the dummy-backed provider
   * and comes back successful with the sum as its value.
   */
  lemma SumThroughHandle(address: string, lookup: string -> Outcome<Endpoint>,
                         identity: ProviderRef -> Outcome<string>, x: int32, y: int32)
    requires TestTransport(address, lookup, identity)
    requires InInt32(x as int + y as int)
    ensures var s := TestProvider(address);
            var c := Client(Some(ClientImpl(Engine(address))));
            var h := ClientOps.MakePhonebookHandle(c, address, 42, true, lookup, identity);
            && h.Returned?
            && var f := HandleOps.ComputeSum(h.value, x, y);
            && f.Returned?
            && ProviderImpl.Serves(s, f.value.pending.target)
            && f.value.pending.rpc == ComputeSumRpcName
            && ProviderImpl.RpcDefined(s, f.value.pending.x, f.value.pending.y)
            && var r := Deliver(s, f.value.pending);
            && r.success
            && r.value.Some? && r.value.value as int == x as int + y as int
  {
    ProviderImpl.SelectionRoundTrip(ProviderImpl.Selection(DummyName, EmptyObject));
    DummyTypeBinds(Engine(address), 42, TestConfig, EmptyObject);
    ClientOps.ExpectsProviderIdentity();
  }

  /** The phonebook test: 42 + 51 comes back as 93. */
  lemma PhonebookTest(address: string, lookup: string -> Outcome<Endpoint>,
                      identity: ProviderRef -> Outcome<string>)
    requires TestTransport(address, lookup, identity)
    ensures var s := TestProvider(address);
            var c := Client(Some(ClientImpl(Engine(address))));
            var h := ClientOps.MakePhonebookHandle(c, address, 42, true, lookup, identity);
            && h.Returned?
            && var f := HandleOps.ComputeSum(h.value, 42, 51);
            && f.Returned?
            && ProviderImpl.Serves(s, f.value.pending.target)
            && f.value.pending.rpc == ComputeSumRpcName
            && ProviderImpl.RpcDefined(s, f.value.pending.x, f.value.pending.y)
            && Deliver(s, f.value.pending) == Result(true, "", Some(93))
  {
    SumThroughHandle(address, lookup, identity, 42, 51);
  }
}
