/**
 * ProviderImpl: the server-side object registered with identity "YP".
 * Startup walks the configuration document down to `phonebook.type` and
 * asks the factory for a backend; the sum RPC forwards to the bound
 * backend or answers with a fixed failure; `getConfig` writes the
 * configuration back in the shape startup reads; teardown destroys the
 * bound backend.
 */
module ProviderImpl {
  import opened Envelope
  import opened Json
  import opened Transport
  import opened PhonebookInterface
  import Backend

  /** The identity the provider registers with. */
  const Identity: string := "YP"

  const NoPhonebookMessage: string := "Provider has no phonebook attached"

  function UnknownTypeMessage(backendType: string): string {
    "Unknown phonebook type " + backendType
  }

  datatype State = State(engine: Engine, providerId: uint16, factory: Factory, backend: Option<Phonebook>)

  /** The provider id and engine address an RPC must name to reach this provider. */
  predicate Serves(s: State, target: ProviderRef) {
    target.endpoint.address == s.engine.address && target.providerId == s.providerId
  }

  /** What startup hands to the factory: `phonebook.type` and `phonebook.config`. */
  datatype Selection = Selection(backendType: string, config: Json)

  /** The configuration document that selects `sel`: the shape `getConfig` writes. */
  function ConfigDocument(sel: Selection): Json {
    JObj(map["phonebook" := JObj(map["type" := JStr(sel.backendType), "config" := sel.config])])
  }

  /**
   * The decision tree of the constructor: None when the text does not
   * parse, is not an object, has no `phonebook`, has a `phonebook` that
   * is not an object, or has no string `phonebook.type`. A missing
   * `phonebook.config` becomes the empty object.
   */
  function StartupSelection(config: Text): (r: Option<Selection>)
    ensures r.Some? <==>
              && config.Doc? && config.doc.JObj? && "phonebook" in config.doc.fields
              && config.doc.fields["phonebook"].JObj?
              && "type" in config.doc.fields["phonebook"].fields
              && config.doc.fields["phonebook"].fields["type"].JStr?
    ensures r.Some? ==>
              var pb := config.doc.fields["phonebook"];
              && pb.JObj?
              && "type" in pb.fields && pb.fields["type"] == JStr(r.value.backendType)
              && r.value.config == (if "config" in pb.fields then pb.fields["config"] else EmptyObject)
  {
    match Parse(config)
    case None => None
    case Some(doc) =>
      if !doc.JObj? || "phonebook" !in doc.fields then None
      else
        var pb := doc.fields["phonebook"];
        if !pb.JObj? then None
        else if "type" in pb.fields && pb.fields["type"].JStr? then
          var backendConfig := if "config" in pb.fields then pb.fields["config"] else EmptyObject;
          Some(Selection(pb.fields["type"].str, backendConfig))
        else None
  }

  /** A `phonebook` member that is present but not an object selects nothing. */
  lemma PhonebookNotObject(config: Text)
    requires config.Doc? && config.doc.JObj? && "phonebook" in config.doc.fields
    requires !config.doc.fields["phonebook"].JObj?
    ensures StartupSelection(config).None?
  {
  }

  /** A `phonebook` object without a string `type` selects nothing. */
  lemma NoStringType(config: Text)
    requires config.Doc? && config.doc.JObj? && "phonebook" in config.doc.fields
    requires config.doc.fields["phonebook"].JObj?
    requires var pb := config.doc.fields["phonebook"].fields;
             "type" !in pb || !pb["type"].JStr?
    ensures StartupSelection(config).None?
  {
  }

  /** `{"phonebook": {"type": t, ...}}` without `config` selects t with the empty object. */
  lemma MissingConfigIsEmpty(config: Text, backendType: string)
    requires config.Doc? && config.doc.JObj? && "phonebook" in config.doc.fields
    requires config.doc.fields["phonebook"].JObj?
    requires var pb := config.doc.fields["phonebook"].fields;
             "type" in pb && pb["type"] == JStr(backendType) && "config" !in pb
    ensures StartupSelection(config) == Some(Selection(backendType, EmptyObject))
  {
  }

  /** Reading back the document written for a selection gives that selection. */
  lemma SelectionRoundTrip(sel: Selection)
    ensures StartupSelection(Dump(ConfigDocument(sel))) == Some(sel)
  {
  }

  /**
   * `ProviderImpl::createPhonebook`: the factory's instance becomes the
   * backend and the result keeps its default (success). A null answer
   * clears the backend and reports the unknown type. An exception leaves
   * the backend as it was and reports the exception's message.
   */
  function CreatePhonebook(s: State, backendType: string, config: Json): (r: (State, Result<bool>))
    ensures r.0.engine == s.engine && r.0.providerId == s.providerId && r.0.factory == s.factory
    ensures backendType !in s.factory.createFn ==>
              r.0.backend.None? && r.1 == FailedResult(UnknownTypeMessage(backendType))
    ensures var made := Backend.CreatePhonebook(s.factory, backendType, s.engine, config);
            r.1.success <==> made.Returned? && made.value.Some?
    ensures r.1.success ==>
              && r.1 == DefaultResult()
              && r.0.backend.Some? && r.0.backend.value.name == backendType
              && Backend.CreatePhonebook(s.factory, backendType, s.engine, config) == Returned(r.0.backend)
    ensures Backend.CreatePhonebook(s.factory, backendType, s.engine, config).Raised? ==>
              r.0.backend == s.backend
              && r.1 == FailedResult(What(Backend.CreatePhonebook(s.factory, backendType, s.engine, config).error))
  {
    match Backend.CreatePhonebook(s.factory, backendType, s.engine, config)
    case Raised(e) => (s, FailedResult(What(e)))
    case Returned(None) => (s.(backend := None), FailedResult(UnknownTypeMessage(backendType)))
    case Returned(Some(p)) => (s.(backend := Some(p)), DefaultResult())
  }

  /** Provider state plus the Result of `createPhonebook`, when startup called it. */
  datatype Boot = Boot(state: State, created: Option<Result<bool>>)

  /** The ProviderImpl constructor. */
  function Startup(engine: Engine, providerId: uint16, config: Text, factory: Factory): (r: Boot)
    ensures r.state.engine == engine && r.state.providerId == providerId && r.state.factory == factory
    ensures StartupSelection(config).None? ==> r.state.backend.None? && r.created.None?
    ensures StartupSelection(config).Some? ==> r.created.Some?
    ensures r.state.backend.Some? <==> r.created.Some? && r.created.value.success
    ensures StartupSelection(config).Some? ==>
              var sel := StartupSelection(config).value;
              (r.state, r.created.value) == CreatePhonebook(State(engine, providerId, factory, None), sel.backendType, sel.config)
    ensures r.state.backend.Some? ==>
              var sel := StartupSelection(config).value;
              && r.state.backend.value.name == sel.backendType
              && Backend.CreatePhonebook(factory, sel.backendType, engine, sel.config) == Returned(r.state.backend)
  {
    var s := State(engine, providerId, factory, None);
    match StartupSelection(config)
    case None => Boot(s, None)
    case Some(sel) =>
      var (s', result) := CreatePhonebook(s, sel.backendType, sel.config);
      Boot(s', Some(result))
  }

  /** Startup with a type the factory does not know binds nothing and reports it. */
  lemma UnknownTypeStartup(engine: Engine, providerId: uint16, config: Text, factory: Factory)
    requires StartupSelection(config).Some?
    requires StartupSelection(config).value.backendType !in factory.createFn
    ensures var r := Startup(engine, providerId, config, factory);
            && r.state.backend.None?
            && r.created == Some(FailedResult(UnknownTypeMessage(StartupSelection(config).value.backendType)))
  {
  }

  /** Whether the sum RPC is defined behaviour with the current backend. */
  predicate RpcDefined(s: State, x: int32, y: int32) {
    s.backend.Some? ==> SumDefined(s.backend.value, x, y)
  }

  /** `computeSumRPC`: the Result sent back (exactly once, by `auto_respond`). */
  function ComputeSumRpc(s: State, x: int32, y: int32): (r: Result<int32>)
    requires RpcDefined(s, x, y)
    ensures s.backend.None? ==> !r.success && r.error == NoPhonebookMessage && r.value.None?
    ensures s.backend.Some? ==> r == BackendComputeSum(s.backend.value, x, y)
  {
    match s.backend
    case None => FailedResult(NoPhonebookMessage)
    case Some(p) => BackendComputeSum(p, x, y)
  }

  /**
   * `getConfig`: `{}` without a backend, otherwise the backend's name
   * and its parsed configuration. Parsing the backend's text throws when
   * that text is not JSON.
   */
  function GetConfig(s: State): (r: Outcome<Text>)
    ensures s.backend.None? ==> r == Returned(EmptyObjectText)
    ensures s.backend.Some? && Parse(BackendGetConfig(s.backend.value)).None? ==>
              r == Raised(ParseError(BackendGetConfig(s.backend.value).diagnostic))
    ensures r.Returned? <==> s.backend.None? || Parse(BackendGetConfig(s.backend.value)).Some?
    ensures r.Returned? && s.backend.Some? ==>
              StartupSelection(r.value) ==
                Some(Selection(s.backend.value.name, Parse(BackendGetConfig(s.backend.value)).value))
    ensures r.Returned? && s.backend.None? ==> StartupSelection(r.value).None?
    ensures r.Returned? && s.backend.Some? ==>
              && r.value.Doc? && r.value.doc.JObj? && r.value.doc.fields.Keys == {"phonebook"}
              && r.value.doc.fields["phonebook"].JObj?
              && r.value.doc.fields["phonebook"].fields.Keys == {"type", "config"}
  {
    match s.backend
    case None => Returned(Dump(EmptyObject))
    case Some(p) =>
      match Parse(BackendGetConfig(p))
      case None => Raised(ParseError(BackendGetConfig(p).diagnostic))
      case Some(c) => Returned(Dump(ConfigDocument(Selection(p.name, c))))
  }

  /** `~ProviderImpl`: the backends whose `destroy` is called, in order. */
  function Teardown(s: State): (calls: seq<Phonebook>)
    ensures |calls| == (if s.backend.Some? then 1 else 0)
    ensures forall i :: 0 <= i < |calls| ==> Some(calls[i]) == s.backend
  {
    match s.backend
    case None => []
    case Some(p) => [p]
  }

  /**
   * A provider tears down what its startup built: `destroy` runs once,
   * on the instance the factory created for the selected type and
   * config, exactly when startup succeeded, and not at all otherwise.
   */
  lemma TeardownAfterStartup(engine: Engine, providerId: uint16, config: Text, factory: Factory)
    ensures var boot := Startup(engine, providerId, config, factory);
            && (|Teardown(boot.state)| == 1 <==> boot.created.Some? && boot.created.value.success)
            && (|Teardown(boot.state)| == 1 ==>
                  var sel := StartupSelection(config).value;
                  Backend.CreatePhonebook(factory, sel.backendType, engine, sel.config) == Returned(Some(Teardown(boot.state)[0])))
  {
  }
}
