# YP phonebook: a Dafny model of the provider, registry and client core

YP is a remote-call skeleton built on Thallium. A **provider** is bound to an
engine address and a numeric provider id. It owns at most one **backend**
("phonebook"), which it picks by name from a process-wide **factory**. The
factory has two maps, `create_fn` and `open_fn`, that go from a backend name
to a constructor. A **client** builds a **handle** to a remote provider, and
the handle issues the single operation, `computeSum(x, y)`. A backend's
`computeSum` and `destroy` answer with a `YP::Result` envelope
`{success, error, value}`, which the sum RPC carries back to the caller.

This project models that core as immutable datatypes and pure functions,
and proves the properties the code and its tests rely on:

- `envelope.dfy` (`Envelope`): `int32`/`uint16`, `Option`, and C++
  exceptions as `Outcome = Returned | Raised`. It also holds the
  `YP::Result` envelope. A default-constructed Result is successful with no
  value. This follows from the dummy backend never setting `success` while
  the phonebook test expects its sum to arrive.
- `json.dfy` (`Json`): JSON values. Text is abstracted as "the dump of a
  value" or "malformed", so `parse` is partial and `parse(dump(j)) == j`.
- `transport.dfy` (`Transport`): engine, endpoint, provider handle and RPC
  request, as plain values.
- `dummy_backend.dfy` (`DummyBackend`): the `DummyPhonebook` backend.
- `phonebook_interface.dfy` (`PhonebookInterface`): the backend interface.
  A backend is a tagged variant: the dummy, or a `Foreign` backend known
  only by its answers. This file also has the factory maps and
  `__YpBackendRegistration`.
- `backend.dfy` (`Backend`): `PhonebookFactory::createPhonebook` and
  `openPhonebook`.
- `dummy_registration.dfy` (`DummyRegistration`):
  `YP_REGISTER_BACKEND(dummy, DummyPhonebook)` and the resulting
  process-wide registry.
- `provider_impl.dfy` (`ProviderImpl`): startup parsing, `createPhonebook`,
  the sum RPC handler, `getConfig` and teardown.
- `provider.dfy` (`Provider`): the `Provider` owner object and the engine's
  finalize callbacks. It is a state machine over the live objects, the
  registered callback owners, and the implementations torn down so far.
- `handles.dfy`, `client.dfy`, `phonebook_handle.dfy` (`Handles`,
  `ClientOps`, `HandleOps`): the client, handle creation with the identity
  check, and the handle's guarded sum call.
- `end_to_end.dfy` (`EndToEnd`): the repository's two tests, the
  configuration round trip, and unknown-type startup.

Notes on the code's behaviour:

- Registering a name twice silently overwrites both entries. It is not
  rejected.
- The identity-mismatch message is
  "Address and provider ID do not point to a YP provider".
- Startup ends with the Result of `createPhonebook`. The code then calls
  `Result::check()`, whose definition is not part of this model. A
  Provider is therefore constructed only from a startup that selected
  nothing or whose `createPhonebook` succeeded (`Provider.StartupCompletes`).
- When a backend constructor throws, `createPhonebook` leaves the backend
  pointer as it was. It does not reset it.

## Model

| member | source | states |
|---|---|---|
| DummyBackend.GetConfig | src/dummy/DummyBackend.cpp:17-19 | parsing the returned text gives back exactly the configuration the dummy holds |
| DummyBackend.ComputeSum | src/dummy/DummyBackend.cpp:21-25 | for a sum within int32, the result is successful with no error and its value is x + y |
| DummyBackend.Destroy | src/dummy/DummyBackend.cpp:27-32 | teardown reports success with value `true` |
| DummyBackend.Create | src/dummy/DummyBackend.cpp:34-37 | the created dummy echoes exactly the given configuration |
| DummyBackend.Open | src/dummy/DummyBackend.cpp:39-42 | the opened dummy echoes exactly the given configuration |
| DummyBackend.EngineIrrelevant | src/dummy/DummyBackend.cpp:34-42 | create and open, with any engines, build dummies that answer getConfig, computeSum and destroy identically |
| PhonebookInterface.Invoke | include/YP/PhonebookInterface.hpp:175-184 | a registered lambda returns iff the backend constructor returns; the instance has the constructor's implementation and the captured name as `name()`; an exception passes through unchanged |
| PhonebookInterface.Register | include/YP/PhonebookInterface.hpp:173-185 | after registering N, both maps have an entry for N holding the type's create and open; the key sets grow by exactly N; every other entry is unchanged |
| PhonebookInterface.RegisterOverwrites | include/YP/PhonebookInterface.hpp:175-184 | registering N twice gives the same factory as registering only the second type |
| PhonebookInterface.RegisterAll | include/YP/PhonebookInterface.hpp:163-164 | after a sequence of static registrations, both maps' keys are the old keys plus exactly the registered names |
| PhonebookInterface.RegisterAllLastWins | include/YP/PhonebookInterface.hpp:173-185 | after a sequence of registrations, a name's entries in both maps come from its last registration |
| PhonebookInterface.RegisterAllKeeps | include/YP/PhonebookInterface.hpp:173-185 | registrations of other names leave an existing entry untouched |
| Backend.CreatePhonebook | src/Backend.cpp:20-28 | an absent name gives null; a present name gives the stored create entry's instance (tagged with the name) or rethrows its exception, never null |
| Backend.OpenPhonebook | src/Backend.cpp:30-38 | the same contract as createPhonebook, over `open_fn` and the stored open entry |
| Backend.EntryPointsIndependent | src/Backend.cpp:20-38 | createPhonebook depends only on `create_fn`, and openPhonebook only on `open_fn` |
| Backend.OneSidedName | src/Backend.cpp:24-25 | a name present in only one map gives null through the other entry point |
| Backend.RegisteredInstancesTagged | include/YP/PhonebookInterface.hpp:175-184 | after registering a type under N, create and open of N return that type's instance renamed to N, or rethrow its exception |
| DummyRegistration.StaticRegistryLookups | src/dummy/DummyBackend.cpp:9 | in the process-wide registry, "dummy" creates and opens a dummy named "dummy" holding the given configuration; every other name gives null |
| DummyRegistration.DummyInstanceBehaviour | src/dummy/DummyBackend.cpp:17-32 | through the backend interface, the registered dummy echoes its configuration, adds correctly, and destroys with success and value `true` |
| ProviderImpl.StartupSelection | src/ProviderImpl.hpp:64-77 | a selection is made iff the text parses to an object whose `phonebook` is an object with a string `type`; it carries that type and `phonebook.config`, or `{}` when config is missing |
| ProviderImpl.PhonebookNotObject | src/ProviderImpl.hpp:73-74 | a `phonebook` member that is not an object selects nothing |
| ProviderImpl.NoStringType | src/ProviderImpl.hpp:75 | a `phonebook` object without a string `type` selects nothing |
| ProviderImpl.MissingConfigIsEmpty | src/ProviderImpl.hpp:77 | a missing `phonebook.config` reaches the factory as the empty object |
| ProviderImpl.SelectionRoundTrip | src/ProviderImpl.hpp:90-100 | the document getConfig writes for a type and config is read back by startup as that same type and config |
| ProviderImpl.CreatePhonebook | src/ProviderImpl.hpp:102-126 | success iff the factory returned an instance, which becomes the backend and carries the type as its name; an unknown type clears the backend and fails with "Unknown phonebook type " + type; an exception keeps the backend and fails with its message |
| ProviderImpl.Startup | src/ProviderImpl.hpp:57-81 | no selection means no backend and no creation attempt; otherwise the state and Result are exactly those of `createPhonebook` on the selected type and config; a backend is bound iff creation succeeded, and it is what the factory built |
| ProviderImpl.UnknownTypeStartup | src/ProviderImpl.hpp:117-122 | startup with a type the factory lacks ends with no backend and the "Unknown phonebook type" failure |
| ProviderImpl.ComputeSumRpc | src/ProviderImpl.hpp:128-140 | with no backend the response fails with "Provider has no phonebook attached" and no value; with a backend it is the backend's Result unchanged |
| ProviderImpl.GetConfig | src/ProviderImpl.hpp:90-100 | with no backend the output is `{}`, which startup rejects; the call returns iff there is no backend or the backend's config parses, and otherwise throws the parser's error; a returned document is exactly `{"phonebook": {"type": name, "config": parsed config}}`, which startup reads back as the backend's name and parsed config |
| ProviderImpl.Teardown | src/ProviderImpl.hpp:83-88 | destroy is called exactly once, on the bound backend, if there is one, and not at all otherwise |
| ProviderImpl.TeardownAfterStartup | src/ProviderImpl.hpp:57-88 | a started provider's teardown calls destroy once iff startup succeeded, and then on the very instance the factory built for the selected type and config |
| Provider.Construct | src/Provider.cpp:16-19 | for a startup that completes, the new object owns a fresh implementation started from the given configuration; exactly one callback keyed by it is pushed; no other object or implementation changes and nothing is torn down |
| Provider.MoveConstruct | src/Provider.cpp:21-25 | the destination takes the source's implementation; the source is left null; the source's callback is popped and one keyed by the destination is pushed; no other object changes |
| Provider.Destruct | src/Provider.cpp:27-31 | the object goes away and no other object changes; a null object pops nothing and tears nothing down; an owning object pops its callback and its implementation is torn down once |
| Provider.Finalize | src/Provider.cpp:16-25 | finalizing an engine resets `self` in exactly the objects whose callback is registered on that engine and pops those callbacks; every other object and callback is unchanged; the released implementations are torn down |
| Provider.EngagedIsOnEngine | src/Provider.cpp:18-24 | with one callback per owner, an engine runs the callbacks of exactly the objects whose implementation lives on it |
| Provider.ReleasedOnEngine | src/Provider.cpp:18-24 | finalizing an engine releases exactly the owned implementations that run on it |
| Provider.FinalizeOwned | src/Provider.cpp:18 | finalization removes exactly the released implementations from the owned ones |
| Provider.IsValid | src/Provider.cpp:37-39 | true iff the object owns an implementation |
| Provider.GetConfig | src/Provider.cpp:33-35 | `{}` when the object is null, otherwise the implementation's getConfig |
| Provider.ConstructPreserves | src/Provider.cpp:16-19 | construction keeps the bookkeeping invariant and leaves the new object valid with exactly one callback |
| Provider.MovePreserves | src/Provider.cpp:21-25 | a move keeps the invariant; the source ends invalid with no callback and the destination valid with one; the callback count is unchanged; the destination reports the source's former config |
| Provider.DestructPreserves | src/Provider.cpp:27-31 | destruction keeps the bookkeeping invariant |
| Provider.FinalizePreserves | src/Provider.cpp:16-25 | finalizing an engine keeps the invariant; an object is valid afterwards iff it was valid and its implementation is on another engine; objects on other engines keep what they own |
| Provider.RunPreserves | src/Provider.cpp:16-31 | every sequence of constructions, moves, destructions and finalizations keeps the bookkeeping invariant |
| Provider.TeardownExactlyOnce | src/Provider.cpp:16-31 | starting from no objects, no implementation is ever torn down twice; after an engine finalizes, every implementation ever constructed on it has been torn down exactly once, and those on other engines are untouched |
| Provider.BackendDestroyedOnce | src/ProviderImpl.hpp:83-88 | however Provider objects are moved and destroyed, an implementation's bound backend has `destroy` called at most once, and exactly once after its engine finalizes |
| ClientOps.IsValid | src/Client.cpp:46-48 | a client is truthy iff it holds an implementation |
| ClientOps.GetConfig | src/Client.cpp:68-70 | a client's configuration is always the empty object |
| ClientOps.CheckIdentity | src/Client.cpp:57-63 | the check passes iff the target answers "YP"; any other answer, or any exception, becomes a YP::Exception with the mismatch message or with the exception's own message |
| ClientOps.MakePhonebookHandle | src/Client.cpp:50-66 | a lookup failure propagates unchanged; a handle is returned iff the lookup succeeds and, when `check` is on, the target answers "YP"; the handle is bound to this client's implementation and the given provider id; a failed check throws exactly the YP::Exception the identity check builds |
| ClientOps.UncheckedIgnoresIdentity | src/Client.cpp:56 | with `check` off, the outcome does not depend on the identity query |
| ClientOps.ExpectsProviderIdentity | src/Client.cpp:58 | the identity the client demands is the one ProviderImpl registers with |
| HandleOps.IsValid | src/PhonebookHandle.cpp:33-35 | a handle is truthy iff it holds an implementation |
| HandleOps.ClientOf | src/PhonebookHandle.cpp:37-39 | `client()` wraps the handle's stored client implementation |
| HandleOps.ComputeSum | src/PhonebookHandle.cpp:41-49 | an invalid handle throws "Invalid YP::PhonebookHandle object"; a valid one issues the sum RPC with exactly (x, y) to its bound provider handle and returns a Future for it |
| HandleOps.DefaultHandleInvalid | src/PhonebookHandle.cpp:18 | a default handle is invalid, and calling computeSum on it throws before any request exists |
| EndToEnd.DummyTypeBinds | tests/ClientTest.cpp:18-27 | a configuration selecting type "dummy" binds a dummy named "dummy" holding the selected config, and creation reports success |
| EndToEnd.OtherTypeFails | src/ProviderImpl.hpp:117-135 | with the process-wide registry, any other type ends with no backend and the unknown-type failure, so the Provider constructor is not known to complete; the state it leaves fails every sum with the no-phonebook message |
| EndToEnd.ProviderConfigRoundTrip | src/ProviderImpl.hpp:90-100 | starting a fresh provider from a bound provider's exported configuration binds a backend of the same name and config, which exports the same configuration again |
| EndToEnd.ClientTest | tests/ClientTest.cpp:13-40 | the provider at id 42 gets a backend and its construction completes; when the identity query answers "YP" exactly for the provider started at 42, a checked handle to id 42 is valid, a checked handle to id 55 throws a YP::Exception, and an unchecked one to 55 is returned |
| EndToEnd.SumThroughHandle | src/PhonebookHandle.cpp:41-49 | a sum issued through a checked handle reaches the dummy-backed provider and comes back successful with x + y |
| EndToEnd.PhonebookTest | tests/PhonebookTest.cpp:12-37 | computeSum(42, 51) through the handle comes back as the successful Result with value 93 |

## Left out

- Thallium transport: address lookup, `provider_handle`, RPC definition,
  `async`, the `auto_respond` transmission and the engine itself. Lookup and
  the remote identity query are function parameters. An issued RPC is a
  `Request` value, and the provider's answer to it is `EndToEnd.Deliver`.
- The identity query is answered by Thallium. `EndToEnd.TestTransport`
  requires that it answers "YP" exactly for the provider the tests start.
- nlohmann's text format, and the diagnostic text of `json::parse_error`.
  JSON text is either the dump of a value or malformed, and numbers are
  unbounded integers.
- `Result::check()` after startup, and `Future::wait()`. Result.hpp and
  Future.hpp are not part of this model. The end-to-end lemmas stop at the
  Result the provider sends back.
- Logging (spdlog and the per-provider logging helpers).
- src/BedrockModule.cpp: host-runtime glue that only forwards to Provider.
- Concurrency of RPC handlers on the pool. Every operation here is
  sequential.
- DummyBackend.ComputeSum: requires the sum to fit in int32. Signed
  overflow is undefined in C++, so wrap-around is not modelled.
- `PhonebookInterface::name()`: it is the `name` field of `Phonebook`.
  Reading it cannot change the instance, so it has no member of its own.
- Copying a Client or a PhonebookHandle shares the pointer. With value
  semantics a copy is the same value, so validity and target are preserved
  trivially.
- A backend constructor that returns a null pointer cannot be expressed.
  The registration lambda would dereference it, so a `Ctor` either returns
  an instance or throws.
- Provider.MoveConstruct requires a source that still owns its
  implementation, because the C++ code dereferences it without a check.
  ClientOps.MakePhonebookHandle and HandleOps.ClientOf likewise require a
  valid object.
- DummyRegistration.StaticRegistry: registration starts from empty maps,
  so it assumes the maps of src/Backend.cpp:14-18 are constructed before
  the static registration of src/dummy/DummyBackend.cpp:9 runs. C++
  leaves that order unspecified across translation units.
- Provider.Construct: requires a startup that selected nothing or whose
  `createPhonebook` succeeded. Otherwise the constructor reaches
  `Result::check()`, which is not part of this model, so a Provider built
  after a failed start is not represented.
- EndToEnd.OtherTypeFails: the failing sums describe the state the
  ProviderImpl constructor leaves. Whether a Provider survives that failed
  start depends on `Result::check()`, which is not part of this model.
- Exceptions that do not derive from `std::exception` escape
  `createPhonebook`'s handler in C++. The model assumes every exception a
  backend constructor throws is a `std::exception`.
- The Client constructors (from an engine or a margo instance) and
  `Client::engine()` only wrap the transport.
