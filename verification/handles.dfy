/**
 * The caller-side objects. A Client and a PhonebookHandle are each a
 * possibly-null shared pointer to an implementation: ClientImpl holds
 * the engine, PhonebookHandleImpl holds the client implementation and
 * the provider handle it was bound to. Copies share the pointer, so a
 * copy is the same value here.
 */
module Handles {
  import opened Envelope
  import opened Transport

  datatype ClientImpl = ClientImpl(engine: Engine)

  datatype Client = Client(self: Option<ClientImpl>)

  datatype HandleImpl = HandleImpl(client: ClientImpl, ph: ProviderRef)

  datatype PhonebookHandle = PhonebookHandle(self: Option<HandleImpl>)

  /** A pending response: what `Future<int32_t>` wraps. */
  datatype Future = Future(pending: Request)
}
