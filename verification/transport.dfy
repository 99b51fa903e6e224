/**
 * The parts of the Thallium transport the core passes around, as plain
 * values: an engine (identified by its own address), a resolved
 * endpoint, a provider handle (endpoint + provider id) and an issued
 * RPC request.
 */
module Transport {
  import opened Envelope

  datatype Engine = Engine(address: string)

  datatype Endpoint = Endpoint(address: string)

  /** `tl::provider_handle(endpoint, provider_id)` */
  datatype ProviderRef = ProviderRef(endpoint: Endpoint, providerId: uint16)

  /** Name under which both sides declare the sum RPC. */
  const ComputeSumRpcName: string := "YP_compute_sum"

  /** An RPC sent with `rpc.on(ph).async(x, y)`. */
  datatype Request = Request(rpc: string, target: ProviderRef, x: int32, y: int32)
}
