/**
 * PhonebookHandle: a reference to one remote provider. Calling the sum
 * operation on a valid handle issues the RPC and returns at once with a
 * Future for the response; on an invalid handle it throws instead, and
 * nothing is sent.
 */
module HandleOps {
  import opened Envelope
  import opened Transport
  import opened Handles

  const InvalidHandleMessage: string := "Invalid YP::PhonebookHandle object"

  /** `PhonebookHandle::PhonebookHandle()` */
  const DefaultHandle: PhonebookHandle := PhonebookHandle(None)

  /** `PhonebookHandle::operator bool` */
  function IsValid(h: PhonebookHandle): (b: bool)
    ensures b <==> h.self.Some?
  {
    h.self.Some?
  }

  /** `PhonebookHandle::client()`: dereferences the handle, so it must be valid. */
  function ClientOf(h: PhonebookHandle): (c: Client)
    requires IsValid(h)
    ensures c.self == Some(h.self.value.client)
  {
    Client(Some(h.self.value.client))
  }

  /** `PhonebookHandle::computeSum(x, y)` */
  function ComputeSum(h: PhonebookHandle, x: int32, y: int32): (r: Outcome<Future>)
    ensures !IsValid(h) ==> r == Raised(YpError(InvalidHandleMessage))
    ensures IsValid(h) ==> r.Returned?
    ensures r.Returned? ==> r.value.pending == Request(ComputeSumRpcName, h.self.value.ph, x, y)
  {
    match h.self
    case None => Raised(YpError(InvalidHandleMessage))
    case Some(impl) => Returned(Future(Request(ComputeSumRpcName, impl.ph, x, y)))
  }

  /** A default handle is invalid, and calling it throws instead of issuing a request. */
  lemma DefaultHandleInvalid(x: int32, y: int32)
    ensures !IsValid(DefaultHandle)
    ensures ComputeSum(DefaultHandle, x, y) == Raised(YpError(InvalidHandleMessage))
  {
  }
}
