/**
 * Client: builds PhonebookHandles. The engine's address lookup and the
 * remote identity query are transport calls; they are parameters here,
 * each answering with a value or an exception.
 */
module ClientOps {
  import opened Envelope
  import opened Json
  import opened Transport
  import opened Handles
  import ProviderImpl

  /** The identity a target must report when the check is on. */
  const ExpectedIdentity: string := "YP"

  const NotAProviderMessage: string := "Address and provider ID do not point to a YP provider"

  /** `Client::operator bool` */
  function IsValid(c: Client): (b: bool)
    ensures b <==> c.self.Some?
  {
    c.self.Some?
  }

  /** `Client::getConfig` */
  function GetConfig(c: Client): (t: Text)
    ensures Parse(t) == Some(EmptyObject)
  {
    Dump(EmptyObject)
  }

  /**
   * The identity check of `makePhonebookHandle`: any exception, or any
   * identity but "YP", becomes a YP::Exception carrying the message of
   * what went wrong.
   */
  function CheckIdentity(identity: Outcome<string>): (r: Option<Exception>)
    ensures r.None? <==> identity == Returned(ExpectedIdentity)
    ensures r.Some? ==> r.value.YpError?
    ensures identity.Raised? ==> r == Some(YpError(What(identity.error)))
    ensures identity.Returned? && identity.value != ExpectedIdentity ==> r == Some(YpError(NotAProviderMessage))
  {
    match identity
    case Raised(e) => Some(YpError(What(e)))
    case Returned(id) => if id != ExpectedIdentity then Some(YpError(NotAProviderMessage)) else None
  }

  /**
   * `Client::makePhonebookHandle(address, provider_id, check)`. The
   * client must be valid: the C++ code dereferences it. A failed lookup
   * propagates its exception unchanged; the identity is queried only
   * when `check` is on.
   */
  function MakePhonebookHandle(c: Client, address: string, providerId: uint16, check: bool,
                               lookup: string -> Outcome<Endpoint>,
                               identity: ProviderRef -> Outcome<string>): (r: Outcome<PhonebookHandle>)
    requires IsValid(c)
    ensures lookup(address).Raised? ==> r == Raised(lookup(address).error)
    ensures r.Returned? <==>
              && lookup(address).Returned?
              && (check ==> identity(ProviderRef(lookup(address).value, providerId)) == Returned(ExpectedIdentity))
    ensures r.Returned? ==>
              r.value == PhonebookHandle(Some(HandleImpl(c.self.value, ProviderRef(lookup(address).value, providerId))))
    ensures r.Raised? && lookup(address).Returned? ==>
              && check && r.error.YpError?
              && r == Raised(CheckIdentity(identity(ProviderRef(lookup(address).value, providerId))).value)
  {
    match lookup(address)
    case Raised(e) => Raised(e)
    case Returned(endpoint) =>
      var ph := ProviderRef(endpoint, providerId);
      var handle := PhonebookHandle(Some(HandleImpl(c.self.value, ph)));
      if !check then Returned(handle)
      else
        match CheckIdentity(identity(ph))
        case Some(e) => Raised(e)
        case None => Returned(handle)
  }

  /** With the check off, the identity is never consulted. */
  lemma UncheckedIgnoresIdentity(c: Client, address: string, providerId: uint16,
                                 lookup: string -> Outcome<Endpoint>,
                                 identity1: ProviderRef -> Outcome<string>,
                                 identity2: ProviderRef -> Outcome<string>)
    requires IsValid(c)
    ensures MakePhonebookHandle(c, address, providerId, false, lookup, identity1)
         == MakePhonebookHandle(c, address, providerId, false, lookup, identity2)
  {
  }

  /** The identity the client expects is the one every provider registers with. */
  lemma ExpectsProviderIdentity()
    ensures ExpectedIdentity == ProviderImpl.Identity
  {
  }
}
