/**
 * The value types every other module shares: machine integers of the
 * wire format, an Option, the exceptions the C++ code can throw, and
 * the YP::Result envelope {success, error, value} that backend
 * operations return and RPC responses carry.
 */
module Envelope {

  /** `int32_t`: the argument and result type of the sum RPC. */
  newtype int32 = x: int | InInt32(x)

  /** `uint16_t`: a provider id. */
  newtype uint16 = x: int | 0 <= x < 0x1_0000

  predicate InInt32(x: int) {
    -0x8000_0000 <= x < 0x8000_0000
  }

  datatype Option<+T> = None | Some(value: T)

  /**
   * The exceptions that cross the modelled code. `ParseError` is
   * nlohmann's json::parse_error, carrying the parser's diagnostic.
   */
  datatype Exception =
    | YpError(what: string)         // YP::Exception
    | TransportError(what: string)  // thallium::exception
    | StdError(what: string)        // any other std::exception
    | ParseError(what: string)      // nlohmann::json::parse_error

  /** `ex.what()` */
  function What(e: Exception): string {
    match e
    case YpError(w) => w
    case TransportError(w) => w
    case StdError(w) => w
    case ParseError(w) => w
  }

  /** A C++ call either returns a value or throws. */
  datatype Outcome<+T> = Returned(value: T) | Raised(error: Exception)

  /**
   * YP::Result<T>. The value slot is None until an operation writes it,
   * which stands for the unspecified default-constructed value.
   */
  datatype Result<+T> = Result(success: bool, error: string, value: Option<T>)

  /** A default-constructed Result: successful, no error, no value. */
  function DefaultResult<T>(): (r: Result<T>)
    ensures r.success && r.error == "" && r.value.None?
  {
    Result(true, "", None)
  }

  /** A Result after `success() = false; error() = msg;`. */
  function FailedResult<T>(msg: string): (r: Result<T>)
    ensures !r.success && r.error == msg && r.value.None?
  {
    Result(false, msg, None)
  }
}
