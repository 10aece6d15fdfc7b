/** The client's error taxonomy: what went wrong, the text each error describes itself with,
    and which errors wrap an underlying one. */
module Errors {
  import opened Wrappers
  import opened Schema
  import Rep

  /** A `serde_json::Error`: the body was not JSON text at all, or JSON of the wrong shape. */
  datatype SerdeError = Syntax | Shape(error: DecodeError)

  /** A `hyper::Error`, known here only by the text it describes itself with. */
  datatype HttpError = HttpError(description: string)

  /** The kinds of `io::Error` the model tells apart. */
  datatype IoErrorKind = NotFound | OtherIo

  /** An `io::Error`: its kind and the text it describes itself with. */
  datatype IoError = IoError(kind: IoErrorKind, description: string)

  datatype Error =
    | Codec(serde: SerdeError)
    | Http(http: HttpError)
    | IO(io: IoError)
    | Parse(message: string)
    | Fault(code: nat, error: Rep.ClientError)

  /** The underlying error that `cause` returns. */
  datatype Cause = SerdeCause(serde: SerdeError) | HttpCause(http: HttpError) | IoCause(io: IoError)

  /** The text `serde_json` describes its errors with: the message a derived deserializer
      reports, or a generic one for a syntax error. */
  function SerdeDescription(e: SerdeError): string {
    match e
    case Syntax => "JSON error"
    case Shape(MissingField(f)) => "missing field `" + f + "`"
    case Shape(DuplicateField(f)) => "duplicate field `" + f + "`"
    case Shape(UnknownVariant(t)) => "unknown variant `" + t + "`"
    case Shape(InvalidType) => "invalid type"
    case Shape(InvalidValue) => "invalid value"
    case Shape(NoVariantMatches(n)) => "data did not match any variant of untagged enum " + n
  }

  function CauseDescription(c: Cause): string {
    match c
    case SerdeCause(e) => SerdeDescription(e)
    case HttpCause(e) => e.description
    case IoCause(e) => e.description
  }

  /** `description`: a wrapped error describes itself as its cause does, a parse error by its
      message and a fault by the message GitHub sent. */
  function Description(e: Error): (s: string)
    ensures e.Parse? ==> s == e.message
    ensures e.Fault? ==> s == e.error.message
  {
    match e
    case Codec(c) => SerdeDescription(c)
    case Http(h) => h.description
    case IO(i) => i.description
    case Parse(m) => m
    case Fault(_, error) => error.message
  }

  /** `cause`: the wrapped error of a codec, transport or I/O failure; parse errors and faults
      have none. */
  function CauseOf(e: Error): (r: Option<Cause>)
    ensures r.Some? <==> e.Codec? || e.Http? || e.IO?
    ensures r.Some? ==> CauseDescription(r.value) == Description(e)
  {
    match e
    case Codec(c) => Some(SerdeCause(c))
    case Http(h) => Some(HttpCause(h))
    case IO(i) => Some(IoCause(i))
    case _ => None
  }

  /** `From<SerdeError>`. */
  function FromSerde(e: SerdeError): (r: Error)
    ensures r.Codec? && CauseOf(r) == Some(SerdeCause(e))
  {
    Codec(e)
  }

  /** `From<HttpError>`. */
  function FromHttp(e: HttpError): (r: Error)
    ensures r.Http? && CauseOf(r) == Some(HttpCause(e))
  {
    Http(e)
  }

  /** `From<IoError>`. */
  function FromIo(e: IoError): (r: Error)
    ensures r.IO? && CauseOf(r) == Some(IoCause(e))
  {
    IO(e)
  }

  /** The conversion that matches each kind of underlying error; `cause` gives the wrapped
      error back, so no two underlying errors convert to the same error. */
  function FromCause(c: Cause): (r: Error)
    ensures CauseOf(r) == Some(c)
  {
    match c
    case SerdeCause(e) => FromSerde(e)
    case HttpCause(e) => FromHttp(e)
    case IoCause(e) => FromIo(e)
  }
}
