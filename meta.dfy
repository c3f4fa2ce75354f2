/**
 Shared API types of the Kubernetes client: the watch-event tag union, the
 closed enumerations of a `Status` object, object metadata and the `isStatus`
 discriminator. String-literal unions of the source become datatypes; the
 literal each constructor stands for is given by a `...Name` function and
 recognised by a `Parse...` function.
 */
module Meta {

  datatype Option<+T> = None | Some(value: T)

  /** The tag of a watch event: exactly one of four literals. */
  datatype EventType = Added | Modified | Deleted | Error

  function EventTypeName(t: EventType): string
  {
    match t
    case Added => "ADDED"
    case Modified => "MODIFIED"
    case Deleted => "DELETED"
    case Error => "ERROR"
  }

  /** Recognises the wire literal of a watch-event tag; any other string is not a tag. */
  function ParseEventType(s: string): (r: Option<EventType>)
    ensures r.Some? ==> EventTypeName(r.value) == s
    ensures r.None? ==> forall t: EventType :: EventTypeName(t) != s
  {
    if s == "ADDED" then Some(Added)
    else if s == "MODIFIED" then Some(Modified)
    else if s == "DELETED" then Some(Deleted)
    else if s == "ERROR" then Some(Error)
    else None
  }

  /** A change notification carrying one object. */
  datatype WatchEvent<O> = WatchEvent(eventType: EventType, obj: O)

  /** The outcome field of a `Status`. */
  datatype StatusValue = Failure | Success

  function StatusValueName(v: StatusValue): string
  {
    match v
    case Failure => "Failure"
    case Success => "Success"
  }

  function ParseStatusValue(s: string): (r: Option<StatusValue>)
    ensures r.Some? ==> StatusValueName(r.value) == s
    ensures r.None? ==> forall v: StatusValue :: StatusValueName(v) != s
  {
    if s == "Failure" then Some(Failure)
    else if s == "Success" then Some(Success)
    else None
  }

  /** The machine-readable reason of a `Status`: eleven literals. */
  datatype StatusReason =
    | BadRequest
    | NotFound
    | Unauthorized
    | Forbidden
    | AlreadyExists
    | Conflict
    | Invalid
    | Timeout
    | ServerTimeout
    | MethodNotAllowed
    | InternalError

  function StatusReasonName(r: StatusReason): string
  {
    match r
    case BadRequest => "BadRequest"
    case NotFound => "NotFound"
    case Unauthorized => "Unauthorized"
    case Forbidden => "Forbidden"
    case AlreadyExists => "AlreadyExists"
    case Conflict => "Conflict"
    case Invalid => "Invalid"
    case Timeout => "Timeout"
    case ServerTimeout => "ServerTimeout"
    case MethodNotAllowed => "MethodNotAllowed"
    case InternalError => "InternalError"
  }

  function ParseStatusReason(s: string): (r: Option<StatusReason>)
    ensures r.Some? ==> StatusReasonName(r.value) == s
    ensures r.None? ==> forall x: StatusReason :: StatusReasonName(x) != s
  {
    if s == "BadRequest" then Some(BadRequest)
    else if s == "NotFound" then Some(NotFound)
    else if s == "Unauthorized" then Some(Unauthorized)
    else if s == "Forbidden" then Some(Forbidden)
    else if s == "AlreadyExists" then Some(AlreadyExists)
    else if s == "Conflict" then Some(Conflict)
    else if s == "Invalid" then Some(Invalid)
    else if s == "Timeout" then Some(Timeout)
    else if s == "ServerTimeout" then Some(ServerTimeout)
    else if s == "MethodNotAllowed" then Some(MethodNotAllowed)
    else if s == "InternalError" then Some(InternalError)
    else None
  }

  /** Every literal names one constructor and parses back to it. */
  lemma NamesRoundTrip(t: EventType, v: StatusValue, x: StatusReason)
    ensures ParseEventType(EventTypeName(t)) == Some(t)
    ensures ParseStatusValue(StatusValueName(v)) == Some(v)
    ensures ParseStatusReason(StatusReasonName(x)) == Some(x)
  {
  }

  /**
   The `Status` object returned by the API server on failures. Its `kind` and
   `apiVersion` are fixed by its type (`StatusKind`, `StatusApiVersion`);
   `details` is untyped and not kept.
   */
  datatype Status = Status(
    status: StatusValue,
    message: string,
    reason: StatusReason,
    code: int)

  /** The only `kind` a `Status` may carry. */
  const StatusKind: string := "Status"

  /** The only `apiVersion` a `Status` may carry. */
  const StatusApiVersion: string := "v1"

  /**
   A value handed to `isStatus`: `Undefined` or an object whose `kind`
   property is present (`Some`) or, at run time, missing (`None`).
   */
  datatype Kinded = Undefined | Object(kind: Option<string>)

  /**
   Discriminates a `Status` from any other API object by its `kind`: of all
   values, it accepts exactly an object whose kind is "Status".
   */
  function IsStatus(s: Kinded): (r: bool)
    ensures r <==> s == Object(Some(StatusKind))
  {
    s != Undefined && s.kind.Some? && s.kind.value == StatusKind
  }

  /** `isStatus` holds exactly for defined values whose kind is "Status". */
  lemma IsStatusCharacterised(s: Kinded)
    ensures IsStatus(s) <==> s.Object? && s.kind == Some("Status")
    ensures !IsStatus(Undefined)
    ensures !IsStatus(Object(None))
  {
  }

  /** Any other kind, "Pod" and the empty string among them, is not a Status. */
  lemma IsStatusRejectsOtherKinds(k: string)
    requires k != "Status"
    ensures !IsStatus(Object(Some(k)))
    ensures !IsStatus(Object(Some("Pod"))) && !IsStatus(Object(Some("")))
  {
  }

  /** The metadata fields that identify an object: `name` is required, `namespace` optional. */
  datatype ObjectMeta = ObjectMeta(name: string, namespace: Option<string>)

  /** An API object: its metadata and the rest of its fields, kept opaque. */
  datatype MetadataObject<B> = MetadataObject(metadata: ObjectMeta, rest: B)
}
