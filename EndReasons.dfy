/** Why a call ended: the SIP status code, the reason type looked up from it, a message, and
    the broader category of the reason type. The status codes are those of section 21 of
    RFC 3261, together with 607 (RFC 8197) and 608 (RFC 8688); 0 stands for a call cancelled
    locally before any response arrived. */
module EndReasons {
  import opened Wrappers
  import Text

  datatype ReasonType =
    | Ok | Busy | Unavailable | Declined | Rejected | Unwanted | Forbidden
    | ProxyAuthRequired | NotFound | MethodNotAllowed | NotAcceptableHere | RequestTimeout
    | RequestTerminated | CallDoesNotExist | RequestPending | ServiceUnavailable
    | InternalServerError | BadRequest | NotImplemented | ServerTimeout | BadGateway
    | RequestCancelled | Unauthorized | Unknown

  /** The Swift raw value of a reason type: the case name. */
  function ReasonRaw(t: ReasonType): string
  {
    match t
    case Ok => "ok"
    case Busy => "busy"
    case Unavailable => "unavailable"
    case Declined => "declined"
    case Rejected => "rejected"
    case Unwanted => "unwanted"
    case Forbidden => "forbidden"
    case ProxyAuthRequired => "proxyAuthRequired"
    case NotFound => "notFound"
    case MethodNotAllowed => "methodNotAllowed"
    case NotAcceptableHere => "notAcceptableHere"
    case RequestTimeout => "requestTimeout"
    case RequestTerminated => "requestTerminated"
    case CallDoesNotExist => "callDoesNotExist"
    case RequestPending => "requestPending"
    case ServiceUnavailable => "serviceUnavailable"
    case InternalServerError => "internalServerError"
    case BadRequest => "badRequest"
    case NotImplemented => "notImplemented"
    case ServerTimeout => "serverTimeout"
    case BadGateway => "badGateway"
    case RequestCancelled => "requestCancelled"
    case Unauthorized => "unauthorized"
    case Unknown => "unknown"
  }

  /** Sources/VoiceSDK/Public/CallEndCategory.swift. */
  datatype Category = Normal | BusyCategory | UnavailableCategory | ErrorCategory | Canceled | UnknownCategory

  function CategoryRaw(c: Category): string
  {
    match c
    case Normal => "normal"
    case BusyCategory => "busy"
    case UnavailableCategory => "unavailable"
    case ErrorCategory => "error"
    case Canceled => "canceled"
    case UnknownCategory => "unknown"
  }

  datatype CallEndReason = CallEndReason(code: int, reasonType: ReasonType, message: string)

  const UnmappedPrefix := "Unmapped SIP status: "

  /** The lookup table of `CallEndReason.from`: reason type and default message per code. */
  function Lookup(code: int): (ReasonType, string)
  {
    match code
    case 200 => (Ok, "Call completed successfully")
    case 486 => (Busy, "User is busy")
    case 600 => (Busy, "Busy everywhere")
    case 480 => (Unavailable, "User is temporarily unavailable")
    case 603 => (Declined, "Call was declined")
    case 608 => (Rejected, "Call was rejected")
    case 607 => (Unwanted, "Call was marked as unwanted")
    case 403 => (Forbidden, "Forbidden")
    case 407 => (ProxyAuthRequired, "Proxy authentication required")
    case 404 => (NotFound, "User not found")
    case 405 => (MethodNotAllowed, "Method not allowed")
    case 488 => (NotAcceptableHere, "Not acceptable here")
    case 408 => (RequestTimeout, "Request timeout")
    case 487 => (RequestTerminated, "Request was terminated")
    case 481 => (CallDoesNotExist, "Call transaction does not exist")
    case 491 => (RequestPending, "Request pending")
    case 503 => (ServiceUnavailable, "Service unavailable")
    case 500 => (InternalServerError, "Internal server error")
    case 400 => (BadRequest, "Bad request")
    case 501 => (NotImplemented, "Not implemented")
    case 504 => (ServerTimeout, "Server timeout")
    case 502 => (BadGateway, "Bad gateway")
    case 0 => (RequestCancelled, "Call cancelled before response")
    case 401 => (Unauthorized, "Unauthorized")
    case _ => (Unknown, UnmappedPrefix + Text.IntToString(code))
  }

  /** `CallEndReason.from(code:_:)`: total in the code, which it keeps; a message override
      replaces the table's message only when it is present and non-empty. */
  function From(code: int, messageOverride: Option<string>): (r: CallEndReason)
    ensures r.code == code
    ensures messageOverride.Some? && messageOverride.value != [] ==> r.message == messageOverride.value
    ensures (messageOverride.None? || messageOverride.value == []) ==> r.message == Lookup(code).1
  {
    var (t, defaultMessage) := Lookup(code);
    CallEndReason(code, t,
      if messageOverride.Some? && messageOverride.value != [] then messageOverride.value else defaultMessage)
  }

  /** `ReasonType.category`. */
  function CategoryOf(t: ReasonType): Category
  {
    match t
    case Ok => Normal
    case Busy => BusyCategory
    case Unavailable => UnavailableCategory
    case Declined | Rejected | Unwanted => Normal
    case Unauthorized | Forbidden | ProxyAuthRequired | MethodNotAllowed | NotAcceptableHere
      | RequestPending | ServiceUnavailable | InternalServerError | BadRequest
      | NotImplemented | ServerTimeout | BadGateway => ErrorCategory
    case NotFound => Canceled
    case RequestTimeout | RequestTerminated | CallDoesNotExist | RequestCancelled => Canceled
    case Unknown => UnknownCategory
  }

  /** `CallEndReason.category`: the category of the reason's type. */
  function ReasonCategory(r: CallEndReason): Category
  {
    CategoryOf(r.reasonType)
  }

  // ----- an independent statement of the table, by reason type -----

  /** The codes the table maps to each reason type. */
  function CodesOf(t: ReasonType): set<int>
  {
    match t
    case Ok => {200}
    case Busy => {486, 600}
    case Unavailable => {480}
    case Declined => {603}
    case Rejected => {608}
    case Unwanted => {607}
    case Forbidden => {403}
    case ProxyAuthRequired => {407}
    case NotFound => {404}
    case MethodNotAllowed => {405}
    case NotAcceptableHere => {488}
    case RequestTimeout => {408}
    case RequestTerminated => {487}
    case CallDoesNotExist => {481}
    case RequestPending => {491}
    case ServiceUnavailable => {503}
    case InternalServerError => {500}
    case BadRequest => {400}
    case NotImplemented => {501}
    case ServerTimeout => {504}
    case BadGateway => {502}
    case RequestCancelled => {0}
    case Unauthorized => {401}
    case Unknown => {}
  }

  const MappedCodes: set<int> :=
    {200, 486, 600, 480, 603, 608, 607, 403, 407, 404, 405, 488, 408, 487, 481, 491, 503,
     500, 400, 501, 504, 502, 0, 401}

  /** A code with a known reason type is one of that type's codes. */
  lemma CodeAmongItsTypeCodes(code: int, messageOverride: Option<string>)
    ensures var t := From(code, messageOverride).reasonType;
      t != Unknown ==> code in CodesOf(t)
  {
  }

  /** Each of a type's codes gets that type. */
  lemma CodesOfGiveType(code: int, messageOverride: Option<string>, t: ReasonType)
    requires code in CodesOf(t)
    ensures From(code, messageOverride).reasonType == t
  {
  }

  /** A code gets a known reason type exactly when it is one of that type's codes. */
  lemma FromMatchesCodesOf(code: int, messageOverride: Option<string>, t: ReasonType)
    requires t != Unknown
    ensures From(code, messageOverride).reasonType == t <==> code in CodesOf(t)
  {
    CodeAmongItsTypeCodes(code, messageOverride);
    if code in CodesOf(t) {
      CodesOfGiveType(code, messageOverride, t);
    }
  }

  /** Any code outside the table is `unknown`, and its default message names the code. */
  lemma UnmappedCode(code: int)
    requires code !in MappedCodes
    ensures From(code, None).reasonType == Unknown
    ensures From(code, None).message == UnmappedPrefix + Text.IntToString(code)
    ensures ReasonCategory(From(code, None)) == UnknownCategory
  {
  }

  /** The code of an unmapped status can be read back from the message. */
  lemma UnmappedMessageNamesCode(code: int)
    requires code !in MappedCodes
    ensures var m := From(code, None).message;
      Text.StartsWith(m, UnmappedPrefix) && Text.ParseInt(m[|UnmappedPrefix|..]) == code
  {
    var m := From(code, None).message;
    assert m == UnmappedPrefix + Text.IntToString(code);
    assert m[|UnmappedPrefix|..] == Text.IntToString(code);
    Text.IntToStringRoundTrip(code);
  }

  /** Only codes in the table get a type other than `unknown`. */
  lemma UnknownExactlyOutsideTable(code: int, messageOverride: Option<string>)
    ensures From(code, messageOverride).reasonType == Unknown <==> code !in MappedCodes
  {
  }

  /** The override changes the message only; the type and the category come from the code. */
  lemma OverrideOnlyChangesMessage(code: int, o1: Option<string>, o2: Option<string>)
    ensures From(code, o1).code == From(code, o2).code
    ensures From(code, o1).reasonType == From(code, o2).reasonType
    ensures ReasonCategory(From(code, o1)) == ReasonCategory(From(code, o2))
  {
  }

  /** The codes singled out by the SDK's documentation. */
  lemma NotableCodes(o: Option<string>)
    ensures From(486, o).reasonType == Busy && From(600, o).reasonType == Busy
    ensures ReasonCategory(From(486, o)) == BusyCategory && ReasonCategory(From(600, o)) == BusyCategory
    ensures From(0, o).reasonType == RequestCancelled && ReasonCategory(From(0, o)) == Canceled
    ensures From(401, o).reasonType == Unauthorized && From(200, o).reasonType == Ok
    ensures ReasonCategory(From(200, o)) == Normal
  {
  }

  /** The categories the mapping groups reason types into. */
  lemma CategoryGroups(t: ReasonType)
    ensures t in {Declined, Rejected, Unwanted, Ok} <==> CategoryOf(t) == Normal
    ensures t in {NotFound, RequestTimeout, RequestTerminated, CallDoesNotExist, RequestCancelled}
      <==> CategoryOf(t) == Canceled
    ensures t == Busy <==> CategoryOf(t) == BusyCategory
    ensures t == Unavailable <==> CategoryOf(t) == UnavailableCategory
    ensures t == Unknown <==> CategoryOf(t) == UnknownCategory
    ensures t in {Unauthorized, Forbidden, ProxyAuthRequired, MethodNotAllowed, NotAcceptableHere,
                  RequestPending, ServiceUnavailable, InternalServerError, BadRequest,
                  NotImplemented, ServerTimeout, BadGateway}
      <==> CategoryOf(t) == ErrorCategory
  {
  }

  /** Distinct reason types have distinct raw values. */
  lemma ReasonRawInjective(s: ReasonType, t: ReasonType)
    requires ReasonRaw(s) == ReasonRaw(t)
    ensures s == t
  {
  }
}
