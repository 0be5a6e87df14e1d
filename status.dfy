/** The status policy of the executor: which statuses hand the response back
    to the caller, and which error (and retriable marker) every other status
    turns into. */
module Status {
  import opened Common
  import opened HttpErrors

  const StatusOK := 200
  const StatusCreated := 201
  const StatusAccepted := 202
  const StatusNoContent := 204
  const StatusBadRequest := 400
  const StatusUnauthorized := 401
  const StatusForbidden := 403
  const StatusNotFound := 404
  const StatusUnprocessableEntity := 422
  const StatusTooManyRequests := 429
  const StatusInternalServerError := 500
  const StatusBadGateway := 502
  const StatusServiceUnavailable := 503
  const StatusGatewayTimeout := 504

  /** The statuses whose response is returned to the caller unread. */
  predicate IsSuccess(status: int): (ok: bool)
    ensures ok ==> 200 <= status < 300
    ensures ok ==> status !in MappedStatuses
  {
    status in {StatusOK, StatusCreated, StatusAccepted, StatusNoContent}
  }

  /** The status table read from the other side: the statuses each mapped
      kind stands for. Unhandled stands for no listed status. */
  function StatusesOf(k: Kind): (statuses: set<int>)
  {
    match k
    case BadRequest => {400}
    case UserAccessDenied => {401, 403}
    case NotFound => {404}
    case UnprocessableEntity => {422}
    case TooManyRequests => {429}
    case InternalServerError => {500}
    case BadGateway => {502}
    case ServiceUnavailable => {503}
    case GatewayTimeout => {504}
    case Unhandled(_, _) => {}
  }

  const MappedStatuses: set<int> := {400, 401, 403, 404, 422, 429, 500, 502, 503, 504}

  /** The statuses considered transient. */
  const RetriableStatuses: set<int> := {422, 429, 500, 502, 503, 504}

  /** The error a non-success status becomes, given the body bytes read
      before classification. */
  function ClassifyFailure(status: int, body: seq<Byte>): (e: Error)
    ensures e.Status?
    ensures e.retriable <==> status in RetriableStatuses
    ensures e.kind.Unhandled? <==> status !in MappedStatuses
    ensures e.kind.Unhandled? ==> e.kind == Unhandled(status, body)
    ensures !e.kind.Unhandled? ==> status in StatusesOf(e.kind)
  {
    if status == StatusNotFound then Status(NotFound, false)
    else if status == StatusUnauthorized || status == StatusForbidden then Status(UserAccessDenied, false)
    else if status == StatusTooManyRequests then Status(TooManyRequests, true)
    else if status == StatusUnprocessableEntity then Status(UnprocessableEntity, true)
    else if status == StatusInternalServerError then Status(InternalServerError, true)
    else if status == StatusBadGateway then Status(BadGateway, true)
    else if status == StatusServiceUnavailable then Status(ServiceUnavailable, true)
    else if status == StatusGatewayTimeout then Status(GatewayTimeout, true)
    else if status == StatusBadRequest then Status(BadRequest, false)
    else Status(Unhandled(status, body), false)
  }

  /** Each mapped kind is produced by exactly the statuses of its table row. */
  lemma KindExactly(status: int, body: seq<Byte>, k: Kind)
    requires !k.Unhandled?
    ensures ClassifyFailure(status, body).kind == k <==> status in StatusesOf(k)
  {
  }

  /** The success statuses and the mapped statuses do not overlap, and the
      kinds' rows cover the mapped statuses exactly. */
  lemma TableConsistent(k: Kind, status: int)
    ensures !(IsSuccess(status) && status in MappedStatuses)
    ensures status in StatusesOf(k) ==> status in MappedStatuses
    ensures RetriableStatuses <= MappedStatuses
  {
  }

  /** A status error is retriable exactly for the transient statuses; no
      other error of the taxonomy ever carries the retriable marker. */
  lemma RetriableOnlyForTransientStatuses(status: int, body: seq<Byte>, e: Error)
    ensures IsRetriable(ClassifyFailure(status, body)) <==> status in RetriableStatuses
    ensures !e.Status? ==> !IsRetriable(e)
  {
  }

  /** 2xx statuses other than 200, 201, 202 and 204 are errors too. */
  lemma OtherTwoHundredsUnhandled(status: int, body: seq<Byte>)
    requires 200 <= status < 300 && !IsSuccess(status)
    ensures ClassifyFailure(status, body) == Status(Unhandled(status, body), false)
  {
  }
}
