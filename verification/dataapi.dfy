/** The pure decision rules of the data API server
    (disperser/dataapi/server.go): how service-health statuses become one HTTP
    status, how errors become HTTP status codes, and how query parameters of
    the feed and operator handlers are validated. Request routing, metrics,
    caching headers and the storage queries behind each handler are not part
    of the model. */
module DataApi {
  import opened Wrappers
  import GoStrings
  import GoStrconv

  const StatusOK: int := 200
  const StatusBadRequest: int := 400
  const StatusNotFound: int := 404
  const StatusInternalServerError: int := 500
  const StatusServiceUnavailable: int := 503

  // ---------------------------------------------------------------------------
  // Errors

  /** A Go error value: the `errNotFound` sentinel, an error created from a
      message, or an error wrapping another one with `%w` behind a prefix. */
  datatype ApiError =
    | ErrNotFound
    | Plain(text: string)
    | Wrapped(prefix: string, cause: ApiError)

  /** `err.Error()`. */
  function Message(e: ApiError): string
  {
    match e
    case ErrNotFound => "not found"
    case Plain(text) => text
    case Wrapped(prefix, cause) => prefix + Message(cause)
  }

  /** `errors.Is(err, errNotFound)`: the sentinel itself occurs in the wrap
      chain. An unrelated error whose text happens to read "not found" does
      not match. */
  predicate IsNotFound(e: ApiError)
  {
    match e
    case ErrNotFound => true
    case Plain(_) => false
    case Wrapped(_, cause) => IsNotFound(cause)
  }

  /** `errorResponse`: 404 for errors matching the sentinel, 500 for all else. */
  function ErrorResponseCode(e: ApiError): (code: int)
    ensures code == StatusNotFound || code == StatusInternalServerError
    ensures code == StatusNotFound <==> IsNotFound(e)
  {
    if IsNotFound(e) then StatusNotFound else StatusInternalServerError
  }

  /** Any error matching the sentinel mentions "not found" in its text,
      because wrapping only prepends text. */
  lemma {:induction false} NotFoundMentioned(e: ApiError)
    requires IsNotFound(e)
    ensures GoStrings.Contains(Message(e), "not found")
  {
    match e
    case ErrNotFound =>
      assert GoStrings.HasPrefix(Message(e), "not found");
    case Wrapped(prefix, cause) =>
      NotFoundMentioned(cause);
      GoStrings.ContainsAfterPrefix(prefix, Message(cause), "not found");
  }

  /** `OperatorPortCheck`'s error path: a probe error whose text contains
      "not found" is replaced by the sentinel before `errorResponse`. */
  function PortCheckErrorCode(e: ApiError): (code: int)
    ensures code == StatusNotFound || code == StatusInternalServerError
  {
    var reported := if GoStrings.Contains(Message(e), "not found") then ErrNotFound else e;
    ErrorResponseCode(reported)
  }

  /** The port check answers 404 exactly when the probe error's text
      contains "not found", whether or not it wraps the sentinel. */
  lemma PortCheckNotFoundIffMessage(e: ApiError)
    ensures PortCheckErrorCode(e) == StatusNotFound <==> GoStrings.Contains(Message(e), "not found")
  {
    if IsNotFound(e) {
      NotFoundMentioned(e);
    }
  }

  /** The two paths differ on a message-only error: `errorResponse` alone
      answers 500, the port check answers 404. */
  lemma MessageOnlyNotFound()
    ensures ErrorResponseCode(Plain("not found")) == StatusInternalServerError
    ensures PortCheckErrorCode(Plain("not found")) == StatusNotFound
  {
    assert GoStrings.HasPrefix("not found", "not found");
  }

  // ---------------------------------------------------------------------------
  // Service availability

  /** One entry of a health-check answer. */
  datatype ServiceAvailability = ServiceAvailability(serviceName: string, serviceStatus: string)

  /** The health-check status names that make a service unavailable. */
  const NotServing: string := "NOT_SERVING"
  const Unknown: string := "UNKNOWN"

  /** A status that makes the service unavailable. */
  predicate IsOffending(status: string)
  {
    status == NotServing || status == Unknown
  }

  /** The HTTP status an offending entry maps to. */
  function OffendingCode(status: string): int
  {
    if status == NotServing then StatusServiceUnavailable else StatusInternalServerError
  }

  /** Entry `i` is the first offending entry of the list. */
  predicate FirstOffending(statuses: seq<ServiceAvailability>, i: int)
  {
    && 0 <= i < |statuses|
    && IsOffending(statuses[i].serviceStatus)
    && forall k :: 0 <= k < i ==> !IsOffending(statuses[k].serviceStatus)
  }

  /** The loop shared verbatim by `FetchDisperserServiceAvailability`,
      `FetchChurnerServiceAvailability` and `FetchBatcherAvailability`: 200
      unless some entry is NOT_SERVING or UNKNOWN, in which case the first
      such entry decides (503 or 500) and later entries are ignored. */
  method AvailabilityCode(statuses: seq<ServiceAvailability>) returns (code: int)
    ensures (code == StatusOK) <==> (forall i :: 0 <= i < |statuses| ==> !IsOffending(statuses[i].serviceStatus))
    ensures forall j :: FirstOffending(statuses, j) ==> code == OffendingCode(statuses[j].serviceStatus)
  {
    var i := 0;
    while i < |statuses| && !IsOffending(statuses[i].serviceStatus)
      invariant i <= |statuses|
      invariant forall k :: 0 <= k < i ==> !IsOffending(statuses[k].serviceStatus)
    {
      i := i + 1;
    }
    if i == |statuses| {
      code := StatusOK;
    } else if statuses[i].serviceStatus == NotServing {
      code := StatusServiceUnavailable;
    } else {
      code := StatusInternalServerError;
    }
    if i < |statuses| {
      assert FirstOffending(statuses, i);
    }
  }

  /** An availability handler: a failed health query goes through
      `errorResponse`, otherwise the statuses decide. */
  method AvailabilityHandlerCode(fetched: Result<seq<ServiceAvailability>, ApiError>) returns (code: int)
    ensures fetched.Failure? ==> code == ErrorResponseCode(fetched.error)
    ensures fetched.Success? ==>
      (code == StatusOK <==> forall i :: 0 <= i < |fetched.value| ==> !IsOffending(fetched.value[i].serviceStatus))
    ensures fetched.Success? ==>
      forall i :: FirstOffending(fetched.value, i) ==> code == OffendingCode(fetched.value[i].serviceStatus)
  {
    if fetched.Failure? {
      return ErrorResponseCode(fetched.error);
    }
    code := AvailabilityCode(fetched.value);
  }

  // ---------------------------------------------------------------------------
  // Query parameters

  /** `c.DefaultQuery(key, default)`: the default only when the key is absent;
      a present but empty value is kept (and then fails to parse). */
  function QueryOrDefault(q: Option<string>, default: string): string
  {
    match q
    case None => default
    case Some(v) => v
  }

  /** `limit` of `FetchBlobsFromBatchHeaderHash` (default 10): accepted iff it
      parses and lies in 1..1000. Rejections go through `errorResponse`. */
  function BatchFeedLimit(q: Option<string>): (r: Result<int, ApiError>)
    ensures
      var parsed := GoStrconv.Atoi(QueryOrDefault(q, "10"));
      && (r.Success? <==> parsed.Some? && 1 <= parsed.value <= 1000)
      && (r.Success? ==> r.value == parsed.value)
    ensures r.Failure? ==> !IsNotFound(r.error)
  {
    match GoStrconv.Atoi(QueryOrDefault(q, "10"))
    case None => Failure(Plain("invalid limit parameter"))
    case Some(limit) =>
      if limit <= 0 || limit > 1000 then Failure(Plain("limit must be between 0 and 1000"))
      else Success(limit)
  }

  /** `limit` of `FetchBlobsHandler` (default 10): any limit >= 1 is accepted,
      with no upper bound. */
  function FeedLimit(q: Option<string>): (r: Result<int, ApiError>)
    ensures
      var parsed := GoStrconv.Atoi(QueryOrDefault(q, "10"));
      && (r.Success? <==> parsed.Some? && 1 <= parsed.value)
      && (r.Success? ==> r.value == parsed.value)
    ensures r.Failure? ==> !IsNotFound(r.error)
  {
    match GoStrconv.Atoi(QueryOrDefault(q, "10"))
    case None => Failure(Plain("invalid limit parameter"))
    case Some(limit) =>
      if limit <= 0 then Failure(Plain("limit must be greater than 0"))
      else Success(limit)
  }

  /** Without a `limit`, both feeds use 10. */
  lemma FeedLimitDefaults()
    ensures BatchFeedLimit(None) == Success(10)
    ensures FeedLimit(None) == Success(10)
  {
    assert GoStrconv.FormatInt(10) == "10";
    GoStrconv.AtoiFormatInt(10);
  }

  /** Every limit the batch feed accepts is also accepted by the plain feed. */
  lemma BatchFeedLimitStricter(q: Option<string>)
    requires BatchFeedLimit(q).Success?
    ensures FeedLimit(q) == BatchFeedLimit(q)
  {
  }

  /** HTTP status a feed handler answers for its `limit`: `None` when the
      limit is accepted, otherwise the code `errorResponse` picks, which is
      always 500. */
  function BatchFeedLimitRejection(q: Option<string>): (code: Option<int>)
    ensures code.None? <==> BatchFeedLimit(q).Success?
    ensures code.Some? ==> code.value == StatusInternalServerError
  {
    match BatchFeedLimit(q)
    case Success(_) => None
    case Failure(e) => Some(ErrorResponseCode(e))
  }

  /** A limit of 0 is a client error, yet it is answered 500. */
  lemma ZeroLimitAnswered500()
    ensures BatchFeedLimitRejection(Some("0")) == Some(StatusInternalServerError)
  {
    assert GoStrconv.FormatInt(0) == "0";
    GoStrconv.AtoiFormatInt(0);
  }

  /** The documented behaviour: every rejected `limit` is a 400 Bad Request. */
  function BatchFeedLimitRejectionCorrected(q: Option<string>): (code: Option<int>)
    ensures code.None? <==> BatchFeedLimit(q).Success?
    ensures code.Some? ==> code.value == StatusBadRequest
  {
    match BatchFeedLimit(q)
    case Success(_) => None
    case Failure(_) => Some(StatusBadRequest)
  }

  /** Go's `int32(x)` of an `int`: the low 32 bits read as two's complement. */
  function ToInt32(x: int): (r: int)
    ensures GoStrconv.MinInt32 <= r <= GoStrconv.MaxInt32
    ensures GoStrconv.MinInt32 <= x <= GoStrconv.MaxInt32 ==> r == x
    ensures (r - x) % 0x1_0000_0000 == 0
  {
    (x + 0x8000_0000) % 0x1_0000_0000 - 0x8000_0000
  }

  /** A rejection answered directly with its own HTTP status. */
  datatype Rejection = Rejection(code: int, message: string)

  /** `days` of `FetchDeregisteredOperators` and `FetchRegisteredOperators`
      (default 14), as written: parsed as a 64-bit `int`, rejected with 400
      only above 30, then narrowed to `int32` for the query. */
  function OperatorsDays(q: Option<string>): (r: Result<int, Rejection>)
    ensures
      var parsed := GoStrconv.Atoi(QueryOrDefault(q, "14"));
      && (r.Success? <==> parsed.Some? && parsed.value <= 30)
      && (r.Success? ==> r.value == ToInt32(parsed.value))
    ensures r.Failure? ==> r.error.code == StatusBadRequest
  {
    match GoStrconv.Atoi(QueryOrDefault(q, "14"))
    case None => Failure(Rejection(StatusBadRequest, "Invalid 'days' parameter"))
    case Some(days) =>
      if days > 30 then Failure(Rejection(StatusBadRequest, "Invalid 'days' parameter. Max value is 30"))
      else Success(ToInt32(days))
  }

  /** Negative values pass the "at most 30" check. */
  lemma OperatorsDaysAcceptsNegative()
    ensures OperatorsDays(Some("-1")) == Success(-1)
  {
    assert GoStrconv.FormatInt(-1) == "-1";
    GoStrconv.AtoiFormatInt(-1);
    assert GoStrconv.Atoi(QueryOrDefault(Some("-1"), "14")) == Some(-1);
  }

  /** Every platform `int` up to 30 is accepted, and what is queried is its
      `int32` narrowing, not the value itself. */
  lemma OperatorsDaysNarrows(n: int)
    requires GoStrconv.MinInt64 <= n <= 30
    ensures OperatorsDays(Some(GoStrconv.FormatInt(n))) == Success(ToInt32(n))
  {
    GoStrconv.AtoiFormatInt(n);
  }

  /** Values just below the `int32` range wrap: every day count from
      -6442450944 to -2147483649 passes the check and queries the count plus
      2^32, a different and possibly positive number (-4294967295 queries 1). */
  lemma OperatorsDaysWraps(n: int)
    requires -0x1_8000_0000 <= n < GoStrconv.MinInt32
    ensures OperatorsDays(Some(GoStrconv.FormatInt(n))) == Success(n + 0x1_0000_0000)
  {
    OperatorsDaysNarrows(n);
    var k := n + 0x8000_0000 + 0x1_0000_0000;
    assert 0 <= k < 0x1_0000_0000;
    assert (n + 0x8000_0000) % 0x1_0000_0000 == k;
  }

  /** `days` read as `FetchOperatorEjections` reads it, with a 32-bit parse:
      the number queried is the number requested. */
  function OperatorsDaysCorrected(q: Option<string>): (r: Result<int, Rejection>)
    ensures
      var parsed := GoStrconv.Atoi(QueryOrDefault(q, "14"));
      r.Success? ==> parsed == Some(r.value) && r.value <= 30
    ensures r.Success? ==> GoStrconv.MinInt32 <= r.value
    ensures r.Failure? ==> r.error.code == StatusBadRequest
    ensures
      var parsed := GoStrconv.Atoi(QueryOrDefault(q, "14"));
      parsed.Some? && GoStrconv.MinInt32 <= parsed.value <= GoStrconv.MaxInt32 ==> r == OperatorsDays(q)
  {
    match GoStrconv.ParseInt32(QueryOrDefault(q, "14"))
    case None => Failure(Rejection(StatusBadRequest, "Invalid 'days' parameter"))
    case Some(days) =>
      if days > 30 then Failure(Rejection(StatusBadRequest, "Invalid 'days' parameter. Max value is 30"))
      else Success(days)
  }

  /** The validated arguments of the ejections query. */
  datatype EjectionsQuery = EjectionsQuery(days: int, first: int, skip: int)

  /** `FetchOperatorEjections`' parameters, checked in the order days, first,
      skip: `days` (default 1) any `int32`, `first` (default 1000) in
      1..10000, `skip` (default 0) in 0..1000000000; each rejection is a 400. */
  function OperatorEjectionsQuery(days: Option<string>, first: Option<string>, skip: Option<string>)
    : (r: Result<EjectionsQuery, Rejection>)
    ensures
      var d := GoStrconv.ParseInt32(QueryOrDefault(days, "1"));
      var f := GoStrconv.ParseInt32(QueryOrDefault(first, "1000"));
      var s := GoStrconv.ParseInt32(QueryOrDefault(skip, "0"));
      && (r.Success? <==> d.Some? && f.Some? && 1 <= f.value <= 10000 && s.Some? && 0 <= s.value <= 1_000_000_000)
      && (r.Success? ==> r.value == EjectionsQuery(d.value, f.value, s.value))
      && (d.None? ==> r == Failure(Rejection(StatusBadRequest, "Invalid 'days' parameter")))
      && (d.Some? && !(f.Some? && 1 <= f.value <= 10000) ==> r.Failure? && r.error.message == FirstMessage)
    ensures r.Failure? ==> r.error.code == StatusBadRequest
  {
    var d := GoStrconv.ParseInt32(QueryOrDefault(days, "1"));
    if d.None? || d.value < GoStrconv.MinInt32 || d.value > GoStrconv.MaxInt32 then
      Failure(Rejection(StatusBadRequest, "Invalid 'days' parameter"))
    else
      var f := GoStrconv.ParseInt32(QueryOrDefault(first, "1000"));
      if f.None? || f.value < 1 || f.value > 10000 then Failure(Rejection(StatusBadRequest, FirstMessage))
      else
        var s := GoStrconv.ParseInt32(QueryOrDefault(skip, "0"));
        if s.None? || s.value < 0 || s.value > 1_000_000_000 then Failure(Rejection(StatusBadRequest, SkipMessage))
        else Success(EjectionsQuery(d.value, f.value, s.value))
  }

  const FirstMessage: string := "Invalid 'first' parameter. Value must be between 1..10000"
  const SkipMessage: string := "Invalid 'skip' parameter. Value must be between 0..1000000000"

  /** Without parameters the ejections query asks for 1 day, the first 1000
      entries, skipping none. */
  lemma OperatorEjectionsDefaults()
    ensures OperatorEjectionsQuery(None, None, None) == Success(EjectionsQuery(1, 1000, 0))
  {
    assert GoStrconv.FormatInt(1) == "1";
    GoStrconv.ParseInt32FormatInt(1);
    assert GoStrconv.FormatInt(1000) == "1000";
    GoStrconv.ParseInt32FormatInt(1000);
    assert GoStrconv.FormatInt(0) == "0";
    GoStrconv.ParseInt32FormatInt(0);
  }
}
