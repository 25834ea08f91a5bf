/** The tracing middleware around the items handler (observability.go,
    tracingMiddleware): it picks the request identifier, wraps the sink in
    a status-capturing writer, runs the handler and labels the recorded
    status for the "request completed" entry. */
module Middleware {
  import opened Decimal
  import opened StatusLabels
  import opened ResponseWriting
  import opened Simulators
  import opened Handler

  /** The X-Request-ID header when it is non-empty, otherwise the clock's
      nanosecond counter printed with `%d`. */
  function RequestId(header: string, nowNanos: int): (id: string)
    ensures |id| > 0
    ensures header != "" ==> id == header
    ensures header == "" ==> id == IntToDecimal(nowNanos)
  {
    if header != "" then header else IntToDecimal(nowNanos)
  }

  /** Without a header, the identifier reads back as the clock value. */
  lemma RequestIdReadsBackAsClock(nowNanos: int)
    ensures nowNanos >= 0 ==> AllDigits(RequestId("", nowNanos)) && ParseDecimal(RequestId("", nowNanos)) == nowNanos
    ensures nowNanos < 0 ==>
      && RequestId("", nowNanos)[0] == '-'
      && AllDigits(RequestId("", nowNanos)[1..])
      && ParseDecimal(RequestId("", nowNanos)[1..]) == -nowNanos
  {
    IntToDecimalRoundTrip(nowNanos);
  }

  /** Without a header, requests that read different clock values get
      different identifiers. */
  lemma RequestIdsDistinct(nanos1: int, nanos2: int)
    requires nanos1 != nanos2
    ensures RequestId("", nanos1) != RequestId("", nanos2)
  {
    IntToDecimalInjective(nanos1, nanos2);
  }

  /** What the middleware reports once the handler returns. */
  datatype Completion = Completion(requestId: string, statusCode: int, status: string)

  /** The middleware with apiHandler as the wrapped handler. */
  method TracingMiddleware(w: Sink, requestIdHeader: string, nowNanos: int, userId: string, draws: Draws)
    returns (done: Completion, reply: Reply, events: seq<Event>)
    modifies w
    ensures done.requestId == RequestId(requestIdHeader, nowNanos)
    ensures done.statusCode == StatusOf(reply)
    ensures done.status == StatusLabel(done.statusCode)
    ensures reply.Succeeded? <==> done.status == "success"
    ensures reply.InternalError? <==> done.status == "server_error"
    ensures reply.InternalError? <==> !CacheHit(draws.lookupHit) && QueryFails(draws.queryTime, draws.queryFail)
    ensures reply == (if CacheHit(draws.lookupHit) then Succeeded(true, 1)
                      else if QueryFails(draws.queryTime, draws.queryFail) then InternalError
                      else Succeeded(false, 2))
    // the wrapped handler's events: a cache GET first, and enrichment only on success
    ensures |events| >= 2 && events[0] == CacheOp("GET", CacheKey(userId))
    ensures reply.Succeeded? <==> ExternalCall(EnrichEndpoint) in events
    ensures w.codes == old(w.codes) + [done.statusCode]
    ensures w.body == old(w.body) + BodyOf(reply)
  {
    var requestId := requestIdHeader;
    if requestId == "" {
      requestId := IntToDecimal(nowNanos);
    }
    var rw := new ResponseWriter(w);
    reply, events := ApiHandler(rw, userId, draws);
    done := Completion(requestId, rw.statusCode, StatusLabel(rw.statusCode));
  }
}
