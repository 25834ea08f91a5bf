/** The request orchestrator (observability.go, apiHandler): cache lookup,
    then on a miss the database query and the cache write-back, then the
    best-effort enrichment call, then the response. The downstream calls and
    the warning and error log entries are recorded, in order, as events. */
module Handler {
  import opened Params
  import opened Simulators
  import opened ResponseWriting
  import Decimal

  /** The clock readings the handler consumes, in the order the Go code
      reads them. */
  datatype Draws = Draws(
    lookupHit: nat, lookupClock: int,
    queryTime: nat, queryFail: nat,
    storeHit: nat, storeClock: int,
    callTime: nat, callFail: nat)

  datatype Event =
    | CacheOp(operation: string, key: string)
    | DbQuery(query: string, loggedParams: map<string, Value>)
    | ExternalCall(endpoint: string)
    | ErrorLog(message: string)
    | WarnLog(message: string)

  /** An entry of `results`: a database row, or the cached payload. */
  datatype Item = DbItem(row: Row) | CachedItem(value: CachedValue)

  /** The response summary: a success with the cache-hit flag and the
      number of items, or the generic internal error. */
  datatype Reply = Succeeded(cacheHit: bool, items: nat) | InternalError

  const ItemsQuery := "SELECT * FROM items WHERE user_id = $1"
  const EnrichEndpoint := "https://api.example.com/enrich"
  const DbFailedMessage := "Database query failed"
  const EnrichFailedMessage := "Enrichment API call failed, continuing with basic data"
  /** http.Error writes its message followed by a newline. */
  const InternalErrorBody := "Internal server error\n"

  /** `fmt.Sprintf("user:%s:items", userID)`. */
  function CacheKey(userId: string): (key: string)
    ensures |key| == |userId| + 11
    ensures key[..5] == "user:" && key[|key| - 6..] == ":items"
    ensures key[5..|key| - 6] == userId
  {
    "user:" + userId + ":items"
  }

  /** Distinct users never share a cache entry. */
  lemma CacheKeyInjective(a: string, b: string)
    ensures CacheKey(a) == CacheKey(b) ==> a == b
  {
  }

  /** `%v` of a boolean. */
  function BoolText(b: bool): (text: string)
    ensures text == "true" <==> b
    ensures text == "false" <==> !b
  {
    if b then "true" else "false"
  }

  const SuccessPrefix := "{\"status\":\"success\",\"cache_hit\":"
  const ItemsField := ",\"items\":"

  /** `{"status":"success","cache_hit":%v,"items":%d}`: the fixed prefix,
      the flag, the items field holding the printed count, and a closing
      brace; the count reads back from the body. */
  function SuccessBody(cacheHit: bool, items: nat): (body: string)
    ensures |body| == |SuccessPrefix| + |BoolText(cacheHit)| + |ItemsField| + |Decimal.NatToDecimal(items)| + 1
    ensures body[..|SuccessPrefix|] == SuccessPrefix
    ensures body[|SuccessPrefix|..|SuccessPrefix| + |BoolText(cacheHit)|] == BoolText(cacheHit)
    ensures body[|SuccessPrefix| + |BoolText(cacheHit)|..|body| - 1 - |Decimal.NatToDecimal(items)|] == ItemsField
    ensures body[|body| - 1] == '}'
    ensures var digits := body[|body| - 1 - |Decimal.NatToDecimal(items)|..|body| - 1];
      Decimal.AllDigits(digits) && Decimal.ParseDecimal(digits) == items
  {
    var flag := BoolText(cacheHit);
    var digits := Decimal.NatToDecimal(items);
    var body := SuccessPrefix + flag + ItemsField + digits + "}";
    assert body[|body| - 1 - |digits|..|body| - 1] == digits;
    Decimal.ParseDecimalOfNatToDecimal(items);
    body
  }

  /** 200 for a success, 500 (http.Error's code) for the internal error. */
  function StatusOf(reply: Reply): (code: int)
    ensures code == 200 <==> reply.Succeeded?
    ensures code == 500 <==> reply.InternalError?
  {
    if reply.Succeeded? then StatusOK else StatusInternalServerError
  }

  /** A success gets the success body, which starts with the success
      prefix; the error body is the generic message, which never does. */
  function BodyOf(reply: Reply): (body: string)
    ensures reply.Succeeded? ==> body == SuccessBody(reply.cacheHit, reply.items)
    ensures reply.Succeeded? ==> |body| > |SuccessPrefix| && body[..|SuccessPrefix|] == SuccessPrefix
    ensures reply.InternalError? ==> body == "Internal server error\n"
    ensures reply.InternalError? ==> !(|body| > |SuccessPrefix| && body[..|SuccessPrefix|] == SuccessPrefix)
  {
    match reply
    case Succeeded(hit, items) => SuccessBody(hit, items)
    case InternalError => InternalErrorBody
  }

  /** The parameters handed to the database simulator: the user id only,
      which is not sensitive, so the log shows it unchanged. */
  function QueryParams(userId: string): (params: map<string, Value>)
    ensures params.Keys == {"user_id"} && params["user_id"] == Str(userId)
    ensures Sanitized(params) == params
  {
    var params := map["user_id" := Str(userId)];
    assert !IsSensitive("user_id");
    assert Sanitized(params).Keys == params.Keys;
    params
  }

  /** The enrichment call and, when it fails, the warning it leaves. */
  function EnrichmentEvents(draws: Draws): (events: seq<Event>)
    ensures |events| == 1 + (if CallFails(draws.callTime, draws.callFail) then 1 else 0)
    ensures events[0] == ExternalCall(EnrichEndpoint)
    ensures CallFails(draws.callTime, draws.callFail) ==> events[1] == WarnLog(EnrichFailedMessage)
  {
    [ExternalCall(EnrichEndpoint)]
      + (if CallFails(draws.callTime, draws.callFail) then [WarnLog(EnrichFailedMessage)] else [])
  }

  method ApiHandler(w: ResponseWriter, userId: string, draws: Draws) returns (reply: Reply, events: seq<Event>)
    modifies w, w.inner
    ensures |events| >= 2 && events[0] == CacheOp("GET", CacheKey(userId))
    // cache hit: no query, no write-back, one enrichment call
    ensures CacheHit(draws.lookupHit) ==>
      && reply == Succeeded(true, 1)
      && events == [CacheOp("GET", CacheKey(userId))] + EnrichmentEvents(draws)
    // miss, database failure: stop after the query with a 500
    ensures !CacheHit(draws.lookupHit) && QueryFails(draws.queryTime, draws.queryFail) ==>
      && reply == InternalError
      && events == [CacheOp("GET", CacheKey(userId)),
                    DbQuery(ItemsQuery, Sanitized(QueryParams(userId))),
                    ErrorLog(DbFailedMessage)]
    // miss, database success: GET, query, SET, enrichment, in that order
    ensures !CacheHit(draws.lookupHit) && !QueryFails(draws.queryTime, draws.queryFail) ==>
      && reply == Succeeded(false, 2)
      && events == [CacheOp("GET", CacheKey(userId)),
                    DbQuery(ItemsQuery, Sanitized(QueryParams(userId))),
                    CacheOp("SET", CacheKey(userId))] + EnrichmentEvents(draws)
    // exactly one status is written, and it is the one the writer records
    ensures w.statusCode == StatusOf(reply)
    ensures w.inner.codes == old(w.inner.codes) + [StatusOf(reply)]
    ensures w.inner.body == old(w.inner.body) + BodyOf(reply)
  {
    var cacheKey := CacheKey(userId);
    var lookup := SimulateCacheOperation("GET", cacheKey, draws.lookupHit, draws.lookupClock);
    events := [CacheOp("GET", cacheKey)];

    var results: seq<Item> := [];
    if !lookup.hit {
      var db := SimulateDBQuery(QueryParams(userId), draws.queryTime, draws.queryFail);
      events := events + [DbQuery(ItemsQuery, db.loggedParams)];
      if db.result.QueryTimeout? {
        events := events + [ErrorLog(DbFailedMessage)];
        w.WriteHeader(StatusInternalServerError);
        w.Write(InternalErrorBody);
        reply := InternalError;
        return;
      }
      var rows := db.result.rows;
      results := seq(|rows|, i requires 0 <= i < |rows| => DbItem(rows[i]));
      var _ := SimulateCacheOperation("SET", cacheKey, draws.storeHit, draws.storeClock);
      events := events + [CacheOp("SET", cacheKey)];
    } else {
      if lookup.value.Some? {
        results := [CachedItem(lookup.value.value)];
      }
    }

    var call := SimulateExternalAPICall(EnrichEndpoint, draws.callTime, draws.callFail);
    events := events + [ExternalCall(EnrichEndpoint)];
    if call.err.Some? {
      events := events + [WarnLog(EnrichFailedMessage)];
    }

    reply := Succeeded(lookup.hit, |results|);
    w.WriteHeader(StatusOK);
    w.Write(SuccessBody(lookup.hit, |results|));
  }

  /** The number of warning entries in a sequence of events. */
  function Warnings(events: seq<Event>): nat {
    if events == [] then 0 else (if events[0].WarnLog? then 1 else 0) + Warnings(events[1..])
  }

  lemma {:induction false} WarningsAppend(a: seq<Event>, b: seq<Event>)
    ensures Warnings(a + b) == Warnings(a) + Warnings(b)
    decreases |a|
  {
    if a == [] {
      assert a + b == b;
    } else {
      assert (a + b)[1..] == a[1..] + b;
      WarningsAppend(a[1..], b);
    }
  }

  lemma {:induction false} WarningsNone(events: seq<Event>)
    requires forall i :: 0 <= i < |events| ==> !events[i].WarnLog?
    ensures Warnings(events) == 0
    decreases |events|
  {
    if events != [] {
      WarningsNone(events[1..]);
    }
  }

  /** The enrichment outcome never changes the reply: two requests that
      differ only in the enrichment draws get the same status, flag and
      item count, and a successful request carries one warning exactly when
      its enrichment call failed. */
  method EnrichmentIsNonFatal(userId: string, draws: Draws, callTime: nat, callFail: nat)
    returns (first: Reply, second: Reply, warnings: nat)
    ensures first == second
    ensures first.Succeeded? ==> warnings == (if CallFails(draws.callTime, draws.callFail) then 1 else 0)
    ensures first.InternalError? ==> warnings == 0
  {
    var sink1 := new Sink();
    var rw1 := new ResponseWriter(sink1);
    var events1;
    first, events1 := ApiHandler(rw1, userId, draws);
    var sink2 := new Sink();
    var rw2 := new ResponseWriter(sink2);
    var events2;
    second, events2 := ApiHandler(rw2, userId, draws.(callTime := callTime, callFail := callFail));
    warnings := Warnings(events1);
    var key := CacheKey(userId);
    var enrich := EnrichmentEvents(draws);
    assert Warnings(enrich) == (if CallFails(draws.callTime, draws.callFail) then 1 else 0) by {
      var call := [ExternalCall(EnrichEndpoint)];
      var tail := enrich[1..];
      assert enrich == call + tail;
      WarningsNone(call);
      WarningsAppend(call, tail);
      assert tail != [] ==> tail[1..] == [];
    }
    if CacheHit(draws.lookupHit) {
      var before := [CacheOp("GET", key)];
      WarningsNone(before);
      WarningsAppend(before, enrich);
    } else if QueryFails(draws.queryTime, draws.queryFail) {
      WarningsNone(events1);
    } else {
      var before := [CacheOp("GET", key), DbQuery(ItemsQuery, Sanitized(QueryParams(userId))), CacheOp("SET", key)];
      WarningsNone(before);
      WarningsAppend(before, enrich);
    }
  }

  // ------------------------------------------------------------- scenarios

  /** Forced cache hit for user 42: no database call, one item. */
  method ScenarioCacheHit() returns (reply: Reply, events: seq<Event>, body: string)
    ensures reply == Succeeded(true, 1)
    ensures events == [CacheOp("GET", "user:42:items"), ExternalCall(EnrichEndpoint)]
    ensures body == "{\"status\":\"success\",\"cache_hit\":true,\"items\":1}"
  {
    var sink := new Sink();
    var rw := new ResponseWriter(sink);
    reply, events := ApiHandler(rw, "42", Draws(0, 0, 0, 0, 0, 0, 1, 1));
    assert CacheKey("42") == "user:42:items";
    assert !CallFails(1, 1);
    body := sink.body;
  }

  /** Forced miss, database success, enrichment success: two items. */
  method ScenarioMissQueryOk() returns (reply: Reply, status: int, body: string)
    ensures reply == Succeeded(false, 2) && status == 200
    ensures body == "{\"status\":\"success\",\"cache_hit\":false,\"items\":2}"
  {
    var sink := new Sink();
    var rw := new ResponseWriter(sink);
    var events;
    reply, events := ApiHandler(rw, "42", Draws(7, 0, 0, 0, 0, 0, 1, 1));
    assert Decimal.NatToDecimal(2) == "2";
    assert BodyOf(reply) == SuccessPrefix + "false" + ItemsField + "2" + "}";
    status, body := rw.statusCode, sink.body;
  }

  /** Forced miss, database timeout: a 500 with the generic body and no
      enrichment call. */
  method ScenarioMissQueryTimeout() returns (status: int, body: string, events: seq<Event>)
    ensures status == 500 && body == "Internal server error\n"
    ensures forall e :: e in events ==> !e.ExternalCall? && e != CacheOp("SET", "user:42:items")
  {
    var sink := new Sink();
    var rw := new ResponseWriter(sink);
    var reply;
    assert !CacheHit(7) && QueryFails(151, 0);
    reply, events := ApiHandler(rw, "42", Draws(7, 0, 151, 0, 0, 0, 1, 1));
    assert reply == InternalError;
    assert BodyOf(reply) == InternalErrorBody;
    status, body := rw.statusCode, sink.body;
  }

  /** Forced miss, database success, enrichment failure: the same response
      as with enrichment success, plus exactly one warning. */
  method ScenarioEnrichmentFails() returns (reply: Reply, events: seq<Event>)
    ensures reply == Succeeded(false, 2)
    ensures |events| == 5 && events[4] == WarnLog(EnrichFailedMessage)
    ensures Warnings(events) == 1
  {
    var sink := new Sink();
    var rw := new ResponseWriter(sink);
    reply, events := ApiHandler(rw, "42", Draws(7, 0, 0, 0, 0, 0, 0, 0));
    WarningsNone(events[..4]);
    WarningsAppend(events[..4], events[4..]);
    assert events == events[..4] + events[4..];
  }
}
