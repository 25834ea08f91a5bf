/** The three downstream-call simulators (observability.go, simulateDBQuery,
    simulateQueryTime, simulateExternalAPICall, simulateCacheOperation).
    Each reading of the clock's nanosecond counter in the Go code is a
    parameter here (a "draw"); with the draws fixed, every simulator is a
    function of its inputs. Latencies are whole milliseconds. */
module Simulators {
  import opened Params

  datatype Option<T> = None | Some(value: T)

  // ---------------------------------------------------------------- database

  /** simulateQueryTime: 50 ms plus the draw modulo 200, in ms. */
  function QueryTimeMs(draw: nat): (ms: nat)
    ensures 50 <= ms <= 249
  {
    50 + draw % 200
  }

  /** A query fails when it took longer than 200 ms and a second draw is a
      multiple of ten. */
  predicate QueryFails(timeDraw: nat, failDraw: nat) {
    QueryTimeMs(timeDraw) > 200 && failDraw % 10 == 0
  }

  /** A mock result row; only its id is modelled. */
  datatype Row = Row(id: int)

  datatype DbResult = Rows(rows: seq<Row>) | QueryTimeout(afterMs: nat)

  /** What one simulated query produced: its latency, the parameters as the
      debug log shows them, and the rows or the timeout error. */
  datatype DbOutcome = DbOutcome(latencyMs: nat, loggedParams: map<string, Value>, result: DbResult)

  function SimulateDBQuery(params: map<string, Value>, timeDraw: nat, failDraw: nat): (out: DbOutcome)
    ensures out.latencyMs == QueryTimeMs(timeDraw) && 50 <= out.latencyMs <= 249
    ensures out.result.QueryTimeout? <==> out.latencyMs > 200 && failDraw % 10 == 0
    ensures out.result.QueryTimeout? ==> out.result.afterMs == out.latencyMs
    ensures out.result.Rows? ==> |out.result.rows| == 2 && out.result.rows[0].id == 1 && out.result.rows[1].id == 2
    ensures out.loggedParams.Keys == params.Keys
    ensures forall k :: k in out.loggedParams && IsSensitive(k) ==> out.loggedParams[k] == Mask
    ensures forall k :: k in out.loggedParams && !IsSensitive(k) ==> out.loggedParams[k] == params[k]
    ensures out.loggedParams == Sanitized(params)
  {
    SanitizedMasksOnlySensitive(params);
    var latency := QueryTimeMs(timeDraw);
    var logged := Sanitized(params);
    if QueryFails(timeDraw, failDraw) then
      DbOutcome(latency, logged, QueryTimeout(latency))
    else
      DbOutcome(latency, logged, Rows([Row(1), Row(2)]))
  }

  /** Only time draws with remainder 151..199 modulo 200 (49 of every 200)
      can fail, and then only on one failure draw in ten; a query of at most
      200 ms always returns its rows. */
  lemma QueryFailureNeedsSlowDraw(params: map<string, Value>, timeDraw: nat, failDraw: nat)
    ensures SimulateDBQuery(params, timeDraw, failDraw).result.QueryTimeout?
        <==> 151 <= timeDraw % 200 && failDraw % 10 == 0
    ensures QueryTimeMs(timeDraw) <= 200 ==> SimulateDBQuery(params, timeDraw, failDraw).result.Rows?
  {
  }

  /** Both outcomes are reachable. */
  lemma QueryOutcomesReachable(params: map<string, Value>)
    ensures SimulateDBQuery(params, 151, 0).result == QueryTimeout(201)
    ensures SimulateDBQuery(params, 150, 0).result == Rows([Row(1), Row(2)])
  {
  }

  // ------------------------------------------------------------ external API

  /** 300 ms when the draw is a multiple of three, 100 ms otherwise. */
  function CallTimeMs(draw: nat): (ms: nat)
    ensures ms == 100 || ms == 300
    ensures ms == 300 <==> draw % 3 == 0
  {
    if draw % 3 == 0 then 300 else 100
  }

  predicate CallFails(timeDraw: nat, failDraw: nat) {
    CallTimeMs(timeDraw) > 200 && failDraw % 8 == 0
  }

  datatype ApiError = ExternalTimeout(afterMs: nat)

  datatype ApiOutcome = ApiOutcome(latencyMs: nat, err: Option<ApiError>)

  /** The endpoint only labels the span and the log entries. */
  function SimulateExternalAPICall(endpoint: string, timeDraw: nat, failDraw: nat): (out: ApiOutcome)
    ensures out.latencyMs == CallTimeMs(timeDraw)
    ensures out.latencyMs == 100 || out.latencyMs == 300
    ensures out.latencyMs == 100 ==> out.err.None?
    ensures out.err.Some? <==> timeDraw % 3 == 0 && failDraw % 8 == 0
    ensures out.err.Some? ==> out.err.value.afterMs == out.latencyMs
  {
    var latency := CallTimeMs(timeDraw);
    if CallFails(timeDraw, failDraw) then
      ApiOutcome(latency, Some(ExternalTimeout(latency)))
    else
      ApiOutcome(latency, None)
  }

  // ------------------------------------------------------------------- cache

  /** The payload of a hit: the fixed data and the Unix time in seconds. */
  datatype CachedValue = CachedValue(cachedData: string, timestamp: int)

  datatype CacheError = CacheError(message: string)

  datatype CacheOutcome = CacheOutcome(value: Option<CachedValue>, hit: bool, err: Option<CacheError>)

  /** A lookup hits when the draw modulo ten is below seven. */
  predicate CacheHit(draw: nat) {
    draw % 10 < 7
  }

  /** The operation and key only label the span and the log entries; a SET
      stores nothing, since the cache is a stand-in. */
  function SimulateCacheOperation(operation: string, key: string, hitDraw: nat, nowSeconds: int): (out: CacheOutcome)
    ensures out.hit <==> hitDraw % 10 < 7
    ensures out.value.Some? <==> out.hit
    ensures out.value.Some? ==> out.value.value == CachedValue("value", nowSeconds)
    ensures out.err.None?
  {
    var hit := CacheHit(hitDraw);
    var value := CachedValue("value", nowSeconds);
    CacheOutcome(if hit then Some(value) else None, hit, None)
  }

  // ------------------------------------------------------------ draw counts

  /** The number of hitting draws among lo, lo + 1, ..., lo + len - 1. */
  function CacheHitsIn(lo: nat, len: nat): nat
    decreases len
  {
    if len == 0 then 0 else (if CacheHit(lo) then 1 else 0) + CacheHitsIn(lo + 1, len - 1)
  }

  lemma {:induction false} CacheHitsInSplitLast(lo: nat, len: nat)
    ensures CacheHitsIn(lo, len + 1) == CacheHitsIn(lo, len) + (if CacheHit(lo + len) then 1 else 0)
    decreases len
  {
    if len > 0 {
      CacheHitsInSplitLast(lo + 1, len - 1);
    }
  }

  /** Any ten consecutive draws contain exactly seven hits: the 70% hit rate. */
  lemma {:induction false} SevenHitsInTen(lo: nat)
    ensures CacheHitsIn(lo, 10) == 7
    decreases lo
  {
    if lo == 0 {
      assert CacheHitsIn(0, 10) == 7;
    } else {
      SevenHitsInTen(lo - 1);
      CacheHitsInSplitLast(lo - 1, 10);
      assert (lo - 1 + 10) % 10 == (lo - 1) % 10;
    }
  }

  /** The number of slow (300 ms) draws among lo, ..., lo + len - 1. */
  function SlowCallsIn(lo: nat, len: nat): nat
    decreases len
  {
    if len == 0 then 0 else (if CallTimeMs(lo) == 300 then 1 else 0) + SlowCallsIn(lo + 1, len - 1)
  }

  /** Any three consecutive draws contain exactly one slow call: 100 ms with
      probability two thirds, 300 ms otherwise. */
  lemma OneSlowCallInThree(lo: nat)
    ensures SlowCallsIn(lo, 3) == 1
  {
  }
}
