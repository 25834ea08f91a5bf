/** Query parameters and their sanitisation before logging
    (observability.go, sanitizeParams). */
module Params {

  /** A parameter value; the Go code stores them as `interface{}`. */
  datatype Value = Str(s: string) | Int(i: int) | Bool(b: bool) | Nil

  /** The literal that replaces a sensitive value. */
  const Mask: Value := Str("****")

  /** The keys whose values must never reach a log. */
  predicate IsSensitive(key: string) {
    key == "password" || key == "token" || key == "secret"
  }

  /** What the sanitised map holds: same keys, sensitive values masked. */
  function Sanitized(params: map<string, Value>): map<string, Value> {
    map k | k in params :: if IsSensitive(k) then Mask else params[k]
  }

  /** Builds a fresh map entry by entry, visiting the keys in no particular
      order (Go's map iteration order is unspecified). */
  method SanitizeParams(params: map<string, Value>) returns (sanitized: map<string, Value>)
    ensures sanitized.Keys == params.Keys
    ensures forall k :: k in sanitized && IsSensitive(k) ==> sanitized[k] == Mask
    ensures forall k :: k in sanitized && !IsSensitive(k) ==> sanitized[k] == params[k]
    ensures sanitized == Sanitized(params)
  {
    sanitized := map[];
    var remaining := params.Keys;
    while remaining != {}
      invariant remaining <= params.Keys
      invariant sanitized.Keys == params.Keys - remaining
      invariant forall k :: k in sanitized ==> sanitized[k] == (if IsSensitive(k) then Mask else params[k])
      decreases remaining
    {
      var k :| k in remaining;
      if k == "password" || k == "token" || k == "secret" {
        sanitized := sanitized[k := Mask];
      } else {
        sanitized := sanitized[k := params[k]];
      }
      remaining := remaining - {k};
    }
  }

  /** No key is added or dropped, no sensitive value survives, and only
      sensitive entries differ from the input. */
  lemma SanitizedMasksOnlySensitive(params: map<string, Value>)
    ensures Sanitized(params).Keys == params.Keys
    ensures |Sanitized(params)| == |params|
    ensures forall k :: k in params && IsSensitive(k) ==> Sanitized(params)[k] == Mask
    ensures forall k :: k in params && Sanitized(params)[k] != params[k] ==> IsSensitive(k)
  {
    assert Sanitized(params).Keys == params.Keys;
  }

  /** Sanitising an already sanitised map changes nothing. */
  lemma SanitizedIdempotent(params: map<string, Value>)
    ensures Sanitized(Sanitized(params)) == Sanitized(params)
  {
  }

  /** An example: password and token masked, user_id copied. */
  lemma SanitizedExample()
    ensures Sanitized(map["password" := Str("abc"), "token" := Str("xyz"), "user_id" := Str("1")])
         == map["password" := Mask, "token" := Mask, "user_id" := Str("1")]
  {
    var input := map["password" := Str("abc"), "token" := Str("xyz"), "user_id" := Str("1")];
    assert IsSensitive("password") && IsSensitive("token") && !IsSensitive("user_id");
    assert Sanitized(input).Keys == {"password", "token", "user_id"};
  }
}
