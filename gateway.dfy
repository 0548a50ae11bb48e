/**
 * The request handling that the ingest route and the metrics route repeat word
 * for word: reading the token header and the `range` parameter, the key a
 * snapshot is stored under, stamping a payload, and the final single-key write.
 */
module Gateway {
  import opened Wrappers
  import opened Json
  import opened MetricsTypes

  const KeyPrefix := "latest_"

  const MissingConfigMessage := "Missing WORKER_INGEST_TOKEN environment variable"
  const UnauthorizedMessage := "Unauthorized"
  const InvalidJsonMessage := "Invalid JSON payload"

  /** The request body: a parsed JSON object, or text that `request.json()` rejects. */
  datatype Body = Parsed(fields: Record) | Malformed

  /** What a POST handler answers: `{ok, storedKey, updatedAt}` with 200, or an error with its status. */
  datatype PostReply = Stored(storedKey: string, updatedAt: string) | Refused(status: nat, message: string) {
    function Status(): nat {
      if Stored? then 200 else status
    }
  }

  /** The reply of a POST handler together with the store it leaves behind. */
  datatype Effect = Effect(reply: PostReply, store: map<string, Record>)

  /** The `x-ingest-token` header, or the empty string when it is missing. */
  function TokenOf(header: Option<string>): (token: string)
    ensures header.Some? ==> token == header.value
    ensures header.None? ==> token == ""
  {
    header.GetOr("")
  }

  /** The `range` parameter; a missing or empty one means `"all"`. */
  function RangeOf(param: Option<string>): (range: string)
    ensures range != ""
    ensures param.Some? && param.value != "" ==> range == param.value
    ensures param.None? || param == Some("") ==> range == "all"
  {
    if param.Some? && param.value != "" then param.value else "all"
  }

  /** `WORKER_INGEST_TOKEN` counts as configured when it is set and not empty. */
  predicate Configured(expected: Option<string>)
    // an empty variable counts as missing
    ensures expected == Some("") ==> !Configured(expected)
    ensures Configured(expected) ==> expected.Some? && |expected.value| >= 1
  {
    expected.Some? && expected.value != ""
  }

  /** The key a snapshot for `range` is stored under: `latest_${range}`. */
  function StoreKey(range: string): (key: string)
    ensures |key| == |KeyPrefix| + |range|
    ensures key[..|KeyPrefix|] == KeyPrefix && key[|KeyPrefix|..] == range
  {
    KeyPrefix + range
  }

  /** Distinct ranges are stored under distinct keys. */
  lemma StoreKeyInjective(a: string, b: string)
    ensures StoreKey(a) == StoreKey(b) <==> a == b
  {
    if StoreKey(a) == StoreKey(b) {
      assert a == StoreKey(a)[|KeyPrefix|..];
      assert b == StoreKey(b)[|KeyPrefix|..];
    }
  }

  /**
   * `{...payload, _range: range, _updatedAt: now}`: the payload's fields, with
   * the two gateway-owned fields overriding whatever the payload said about them.
   */
  function Stamp(payload: Record, range: string, now: string): (record: Record)
    ensures record.Keys == payload.Keys + {RangeField, UpdatedAtField}
    ensures record[RangeField] == Str(range) && record[UpdatedAtField] == Str(now)
    ensures forall k :: k in payload && k != RangeField && k != UpdatedAtField ==> record[k] == payload[k]
  {
    payload[RangeField := Str(range)][UpdatedAtField := Str(now)]
  }

  /**
   * The successful end of both POST handlers: the stamped record is written under
   * `StoreKey(range)` and nothing else in the store changes.
   */
  function Write(store: map<string, Record>, range: string, payload: Record, now: string): (e: Effect)
    ensures e.reply == Stored(StoreKey(range), now)
    ensures e.store.Keys == store.Keys + {StoreKey(range)}
    ensures e.store[StoreKey(range)] == Stamp(payload, range, now)
    ensures forall k :: k in store && k != StoreKey(range) ==> e.store[k] == store[k]
  {
    var record := Stamp(payload, range, now);
    Effect(Stored(StoreKey(range), record[UpdatedAtField].s), store[StoreKey(range) := record])
  }

  /** Writing the same range twice leaves what the second write alone would leave. */
  lemma WriteTwice(store: map<string, Record>, range: string, p1: Record, p2: Record, t1: string, t2: string)
    ensures Write(Write(store, range, p1, t1).store, range, p2, t2) == Write(store, range, p2, t2)
  {
  }
}
