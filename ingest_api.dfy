/**
 * `POST /api/ingest`: the authenticated writer of its own in-memory snapshot
 * table. The table is private to this route; the metrics route keeps another.
 */
module IngestApi {
  import opened Wrappers
  import opened Json
  import opened MetricsTypes
  import opened Gateway

  /**
   * What POST does to `store`. The checks run in the order configuration, token,
   * body; the first that fails decides the status and leaves the store alone.
   */
  function PostEffect(store: map<string, Record>, tokenHeader: Option<string>, expected: Option<string>,
                      rangeParam: Option<string>, body: Body, now: string): (e: Effect)
    // 500 when no secret is configured, whatever the token and the body
    ensures !Configured(expected) ==> e == Effect(Refused(500, MissingConfigMessage), store)
    // 401 for a token other than the secret, whatever the body
    ensures Configured(expected) && TokenOf(tokenHeader) != expected.value ==>
              e == Effect(Refused(401, UnauthorizedMessage), store)
    // 400 for an unparseable body once the token is right
    ensures Configured(expected) && TokenOf(tokenHeader) == expected.value && body.Malformed? ==>
              e == Effect(Refused(400, InvalidJsonMessage), store)
    ensures e.reply.Stored? <==> Configured(expected) && TokenOf(tokenHeader) == expected.value && body.Parsed?
    ensures e.reply.Refused? ==> e.store == store
    ensures e.reply.Stored? ==> e == Write(store, RangeOf(rangeParam), body.fields, now)
  {
    var token := TokenOf(tokenHeader);
    if !Configured(expected) then Effect(Refused(500, MissingConfigMessage), store)
    else if token != expected.value then Effect(Refused(401, UnauthorizedMessage), store)
    else if body.Malformed? then Effect(Refused(400, InvalidJsonMessage), store)
    else Write(store, RangeOf(rangeParam), body.fields, now)
  }

  /** The route module: its `metricsStore` table and its POST handler. */
  class Route {
    var metricsStore: map<string, Record>

    constructor ()
      ensures metricsStore == map[]
    {
      metricsStore := map[];
    }

    /**
     * Handles one POST. `expected` is `WORKER_INGEST_TOKEN` from the environment
     * and `now` the clock reading used for `_updatedAt`.
     */
    method Post(tokenHeader: Option<string>, expected: Option<string>, rangeParam: Option<string>,
                body: Body, now: string) returns (reply: PostReply)
      modifies this
      ensures Effect(reply, metricsStore) == PostEffect(old(metricsStore), tokenHeader, expected, rangeParam, body, now)
      ensures reply.Refused? ==> metricsStore == old(metricsStore)
      ensures reply.Stored? ==> reply.storedKey in metricsStore
                                && metricsStore[reply.storedKey][UpdatedAtField] == Str(reply.updatedAt)
    {
      var token := TokenOf(tokenHeader);
      if !Configured(expected) {
        return Refused(500, MissingConfigMessage);
      }
      if token != expected.value {
        return Refused(401, UnauthorizedMessage);
      }
      var range := RangeOf(rangeParam);
      if body.Malformed? {
        return Refused(400, InvalidJsonMessage);
      }
      var record := Stamp(body.fields, range, now);
      var key := StoreKey(range);
      metricsStore := metricsStore[key := record];
      reply := Stored(key, record[UpdatedAtField].s);
    }
  }
}
