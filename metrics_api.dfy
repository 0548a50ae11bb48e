/**
 * `/api/metrics`: a public GET that reads the route's own snapshot table and
 * falls back to demonstration data, and a POST that writes the same way the
 * ingest route does, except that the token check is skipped when no secret is
 * configured.
 */
module MetricsApi {
  import opened Wrappers
  import opened Json
  import opened MetricsTypes
  import opened Gateway

  /** The demonstration document GET serves for a range nothing was stored for. */
  function DemoMetrics(range: string, now: string): (d: DashboardMetrics)
    ensures d.range == range && d.updatedAt == Some(now)
    ensures d.setters.None? && d.calendars.None?
    ensures d.body.revenueMetrics.totalRevenue == d.body.revenue
    ensures d.body.revenueMetrics.successful <= d.body.revenueMetrics.transactions
    // the breakdowns add up to the headline counts
    ensures CountTotal(d.body.leadSources) == d.body.totalLeads
    ensures CountTotal(d.body.apptTypes) == d.body.appointments
    ensures d.body.sms.total == d.body.sms.inbound + d.body.sms.outbound
    ensures d.body.calls.total == d.body.calls.inbound + d.body.calls.outbound
  {
    DashboardMetrics(
      MetricsBody(
        1247.0, 389.0, 72.5, 148750.0,
        [ LabelCount("Facebook Ads", 523.0), LabelCount("Google Ads", 312.0),
          LabelCount("Organic Search", 198.0), LabelCount("Direct Traffic", 124.0),
          LabelCount("Instagram", 56.0), LabelCount("Referral", 34.0) ],
        [ LabelCount("Discovery Call", 156.0), LabelCount("Strategy Session", 98.0),
          LabelCount("Demo Call", 72.0), LabelCount("Follow-up", 45.0),
          LabelCount("Onboarding", 18.0) ],
        [ TopAd("Summer Sale Campaign", "ad_12345", 156.0, 67.0, 42.9, Some(285.0)),
          TopAd("Brand Awareness", "ad_23456", 134.0, 52.0, 38.8, Some(220.0)),
          TopAd("Lead Magnet Promo", "ad_34567", 98.0, 41.0, 41.8, Some(195.0)),
          TopAd("Retargeting Campaign", "ad_45678", 87.0, 38.0, 43.7, Some(310.0)),
          TopAd("New Product Launch", "ad_56789", 72.0, 29.0, 40.3, Some(175.0)) ],
        SmsMetrics(3456.0, 1234.0, 2222.0, 3201.0, 35.7),
        CallMetrics(892.0, 312.0, 580.0, 756.0, 287.0),
        RevenueMetrics(148750.0, 89.0, 1671.0, 82.0)),
      None, None, range, Some(now))
  }

  /** A zeroed document; the route defines it but GET does not use it. */
  function EmptyMetrics(range: string): (d: DashboardMetrics)
    ensures d.range == range && d.updatedAt.None?
    ensures d.setters == Some([]) && d.calendars == Some([])
    ensures d.body.leadSources == [] && d.body.apptTypes == [] && d.body.topAds == []
    ensures d.body.totalLeads == d.body.appointments == d.body.showRate == d.body.revenue == 0.0
    ensures d.body.sms == SmsMetrics(0.0, 0.0, 0.0, 0.0, 0.0)
    ensures d.body.calls == CallMetrics(0.0, 0.0, 0.0, 0.0, 0.0)
    ensures d.body.revenueMetrics == RevenueMetrics(0.0, 0.0, 0.0, 0.0)
  {
    DashboardMetrics(
      MetricsBody(
        0.0, 0.0, 0.0, 0.0, [], [], [],
        SmsMetrics(0.0, 0.0, 0.0, 0.0, 0.0),
        CallMetrics(0.0, 0.0, 0.0, 0.0, 0.0),
        RevenueMetrics(0.0, 0.0, 0.0, 0.0)),
      Some([]), Some([]), range, None)
  }

  /** What GET answers for `range`: the stored record unmodified, else the demo document. */
  function Lookup(store: map<string, Record>, range: string, now: string): (doc: Record)
    ensures StoreKey(range) in store ==> doc == store[StoreKey(range)]
    ensures StoreKey(range) !in store ==> doc == ToRecord(DemoMetrics(range, now))
    ensures StoreKey(range) !in store ==> doc[RangeField] == Str(range) && doc[UpdatedAtField] == Str(now)
  {
    var key := StoreKey(range);
    if key in store then store[key] else ToRecord(DemoMetrics(range, now))
  }

  /**
   * What POST does to `store`. With a secret configured a wrong token is refused
   * with 401; without one every token passes. A bad body is then refused with 400.
   */
  function PostEffect(store: map<string, Record>, tokenHeader: Option<string>, expected: Option<string>,
                      rangeParam: Option<string>, body: Body, now: string): (e: Effect)
    ensures Configured(expected) && TokenOf(tokenHeader) != expected.value ==>
              e == Effect(Refused(401, UnauthorizedMessage), store)
    ensures (!Configured(expected) || TokenOf(tokenHeader) == expected.value) && body.Malformed? ==>
              e == Effect(Refused(400, InvalidJsonMessage), store)
    ensures e.reply.Stored? <==> (!Configured(expected) || TokenOf(tokenHeader) == expected.value) && body.Parsed?
    ensures e.reply.Status() != 500
    ensures e.reply.Refused? ==> e.store == store
    ensures e.reply.Stored? ==> e == Write(store, RangeOf(rangeParam), body.fields, now)
  {
    var token := TokenOf(tokenHeader);
    if Configured(expected) && token != expected.value then Effect(Refused(401, UnauthorizedMessage), store)
    else if body.Malformed? then Effect(Refused(400, InvalidJsonMessage), store)
    else Write(store, RangeOf(rangeParam), body.fields, now)
  }

  /**
   * A successful POST for a range followed by a GET for it gives back every
   * payload field the gateway does not own, with `_range` and `_updatedAt` set by
   * the POST; a GET for any other range sees what it saw before.
   */
  lemma PostThenGet(store: map<string, Record>, tokenHeader: Option<string>, expected: Option<string>,
                    rangeParam: Option<string>, payload: Record, now: string, later: string, other: string)
    requires !Configured(expected) || TokenOf(tokenHeader) == expected.value
    ensures var e := PostEffect(store, tokenHeader, expected, rangeParam, Parsed(payload), now);
            var doc := Lookup(e.store, RangeOf(rangeParam), later);
            && doc.Keys == payload.Keys + {RangeField, UpdatedAtField}
            && doc[RangeField] == Str(RangeOf(rangeParam))
            && doc[UpdatedAtField] == Str(now)
            && (forall k :: k in payload && k != RangeField && k != UpdatedAtField ==> doc[k] == payload[k])
    ensures other != RangeOf(rangeParam) ==>
              Lookup(PostEffect(store, tokenHeader, expected, rangeParam, Parsed(payload), now).store, other, later)
              == Lookup(store, other, later)
  {
    var range := RangeOf(rangeParam);
    if other != range {
      StoreKeyInjective(other, range);
    }
  }

  /** The route module: its own `metricsStore` table, GET and POST. */
  class Route {
    var metricsStore: map<string, Record>

    constructor ()
      ensures metricsStore == map[]
    {
      metricsStore := map[];
    }

    /** Handles one GET; it has no `modifies` clause, so it changes nothing. */
    method Get(rangeParam: Option<string>, now: string) returns (doc: Record)
      ensures doc == Lookup(metricsStore, RangeOf(rangeParam), now)
    {
      var range := RangeOf(rangeParam);
      var key := StoreKey(range);
      if key !in metricsStore {
        return ToRecord(DemoMetrics(range, now));
      }
      doc := metricsStore[key];
    }

    /** Handles one POST; `expected` is `WORKER_INGEST_TOKEN`, `now` the clock reading. */
    method Post(tokenHeader: Option<string>, expected: Option<string>, rangeParam: Option<string>,
                body: Body, now: string) returns (reply: PostReply)
      modifies this
      ensures Effect(reply, metricsStore) == PostEffect(old(metricsStore), tokenHeader, expected, rangeParam, body, now)
      ensures reply.Refused? ==> metricsStore == old(metricsStore)
    {
      var token := TokenOf(tokenHeader);
      if Configured(expected) && token != expected.value {
        return Refused(401, UnauthorizedMessage);
      }
      var range := RangeOf(rangeParam);
      if body.Malformed? {
        return Refused(400, InvalidJsonMessage);
      }
      var record := Stamp(body.fields, range, now);
      var key := StoreKey(range);
      metricsStore := metricsStore[key := record];
      reply := Stored(key, record[UpdatedAtField].s);
    }
  }

  /**
   * Submitting `{totalLeads: 10, revenue: 500}` for `7d` with the right token and
   * reading `7d` back.
   */
  method SubmitThenQuery(secret: string, now: string, later: string) returns (reply: PostReply, doc: Record)
    requires secret != ""
    ensures reply == Stored("latest_7d", now)
    ensures doc.Keys == {"totalLeads", "revenue", RangeField, UpdatedAtField}
    ensures doc["totalLeads"] == Num(10.0) && doc["revenue"] == Num(500.0)
    ensures doc[RangeField] == Str("7d") && doc[UpdatedAtField] == Str(now)
  {
    var route := new Route();
    var payload := map["totalLeads" := Num(10.0), "revenue" := Num(500.0)];
    reply := route.Post(Some(secret), Some(secret), Some("7d"), Parsed(payload), now);
    doc := route.Get(Some("7d"), later);
  }
}
