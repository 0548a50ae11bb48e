/**
 * The two route modules side by side. Each declares its own `metricsStore`, so
 * an ingest write is not visible to a metrics read.
 */
module Routes {
  import opened Wrappers
  import opened Json
  import opened MetricsTypes
  import opened Gateway
  import IngestApi
  import MetricsApi

  /**
   * Any ingest POST, on any pair of routes, leaves the metrics route's table as
   * it was, so a later metrics GET answers from the table as it stood before.
   */
  method IngestLeavesMetricsTable(ingest: IngestApi.Route, metrics: MetricsApi.Route,
                                  tokenHeader: Option<string>, expected: Option<string>, rangeParam: Option<string>,
                                  body: Body, now: string, queryRange: Option<string>, later: string)
    returns (reply: PostReply, doc: Record)
    modifies ingest
    ensures Effect(reply, ingest.metricsStore) ==
            IngestApi.PostEffect(old(ingest.metricsStore), tokenHeader, expected, rangeParam, body, now)
    ensures metrics.metricsStore == old(metrics.metricsStore)
    ensures doc == MetricsApi.Lookup(old(metrics.metricsStore), RangeOf(queryRange), later)
  {
    reply := ingest.Post(tokenHeader, expected, rangeParam, body, now);
    doc := metrics.Get(queryRange, later);
  }

  /**
   * A successful ingest for a range followed by a metrics GET for the same range:
   * the GET still answers with demonstration data.
   */
  method IngestThenQueryMetrics(secret: string, payload: Record, now: string, later: string)
    returns (reply: PostReply, doc: Record)
    requires secret != ""
    ensures reply == Stored(StoreKey("7d"), now)
    ensures doc == ToRecord(MetricsApi.DemoMetrics("7d", later))
  {
    var ingest := new IngestApi.Route();
    var metrics := new MetricsApi.Route();
    reply := ingest.Post(Some(secret), Some(secret), Some("7d"), Parsed(payload), now);
    doc := metrics.Get(Some("7d"), later);
  }
}
