/**
 * The shapes of the dashboard's metrics documents and their JSON form.
 * A `number` of the source is a `real` here; IEEE doubles are not modelled.
 */
module MetricsTypes {
  import opened Wrappers
  import opened Json

  /** Field names the gateways own in every stored document. */
  const RangeField := "_range"
  const UpdatedAtField := "_updatedAt"

  /** One labelled count (`label` is a Dafny keyword, so the field is `name`); lead sources, appointment types and calendars share this shape. */
  datatype LabelCount = LabelCount(name: string, count: real)
  type LeadSource = LabelCount
  type AppointmentType = LabelCount
  type CalendarStats = LabelCount

  datatype SetterStats = SetterStats(name: string, count: real, calls: Option<real>, bookedRate: Option<real>)

  datatype TopAd = TopAd(name: string, adId: string, leads: real, appts: real, convRate: real, roi: Option<real>)

  datatype SmsMetrics = SmsMetrics(total: real, inbound: real, outbound: real, delivered: real, responseRate: real)

  datatype CallMetrics = CallMetrics(total: real, inbound: real, outbound: real, completed: real, avgDurationSec: real)

  datatype RevenueMetrics = RevenueMetrics(totalRevenue: real, transactions: real, avgTransaction: real, successful: real)

  /** The fields every metrics document carries; this is all the worker's `/metrics` body has. */
  datatype MetricsBody = MetricsBody(
    totalLeads: real,
    appointments: real,
    showRate: real,
    revenue: real,
    leadSources: seq<LeadSource>,
    apptTypes: seq<AppointmentType>,
    topAds: seq<TopAd>,
    sms: SmsMetrics,
    calls: CallMetrics,
    revenueMetrics: RevenueMetrics)

  /** `DashboardMetrics`: the body, the two optional lists, and the two gateway-owned fields. */
  datatype DashboardMetrics = DashboardMetrics(
    body: MetricsBody,
    setters: Option<seq<SetterStats>>,
    calendars: Option<seq<CalendarStats>>,
    range: string,
    updatedAt: Option<string>)

  /** `TimeRange`, the ranges the dashboard offers. */
  datatype TimeRange = All | Last7Days | Last30Days | Last90Days {
    function Key(): (key: string)
      ensures key == "all" || key == "7d" || key == "30d" || key == "90d"
    {
      match this
      case All => "all"
      case Last7Days => "7d"
      case Last30Days => "30d"
      case Last90Days => "90d"
    }
  }

  /**
   * The range whose key is `key`, if it is one of the four. It only says which
   * strings belong to the `TimeRange` union: the gateways and the worker take
   * any range string and never parse it against this list.
   */
  function ParseTimeRange(key: string): (t: Option<TimeRange>)
    ensures t.Some? ==> t.value.Key() == key
    ensures (key == "all" || key == "7d" || key == "30d" || key == "90d") ==> t.Some?
  {
    match key
    case "all" => Some(All)
    case "7d" => Some(Last7Days)
    case "30d" => Some(Last30Days)
    case "90d" => Some(Last90Days)
    case _ => None
  }

  lemma TimeRangeKeyRoundTrip(t: TimeRange)
    ensures ParseTimeRange(t.Key()) == Some(t)
  {
  }

  /** The sum of the counts of a list of labelled counts. */
  function CountTotal(xs: seq<LabelCount>): real {
    if xs == [] then 0.0 else xs[0].count + CountTotal(xs[1..])
  }

  // ---- JSON form ----

  function NumOrNull(x: Option<real>): Value {
    match x
    case Some(v) => Num(v)
    case None => Null
  }

  function LabelCountValue(x: LabelCount): Value {
    Obj(map["label" := Str(x.name), "count" := Num(x.count)])
  }

  /** Optional fields of a setter are omitted from the object when absent. */
  function SetterValue(x: SetterStats): Value {
    var base := map["label" := Str(x.name), "count" := Num(x.count)];
    var withCalls := if x.calls.Some? then base["calls" := Num(x.calls.value)] else base;
    Obj(if x.bookedRate.Some? then withCalls["bookedRate" := Num(x.bookedRate.value)] else withCalls)
  }

  function TopAdValue(x: TopAd): Value {
    Obj(map[
      "label" := Str(x.name), "adId" := Str(x.adId), "leads" := Num(x.leads),
      "appts" := Num(x.appts), "convRate" := Num(x.convRate), "roi" := NumOrNull(x.roi)])
  }

  function SmsValue(x: SmsMetrics): Value {
    Obj(map[
      "total" := Num(x.total), "inbound" := Num(x.inbound), "outbound" := Num(x.outbound),
      "delivered" := Num(x.delivered), "responseRate" := Num(x.responseRate)])
  }

  function CallsValue(x: CallMetrics): Value {
    Obj(map[
      "total" := Num(x.total), "inbound" := Num(x.inbound), "outbound" := Num(x.outbound),
      "completed" := Num(x.completed), "avgDurationSec" := Num(x.avgDurationSec)])
  }

  function RevenueValue(x: RevenueMetrics): Value {
    Obj(map[
      "totalRevenue" := Num(x.totalRevenue), "transactions" := Num(x.transactions),
      "avgTransaction" := Num(x.avgTransaction), "successful" := Num(x.successful)])
  }

  function ListOf<T>(xs: seq<T>, f: T -> Value): (v: Value)
    ensures v.Arr? && |v.elems| == |xs|
    ensures forall i :: 0 <= i < |xs| ==> v.elems[i] == f(xs[i])
  {
    Arr(seq(|xs|, i requires 0 <= i < |xs| => f(xs[i])))
  }

  /** The keys of the JSON object of a `MetricsBody`. */
  const BodyKeys: set<string> := {
    "totalLeads", "appointments", "showRate", "revenue", "leadSources", "apptTypes",
    "topAds", "sms", "calls", "revenueMetrics"}

  function BodyRecord(b: MetricsBody): (r: Record)
    ensures r.Keys == BodyKeys
    ensures r["totalLeads"] == Num(b.totalLeads) && r["appointments"] == Num(b.appointments)
    ensures r["showRate"] == Num(b.showRate) && r["revenue"] == Num(b.revenue)
    ensures r["leadSources"] == ListOf(b.leadSources, LabelCountValue)
    ensures r["apptTypes"] == ListOf(b.apptTypes, LabelCountValue)
    ensures r["topAds"] == ListOf(b.topAds, TopAdValue)
    ensures r["sms"] == SmsValue(b.sms) && r["calls"] == CallsValue(b.calls)
    ensures r["revenueMetrics"] == RevenueValue(b.revenueMetrics)
  {
    map[
      "totalLeads" := Num(b.totalLeads),
      "appointments" := Num(b.appointments),
      "showRate" := Num(b.showRate),
      "revenue" := Num(b.revenue),
      "leadSources" := ListOf(b.leadSources, LabelCountValue),
      "apptTypes" := ListOf(b.apptTypes, LabelCountValue),
      "topAds" := ListOf(b.topAds, TopAdValue),
      "sms" := SmsValue(b.sms),
      "calls" := CallsValue(b.calls),
      "revenueMetrics" := RevenueValue(b.revenueMetrics)]
  }

  /** None of the optional or gateway-owned field names is a body field, and they differ from each other. */
  lemma ExtraKeysDistinct()
    ensures RangeField !in BodyKeys && UpdatedAtField !in BodyKeys
    ensures "setters" !in BodyKeys && "calendars" !in BodyKeys
    ensures RangeField != UpdatedAtField
    ensures "setters" !in {RangeField, UpdatedAtField, "calendars"} && "calendars" !in {RangeField, UpdatedAtField}
  {
  }

  /** The union of two records with no key in common keeps every field of each. */
  lemma DisjointUnion(a: Record, b: Record)
    requires a.Keys !! b.Keys
    ensures (a + b).Keys == a.Keys + b.Keys
    ensures forall k :: k in a ==> (a + b)[k] == a[k]
    ensures forall k :: k in b ==> (a + b)[k] == b[k]
  {
  }

  /** The keys of a document's JSON object beyond the body's: the two stamps and the lists present. */
  function ExtraKeys(d: DashboardMetrics): set<string> {
    {RangeField, UpdatedAtField}
    + (if d.setters.Some? then {"setters"} else {})
    + (if d.calendars.Some? then {"calendars"} else {})
  }

  lemma ExtraKeysDisjoint(d: DashboardMetrics)
    ensures ExtraKeys(d) !! BodyKeys
  {
    ExtraKeysDistinct();
    forall k | k in ExtraKeys(d) ensures k !in BodyKeys {
    }
  }

  /** The fields of a document's JSON object that are not body fields. */
  function ExtraRecord(d: DashboardMetrics): (r: Record)
    ensures r.Keys == ExtraKeys(d)
    ensures r[RangeField] == Str(d.range)
    ensures r[UpdatedAtField] == if d.updatedAt.Some? then Str(d.updatedAt.value) else Null
    ensures d.setters.Some? ==> r["setters"] == ListOf(d.setters.value, SetterValue)
    ensures d.calendars.Some? ==> r["calendars"] == ListOf(d.calendars.value, LabelCountValue)
  {
    var stamps := map[RangeField := Str(d.range), UpdatedAtField := if d.updatedAt.Some? then Str(d.updatedAt.value) else Null];
    var setters := if d.setters.Some? then map["setters" := ListOf(d.setters.value, SetterValue)] else map[];
    var calendars := if d.calendars.Some? then map["calendars" := ListOf(d.calendars.value, LabelCountValue)] else map[];
    ExtraKeysDistinct();
    setters + calendars + stamps
  }

  /**
   * The JSON object of a document: exactly the body's fields, `setters` and
   * `calendars` only when present, `_range`, and `_updatedAt` as a string or `null`.
   */
  function ToRecord(d: DashboardMetrics): (r: Record)
    ensures r.Keys == ExtraKeys(d) + BodyKeys
    ensures RangeField in r && r[RangeField] == Str(d.range)
    ensures UpdatedAtField in r && r[UpdatedAtField] == if d.updatedAt.Some? then Str(d.updatedAt.value) else Null
    ensures d.setters.Some? ==> "setters" in r && r["setters"] == ListOf(d.setters.value, SetterValue)
    ensures d.calendars.Some? ==> "calendars" in r && r["calendars"] == ListOf(d.calendars.value, LabelCountValue)
    ensures forall k :: k in BodyKeys ==> k in r && r[k] == BodyRecord(d.body)[k]
  {
    var extra := ExtraRecord(d);
    var body := BodyRecord(d.body);
    ExtraKeysDisjoint(d);
    DisjointUnion(extra, body);
    extra + body
  }
}
