/**
 * The Cloudflare worker: path dispatch, the time window of a range, and the
 * revenue figures it derives from the payment platform's transaction list.
 * The upstream HTTP call is a parameter: it is given the window and answers
 * with the parsed reply, or with nothing when the call throws.
 */
module Worker {
  import opened Wrappers
  import opened MetricsTypes
  import Gateway

  // ---- the upstream reply ----

  /**
   * One transaction as the aggregation reads it. A status is `None` when the
   * property is missing or is not a string (a truthy non-string status is treated
   * as absent too); an amount is integer cents, `None` when missing or not a number.
   */
  datatype Transaction = Transaction(
    status: Option<string>,
    transactionStatus: Option<string>,
    amount: Option<int>,
    totalAmount: Option<int>)

  /** A property of the reply, as far as `||` and `.filter` can tell it apart. */
  datatype Prop = Missing | FalsyValue | ListValue(items: seq<Transaction>) | OtherTruthy {
    predicate Truthy() {
      ListValue? || OtherTruthy?
    }
  }

  /** The `data` property: also possibly an object with its own `transactions`. */
  datatype DataProp = DataMissing | DataFalsy | DataList(items: seq<Transaction>) | DataObject(transactions: Prop) | DataOtherTruthy {
    predicate Truthy() {
      DataList? || DataObject? || DataOtherTruthy?
    }

    /** `tx.data?.transactions`: only an object has that property. */
    function Transactions(): Prop {
      if DataObject? then transactions else Missing
    }
  }

  datatype Reply = Reply(transactions: Prop, data: DataProp)

  /**
   * `tx?.transactions || tx?.data?.transactions || tx?.data || []`, then used as
   * an array: `None` when the value chosen is truthy but not an array, where
   * `.filter` throws.
   */
  function Items(tx: Reply): (r: Option<seq<Transaction>>)
    // an array under `transactions` wins, even an empty one
    ensures tx.transactions.ListValue? ==> r == Some(tx.transactions.items)
    ensures tx.transactions.OtherTruthy? ==> r.None?
    ensures !tx.transactions.Truthy() && tx.data.DataObject? && tx.data.transactions.ListValue? ==>
              r == Some(tx.data.transactions.items)
    ensures !tx.transactions.Truthy() && tx.data.DataList? ==> r == Some(tx.data.items)
    ensures !tx.transactions.Truthy() && tx.data.DataObject? && !tx.data.transactions.ListValue? ==> r.None?
    ensures !tx.transactions.Truthy() && tx.data.DataOtherTruthy? ==> r.None?
    ensures !tx.transactions.Truthy() && !tx.data.Truthy() ==> r == Some([])
  {
    var chosen :=
      if tx.transactions.Truthy() then tx.transactions
      else if tx.data.Transactions().Truthy() then tx.data.Transactions()
      else if tx.data.DataList? then ListValue(tx.data.items)
      else if tx.data.Truthy() then OtherTruthy
      else ListValue([]);
    if chosen.ListValue? then Some(chosen.items) else None
  }

  // ---- the success filter ----

  function LowerChar(c: char): char {
    if IsUpper(c) then (c as int + 32) as char else c
  }

  predicate IsUpper(c: char) {
    'A' <= c <= 'Z'
  }

  /** `toLowerCase`, for ASCII letters. */
  function Lower(s: string): (r: string)
    ensures |r| == |s|
    // each capital becomes its small letter, 32 code points further on
    ensures forall i :: 0 <= i < |s| && IsUpper(s[i]) ==> r[i] == (s[i] as int + 32) as char && 'a' <= r[i] <= 'z'
    // every other character is kept
    ensures forall i :: 0 <= i < |s| && !IsUpper(s[i]) ==> r[i] == s[i]
    // no capital is left
    ensures forall i :: 0 <= i < |r| ==> !IsUpper(r[i])
  {
    seq(|s|, i requires 0 <= i < |s| => LowerChar(s[i]))
  }

  predicate OccursAt(s: string, pattern: string, i: int)
    requires 0 <= i <= |s| - |pattern|
  {
    s[i..i + |pattern|] == pattern
  }

  /** `s.includes(pattern)`. */
  predicate Contains(s: string, pattern: string) {
    exists i :: 0 <= i <= |s| - |pattern| && OccursAt(s, pattern, i)
  }

  function Truthy(o: Option<string>): bool {
    o.Some? && o.value != ""
  }

  /** `String(t.status || t.transactionStatus || "").toLowerCase()`. */
  function StatusText(t: Transaction): (s: string)
    // a non-empty `status` wins; an empty one falls through to `transactionStatus`
    ensures Truthy(t.status) ==> s == Lower(t.status.value)
    ensures !Truthy(t.status) && Truthy(t.transactionStatus) ==> s == Lower(t.transactionStatus.value)
    ensures !Truthy(t.status) && !Truthy(t.transactionStatus) ==> s == ""
    ensures forall i :: 0 <= i < |s| ==> !IsUpper(s[i])
  {
    Lower(if Truthy(t.status) then t.status.value
          else if Truthy(t.transactionStatus) then t.transactionStatus.value
          else "")
  }

  /** The filter predicate: the status mentions success, payment or completion anywhere. */
  predicate Successful(t: Transaction)
    // the shortest of the three words has four letters
    ensures Successful(t) ==> |StatusText(t)| >= 4
    ensures !Truthy(t.status) && !Truthy(t.transactionStatus) ==> !Successful(t)
  {
    var s := StatusText(t);
    Contains(s, "success") || Contains(s, "paid") || Contains(s, "completed")
  }

  /** `Number(t.amount) || Number(t.totalAmount) || 0`: a zero amount falls through too. */
  function AmountCents(t: Transaction): (c: int)
    ensures t.amount.Some? && t.amount.value != 0 ==> c == t.amount.value
    ensures (t.amount.None? || t.amount == Some(0)) ==> c == t.totalAmount.GetOr(0)
  {
    if t.amount.Some? && t.amount.value != 0 then t.amount.value
    else if t.totalAmount.Some? then t.totalAmount.value
    else 0
  }

  /** `items.filter(...)`: the successful transactions, in their order. */
  function SuccessfulOf(items: seq<Transaction>): (r: seq<Transaction>)
    ensures |r| <= |items|
    ensures multiset(r) <= multiset(items)
    ensures forall t :: t in r ==> Successful(t)
    ensures forall t :: t in items && Successful(t) ==> t in r
  {
    if items == [] then []
    else
      var rest := SuccessfulOf(items[1..]);
      assert items == [items[0]] + items[1..];
      if Successful(items[0]) then [items[0]] + rest else rest
  }

  /** Each successful transaction is kept as often as it occurs; the others are dropped. */
  lemma {:induction false} SuccessfulOfCounts(items: seq<Transaction>, t: Transaction)
    ensures multiset(SuccessfulOf(items))[t] == if Successful(t) then multiset(items)[t] else 0
  {
    if items != [] {
      var head, tail := items[0], items[1..];
      SuccessfulOfCounts(tail, t);
      assert items == [head] + tail;
      assert multiset(items) == multiset([head]) + multiset(tail);
      if Successful(head) {
        assert SuccessfulOf(items) == [head] + SuccessfulOf(tail);
        assert multiset(SuccessfulOf(items)) == multiset([head]) + multiset(SuccessfulOf(tail));
      } else {
        assert SuccessfulOf(items) == SuccessfulOf(tail);
      }
    }
  }

  lemma {:induction false} SuccessfulOfAppend(a: seq<Transaction>, b: seq<Transaction>)
    ensures SuccessfulOf(a + b) == SuccessfulOf(a) + SuccessfulOf(b)
  {
    if a == [] {
      assert a + b == b;
    } else {
      assert (a + b)[1..] == a[1..] + b;
      SuccessfulOfAppend(a[1..], b);
    }
  }

  // ---- the revenue sum ----

  /** The `reduce`: the sum of the amounts of a list, in cents. */
  function SumCents(xs: seq<Transaction>): (c: int)
    ensures xs == [] ==> c == 0
    ensures (forall i :: 0 <= i < |xs| ==> AmountCents(xs[i]) >= 0) ==> c >= 0
  {
    if xs == [] then 0 else AmountCents(xs[0]) + SumCents(xs[1..])
  }

  lemma {:induction false} SumCentsAppend(a: seq<Transaction>, b: seq<Transaction>)
    ensures SumCents(a + b) == SumCents(a) + SumCents(b)
  {
    if a == [] {
      assert a + b == b;
    } else {
      assert (a + b)[1..] == a[1..] + b;
      SumCentsAppend(a[1..], b);
    }
  }

  /** `revenueRaw`, in cents. */
  function RevenueCents(items: seq<Transaction>): (c: int)
    ensures c == SuccessfulCents(items)
  {
    FilteredSumIsSuccessfulCents(items);
    SumCents(SuccessfulOf(items))
  }

  /** The same sum over every item, counting an unsuccessful one as 0. */
  function SuccessfulCents(items: seq<Transaction>): int {
    if items == [] then 0
    else (if Successful(items[0]) then AmountCents(items[0]) else 0) + SuccessfulCents(items[1..])
  }

  /** Only successful transactions contribute to the sum of the filtered list, each with its whole amount. */
  lemma {:induction false} FilteredSumIsSuccessfulCents(items: seq<Transaction>)
    ensures SumCents(SuccessfulOf(items)) == SuccessfulCents(items)
  {
    if items != [] {
      FilteredSumIsSuccessfulCents(items[1..]);
      if Successful(items[0]) {
        var rest := SuccessfulOf(items[1..]);
        assert ([items[0]] + rest)[1..] == rest;
      }
    }
  }

  /** A transaction added at the end raises the revenue by its amount if successful, else by nothing. */
  lemma AppendTransaction(items: seq<Transaction>, t: Transaction)
    ensures RevenueCents(items + [t]) == RevenueCents(items) + (if Successful(t) then AmountCents(t) else 0)
    ensures |SuccessfulOf(items + [t])| == |SuccessfulOf(items)| + (if Successful(t) then 1 else 0)
  {
    SuccessfulOfAppend(items, [t]);
    SumCentsAppend(SuccessfulOf(items), SuccessfulOf([t]));
    assert SuccessfulOf([t]) == (if Successful(t) then [t] else []) by {
      assert [t][1..] == [];
    }
  }

  /** The `/metrics` body for a list of transactions; revenue is cents / 100. */
  function MetricsOf(items: seq<Transaction>): (b: MetricsBody)
    ensures b.revenue == b.revenueMetrics.totalRevenue == RevenueCents(items) as real / 100.0
    ensures b.revenueMetrics.transactions == |items| as real
    ensures b.revenueMetrics.successful == |SuccessfulOf(items)| as real
    ensures b.revenueMetrics.successful <= b.revenueMetrics.transactions
    // the average is over every item, not only the successful ones
    ensures b.revenueMetrics.avgTransaction == if items == [] then 0.0 else b.revenue / |items| as real
    ensures b.totalLeads == b.appointments == b.showRate == 0.0
    ensures b.leadSources == [] && b.apptTypes == [] && b.topAds == []
    ensures b.sms == SmsMetrics(0.0, 0.0, 0.0, 0.0, 0.0) && b.calls == CallMetrics(0.0, 0.0, 0.0, 0.0, 0.0)
  {
    var successful := SuccessfulOf(items);
    var revenue := RevenueCents(items) as real / 100.0;
    MetricsBody(
      0.0, 0.0, 0.0, revenue, [], [], [],
      SmsMetrics(0.0, 0.0, 0.0, 0.0, 0.0),
      CallMetrics(0.0, 0.0, 0.0, 0.0, 0.0),
      RevenueMetrics(revenue, |items| as real, if |items| > 0 then revenue / |items| as real else 0.0,
                     |successful| as real))
  }

  // ---- ranges and dispatch ----

  /** The window a range asks the payment platform for: a number of days back, or since a year. */
  datatype Window = LastDays(days: nat) | AllTime(sinceYear: nat)

  /** `computeRange`, without the calendar arithmetic: which window each key selects. */
  function ComputeRange(key: string): (w: Window)
    ensures key == "7d" ==> w == LastDays(7)
    ensures key == "30d" ==> w == LastDays(30)
    ensures key == "90d" ==> w == LastDays(90)
    ensures key != "7d" && key != "30d" && key != "90d" ==> w == AllTime(2000)
  {
    if key == "7d" then LastDays(7)
    else if key == "30d" then LastDays(30)
    else if key == "90d" then LastDays(90)
    else AllTime(2000)
  }

  /** Each dashboard range selects its own window; only `all` reaches back to 2000. */
  lemma ComputeRangeOfTimeRange(t: TimeRange)
    ensures ComputeRange(t.Key()).AllTime? <==> t == All
    ensures t != All ==> ComputeRange(t.Key()).days in {7, 30, 90}
  {
  }

  /** A request: `verb` is its HTTP method (`method` is a Dafny keyword), `path` its URL path. */
  datatype Request = Request(verb: string, path: string, rangeParam: Option<string>)

  /** The worker's answers: CORS preflight, health, metrics JSON, an uncaught exception, not found. */
  datatype Response = Preflight | Health | MetricsJson(body: MetricsBody) | Crashed | NotFound {
    function Status(): nat {
      match this
      case NotFound => 404
      case Crashed => 500
      case _ => 200
    }
  }

  /** The `/metrics` answer for what the upstream call gave. */
  function MetricsResponse(tx: Option<Reply>): (resp: Response)
    ensures resp.MetricsJson? <==> tx.Some? && Items(tx.value).Some?
    ensures resp.MetricsJson? ==> resp.body == MetricsOf(Items(tx.value).value)
    ensures !resp.MetricsJson? ==> resp == Crashed
  {
    match tx
    case None => Crashed
    case Some(reply) =>
      match Items(reply)
      case None => Crashed
      case Some(items) => MetricsJson(MetricsOf(items))
  }

  /** `fetch`: OPTIONS first, then the path. */
  function Fetch(req: Request, upstream: Window -> Option<Reply>): (resp: Response)
    ensures req.verb == "OPTIONS" ==> resp == Preflight
    ensures req.verb != "OPTIONS" && (req.path == "/" || req.path == "/health") ==> resp == Health
    ensures req.verb != "OPTIONS" && req.path == "/metrics" ==>
              resp == MetricsResponse(upstream(ComputeRange(Gateway.RangeOf(req.rangeParam))))
    ensures req.verb != "OPTIONS" && req.path != "/" && req.path != "/health" && req.path != "/metrics" ==>
              resp == NotFound
    ensures resp.Status() == 404 <==> resp == NotFound
  {
    if req.verb == "OPTIONS" then Preflight
    else if req.path == "/" || req.path == "/health" then Health
    else if req.path == "/metrics" then
      var range := Gateway.RangeOf(req.rangeParam);
      MetricsResponse(upstream(ComputeRange(range)))
    else NotFound
  }

  /** The substring test counts an "unpaid" status as successful. */
  lemma UnpaidCountsAsSuccessful(t: Transaction)
    requires t.status == Some("Unpaid")
    ensures Successful(t)
  {
    assert StatusText(t) == "unpaid";
    assert OccursAt("unpaid", "paid", 2);
  }

  /** A status without any of the three words is not successful, e.g. "Pending". */
  lemma PendingIsNotSuccessful(t: Transaction)
    requires t.status == Some("Pending")
    ensures !Successful(t)
  {
    var s := StatusText(t);
    assert s == "pending";
    forall i | 0 <= i <= |s| - 4 ensures !OccursAt(s, "paid", i) {
      assert s[i] != 'p' || s[i + 1] != 'a';
    }
  }
}
