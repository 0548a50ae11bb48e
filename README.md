# GHL dashboard: snapshot gateways, metric helpers and worker aggregation in Dafny

This project models the parts of a marketing-analytics dashboard that have behaviour you can state and check:

- **The two Next.js API routes.** `app/api/ingest/route.ts` and `app/api/metrics/route.ts` each keep an in-memory table of metrics snapshots. The key is `latest_<range>`.
  - Each POST handler runs its checks in order: configured secret (ingest only), token, then JSON body. It then stamps the payload with `_range` and `_updatedAt` and writes one key.
  - The metrics GET returns the stored snapshot, or demonstration data when nothing is stored for that range.
  - Each route is a `class Route` whose `metricsStore` field is a `map<string, Record>`. Its methods are proved against pure functions (`PostEffect`, `Lookup`) that give the reply and the new table. The lemmas are stated about those functions.
  - The two routes declare separate tables. In Dafny they are two classes with two fields. `Routes.IngestLeavesMetricsTable` proves, for any pair of routes, that an ingest POST leaves the metrics table unchanged, so a later metrics GET answers from the table as it was. `Routes.IngestThenQueryMetrics` works the case of a fresh pair of routes: after a successful ingest for `7d`, the GET for `7d` still gives demonstration data.
- **The numeric helpers of `lib/utils.ts`.** Percent clamping, percentages and the `Mm Ss` duration text, over `real` and `nat`. `Option` stands for `null`, `undefined` and `NaN`.
- **The Cloudflare worker in `src/index.js`.** Its dispatch on method and path, the key-to-window choice of `computeRange`, and the `/metrics` aggregation:
  - a fallback chain picks the transaction list;
  - a substring filter picks the successful transactions;
  - their amounts (integer cents) are summed;
  - the result is shaped into a `revenueMetrics` record, with revenue = cents / 100.

Inputs the code reads from outside become parameters:
- the `x-ingest-token` header, the `range` query parameter and the parsed body: `Option<string>`, `Option<string>`, `Body = Parsed(Record) | Malformed`;
- `WORKER_INGEST_TOKEN`: `Option<string>`;
- the clock reading used for `_updatedAt`: `now: string`;
- the worker's upstream payments call: a function from the requested `Window` to the parsed reply, or `None` when the call throws.

Modules: `Wrappers` (Option), `Json` (JSON values and records), `MetricsTypes` (the record shapes of `lib/types.ts` and their JSON form), `Gateway` (code both POST handlers repeat verbatim), `IngestApi`, `MetricsApi`, `Routes`, `Utils`, `Worker`.

Behaviour worth noting in the code:
- The ingest route does not write to the table the metrics GET reads. Each route module declares its own `metricsStore` (`app/api/ingest/route.ts:4`, `app/api/metrics/route.ts:4`). The export at `app/api/metrics/route.ts:7` is never imported by the ingest route.
- The GET fallback is `demoMetrics`, and its `_updatedAt` is the current time, not `null`. `emptyMetrics`, the document with `_updatedAt: null`, is defined but never used.
- An unrecognised `range` is not mapped to `all`. Only a missing or empty parameter becomes `"all"`; any other string is used as it is in the key.

## Model

| member | source | states |
|---|---|---|
| `Gateway.TokenOf` | app/api/ingest/route.ts:19 | a missing token header reads as the empty string; a present one is taken as it is |
| `Gateway.RangeOf` | app/api/ingest/route.ts:37 | a missing or empty `range` becomes `"all"`; any other value is kept; the result is never empty |
| `Gateway.Configured` | app/api/ingest/route.ts:22 | a missing or empty `WORKER_INGEST_TOKEN` counts as not configured; a configured secret is a non-empty string |
| `Gateway.StoreKey` | app/api/ingest/route.ts:55 | the key is `latest_` followed by the range, with nothing else |
| `Gateway.StoreKeyInjective` | app/api/ingest/route.ts:55 | two ranges get the same `latest_` key exactly when they are equal |
| `Gateway.Stamp` | app/api/ingest/route.ts:49-53 | the record has the payload's keys plus `_range` and `_updatedAt`; those two come from the gateway even if the payload has them; every other payload field is kept unchanged |
| `Gateway.Write` | app/api/ingest/route.ts:55-60 | the reply is 200 with `storedKey = latest_<range>` and `updatedAt = now`; that key holds the stamped record; every other key keeps its old value and no other key appears |
| `Gateway.WriteTwice` | app/api/metrics/route.ts:136 | a second write to the same range overwrites the first entirely (last write wins) |
| `IngestApi.PostEffect` | app/api/ingest/route.ts:18-61 | no configured secret: 500, whatever the token or body; otherwise a wrong token: 401, whatever the body; otherwise a malformed body: 400; every refusal leaves the table unchanged; success happens exactly when all three checks pass, and it is `Gateway.Write` |
| `IngestApi.Route.constructor` | app/api/ingest/route.ts:4 | the route's table starts empty |
| `IngestApi.Route.Post` | app/api/ingest/route.ts:18-61 | the handler's early returns and in-place write give the reply and new table `PostEffect` prescribes; after success the stored record's `_updatedAt` equals the reply's `updatedAt` |
| `MetricsApi.DemoMetrics` | app/api/metrics/route.ts:18-52 | the demo document carries the requested range and a timestamp (not null) and no setters or calendars; `revenueMetrics.totalRevenue` equals `revenue`; successful ≤ transactions; lead sources and appointment types add up to the headline counts; SMS and call totals are inbound + outbound |
| `MetricsApi.EmptyMetrics` | app/api/metrics/route.ts:54-71 | every counter is 0, every list (including setters and calendars) is empty, `_updatedAt` is null and `_range` is the requested range |
| `MetricsApi.Lookup` | app/api/metrics/route.ts:77-103 | a stored record is returned unmodified; with nothing stored, the demo document for that range is returned, whose `_range` is the requested range and whose `_updatedAt` is the current time |
| `MetricsApi.PostEffect` | app/api/metrics/route.ts:106-142 | with a configured secret, a wrong token gives 401; without one, every token (including none) passes; after auth a malformed body gives 400; refusals leave the table unchanged; there is never a 500; success is `Gateway.Write` |
| `MetricsApi.PostThenGet` | app/api/metrics/route.ts:118-136 | after a successful POST for r, a GET for r returns exactly the payload's fields plus `_range = r` and `_updatedAt` = the POST's time; a GET for any other range returns what it returned before |
| `MetricsApi.Route.constructor` | app/api/metrics/route.ts:4 | the route's table starts empty |
| `MetricsApi.Route.Get` | app/api/metrics/route.ts:77-103 | the handler answers with `Lookup` of its table; it has no modifies clause, so it never changes the table |
| `MetricsApi.Route.Post` | app/api/metrics/route.ts:106-142 | the handler's reply and the table it leaves are those `PostEffect` prescribes |
| `MetricsApi.SubmitThenQuery` | app/api/metrics/route.ts:106-142 | submitting `{totalLeads: 10, revenue: 500}` for `7d` with the right token stores it under `latest_7d`; reading `7d` back gives those two fields plus `_range: "7d"` and the write's timestamp |
| `Routes.IngestLeavesMetricsTable` | app/api/ingest/route.ts:4 | for any ingest route and metrics route, an ingest POST does what `IngestApi.PostEffect` says to its own table and leaves the metrics table unchanged; a metrics GET after it answers `Lookup` of the metrics table as it was before |
| `Routes.IngestThenQueryMetrics` | app/api/ingest/route.ts:4 | for a fresh pair of routes, after a successful ingest for `7d`, a metrics GET for `7d` still returns the demo document |
| `MetricsTypes.TimeRange.Key` | lib/types.ts:72 | every dashboard range has one of the keys `all`, `7d`, `30d`, `90d` |
| `MetricsTypes.ParseTimeRange` | lib/types.ts:79-84 | each of the four keys names a range, and the range found has that key; it stands only for membership in the `TimeRange` union, since the gateways and the worker take any range string |
| `MetricsTypes.TimeRangeKeyRoundTrip` | lib/types.ts:72-84 | reading a range's key gives back that range |
| `MetricsTypes.BodyRecord` | lib/types.ts:55-67 | as JSON, a metrics body has exactly the ten `DashboardMetrics` body fields, each holding that field's value: numbers as numbers, lists as arrays of their elements' records, `sms`, `calls` and `revenueMetrics` as objects |
| `MetricsTypes.ToRecord` | lib/types.ts:55-70 | as JSON, a document has exactly the body fields, `_range`, `_updatedAt`, and `setters`/`calendars` when present; `_range` is the range, `_updatedAt` a string or null; present setters and calendars are arrays of their entries' records; every body field holds what the body's record holds |
| `Utils.ToNumber` | lib/utils.ts:8-21 | a missing or NaN argument becomes 0; a number is kept |
| `Utils.ClampPercent` | lib/utils.ts:30-33 | the result is always in [0, 100]; it is the argument itself on [0, 100], 0 below and 100 above |
| `Utils.ClampPercentIdempotent` | lib/utils.ts:32 | clamping a clamped value changes nothing |
| `Utils.PercentOf` | lib/utils.ts:35-38 | the result is in [0, 100]; it is 0 when the total is 0 or missing; otherwise it is the clamped `part / total * 100`; for 0 ≤ part ≤ total it is `part / total * 100` unclamped |
| `Utils.MissingActsAsZero` | lib/utils.ts:23-38 | a null, undefined or NaN argument to `clampPercent`, `percentOf` or `formatDuration` gives the same result as 0 |
| `Utils.SplitDuration` | lib/utils.ts:24-26 | with m and s the minutes and seconds: m * 60 + s is the input and 0 ≤ s < 60 |
| `Utils.Decimal` | lib/utils.ts:27 | the decimal text of a whole number is non-empty, all digits, and has no leading zero; it starts with `0` exactly when the number is 0 |
| `Utils.DecimalRoundTrip` | lib/utils.ts:27 | the decimal text printed for a whole number reads back as that number |
| `Utils.DurationTextRoundTrip` | lib/utils.ts:27 | the `Mm Ss` text of a minute and second count reads back as that pair |
| `Utils.FormatDuration` | lib/utils.ts:23-28 | the text of `formatDuration` reads back as minutes m and seconds s with m * 60 + s the number of seconds given (0 for a missing argument) and s < 60, and it is exactly `${m}m ${s}s` with numerals free of leading zeros |
| `Worker.Items` | src/index.js:32-38 | items come from `tx.transactions` if truthy (an empty array counts), else `tx.data.transactions`, else `tx.data`, else `[]`; a truthy non-array choice makes `.filter` throw (`None`), including a truthy `tx.data` that is not an array and has no `transactions` |
| `Worker.Lower` | src/index.js:39 | lower-casing keeps the length; each capital A-Z becomes the small letter 32 code points on; every other character is kept; no capital is left |
| `Worker.StatusText` | src/index.js:39 | the status text is the lower-cased `status` if that is non-empty, else the lower-cased `transactionStatus` if that is non-empty, else empty; it holds no capital |
| `Worker.Successful` | src/index.js:40 | a successful transaction's status text has at least four letters; a transaction with neither status is not successful |
| `Worker.AmountCents` | src/index.js:45 | a transaction's amount is `amount` when it is a non-zero number; a zero or missing amount falls through to `totalAmount`, else 0 |
| `Worker.SuccessfulOf` | src/index.js:38-41 | the filter keeps only successful transactions, keeps all of them, and never adds any: its output is a sub-multiset of the input and no longer than it |
| `Worker.SuccessfulOfCounts` | src/index.js:38-41 | the filter keeps each successful transaction as many times as it occurs and drops every other one |
| `Worker.SuccessfulOfAppend` | src/index.js:38-41 | filtering a concatenation is concatenating the filtered parts, so order is kept |
| `Worker.SumCents` | src/index.js:44-46 | the sum of no transactions is 0; a sum of non-negative amounts is non-negative |
| `Worker.SumCentsAppend` | src/index.js:44-46 | the sum of a concatenation is the sum of the sums |
| `Worker.FilteredSumIsSuccessfulCents` | src/index.js:38-46 | the sum of the filtered list equals the sum over all items in which unsuccessful ones count 0 and successful ones count their amount |
| `Worker.RevenueCents` | src/index.js:38-46 | raw revenue is the sum over all items in which unsuccessful ones count 0 and successful ones count their amount |
| `Worker.AppendTransaction` | src/index.js:38-46 | one more transaction raises raw revenue by its amount and the successful count by 1 if it is successful, and changes neither otherwise |
| `Worker.MetricsOf` | src/index.js:49-70 | `revenue` and `revenueMetrics.totalRevenue` are equal and both are cents / 100; `transactions` is the item count; `successful` is the filtered count and at most `transactions`; `avgTransaction` is revenue over all items, 0 for none; the other counters are 0, the lists are empty, and `sms` and `calls` are all zeros |
| `Worker.ComputeRange` | src/index.js:119-128 | `7d`, `30d` and `90d` select 7, 30 and 90 days back; every other key selects all time since the year 2000 |
| `Worker.ComputeRangeOfTimeRange` | src/index.js:119-128 | of the dashboard's ranges only `all` selects all time; the others select 7, 30 or 90 days |
| `Worker.MetricsResponse` | src/index.js:16-73 | `/metrics` answers with the metrics body of the items exactly when the upstream call returned and the item chain gave an array; otherwise the worker throws |
| `Worker.Fetch` | src/index.js:2-76 | OPTIONS gets the preflight answer before any path check; otherwise `/` and `/health` get the health answer, `/metrics` the metrics answer for the window of its `range`, and every other path 404 |
| `Worker.UnpaidCountsAsSuccessful` | src/index.js:38-41 | the test is a substring test, so a status "Unpaid" counts as successful |
| `Worker.PendingIsNotSuccessful` | src/index.js:38-41 | a status "Pending" does not count as successful |

## Left out

- Spreading a non-object JSON body. `{...payload}` of an array or string yields index keys, and of a number, boolean or `null` yields nothing. The model takes a parsed body to be a JSON object (`Parsed(Record)`).
- Concurrency: requests racing on the same key. Each handler call is one atomic step here.
- Persistence: the tables are process memory, and losing them on restart is not modelled.
- CORS headers, `OPTIONS` of the two Next.js routes, `Cache-Control`, and the construction of `NextResponse`/`Response`. Replies are abstract: a status with a message, or the JSON record.
- The clock and `Date` arithmetic. `new Date().toISOString()` becomes the `now` parameter. `computeRange` is modelled only as the choice of window; the start and end dates it computes, and their ISO strings, are left out.
- `ghlGet` and the HTTP call to the payments API. They are the `upstream` parameter of `Worker.Fetch`, and `None` stands for a thrown error, such as a missing API key or location id. An upstream error reply is a response object without `transactions` or `data`, so it is `Reply(Missing, DataMissing)`, which yields no items.
- Worker: a transaction that is itself `null`. Reading `t.status` would throw; items are modelled as records.
- Worker: a truthy status that is not a string. `String(...)` of a number or object is not modelled; such a status is treated as absent.
- Worker.Lower: lower-cases ASCII letters only, not the full Unicode mapping of `toLowerCase`.
- Worker.AmountCents: amounts are whole cents. `Number(...)` of a non-numeric string (NaN) is `None`, and fractional amounts are not modelled.
- Utils: IEEE floating point (rounding, infinities, `-0`). Numbers are `real`, and `NaN` appears only as `None`.
- Utils.SplitDuration: whole non-negative seconds only. For negative or fractional seconds, `Math.floor` and JavaScript's `%` are not modelled.
- `formatNumber`, `formatMoney` and `formatPercent`: their locale-dependent text (`toLocaleString`, `toFixed`). Only their shared `Number(n) || 0` step is modelled, as `Utils.ToNumber`.
- `cn` in `lib/utils.ts`: class-name concatenation for styling.
- The React components and the data-fetching hook. They render the documents and hold no state the gateways depend on.
