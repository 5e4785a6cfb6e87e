# Cargo accounting core in Dafny

This project models the business logic of a small logistics-accounting
backend written in Python (FastAPI, SQLAlchemy, Pydantic) and proves
properties of the model. The backend tracks shipments, rates (buy and sell
price per unit), expenses per shipment, clients and suppliers.

The model covers:

- the per-shipment finance derivation: revenue, cost of goods, expenses,
  profit and margin;
- the best-effort folds in the summary, client and supplier reports and in
  the dashboard statistics. A shipment whose finance fails is skipped;
- the shipment and expense endpoints, as operations on a keyed in-memory
  store (class `Storage.Database`). This includes the unique shipment code,
  partial updates, the cascade from a shipment to its expenses, and
  offset/limit listing;
- the Pydantic field constraints, as validity predicates. A failed
  validation is a 422 that precedes every other outcome;
- the migration that back-fills `clients.client_number`;
- the admin page's Basic-authentication check, its order counters and its
  per-order label and weight/volume texts.

Modules, one per source file or shared concern:

| file | module | models |
|---|---|---|
| wrappers.dfy | Wrappers | `Option`, `Result` |
| http.dfy | Http | the HTTP errors the endpoints raise |
| models.dfy | Models | the ORM entities as records; dates and timestamps |
| queries.dfy | Queries | `.filter(...)`, `.first()`, `.offset().limit()` |
| shipment_schema.dfy, rate_schema.dfy, expense_schema.dfy | ShipmentSchema, RateSchema, ExpenseSchema | request bodies, field constraints, `model_dump(exclude_unset=True)` + `setattr` |
| storage.dfy | Storage | the tables, lookups by key, the `Database` session object |
| finance.dfy | Finance | `calculate_shipment_finance`, `calculate_shipment_with_finance` |
| aggregation.dfy | Aggregation | the skip-on-failure folds shared by reports and dashboard |
| reports.dfy | Reports | the three report endpoints |
| dashboard.dfy | Dashboard | `get_dashboard_stats`, the badge and profit classes |
| shipments_api.dfy, expenses_api.dfy | ShipmentsApi, ExpensesApi | the CRUD endpoints |
| client_number_migration.dfy | ClientNumberMigration | `upgrade()` of the client-number migration |
| admin.dfy | Admin | `check_auth` and the data shown by `admin_dashboard` |

Modelling conventions:

- Money and quantities are `real`. The Python `float` arithmetic and the
  `round(..., 2)` of the results are not modelled.
- UUID keys are `nat`. `Database.FreshId` hands them out from a counter that
  stands in for `uuid.uuid4()`.
- `created_at` is an `int` count of seconds in the session time zone. A date
  is a day number: `DayStart(d) = d * 86400` is its midnight.
- The current time is a parameter (`now`), and so are:
  - base64/UTF-8 decoding, as `decode`;
  - Python's float formatting, as `show`;
  - the configured admin password.
- The finance computations in the aggregates run over an abstract
  `Pricing` (a function from a shipment to its finance or an error).
  `Aggregation.PriceIn(t)` is the real one. The fold lemmas therefore hold
  for any pricing.

## Model

| member | source | states |
|---|---|---|
| `Http.StatusCode` | backend/app/api/shipments.py:19-22 | every modelled error is a 4xx or 5xx status, and exactly the internal error is a 5xx |
| `Queries.First` | backend/app/api/shipments.py:45 | `.first()`: the first row satisfying the filter, none before it, and none at all exactly when no row satisfies it |
| `Queries.Filter` | backend/app/api/expenses.py:30-33 | `.filter(p)`: exactly the rows satisfying `p`, none added |
| `Queries.FilterConcat` | backend/app/api/expenses.py:30-33 | filtering distributes over concatenation of the store order |
| `Queries.FilterSnoc` | backend/app/api/expenses.py:30-33 | filtering a table with one row appended adds that row exactly when it satisfies the filter |
| `Queries.Page` | backend/app/api/shipments.py:38 | `.offset(skip).limit(limit)`: at most `limit` rows, the rows from position `skip` on, empty when `skip` is past the end |
| `Queries.PagesConcatenate` | backend/app/api/expenses.py:35 | consecutive pages concatenate to one page of the combined size |
| `ShipmentSchema.NewShipment` | backend/app/schemas/shipment.py:8-17 | the stored row copies the body's code, supplier, client, rate, cargo type, quantity and both dates, takes the store's key and time, has a status (planned when none is sent), and conforms exactly when the body is valid (code 1..100 characters, cargo type at most 255, quantity > 0) |
| `ShipmentSchema.Patch` | backend/app/schemas/shipment.py:24-33 | a partial update never changes the key or creation time, and a valid update keeps a conforming row conforming |
| `ShipmentSchema.DumpThenSetAttrIsPatch` | backend/app/api/shipments.py:95-96 | the `setattr` loop over `model_dump(exclude_unset=True)` sets exactly the sent fields and keeps the rest |
| `ShipmentSchema.EmptyUpdateChangesNothing` | backend/app/schemas/shipment.py:24-33 | an update that sends nothing is valid, dumps nothing and leaves the row unchanged |
| `ShipmentSchema.PatchIdempotent` | backend/app/api/shipments.py:95-96 | sending the same update twice gives the same row as sending it once |
| `ShipmentSchema.AnyStatusTransition` | backend/app/models/shipment.py:10-13 | any status may replace any other; no transition order is enforced |
| `ShipmentSchema.NullStatusIsStored` | backend/app/schemas/shipment.py:33 | a sent `"status": null` is a valid update and its `setattr` writes NULL; a row with a status loses it exactly when the update sends null |
| `RateSchema.NewRate` | backend/app/schemas/rate.py:7-16 | the stored rate keeps the key, defaults the currency to USD, is a general rate exactly when no client is given, and conforms exactly when the body is valid (both prices > 0, currency at most 10, unit at most 20) |
| `RateSchema.Patch` | backend/app/schemas/rate.py:23-32 | a valid update keeps a conforming rate conforming; in particular both prices stay positive |
| `ExpenseSchema.NewExpense` | backend/app/schemas/expense.py:8-14 | the stored expense copies the body's shipment, expense type, amount, comment and expense date, takes the store's key and time, defaults the currency to USD, and conforms exactly when amount > 0 and the currency has at most 10 characters |
| `ExpenseSchema.Patch` | backend/app/schemas/expense.py:21-26 | an update never changes the key, the owning shipment or the creation time, and a valid update keeps a conforming expense conforming |
| `ExpenseSchema.SetAttrNeverMovesExpense` | backend/app/api/expenses.py:65-67 | no sequence of update fields, in any order, can change an expense's key, shipment or creation time |
| `ExpenseSchema.DumpThenSetAttrIsPatch` | backend/app/api/expenses.py:65-67 | the `setattr` loop over the dumped fields is exactly the reference partial update |
| `ExpenseSchema.EmptyUpdateChangesNothing` | backend/app/schemas/expense.py:21-26 | an update that sends nothing is valid and changes nothing |
| `Storage.FindShipment` | backend/app/api/shipments.py:74 | the position of the shipment with that id, and none exactly when no shipment has it |
| `Storage.ShipmentById` | backend/app/services/finance.py:18 | the stored shipment with that id, and none exactly when no shipment has it |
| `Storage.RateById` | backend/app/services/finance.py:24 | the stored rate with that id, and none exactly when no rate has it |
| `Storage.FindExpense` | backend/app/api/expenses.py:42 | the position of the expense with that id, and none exactly when no expense has it |
| `Storage.CodeHolder` | backend/app/api/shipments.py:85-88 | a shipment other than `self` that holds the code, and none exactly when every holder of the code is `self` |
| `Storage.ExpensesOf` | backend/app/services/finance.py:35-38 | exactly the expenses whose `shipment_id` is the shipment |
| `Storage.ShipmentsOfClient` | backend/app/api/reports.py:79 | exactly the shipments of that client |
| `Storage.ShipmentsOfSupplier` | backend/app/api/reports.py:127 | exactly the shipments of that supplier |
| `Storage.Database.constructor` | backend/app/models/shipment.py:20-21 | a session over tables whose ids and shipment codes are unique |
| `Storage.Database.FreshId` | backend/app/models/shipment.py:20 | a key that no shipment or expense has yet; the store's invariant is kept |
| `Finance.MarginPercentSpec` | backend/app/services/finance.py:46 | the margin is 0 whenever revenue is at most 0, and otherwise margin × revenue = profit × 100 |
| `Finance.CalculateShipmentFinance` | backend/app/services/finance.py:10-54 | shipment lookup, rate lookup, then the five figures; what it returns is stated by `CalculateShipmentFinanceSpec` |
| `Finance.CalculateShipmentFinanceSpec` | backend/app/services/finance.py:10-54 | a missing shipment fails with shipment-not-found, a missing rate fails with rate-not-found, and otherwise revenue = quantity × sell rate, cost = quantity × buy rate, expenses = the sum over its expenses, profit = revenue − cost − expenses, and the margin rule |
| `Finance.CalculateShipmentWithFinance` | backend/app/services/finance.py:57-84 | succeeds exactly when the finance does; the record copies the shipment unchanged and adds exactly its finance; a failure passes on the same error |
| `Finance.SumAmountsConcat` | backend/app/services/finance.py:36-40 | the expense total is additive over concatenation |
| `Finance.SumAmountsNonNegative` | backend/app/schemas/expense.py:11 | with every amount > 0, the total is at least 0, and above 0 when there is an expense |
| `Finance.NoExpensesNoTotal` | backend/app/services/finance.py:40 | a shipment with no expenses has total 0 |
| `Finance.RecordedExpenseAddsToItsShipment` | backend/app/api/expenses.py:15-19 | appending an expense adds its amount to its shipment's total and nothing to any other |
| `Finance.MarginBelowHundred` | backend/app/services/finance.py:46 | when profit is below revenue, the margin is below 100 |
| `Finance.ConformingFinanceBounds` | backend/app/schemas/rate.py:12 | in a store that meets the schemas, revenue > 0, cost > 0, expenses ≥ 0, profit < revenue, margin < 100, and the margin is positive exactly when profit is |
| `Finance.FinanceIsLocal` | backend/app/services/finance.py:10-54 | the result depends only on the shipment, its rate and its expenses, so two stores that agree on them give the same result |
| `Finance.OtherExpenseLeavesFinance` | backend/app/services/finance.py:36-38 | an expense of another shipment does not change this shipment's finance |
| `Finance.OwnExpenseLowersProfit` | backend/app/services/finance.py:36-43 | an own expense adds its amount to total expenses and lowers the profit by it; revenue and cost stay |
| `Finance.SeededShipmentFinance` | backend/create_initial_data.py:122-181 | the seeded shipment (500 kg at 1.78/2.10, expenses 150 and 80) gives revenue 1050, cost 890, expenses 230, profit −70 and margin −20/3 % |
| `Aggregation.PriceIn` | backend/app/api/reports.py:45 | the pricing the endpoints use: the finance service applied to the shipment's id in the current tables |
| `Aggregation.SumFinance` | backend/app/api/reports.py:43-51 | the totals after the loop has visited the shipments in order, a failed shipment adding nothing; its properties are `SumFinanceConcat`, `FailuresContributeNothing` and `ProfitIdentity` |
| `Aggregation.Priced` | backend/app/api/reports.py:43-51 | exactly the shipments whose finance succeeds |
| `Aggregation.SumFinanceConcat` | backend/app/api/reports.py:43-51 | the totals fold is additive over concatenation |
| `Aggregation.FailuresContributeNothing` | backend/app/api/reports.py:49-51 | the totals over all shipments equal the totals over the priced ones: a failure is skipped and never aborts |
| `Aggregation.CountIncludesUnpriced` | backend/app/api/reports.py:41 | when some shipment fails, the count of matched shipments exceeds the number that were priced |
| `Aggregation.PriceInKeepsProfitIdentity` | backend/app/services/finance.py:43 | every successful per-shipment finance has profit = revenue − cost − expenses |
| `Aggregation.ProfitIdentity` | backend/app/api/reports.py:43-51 | the summed profit is the summed revenue minus the summed cost and expenses |
| `Aggregation.ConformingPricingIsBounded` | backend/app/schemas/rate.py:11-12 | in a conforming store each successful finance has revenue > 0, cost ≥ 0, expenses ≥ 0 and profit < revenue |
| `Aggregation.BoundedTotals` | backend/app/api/reports.py:43-53 | for such a pricing, the totals are non-negative, total revenue is positive exactly when something was priced, and then total profit is below total revenue |
| `Aggregation.ConformingAverageMargin` | backend/app/api/reports.py:53 | over a conforming store, the average margin is below 100 |
| `Aggregation.AccumulateTotals` | backend/app/api/reports.py:43-51 | the four running totals of the report loop equal the skip-on-failure totals fold over the same shipments |
| `Aggregation.AccumulateQuantity` | backend/app/api/reports.py:89 | the running volume equals the quantity summed over the shipments |
| `Aggregation.TotalQuantityConcat` | backend/app/api/reports.py:89 | the volume sum is additive over concatenation |
| `Aggregation.PricedQuantityIsQuantityOfPriced` | backend/app/api/dashboard.py:67-74 | the dashboard's volume is the quantity summed over the priced shipments only |
| `Aggregation.PricedQuantityAtMostTotal` | backend/app/api/dashboard.py:72 | with positive quantities, that volume is at most the total quantity, and equal exactly when every shipment was priced |
| `Reports.InPeriodIsDayRange` | backend/app/api/reports.py:29-32 | the corrected period filter accepts exactly the shipments whose creation day lies between the given bounds, both inclusive; an absent bound is no filter |
| `Reports.AsWrittenMissesTheEndDay` | backend/app/api/reports.py:31-32 | one second after midnight of the end date, a shipment is in the period by date but rejected by `created_at <= date_to` |
| `Reports.AsWrittenWithinPeriod` | backend/app/api/reports.py:29-32 | the filter as written accepts nothing the inclusive-day filter rejects |
| `Reports.InRange` | backend/app/api/reports.py:29-32 | exactly the shipments the chosen filter keeps: under `AsWritten` those with `DayStart(date_from) <= created_at <= DayStart(date_to)`, as the routers compare, under `WholeDays` those created on a day within the period |
| `Reports.AsWrittenRangeWithinWholeDays` | backend/app/api/reports.py:29-32 | every shipment the routers' filter keeps the inclusive filter keeps too |
| `Reports.AsWrittenReportMissesEndDayShipment` | backend/app/api/reports.py:31-32 | for a one-day period, a shipment created one second after midnight is counted 0 times by the routers' filter and once by the inclusive one |
| `Reports.GetSummaryReport` | backend/app/api/reports.py:16-66 | for either date filter (`AsWritten` is the router as written): the count is every matched shipment; the four totals are the skip-on-failure sums of per-shipment finance over them; the average margin is 0 when total revenue is at most 0, otherwise profit over revenue × 100 |
| `Reports.GetClientReport` | backend/app/api/reports.py:69-114 | for either date filter: only that client's shipments in the period; volume sums quantity over all of them, failures included; revenue and profit are the skip-on-failure sums; same average-margin rule |
| `Reports.GetSupplierReport` | backend/app/api/reports.py:117-159 | for either date filter: only that supplier's shipments in the period; count and volume over all of them; only cost of goods and revenue, summed skipping failures; no margin |
| `Reports.OpenPeriodKeepsEverything` | backend/app/api/reports.py:29-32 | with no bound, every shipment is in range under either filter |
| `Reports.ClientReportsPartitionSummary` | backend/app/api/reports.py:79-85 | the client reports of two different clients share no shipment, and each lies inside the summary's range |
| `Dashboard.CountStatus` | backend/app/api/dashboard.py:29-31 | a status count is at most the number of shipments, and 0 exactly when no shipment has that status (a NULL status matches none) |
| `Dashboard.StatusCountsPartition` | backend/app/api/dashboard.py:29-31 | the delivered, in-transit and planned counts plus the NULL-status shipments add up to the number of shipments; without a NULL status the three counts alone do |
| `Dashboard.CompanyLabel` | backend/app/api/dashboard.py:81 | an absent or empty company name is shown as "—", any other is shown as is |
| `Dashboard.ActiveClients` | backend/app/api/dashboard.py:57-61 | exactly the clients that have at least one shipment |
| `Dashboard.ClientStats` | backend/app/api/dashboard.py:55-87 | at most one entry per client, in client order; `ClientStatsOfActiveClients` says which |
| `Dashboard.ClientStatsOfActiveClients` | backend/app/api/dashboard.py:57-87 | one entry per client with shipments, in client order, each that client's figures |
| `Dashboard.ListedClientsHaveShipments` | backend/app/api/dashboard.py:60-61 | no listed client has zero shipments |
| `Dashboard.ClientStatAgreesWithClientReport` | backend/app/api/dashboard.py:63-82 | a client's entry has the count, revenue and profit of its open-period client report, and a volume at most the report's, equal exactly when no finance failed |
| `Dashboard.InsertByProfitPermutes` | backend/app/api/dashboard.py:90 | inserting into the sorted list adds exactly that entry |
| `Dashboard.InsertByProfitSorted` | backend/app/api/dashboard.py:90 | insertion keeps the list ordered by profit, non-increasing |
| `Dashboard.InsertByProfitStable` | backend/app/api/dashboard.py:90 | insertion places a new entry after every earlier entry with the same profit |
| `Dashboard.SortByProfit` | backend/app/api/dashboard.py:90 | as many entries as it is given; `SortByProfitCorrect` proves it sorted, a permutation and stable |
| `Dashboard.SortByProfitCorrect` | backend/app/api/dashboard.py:90 | the sort is ordered by profit, non-increasing, is a permutation, and keeps ties in their original order (stable) |
| `Dashboard.DashboardHeadline` | backend/app/api/dashboard.py:22-50 | the overview counts and the finance totals as skip-on-failure sums with the guarded average margin |
| `Dashboard.GetDashboardStats` | backend/app/api/dashboard.py:20-109 | with each client's number read from the migrated column: the overview counts; the finance totals as skip-on-failure sums with the guarded average margin; the client list is the active clients' figures sorted by profit |
| `Dashboard.CollectClientStatsAsWritten` | backend/app/api/dashboard.py:55-88 | against the client ORM class as written, which has no `client_number`: the loop raises, giving a 500, exactly when some client has shipments, and otherwise lists nobody |
| `Dashboard.GetDashboardStatsAsWritten` | backend/app/api/dashboard.py:20-109 | the statistics as written: a 500 exactly when the corrected statistics would list a client; otherwise the same overview, totals and (empty) client list as `GetDashboardStats` |
| `Dashboard.OneClientShipmentBreaksDashboard` | backend/app/api/dashboard.py:79 | one client with one shipment is listed by the corrected statistics, so the statistics as written answer 500 |
| `Dashboard.CollectClientStats` | backend/app/api/dashboard.py:55-61 | one statistics row per client that has shipments, in client order, clients without shipments skipped |
| `Dashboard.ClientFigures` | backend/app/api/dashboard.py:63-87 | one client's count, skip-on-failure revenue, profit and volume, and guarded margin |
| `Dashboard.MarginBadge` | backend/app/api/dashboard.py:356-364 | success exactly above 30, warning exactly in (15, 30], danger exactly at or below 15 |
| `Dashboard.BadgeMonotone` | backend/app/api/dashboard.py:356-364 | a higher margin never gets a lower badge |
| `Dashboard.ProfitClass` | backend/app/api/dashboard.py:354 | positive exactly when profit > 0, otherwise negative |
| `Dashboard.OverviewAgreesWithSummaryReport` | backend/app/api/dashboard.py:41-51 | over an open period the summary report counts every shipment and its totals equal the dashboard's |
| `ShipmentsApi.ExpensesNotOf` | backend/app/models/shipment.py:46 | exactly the expenses of other shipments |
| `ShipmentsApi.CreateShipment` | backend/app/api/shipments.py:13-28 | 422 on an invalid body; 400 with the store unchanged when the code exists; otherwise exactly one new shipment is appended; codes stay unique and other tables unchanged |
| `ShipmentsApi.GetShipments` | backend/app/api/shipments.py:31-39 | the offset/limit slice of the store order, or a 500 exactly when a row of that slice has a NULL status |
| `ShipmentsApi.GetShipment` | backend/app/api/shipments.py:42-51 | 404 exactly when the id is absent, a 500 exactly when that shipment's status is NULL, otherwise the stored shipment with that id |
| `ShipmentsApi.GetShipmentFinance` | backend/app/api/shipments.py:54-64 | 404 exactly when absent; a 500 exactly when its finance fails or its status is NULL; otherwise the shipment with its finance |
| `ShipmentsApi.UpdateShipment` | backend/app/api/shipments.py:67-100 | 422, 404 and 400 (another shipment holds the new code) with the store unchanged; otherwise only that shipment changes, by exactly the sent fields, codes stay unique, and the answer is the row, or a 500 after the commit when the row's status is now NULL |
| `ShipmentsApi.UpdateKeepsCodesUnique` | backend/app/api/shipments.py:84-93 | an update whose code no other shipment holds keeps ids and codes unique |
| `ShipmentsApi.OwnCodeIsFree` | backend/app/api/shipments.py:84-88 | re-sending a shipment's own current code never counts as a duplicate |
| `ShipmentsApi.DeleteShipment` | backend/app/api/shipments.py:103-115 | 404 with nothing changed when absent; otherwise exactly that shipment is removed and with it all its expenses |
| `ShipmentsApi.RemoveKeepsUnique` | backend/app/api/shipments.py:113 | removing a shipment keeps ids and codes unique and adds nothing |
| `ShipmentsApi.ExpensesNotOfKeepsUnique` | backend/app/models/shipment.py:46 | the cascade keeps expense ids unique |
| `ShipmentsApi.DeletedShipmentLeavesNoTrace` | backend/app/models/shipment.py:46 | after the delete no shipment has that id and no expense refers to it |
| `ShipmentsApi.CreatedShipmentIsFound` | backend/app/api/shipments.py:24-28 | a created shipment is found by its id, and its own code is not a duplicate for a later update |
| `ExpensesApi.CreateExpense` | backend/app/api/expenses.py:12-19 | 422 on an invalid body; otherwise exactly one expense built from the body is appended, and nothing else changes |
| `ExpensesApi.ExpenseListing` | backend/app/api/expenses.py:30-33 | all expenses without a filter, otherwise exactly those of the given shipment |
| `ExpensesApi.GetExpenses` | backend/app/api/expenses.py:22-36 | the offset/limit slice of that listing: at most `limit` rows, all of the given shipment when one is given |
| `ExpensesApi.GetExpense` | backend/app/api/expenses.py:39-48 | 404 exactly when absent, otherwise the stored expense with that id |
| `ExpensesApi.UpdateExpense` | backend/app/api/expenses.py:51-71 | 422 on an invalid body; 404 with nothing changed when absent; otherwise only that expense changes, by exactly the sent fields, and its shipment stays |
| `ExpensesApi.ReplaceKeepsExpenseIds` | backend/app/api/expenses.py:65-67 | replacing an expense by one with the same id keeps ids unique and adds no other row |
| `ExpensesApi.DeleteExpense` | backend/app/api/expenses.py:74-86 | 404 with nothing changed when absent; otherwise exactly that expense is removed |
| `ExpensesApi.RemoveExpenseKeepsOthers` | backend/app/api/expenses.py:84-86 | after the removal that id is gone, every other expense is still there, and nothing was added |
| `ClientNumberMigration.Decimal` | backend/alembic/versions/20241228_2200-add_client_number_field.py:31 | the decimal digits of a number: at least one, all digits |
| `ClientNumberMigration.ZeroPad` | backend/alembic/versions/20241228_2200-add_client_number_field.py:31 | padding to a width gives the width, keeps a text already that long as it is, ends with the text itself and has only zeros in front of it |
| `ClientNumberMigration.ClientNumber` | backend/alembic/versions/20241228_2200-add_client_number_field.py:31 | `f"CL-{idx:04d}"`: starts with `CL-` and is at least seven characters long |
| `ClientNumberMigration.DecimalRoundTrip` | backend/alembic/versions/20241228_2200-add_client_number_field.py:31 | reading back the decimal digits of a number gives the number |
| `ClientNumberMigration.ClientNumberDenotes` | backend/alembic/versions/20241228_2200-add_client_number_field.py:30-31 | `CL-` followed by at least four digits, which denote exactly the 1-based position |
| `ClientNumberMigration.ClientNumberInjective` | backend/alembic/versions/20241228_2200-add_client_number_field.py:31 | different positions give different numbers |
| `ClientNumberMigration.FirstClientNumber` | backend/alembic/versions/20241228_2200-add_client_number_field.py:30-31 | the first client gets `CL-0001` |
| `ClientNumberMigration.ClientNumberFitsColumn` | backend/alembic/versions/20241228_2200-add_client_number_field.py:23 | below 10^17 clients every number fits the 20-character column |
| `ClientNumberMigration.NumberedRowsDistinct` | backend/alembic/versions/20241228_2200-add_client_number_field.py:38-39 | after numbering along the creation order, every client has a number and no two share one |
| `ClientNumberMigration.NumbersFollowCreationOrder` | backend/alembic/versions/20241228_2200-add_client_number_field.py:27-31 | a client created strictly earlier has a smaller number |
| `ClientNumberMigration.Upgrade` | backend/alembic/versions/20241228_2200-add_client_number_field.py:21-40 | the k-th client in creation order gets `CL-` and k padded, other columns stay, no client is left without a number, the numbers are pairwise distinct and follow creation order |
| `Admin.SplitWords` | backend/app/api/admin.py:18 | with a pending word, every token of `str.split()` is non-empty and free of whitespace |
| `Admin.SplitWhitespace` | backend/app/api/admin.py:18 | `str.split()`: every token is non-empty and free of whitespace |
| `Admin.SplitWhitespaceDecomposes` | backend/app/api/admin.py:18 | the text is its tokens, in order, with whitespace runs around them: possibly empty at both ends, non-empty between two tokens |
| `Admin.SplitWhitespaceOfInterleave` | backend/app/api/admin.py:18 | conversely, words laid out with such whitespace runs split into exactly those words, so the tokens are the maximal non-whitespace runs |
| `Admin.SplitOn` | backend/app/api/admin.py:23 | `str.split(':')` gives one more part than there are colons, and no part contains one |
| `Admin.SplitOnJoin` | backend/app/api/admin.py:23 | joining the parts with the separator gives back the string |
| `Admin.CredentialsSplit` | backend/app/api/admin.py:23-25 | the decoded credentials split into exactly user and password iff they are `user:password` and the password has no colon |
| `Admin.SplitTwoWords` | backend/app/api/admin.py:18 | `scheme token` with one space splits into exactly those two tokens |
| `Admin.LowerAscii` | backend/app/api/admin.py:19 | lower-casing maps each ASCII capital to its small letter and keeps every other character |
| `Admin.CheckAuth` | backend/app/api/admin.py:12-27 | a missing or empty header is rejected; the full acceptance rule is stated by `CheckAuthCharacterisation` |
| `Admin.CheckAuthCharacterisation` | backend/app/api/admin.py:12-27 | accepted iff the header has exactly two tokens, the first is `basic` in any case, the second decodes to `admin:<password>`, and the password has no colon; every other input, failing decodes included, gives false and never raises |
| `Admin.ColonPasswordNeverAuthenticates` | backend/app/api/admin.py:22-23 | a configured password with a colon can never be entered |
| `Admin.BasicCredentialsAccepted` | backend/app/api/admin.py:18-25 | `Basic <token>` with the token decoding to the admin credentials is accepted |
| `Admin.CountOrders` | backend/app/api/admin.py:229-231 | a status count is at most the number of orders, and is zero exactly when no order has that status (a NULL status matches none) |
| `Admin.StatusCountsPartition` | backend/app/api/admin.py:228-231 | the new, in-progress, completed and cancelled counts plus the NULL-status orders add up to the total; without a NULL status the four counts alone do |
| `Admin.StatusText` | backend/app/api/admin.py:288-293 | the label of a status value, the raw value for any other; `LabelsCoverEnums` states both |
| `Admin.RouteText` | backend/app/api/admin.py:295-298 | the label of a route value, the raw value for any other |
| `Admin.LabelsCoverEnums` | backend/app/api/admin.py:288-298 | every status and route has its own label; any other value falls back to the raw value |
| `Admin.FormatWeightVolume` | backend/app/api/admin.py:302-307 | the list-and-join code gives the weight/volume text by cases |
| `Admin.WeightVolumeDash` | backend/app/api/admin.py:302-307 | the text is "-" exactly when neither weight nor volume is truthy; a zero weight is shown like no weight |
| `Admin.RenderRows` | backend/app/api/admin.py:288-307 | the row loop fails exactly when some order has a NULL status (`order.status.value` raises); otherwise one row per order, in order, each that order's texts |
| `Admin.AdminDashboard` | backend/app/api/admin.py:30-330 | a 401 with `Basic realm="Admin Panel"` exactly when the header does not authenticate; a 500 exactly when it authenticates and some order has a NULL status; otherwise the total, the three counters and one row per order, in query order |

## Left out

- Python `float` arithmetic and `round(..., 2)` are not modelled: money is exact `real`. In the source, the reports and dashboard add up per-shipment figures that have already been rounded; the model adds the exact ones.
- Foreign keys are not enforced (a shipment may name a missing client, supplier or rate). The model keeps the rate-not-found path that such a row leads to.
- A JSON `null` sent for a non-nullable update field is not modelled: the commit would fail the database's NOT NULL constraint with a 500. These fields are the shipment's code, parties, rate, cargo type and quantity; the expense's type, amount, currency and expense date; and the rate's cargo type, supplier, buy and sell rates, currency and unit. A null shipment status is modelled, because the status column is nullable.
- ExpensesApi.UpdateExpense: cannot receive a JSON `null` for the expense type, amount, currency or expense date, so the 500 that the failed NOT NULL commit answers is not among its outcomes.
- Response validation is modelled only for the shipment status, the one column a stored row can hold that the response schema rejects.
- `updated_at` (server `onupdate`) and the `downgrade()` of the migration are not modelled.
- Negative `skip`/`limit` are not modelled; they are `nat`. Their defaults (`skip=0`, `limit=100`) are not modelled either: the caller always passes both.
- Store order without `ORDER BY` is taken to be insertion order.
- The session time zone and the date/time conversion for `created_at` are not modelled (`DayStart` stands in for both).
- HTML generation, routing and dependency injection are left out, except for the rules listed above.
- Base64 decoding is a parameter `decode`; bcrypt and the interactive admin script are not modelled.
- Python's float-to-text formatting is a parameter `show`.
- The ORM class for clients has no `client_number`. The `Client` record carries it, as the migration adds it. Reading it in the dashboard's client loop raises for the class as written; see Findings.
- Admin.LowerAscii: lower-cases ASCII letters only. Python's `str.lower` is full Unicode, but no non-ASCII character lower-cases to a single ASCII letter of `basic`, so the comparison with `"basic"` is unaffected.
- Admin.AdminDashboard: takes the orders already in the query's newest-first order, and leaves out the creation-date text. NaN weights are not modelled (`real` has none).
- ClientNumberMigration.Upgrade: takes the `ORDER BY created_at` result as positions in the table. It does not model the database's `WHERE id = ...` lookup.
- Dashboard.GetDashboardStats: the in-place `list.sort` is modelled as a stable insertion sort on values (`SortByProfit`), not on the list object.
- Reports.GetSummaryReport, Reports.GetClientReport and Reports.GetSupplierReport: take the date filter as a parameter. The routers as written are `AsWritten`; `WholeDays` is the corrected, inclusive filter.
- Finance.NoExpensesNoTotal and Dashboard.BadgeMonotone: both hold directly from the definitions, so their proofs are empty.
- Rates, clients and suppliers endpoints, orders endpoints, the admin framework configuration, and the seed scripts beyond one seeded shipment are not part of this model.

## Findings

| source | as written | input that shows it | evidently intended | confidence | as-written member | corrected member |
|---|---|---|---|---|---|---|
| backend/app/api/reports.py:31-32 | `created_at <= date_to` compares a timestamp with the date's midnight, so shipments created on the end date after 00:00:00 are excluded | `date_from = date_to = d`, `created_at` = midnight of `d` plus one second | the end date is inclusive: every shipment created on that day is counted | not executed | `Reports.AsWrittenMissesTheEndDay` | `Reports.InPeriodIsDayRange` |
| backend/app/api/dashboard.py:79 | the client entry reads `client.client_number`, which the client ORM class (backend/app/models/client.py:8-20) does not declare, so the statistics raise AttributeError and answer 500 | one client with one shipment | the number stored by the client-number migration, which the client response schema (backend/app/schemas/client.py:29), the rate's text form (backend/app/models/rate.py:40) and the test seed (backend/scripts/seed_test_data.py:80) all expect on a client | not executed | `Dashboard.GetDashboardStatsAsWritten` | `Dashboard.GetDashboardStats` |
