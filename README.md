# Water-meter billing and payment reconciliation, in Dafny

This project models the core of a rental-unit water-meter backend. The backend
records meter readings per unit and bills the consumption. It records payments
against each reading and keeps a paid-to-date amount and a payment status
(`unpaid`, `partial`, `paid`) on every reading.

The two PostgreSQL tables, `meter_readings` and `payment_records`, are sequences
of rows inside one `Store` object. Every operation of the three core files is a
method that reads or rewrites those sequences:

- the data-access library (`src/libs/database.js`) is the `Store` class;
- the server actions (`src/libs/actions.js`) are methods over a `Store`;
- the HTTP handlers (`server.js`) are methods over the same `Store`.

The pure parts are functions: the consumption calculator, the status ladder,
and what each SQL statement does to a table.

Modules, one file each:

- `Billing` (billing.dfy): the `Status` of a reading, `ComputeBilling`
  (`max(0, current − previous)` units, times the price) and `LadderStatus`.
- `Tables` (tables.dfy): row types and the SQL semantics as functions.
  - Every column is nullable (`Option`).
  - `Apply` gives one constructor per UPDATE statement. The edit query overwrites
    eight columns and COALESCEs the two payment columns. The edit route sets only
    the eight billing columns. The status route sets the two payment columns verbatim.
  - `Find` is `Array.prototype.find`.
  - `UpdateWhere` and `DeleteWhere` are `… WHERE id = $id`.
  - `SortNewestFirst` is `ORDER BY … DESC`, with NULL dates first, as PostgreSQL does.
  - `PaidTotal` sums a reading's payment records.
- `Database` (database.dfy): `class Store`. It holds both tables and the counters
  from which it assigns ids. `Valid()` says ids are distinct and already handed out.
- `Ledger` (ledger.dfy): what the two payment entry points write to a reading.
  - Each comes twice: as written (`Recorded`, `Forcing`) and as evidently intended
    (`Settle`, `ForcedSettle`). See Findings.
  - Lemmas cover the ledger round trip, forced-status idempotence, and
    reconciliation of the cached paid amount with the payment records.
- `Actions` (actions.js model): `FetchMeterReadings`, `AddMeterReading`,
  `EditMeterReading`, `RemoveMeterReading`, `AddPayment`, `UpdatePaymentStatus`.
- `Server` (server.js model): `GetReadings`, `PostReading`, `PutReading`,
  `DeleteReading`, `PostPayment`, `PutPaymentStatus`, `GetPayments`. Lemmas
  compare these routes with the actions.

Modelling choices:

- Amounts, meter values and prices are `int` (smallest currency unit, whole meter units).
- Dates are day numbers: ordered and opaque.
- A NULL column read into JavaScript is `null`, which counts as 0 in `+`, `-`
  and comparisons. `Tables.Num` models that.
- The current date used as a default payment date is a parameter (`today`).

## Model

| member | source | states |
|---|---|---|
| Billing.ComputeBilling | src/libs/actions.js:30-31 | units consumed are never negative, at least the meter delta, and either 0 or the delta; the total is units × price; a reading that went backwards bills 0 units and 0; a non-negative price gives a non-negative total |
| Billing.BillingMonotone | server.js:60-61 | at a non-negative price, a higher current reading never bills less |
| Billing.BillingSplits | src/libs/actions.js:62-63 | billing a forward period in two consecutive readings costs the same as billing it in one |
| Billing.LadderStatus | src/libs/actions.js:113-120 | `paid` iff the new paid amount ≥ total; `partial` iff 0 < paid < total; `unpaid` iff paid ≤ 0 and paid < total; never any other label |
| Billing.LadderMonotone | src/libs/actions.js:116-120 | paying more against the same total never moves the status down the ladder |
| Billing.ParseStatus | server.js:177-182 | a status text read back gives a status whose stored text is that same text (the status column is written verbatim) |
| Billing.LabelRoundTrip | src/libs/actions.js:170 | the text of a status, read back, is that status |
| Tables.Coalesce | src/libs/database.js:73-74 | a supplied value wins; an absent one keeps the existing value |
| Tables.Apply | src/libs/database.js:63-77 | the edit query overwrites the eight billing columns with what is passed (absent means NULL) and keeps the stored status and paid amount when none is passed; the edit route changes only the billing columns; the status route sets both payment columns verbatim; no clause changes the id |
| Tables.Find | src/libs/actions.js:110 | the result is absent iff no row has the id; otherwise it is the first row that has it |
| Tables.UpdateWhere | src/libs/database.js:75 | only rows with the id are rewritten; all other rows, the row count and the order stay |
| Tables.FindAfterUpdate | src/libs/database.js:91-92 | the row returned after an update by id is the found row rewritten, or nothing when no row had the id |
| Tables.DeleteWhere | src/libs/database.js:97 | exactly the rows with another id survive; with no match the table is unchanged |
| Tables.SelectByReading | server.js:201-203 | exactly the records of the given reading |
| Tables.DeleteWhereCounts | src/libs/database.js:97 | a delete keeps each row with another id exactly as often as it was stored and drops every copy of a row with that id |
| Tables.SelectByReadingCounts | server.js:201-203 | the selection holds each record of that reading exactly as often as the table does, and no other record |
| Tables.InsertByDate | src/libs/database.js:6 | inserting into a newest-first list keeps it newest-first and adds exactly that row |
| Tables.SortNewestFirst | src/libs/database.js:6 | the result is a permutation of the table in non-increasing date order, NULL dates first |
| Tables.PaidTotalAppend | src/libs/database.js:105-113 | appending a payment record raises its own reading's record sum by its amount and leaves every other reading's sum alone |
| Tables.FindInReordering | src/libs/actions.js:109-110 | with distinct ids, `find` on the newest-first listing finds the same reading as on the table |
| Tables.FindDistinct | src/libs/actions.js:144 | with distinct ids, looking up a row's id finds that row |
| Tables.UpdateKeepsIds | src/libs/database.js:75 | an update never changes ids, so ids stay distinct and below the counter |
| Tables.DeleteKeepsIds | src/libs/database.js:97 | a delete keeps ids distinct and below the counter |
| Database.Store.FetchMeterReadings | src/libs/database.js:5-8 | returns every reading once, newest reading date first |
| Database.Store.AddMeterReading | src/libs/database.js:11-45 | appends exactly one row carrying the ten supplied values and a fresh id, returns it, leaves the other rows and the payments unchanged |
| Database.Store.EditMeterReading | src/libs/database.js:49-93 | the table becomes the update-by-id with the COALESCE clause; returns the rewritten row, or nothing (no error) for an unknown id |
| Database.Store.RemoveMeterReading | src/libs/database.js:96-99 | deletes the reading with that id, keeps payment records, always returns true |
| Database.Store.AddPayment | src/libs/database.js:102-114 | appends one record (reading id, amount, date, method, notes) with a fresh id; readings untouched |
| Ledger.Columns | src/libs/actions.js:23-31 | a form's billing columns carry its unit number, meter values, price, reading date and due date; units are current − previous for a forward reading and 0 (total 0) for a backwards one, never negative; total = units × price |
| Ledger.RecordedAgreesOnPayment | src/libs/actions.js:113-125 | as written, a recorded payment leaves the intended paid amount and status but a blank bill; the intended row is consistent with the ladder |
| Ledger.Recorded | src/libs/actions.js:113-125 | the row addPayment leaves, as written: same id, paid amount old + amount (null as 0), the ladder status of that against the old total, and every billing column NULL |
| Ledger.RecordInTable | src/libs/actions.js:109-126 | after addPayment, the reading with that id, if any, is rewritten with paid amount old + amount and the ladder status; every other row stays |
| Ledger.ForceInTable | src/libs/actions.js:150-178 | after updatePaymentStatus finds its reading, only that reading is rewritten with the requested status and the decided paid amount |
| Ledger.ForcedChange | src/libs/actions.js:150-162 | the decided paid amount is always the old one plus the top-up (null as 0); `paid` decides the total; `partial` with an amount decides that amount; any other status keeps the paid amount and tops up 0 |
| Ledger.Forcing | src/libs/actions.js:175-178 | the row updatePaymentStatus leaves, as written: same id, the requested status, the decided paid amount (the stored one when none is decided), and every billing column NULL |
| Ledger.ForcedOutcome | src/libs/actions.js:150-162 | as written and as intended, the stored status is always the requested one and the paid amount agrees; `paid` reaches the total; `partial` with an amount reaches that amount, even downwards; `unpaid`, or `partial` without an amount, keeps the paid amount |
| Ledger.ForcedPaidTwiceAddsNothing | src/libs/actions.js:153-165 | as written, with a non-negative total and paid amount, a second `paid` call tops up nothing and keeps the paid amount |
| Ledger.ForcedPaidIdempotent | src/libs/actions.js:153-155 | as intended, a second `paid` call tops up nothing and leaves the reading exactly as the first left it |
| Ledger.UnpaidOverrideIsInconsistent | src/libs/actions.js:159-162 | forcing `unpaid` on a reading that has paid its positive total leaves a status that contradicts the ladder |
| Ledger.SettleAllPaysSum | src/libs/actions.js:113-125 | as intended, after any run of payments a reading keeps its bill, has paid the old amount plus the sum, and shows the ladder status of that sum |
| Ledger.LedgerRoundTrip | src/libs/actions.js:116-120 | from nothing paid, payments summing to the total give `paid`, a positive shortfall gives `partial`, and a zero sum against a positive total gives `unpaid` |
| Ledger.RecordAllForgetsTotal | src/libs/actions.js:122-125 | as written, after two or more payments the bill is blank and the status is the ladder against a total of 0 |
| Ledger.BlankedTotalMarksPaid | src/libs/actions.js:122-125 | on a 1000 bill, paying 400 then 100 shows `paid` as written and `partial` as intended |
| Ledger.PaymentKeepsReconciled | src/libs/actions.js:101-125 | recording a payment keeps the reading's paid amount equal to the sum of its records |
| Ledger.OtherRecordKeepsReconciled | src/libs/actions.js:101-106 | a record for another reading does not disturb this reading's reconciliation |
| Ledger.RecordOnlyBreaksReconciled | server.js:153-162 | a non-zero record appended without updating its reading breaks reconciliation |
| Ledger.ForcedReconciliation | src/libs/actions.js:150-172 | a forced status keeps reconciliation iff its top-up is ≥ 0: a downward correction or an overpaid `paid` leaves paid ≠ sum of records |
| Actions.FetchMeterReadings | src/libs/actions.js:11-19 | returns every reading once, newest first |
| Actions.AddMeterReading | src/libs/actions.js:21-51 | one new row with the form's billing columns, status `unpaid`, paid 0 and a fresh id; payments and the payment counter untouched |
| Actions.EditMeterReading | src/libs/actions.js:53-81 | only the reading with that id gets the form's billing columns; all payment columns stay; unknown id: nothing changes and no row is returned; both id counters stay |
| Actions.RemoveMeterReading | src/libs/actions.js:83-91 | always success; the reading is deleted, the payment records and both id counters stay |
| Actions.NotesOrEmpty | src/libs/actions.js:98 | a payment's notes are the given text, or the empty text when none is given |
| Actions.DateOr | src/libs/actions.js:168 | a top-up is dated with the given date, or today's when none is given |
| Actions.StatusNotes | src/libs/actions.js:170 | a top-up's notes are the given text when it is non-empty, otherwise a generated text that names the requested status; never empty |
| Actions.AddPayment | src/libs/actions.js:93-133 | appends exactly one record first, even with no matching reading; then rewrites only the reading with that id, as RecordInTable; the payment counter moves by one, the reading counter stays; always success |
| Actions.UpdatePaymentStatus | src/libs/actions.js:135-185 | the status arrives as text and is compared as text, so "paid" always takes the `paid` branch; unknown id: "Reading not found" and neither table written; otherwise success, one `other` record of the top-up iff it is positive, and the reading rewritten as ForceInTable; the payment counter moves only with that record |
| Server.GetReadings | server.js:38-46 | every reading once, newest reading date first |
| Server.PostReading | server.js:49-86 | one new row with the calculated billing columns, `unpaid`, paid 0; only the reading counter moves |
| Server.PutReading | server.js:89-134 | recomputes the billing columns of the row with that id; no row's status or paid amount changes; unknown id: nothing changes and no row is returned |
| Server.DeleteReading | server.js:137-146 | always success, whether or not a row matched; payment records and both id counters stay |
| Server.PostPayment | server.js:149-167 | appends one record and leaves every reading unchanged; only the payment counter moves |
| Server.StatusColumn | server.js:177-182 | the status column written by the status route is the body's text verbatim, or NULL when it has none |
| Server.PutPaymentStatus | server.js:170-194 | the row with that id gets the given status text and paid amount verbatim (NULL when absent); billing columns untouched; no record appended |
| Server.GetPayments | server.js:198-210 | exactly the records of that reading, once each, newest payment date first |
| Server.EditRouteMatchesEditAction | server.js:104-116 | the edit route and the edit action leave the same row |
| Server.StatusRouteSkipsLadder | server.js:179-188 | the status route can store a status the ladder contradicts; a recorded payment never does |

## Left out

- Express plumbing is not modelled: routing, CORS, body parsing, status codes, logging, `app.listen`.
- The `/login` route is not modelled. It compares credentials from the environment using `bcrypt`.
- `src/libs/db.js` is not part of this model. It only builds the connection pool.
- Store failures are not modelled: connection loss, constraint violations. So the `catch` branches, with their failure replies, never arise here.
- The schema is not available. The model assumes nullable columns, no foreign key and no cascade. So a payment for an unknown reading is stored, and deleting a reading orphans its records.
- Concurrency is not modelled. Each operation is one atomic sequential method. The lost update between the record insert and the reading update in `addPayment` / `updatePaymentStatus` is therefore not represented.
- Floating point is not modelled. Amounts are integers, so there is no rounding, no `NaN` from `Number.parseFloat`, and no `undefined + n`.
- Dynamic typing is not modelled. In the real program, rows come back with snake_case keys and numeric strings, and ids are compared with `===` across types. The model uses one typed row with camelCase fields and natural-number ids.
- Absent request fields are modelled only where the code passes them on to SQL. Those are nullable columns, optional notes/date/method, and an optional `partialAmount`. A missing `meterReadingId` or a missing meter value is not modelled.
- An absent status (`undefined`) passed to `updatePaymentStatus` is not modelled. The requested status is always some text.
- Tie order among rows with equal dates is left unspecified. The listing methods promise only a newest-first permutation.

## Findings

| source | as written | input that shows it | evidently intended | confidence | as-written member | corrected member |
|---|---|---|---|---|---|---|
| src/libs/actions.js:122-125 | `addPayment` updates the reading through the edit query with only `paidAmount` and `paymentStatus`. That query writes NULL to the eight billing columns it was not given (the same happens at lines 175-178 in `updatePaymentStatus`). Later payments then compare against a NULL total, which counts as 0. | a reading 100 → 150 at 20 a unit (total 1000); pay 400, then pay 100 | the bill is kept; after 500 of 1000 the status is `partial` | not executed | Ledger.BlankedTotalMarksPaid | Ledger.SettleAllPaysSum |

`Ledger.RecordAllForgetsTotal` generalises the as-written half. After any two payments the bill is blank and the status is the ladder against 0.

The corrected definitions are `Ledger.Settle` and `Ledger.ForcedSettle`. They change only the two payment columns, as the status route's UPDATE does. The ledger lemmas are stated over them: round trip, idempotence, reconciliation.

`Actions` keeps the behaviour as written.
