# Clinic patient ledger, in Dafny

A model of the patient financial ledger of a single-clinic web application (`app.py`).
The application keeps three tables: patients, one treatment record per patient and a
list of payments. Its handlers do five things with them:

- register a patient, rejecting a mobile number that is already on file;
- search by mobile;
- replace a patient's treatment record in full (`INSERT OR REPLACE`);
- append payments;
- derive the total paid and the balance (final amount minus total paid) each time they are shown.

Two documents are built from this state: a PDF invoice for one patient and a spreadsheet
report over all patients. Here the tables become an object, `Clinic.ClinicDb`, whose fields are
the three tables (`seq` for patients and payments in insertion order, a `map` keyed by patient
id for treatments) and the next rowids. The handlers' writes are methods that say exactly
what the new state is. The derived totals are functions. The invoice and the report are
read-only methods with loops, like the source's loops. The invoice gives the drawn text lines
with their y-positions. The report gives the spreadsheet rows.

Modules:

- `Records` (records.dfy): the table rows.
- `TextOrder` (text_order.dfy): SQLite's BINARY order on text, used by `ORDER BY appointment_date`, and its total-order properties.
- `Registry` (registry.dfy): lookups on the patients table and the uniqueness invariants.
- `Ledger` (ledger.dfy): payments per patient, total paid, balance and the patient page.
- `Export` (export.dfy): the report rows, SQL `SUM`, the sort.
- `Invoice` (invoice.dfy): the invoice layout.
- `Clinic` (clinic.dfy): the database object and its operations.
- `Scenarios` (scenarios.dfy): worked examples proved from the contracts alone.

Points where `app.py` behaves in ways a reader might not expect, all modelled as written:

- The invoice fails when the patient has no treatment row: app.py:221 reads `treatment[2]` with no fallback. When there is a treatment row but no patient row, it fails at app.py:232 (`patient[2]`).
- Invoice payment lines show date, amount, mode, in that order (app.py:241).
- The invoice draws "Final Amount" above the payments (app.py:237). Only "Total Paid" and "Balance" come below them (app.py:244-245).
- Saving a treatment (app.py:124-136) and adding a payment (app.py:138-148) do not check that the patient exists. Both writes are committed before the page looks the patient up (app.py:150, 163), so the model accepts them for any id.
- `app.py` has no way to delete a payment and no treatment notes.

## Model

| member | source | states |
|---|---|---|
| `TextOrder.TextLe` | app.py:263 | the defining expression of SQLite's text order: characters compared from the left; a prefix sorts at or before any text it begins |
| `Registry.FindByMobile` | app.py:48-51 | the lookup by mobile returns a patient on file holding that mobile, and returns nothing exactly when no patient holds it |
| `Registry.FindByMobileExact` | app.py:48-54 | while mobiles are unique, the lookup returns exactly the patient holding the mobile, so the conflict names that patient's id and name |
| `Registry.FindById` | app.py:150 | the lookup by id returns a patient with that id, and returns nothing exactly when no patient has it |
| `Registry.FindByIdExact` | app.py:216 | while ids increase with creation order, the lookup by id returns exactly the patient with that id |
| `Registry.Listing` | app.py:109-113 | the home page's list has one entry (id, name, mobile) per patient, in creation order |
| `Registry.ListingAppend` | app.py:56-70 | a registration adds exactly one entry to the list, at its end |
| `TextOrder.TextLeReflexive` | app.py:263 | the text order used for sorting dates is reflexive |
| `TextOrder.TextLeTotal` | app.py:263 | any two dates are comparable |
| `TextOrder.TextLeTransitive` | app.py:263 | the text order is transitive |
| `TextOrder.TextLeAntisymmetric` | app.py:263 | two dates that each sort at or before the other are equal |
| `Ledger.Sum` | app.py:159 | the defining expression of `sum(p[3] for p in payments)`: amounts added in ledger order; non-negative amounts give a non-negative total |
| `Ledger.SumFront` | app.py:159 | adding the amounts up from the front gives the same total |
| `Ledger.FinalAmount` | app.py:155 | the defining expression of `treatment[2] if treatment else 0`: the stored final amount, or 0 when there is no record |
| `Ledger.PaymentsFor` | app.py:152 | a payment is in a patient's list exactly when it is in the ledger and belongs to that patient |
| `Ledger.TotalPaid` | app.py:159 | total paid with the empty-list default is the sum of that patient's payment amounts (0 for none) |
| `Ledger.Balance` | app.py:154-160 | with no payments the balance is the final amount; with no treatment it is minus the payments; it is negative exactly when payments exceed the final amount |
| `Ledger.SumAppend` | app.py:159 | one more payment adds its amount to the sum |
| `Ledger.SumConcat` | app.py:159 | the sum over two stretches of the ledger is the sum of their sums |
| `Ledger.PaymentsForConcat` | app.py:152 | a patient's payments over two stretches of the ledger are those of the first followed by those of the second |
| `Ledger.BalanceAdditive` | app.py:154-160 | later payments add to the total paid and come off the balance |
| `Ledger.PaymentAppended` | app.py:139-148 | an appended payment ends that patient's list, raises their total paid by its amount and lowers their balance by it, and leaves every other patient's list and balance unchanged |
| `Ledger.TreatmentReplaced` | app.py:125-136 | after a save the patient's balance is the new final amount less what they paid, and no other patient's balance changes |
| `Ledger.Detail` | app.py:150-160 | the patient page fails exactly when no patient has the id; otherwise it shows that patient, the stored treatment fields or blank/0 defaults, their payments, their total paid and a balance of final amount minus total paid |
| `Export.Header` | app.py:270-279 | the defining expression of the header row: seven text cells, Appointment Date to Balance |
| `Export.Amounts` | app.py:294 | the `amount` column of a patient's payments, entry by entry |
| `Export.SqlSum` | app.py:294 | the defining expression of SQLite's `SUM`: NULL exactly when there are no rows; for one row, its amount |
| `Export.ExportTotalPaid` | app.py:293-298 | the defining expression of `payments[0] if payments[0] else 0` on `SUM(amount)`; it equals the patient page's total paid |
| `Export.ExportRow` | app.py:285-310 | the defining expression of one report row: seven cells starting with the appointment date, the last being the final amount minus the total paid |
| `Export.RowsOf` | app.py:281-310 | one row per patient of the sequence, in the same order |
| `Export.SqlSumIsSum` | app.py:293-298 | the database's `SUM` is NULL over no payments and otherwise equals the sum the patient page computes |
| `Export.ExportRowAgreesWithPage` | app.py:290-310 | a report row is date, name, mobile, city, final amount, total paid, balance, with the same final amount, total paid and balance as the patient page |
| `Export.InsertByDate` | app.py:260-264 | inserting a patient into the sorted listing adds exactly that patient |
| `Export.SortByDateDesc` | app.py:260-264 | the sorted listing is a permutation of the patients |
| `Export.ConsSorted` | app.py:263 | a patient whose date sorts at or after every date of a sorted listing can head it |
| `Export.InsertKeepsBound` | app.py:263 | inserting keeps every date at or below a bound that the new date also meets |
| `Export.InsertSorted` | app.py:263 | inserting into a listing sorted by descending date keeps it sorted |
| `Export.SortByDateDescSorted` | app.py:263 | the sorted listing's dates never increase |
| `Export.RowsOfSorted` | app.py:302-303 | rows of a date-sorted listing have seven cells and a date column that never increases |
| `Export.RowsOfInsert` | app.py:281-310 | inserting a patient adds exactly that patient's row to the rows |
| `Export.RowsOfSortPermutes` | app.py:260-281 | sorting only reorders the rows: each patient's row occurs as often as before |
| `Invoice.PatientBlock` | app.py:232-237 | the defining expression of the name, mobile, city, treatment and final-amount lines: five lines, each below the one before, all above the first payment line |
| `Invoice.LayoutY` | app.py:232-245 | the y of each invoice line, as a function of its index and the number of payments |
| `Invoice.InvoiceLinesDescend` | app.py:232-245 | every invoice line is drawn strictly below the one before it |
| `Invoice.InvoiceFitsPage` | app.py:239-245 | all lines lie on the page (y >= 0) exactly when there are at most 41 payments, since nothing breaks the page |
| `Clinic.PaymentIdsGrow` | app.py:139-147 | an appended payment with the next rowid keeps payment ids increasing and below the next rowid |
| `Clinic.ClinicDb.constructor` | app.py:20-21 | an empty database: no patients, treatments or payments; the first rowids are 1 |
| `Clinic.ClinicDb.Register` | app.py:45-68 | a mobile already on file gives a conflict with that patient's id and name, and nothing changes; otherwise exactly one patient with the six given fields and the next id is appended; the treatment and payment tables never change; mobiles stay unique and ids increasing |
| `Clinic.ClinicDb.SearchByMobile` | app.py:31-42 | finds the id of the patient holding the mobile, or "not found" exactly when nobody holds it; changes nothing |
| `Clinic.ClinicDb.SaveTreatment` | app.py:124-136 | the record for the patient becomes exactly the new plan, amount, consultant and lab, with nothing kept from before; other records, patients and payments are unchanged; the new balance is the new amount less what was paid, and other balances are unchanged |
| `Clinic.ClinicDb.AddPayment` | app.py:138-148 | one payment with the next id is appended at the end of the ledger; earlier entries and other tables are unchanged; that patient's list gains it at its end, the total paid rises by the amount and the balance falls by it; other patients' lists are unchanged |
| `Clinic.ClinicDb.Invoice` | app.py:216-245 | fails exactly when there is no treatment record, then fails when there is no patient; otherwise the name, mobile, city, plan and final-amount lines, then payment k at 640 - 15k showing date, amount, mode, then "Total Paid" at 630 - 15n and "Balance" at 615 - 15n, holding the patient page's total paid and balance |
| `Clinic.ClinicDb.ExportPatients` | app.py:260-310 | the fixed seven-column header, then exactly one row per patient (a permutation of the patients' rows), dates never increasing down the sheet |

## Left out

- HTTP routing, form parsing, redirects and HTML page text: these are the web layer. The model keeps the outcomes: conflict, not-found, the list entries and the page values.
- The SQLite connection and commits: the tables are in memory, and each operation is one step with no other request running beside it. That is not true of the server. `app.run` (app.py:323) serves requests on several threads. Registration is a SELECT (app.py:48-51) followed by a separate INSERT (app.py:56-67), and no UNIQUE constraint on `mobile` is visible. So two requests registering the same new mobile at the same time could both insert. `MobilesUnique` in `Clinic.ClinicDb.Valid` holds only when requests run one at a time.
- The table schemas: `app.py` creates only the `users` table (app.py:3-9), never `patients`, `treatment` or `payments`. The model assumes a schema that `app.py` does not show:
  - `treatment.patient_id` is a primary key or UNIQUE. That is what lets `INSERT OR REPLACE` (app.py:126) replace a row. Without it every save would add a row, and the `fetchone()` reads at app.py:151, 217 and 285 could return an older one.
  - Patient and payment ids are integer rowids starting at 1 and growing with each insert.
  - The columns are in the order the `SELECT *` reads use: `p[2]`, `p[4]`, `p[5]`, `treatment[1]`, `treatment[2]`, and `p[2]`-`p[4]` for payments.
  - `mobile` and `appointment_date` are TEXT, compared character by character. With INTEGER affinity, "09999" would equal "9999".
- The users table and its setup: this is login storage, not the ledger.
- Converting form strings to numbers: amounts, ids and final amounts are taken as integers. Nothing checks their sign.
- SQLite's 64-bit integer range: amounts and their sums are unbounded integers here, so an overflow in `SUM` is not modelled.
- The PDF itself: fonts, page size, the two centred letterhead lines and saving the file. The invoice is its drawString lines at x = 40 with their y-positions.
- The spreadsheet file: workbook creation, sheet title, a file name derived from the current date, and the download. The report is its list of rows.
- Reading the port from the environment and starting the server.
- `Clinic.ClinicDb.ExportPatients`: does not fix which of two patients with the same appointment date comes first, because SQL leaves that order unspecified. The insertion sort used inside is one admissible order.
- Payment deletion and treatment notes: `app.py` has neither.
