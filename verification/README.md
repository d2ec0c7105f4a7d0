# Beauty CRM business rules in Dafny

This project models the business rules of a salon CRM: a web app where staff
keep client records and loyalty bonuses, book appointments, bill services at
a point of sale and settle employees' commissions. In the app these rules sit
between store calls and rendering. Here each rule is a pure function over
immutable datatypes and sequences, with contracts and lemmas about it.

The model covers these parts:

- **Invoicing with a commission snapshot** (`BillingService`, `billing_service.dfy`).
  - Each invoice line becomes one stored item row.
  - The line total is price × quantity.
  - The commission is line total × rate / 100.
  - The rate is the employee's rate as read from the store at invoice time.
  - A missing or unknown employee gets rate 0.
- **Settlement** (`StaffService`, `staff_service.dfy`).
  - Per employee: sales, commission and payment totals, and a pending balance floored at 0.
  - The rows that a single payment and a bulk settlement write.
- **The staff hook** (`UseStaff`, `use_staff.dfy`).
  - Who "pay all pending" pays, and how much.
  - A single payment.
  - Multi-step properties over a `Ledger` (the stored tables): after paying everyone every balance is 0, and a second pay-all writes nothing.
- **The point-of-sale cart** (`BillingPage`, `billing_page.dfy`).
  - Adding a line (with its guard) and removing a line.
  - Subtotal, and the total clamped at 0.
  - The client search capped at five results.
- **The client list filter** (`ClientsPage`, `clients_page.dfy`): a case-insensitive search on name or email, plus a bonus-state tab.
- **Dashboard figures** (`DashboardService`, `dashboard_service.dfy`): the count replies, the upcoming-birthday window and the expiring-bonus window.
- **Status formatting** (`Formatters`, `formatters.dfy`): the label and colour of each bonus state.
- **The new-employee form** (`NewStaffModal`, `new_staff_modal.dfy`): validation, reset and error display.
- **The client and appointment list hooks** (`UseClients`, `UseAppointments`, `ListState`).
  - How each service reply changes the list held on screen.
  - What each hook call returns.

Shared definitions:

- `Common` (`common.dfy`) holds these:
  - `Option` and `Result`;
  - `Thrown`, which tells an `Error` object apart from any other thrown value;
  - `Query`, the reply of one store read or write;
  - ASCII lower-casing and substring search;
  - `Filter` with its membership, multiplicity and order guarantees;
  - `Take`.
- `Types` (`types.dfy`) holds the rows.
- `Dates` (`dates.dfy`) maps a calendar date to its local-midnight instant on an integer minute clock.

How the model handles what it cannot run:

- Money is exact (`real`).
- Every store call is a parameter. A read is a `Query` holding the rows or the store's error message. A write is the `Query` reply it would get.
- A service call that may throw is a `Result` parameter.
- The clock is a parameter: the current year and the current minute.
- The random line id of the cart is a parameter.

Three facts about the code shape the model:

- Bonus states are read as stored. No code derives a bonus's state from its dates.
- The dashboard counts as active only the stored state 'pendiente' (`DashboardService.ActiveCountsPendienteOnly`).
- The invoice row is written before its item rows. A failed item write is thrown after the invoice insert has succeeded (`BillingService.ProcesarFactura`).

## Model

| member | source | states |
|---|---|---|
| `Common.MessageOrIfEmpty` | src/components/staff/NewStaffModal.tsx:44 | `err.message`, or else the fallback: a non-empty message of an `Error` is shown as is; a non-`Error` or an empty message gives exactly the fallback |
| `Common.MessageOr` | src/hooks/useClients.ts:22 | `err instanceof Error ? err.message : fallback`: an `Error` gives its message, anything else thrown gives the fallback |
| `Common.Max0` | src/pages/Billing.tsx:48 | `Math.max(0, x)` is at least 0 and at least `x`, and is one of the two |
| `Common.Lower` | src/pages/Clients.tsx:19 | lower-casing keeps the length and lower-cases each character in place |
| `Common.IncludesIffOccurrence` | src/pages/Clients.tsx:19-20 | `s.includes(t)` holds exactly when `t` occurs in `s` at some position |
| `Common.IncludesEmpty` | src/pages/Clients.tsx:19 | every text includes the empty term |
| `Common.Filter` | src/pages/Clients.tsx:18 | `filter` keeps exactly the elements that pass, each as often as in the input, as an order-preserving subsequence no longer than the input |
| `Common.Take` | src/pages/Billing.tsx:25 | `slice(0, n)` is the prefix of the list with exactly `n` elements, or the whole list when it has at most `n` |
| `Dates.MidnightShift` | src/services/dashboardService.ts:72-73 | moving the day field of `new Date(y, m - 1, d)` by `k` moves the instant by `k` whole days |
| `Dates.NextWeekByDays` | src/services/dashboardService.ts:52-53 | a local-midnight instant lies in `[today, today + 7 days]` exactly when its day is one of the next seven, or is today with the clock at midnight |
| `Formatters.GetStatusColor` | src/lib/formatters.ts:8-21 | each known state gets its own colour class, in both directions, and every other state gets the gray class |
| `Formatters.GetStatusLabel` | src/lib/formatters.ts:23-31 | the four known states get 'Reclamado', 'Activo', 'Vencido' and 'Por Vencer'; any other state is shown unchanged |
| `Formatters.KnownStatusesDistinguished` | src/lib/formatters.ts:8-31 | two different known states never share a label or a colour |
| `BillingService.EmpleadoIds` | src/services/billingService.ts:17 | the ids collected are exactly the non-empty employee ids of the lines |
| `BillingService.BuildRateDict` | src/services/billingService.ts:27-30 | the dictionary has a key for each fetched employee, holding the rate of the last row with that id |
| `BillingService.ItemsToInsert` | src/services/billingService.ts:51-65 | one row per line, in order: line total, unit price, quantity, description and invoice id carried over; commission = total × rate / 100; no employee gives a null id and commission 0, an unknown one commission 0 |
| `BillingService.FacturaRowOf` | src/services/billingService.ts:36-42 | the invoice row copies the payload's amounts and client; an absent or empty payment method becomes 'Efectivo' |
| `BillingService.ProcesarFactura` | src/services/billingService.ts:15-78 | succeeds exactly when the rate read (made only when a line names an employee), the invoice insert and the item insert (made only when there are lines) succeed; on success the header row is the payload's, with the stored id, and the item rows are those built at the rates just read; each failure is thrown with its own prefix: 'Error al obtener comisiones: ', 'Error al guardar factura: ', 'Error al guardar items de factura: ' |
| `BillingService.FetchRates` | src/services/billingService.ts:19-31 | with no employee named there is no read and the dictionary is empty; otherwise a failed read throws 'Error al obtener comisiones: ' with its message, and a successful one gives the fetched ids with their last rates |
| `BillingService.UnknownEmployeeEarnsNothing` | src/services/billingService.ts:52-54 | an employee id missing from the fetched rates gets rate 0 and commission 0 |
| `BillingService.CommissionWithinLineTotal` | src/services/billingService.ts:54 | with a rate in [0, 100] and a non-negative line total, 0 ≤ commission ≤ line total |
| `BillingService.DiscountNeverAffectsCommission` | src/services/billingService.ts:51-65 | two payloads with the same lines store the same item rows whatever their discount and totals |
| `BillingService.RateIsSnapshotOfFetchedRow` | src/services/billingService.ts:27-30 | the rate applied to a fetched employee's line is that employee's fetched rate, non-numbers counting as 0 |
| `StaffService.SaleTotalsAppendRow` | src/services/staffService.ts:91-93 | an employee's sales and commission totals start at 0 and grow, row by row, by exactly the amounts of rows naming that employee; missing amounts add 0 |
| `StaffService.PaidTotalAppend` | src/services/staffService.ts:95-96 | an employee's paid total is additive over the payment rows |
| `StaffService.Saldos` | src/services/staffService.ts:90-104 | one result per employee in order, with that employee's totals; the balance is never negative and never below commission minus payments |
| `StaffService.GetEmpleadosConSaldos` | src/services/staffService.ts:74-105 | an empty staff list answers with no further reads; a failed employee, item or payment read throws that read's message, in that order; otherwise the balances above |
| `StaffService.Pendientes` | src/services/staffService.ts:51-68 | one result per employee: earned, paid and their floored difference, with sales always 0 |
| `StaffService.GetPendientesEmpleados` | src/services/staffService.ts:30-71 | an empty staff list answers with no further reads; a failed employee, item or payment read throws that read's message, in that order; otherwise the per-employee pending figures |
| `StaffService.PendientesAgreeWithSaldos` | src/services/staffService.ts:63-66 | both aggregations succeed together and agree on every employee's commission and balance; only the later one reports sales |
| `StaffService.RegistrarPagoComision` | src/services/staffService.ts:107-118 | one payment row with the exact amount, unchecked against the balance; an absent or empty note becomes 'Pago manual' |
| `StaffService.LiquidarTodos` | src/services/staffService.ts:120-125 | one row per requested payment, in order, amount preserved, note 'Liquidación masiva' |
| `StaffService.LiquidarTodosPaysRequested` | src/services/staffService.ts:120-125 | the rows written pay each employee exactly the sum requested for them |
| `StaffService.PaymentNeverRaisesBalance` | src/services/staffService.ts:95-102 | a non-negative payment never raises its employee's balance, leaves every other balance unchanged, and one covering the balance brings it to 0 with no credit |
| `StaffService.BalancesIgnoreCurrentRates` | src/services/staffService.ts:90-104 | the reported totals do not depend on the employees' current rates, only on the stored rows |
| `UseStaff.ReadBack` | src/hooks/useStaff.ts:19 | reading back a ledger with every read succeeding yields its current balances |
| `UseStaff.FetchStaffData` | src/hooks/useStaff.ts:16-27 | a successful read replaces the balances and clears the error; a failure keeps them and shows `err.message`, or 'Error desconocido al cargar empleados' when that is empty or absent |
| `UseStaff.ToRequests` | src/hooks/useStaff.ts:46-49 | one payment request per employee, for that employee's full balance |
| `UseStaff.PendingPayments` | src/hooks/useStaff.ts:44-49 | a request for exactly the employees with a positive balance, each for its full balance, in staff-list order (drawn from the per-entry requests by dropping the unowed); every amount positive; none exactly when nobody is owed |
| `UseStaff.PendingCoversBalance` | src/hooks/useStaff.ts:44-49 | what is requested for an employee covers the balance shown for them |
| `UseStaff.PendingPaysBalanceOnce` | src/hooks/useStaff.ts:44-49 | with one entry per employee, the sum asked for each employee is exactly the balance shown when positive and 0 otherwise, so nobody is paid twice |
| `UseStaff.PayEmployee` | src/hooks/useStaff.ts:33-41 | the amount is stored unchanged with the default note and the balances are read back; a failed insert changes nothing and is returned as `success: false` |
| `UseStaff.PayAllPending` | src/hooks/useStaff.ts:43-60 | with nobody owed nothing is written and the reply is success with 'No hay pagos pendientes'; otherwise one bulk write of the pending requests, or the failure returned |
| `UseStaff.SettledAfterBulkPayment` | src/hooks/useStaff.ts:44-49 | after the bulk payment chosen from up-to-date balances, each employee's recomputed balance is 0 |
| `UseStaff.PayAllSettlesEveryone` | src/hooks/useStaff.ts:43-56 | a successful pay-all over up-to-date balances leaves every recomputed balance at 0, and the screen shows them |
| `UseStaff.SecondPayAllIsNoop` | src/hooks/useStaff.ts:43-51 | a second pay-all right after a successful one writes nothing and reports 'No hay pagos pendientes' |
| `UseStaff.FailuresAreReported` | src/hooks/useStaff.ts:33-60 | a failed payment or pay-all is returned as `success: false` with the message, never thrown, and changes neither store nor screen |
| `BillingPage.HandleAddItem` | src/pages/Billing.tsx:31-41 | with an empty description or price text nothing changes; otherwise exactly one line built from the form is appended and the form is cleared |
| `BillingPage.RemoveItem` | src/pages/Billing.tsx:43-45 | every line with the id goes; the others stay, in order, as often as before |
| `BillingPage.Total` | src/pages/Billing.tsx:48 | the total is never negative, is subtotal minus discount unless that is negative, and never exceeds a non-negative subtotal when the discount is non-negative |
| `BillingPage.Subtotal` | src/pages/Billing.tsx:47 | the subtotal of no lines is 0, and it is never negative when no line has a negative price or quantity |
| `BillingPage.SubtotalAppend` | src/pages/Billing.tsx:47 | the subtotal is additive over concatenation of line lists |
| `BillingPage.AddItemRaisesSubtotal` | src/pages/Billing.tsx:31-47 | an accepted add raises the subtotal by exactly price × quantity of the new line; a refused add leaves it as it was |
| `BillingPage.ZeroPriceAccepted` | src/pages/Billing.tsx:32 | a price typed as '0' is accepted and adds a line |
| `BillingPage.RemoveUndoesAdd` | src/pages/Billing.tsx:34-44 | removing the line just added under a fresh id restores the cart's lines |
| `BillingPage.RemoveAbsent` | src/pages/Billing.tsx:44 | removing an id no line carries changes nothing |
| `BillingPage.FilteredClients` | src/pages/Billing.tsx:22-25 | the first five matches, in list order: exactly the first `min(5, matches)` of the matching clients |
| `BillingPage.EmptySearchListsFirstClients` | src/pages/Billing.tsx:22-25 | an empty search lists the first five clients |
| `BillingPage.StoredLineTotalsMatchSubtotal` | src/services/billingService.ts:51-65 | were a cart's lines passed to `procesarFactura`, the stored line totals would add up to the page's subtotal, whatever the rates |
| `ClientsPage.FilteredClients` | src/pages/Clients.tsx:18-34 | exactly the clients matching both the search and the tab, each as often as before, in list order |
| `ClientsPage.TabsByState` | src/pages/Clients.tsx:22-33 | 'all' admits every state, 'Activo' exactly 'pendiente' and 'alerta_5_meses', 'Vencido' exactly 'vencido' |
| `ClientsPage.TabsDisjoint` | src/pages/Clients.tsx:22-33 | no client is listed under both 'Activo' and 'Vencido', and a 'reclamado' one under neither |
| `ClientsPage.EmptySearchListsEveryone` | src/pages/Clients.tsx:19-27 | with an empty term under 'all' every client is listed, in order |
| `ClientsPage.SearchIgnoresCase` | src/pages/Clients.tsx:19-20 | a term and its lower-cased form list the same clients |
| `ClientsPage.LowerIdempotent` | src/pages/Clients.tsx:19 | lower-casing twice is lower-casing once |
| `DashboardService.UpcomingBirthdays` | src/services/dashboardService.ts:55-67 | the birthday count is at most the number of rows, and 0 exactly when no row is in the window |
| `DashboardService.ExpiringBonuses` | src/services/dashboardService.ts:69-76 | the expiring count is at most the number of rows, and 0 exactly when no row is in the window |
| `DashboardService.ActiveBonusCount` | src/services/dashboardService.ts:33-36 | the active-bonus count is at most the size of the table |
| `DashboardService.GetDashboardStats` | src/services/dashboardService.ts:12-86 | the first failed read throws with its own prefix; a missing count is reported as 0; the two windows are counted over the rows fetched, and stay within their number |
| `DashboardService.BirthdayByDays` | src/services/dashboardService.ts:55-66 | a birthday counts exactly when it is present and its date this year is one of the next seven days, or today with the clock at midnight |
| `DashboardService.ExpiringByDays` | src/services/dashboardService.ts:69-76 | a bonus counts exactly when it is 'pendiente', has an expiry date, and that date is one of the next seven days, or today with the clock at midnight |
| `DashboardService.ExpiryTodayMissedAfterMidnight` | src/services/dashboardService.ts:72-75 | a bonus expiring today is not counted once the day has started |
| `DashboardService.ExpiryInSevenDaysCounted` | src/services/dashboardService.ts:53 | a bonus expiring seven days after today is always counted |
| `DashboardService.NoYearWrap` | src/services/dashboardService.ts:63-66 | from 25 December on, a January birthday is never counted, however close |
| `DashboardService.WindowCountsAppend` | src/services/dashboardService.ts:55-76 | each window count grows by one exactly for an added row inside the window |
| `DashboardService.ActiveCountsPendienteOnly` | src/services/dashboardService.ts:36 | a 'pendiente' row raises the active count by one; an 'alerta_5_meses' row leaves it as it was |
| `DashboardService.DashboardCountsOneTable` | src/services/dashboardService.ts:79-85 | when the replies come from one table and the month's new clients are some of its rows, the dashboard succeeds and none of the new-client, active, birthday and expiring figures exceeds the total |
| `NewStaffModal.ValidationError` | src/components/staff/NewStaffModal.tsx:27-32 | no error exactly when both text fields are filled and the rate is in [0, 100]; a missing field is reported before the range |
| `NewStaffModal.HandleSubmit` | src/components/staff/NewStaffModal.tsx:21-48 | the form reaches `onSave` exactly when valid; the modal closes and the form resets exactly when the save succeeds; otherwise the form is kept and a non-empty message shown |
| `NewStaffModal.RateBoundsInclusive` | src/components/staff/NewStaffModal.tsx:30-32 | with both fields filled a rate reaches `onSave` exactly when it is in [0, 100], 0 and 100 included |
| `NewStaffModal.RequiredCheckFirst` | src/components/staff/NewStaffModal.tsx:27-29 | a missing field is reported, and `onSave` skipped, whatever the rate |
| `NewStaffModal.ResetFormIsRejected` | src/components/staff/NewStaffModal.tsx:37-41 | the reset form is refused for its missing fields if submitted again |
| `ListState.Fetch` | src/hooks/useClients.ts:14-26 | a successful read replaces the list and clears the error; a failure keeps the list and shows the message of an `Error`, or the fallback |
| `ListState.Update` | src/hooks/useClients.ts:39-48 | exactly the hits become the returned value, length and order kept; a failure keeps the state and returns its message |
| `ListState.Remove` | src/hooks/useClients.ts:50-59 | exactly the entries that fail the test go, the rest stay in order and as often as before; a failure keeps the state and returns its message |
| `ListState.ReplaceWhere` | src/hooks/useClients.ts:42 | `map(x => hit ? v : x)` keeps the length and replaces exactly the hits |
| `ListState.ReplaceWhereIdempotent` | src/hooks/useClients.ts:42 | replacing twice by a value that is itself a hit is replacing once |
| `ListState.ReplaceWhereMiss` | src/hooks/useClients.ts:42 | with no hit the list is unchanged |
| `UseClients.FetchClients` | src/hooks/useClients.ts:14-26 | a successful read replaces the list and clears the error; a failure keeps the list and shows the message or 'Error desconocido al cargar clientes' |
| `UseClients.AddClient` | src/hooks/useClients.ts:28-37 | a created client is put in front; a failure leaves the list and reports the message |
| `UseClients.UpdateClient` | src/hooks/useClients.ts:39-48 | exactly the entries with the id become the returned client, length and others unchanged; a failure leaves the list |
| `UseClients.DeleteClient` | src/hooks/useClients.ts:50-59 | exactly the entries with the id go, the rest stay in order and as often as before; a failure leaves the list |
| `UseClients.FailureLeavesListAlone` | src/hooks/useClients.ts:33-58 | a failed add, update or delete leaves the state as it was and reports a failure |
| `UseClients.DeleteUndoesAdd` | src/hooks/useClients.ts:31-53 | deleting a just-added client with a new id restores the state |
| `UseClients.UpdateTwiceOrMissing` | src/hooks/useClients.ts:42 | an update keeping the id is idempotent; an update of an absent id changes nothing |
| `UseAppointments.FetchAppointments` | src/hooks/useAppointments.ts:11-25 | a successful read replaces the list and clears the error; a failure keeps the list and shows the message or 'Error al cargar citas' |
| `UseAppointments.AddAppointment` | src/hooks/useAppointments.ts:27-36 | a created appointment is put at the end; a failure leaves the list and reports the message |
| `UseAppointments.EditAppointment` | src/hooks/useAppointments.ts:38-47 | exactly the entries with the id become the returned appointment, length and order kept; a failure leaves the list |
| `UseAppointments.RemoveAppointment` | src/hooks/useAppointments.ts:49-58 | exactly the entries with the id go, the rest stay in order and as often as before; a failure leaves the list |
| `UseAppointments.FailureLeavesListAlone` | src/hooks/useAppointments.ts:32-57 | a failed add, edit or remove leaves the state as it was and reports a failure |
| `UseAppointments.RemoveUndoesAdd` | src/hooks/useAppointments.ts:30-52 | removing a just-added appointment with a new id restores the state |
| `UseAppointments.EditTwiceOrMissing` | src/hooks/useAppointments.ts:41 | an edit keeping the id is idempotent; an edit of an absent id changes nothing |

## Left out

- Store, auth and network plumbing are left out. Supabase queries and inserts are replies passed in as parameters, and login and the appointment webhook are not modelled. Counts the store computes (total clients, new clients this month, active bonuses) are count replies; `DashboardService.ActiveBonusCount` states what the active-bonus query counts.
- Deriving a bonus's state from its dates is not modelled. The code never does it; states are read as stored.
- The order of the two invoice writes, and what a failure between them leaves in the store, is I/O ordering and is not modelled.
- Concurrent settlement calls are not modelled: each hook call is one step over one ledger.
- Floating point is out: money and rates are exact reals.
  - `NaN` is not modelled. A rate typed as non-numeric text would pass the form's range check in the app.
  - `Number(x) || 0` is modelled only as "missing or non-numeric counts 0".
  - `toLocaleString` is out.
- `BillingPage.HandleAddItem`: `Number(...)` of the quantity and price text is not modelled. The form carries the text for the guard and the converted value beside it.
- Date handling is partly out:
  - parsing the `YYYY-MM-DD` text;
  - daylight-saving time;
  - the date-fns month bounds of the new-clients count and of the appointment fetch;
  - `formatDate`.
- The clock is a parameter, and nothing ties its year to its minute. A stored date whose day exceeds the month runs on day by day, as `new Date(y, m - 1, d)` does. The one difference from the app: it is placed in the current year as stored, not first normalised in its birth year.
- `Common.Lower`: lower-cases ASCII letters only, not the full Unicode case mapping of `toLowerCase`.
- `UseStaff.ReadBack`: the refresh after a payment is assumed to succeed. A failed refresh is modelled only by `UseStaff.FetchStaffData`.
- `getEmpleados` ordering by name is left to the store: the employee rows arrive in the order given.
- `crearEmpleado` and `addStaff` (inserting an employee) are store writes with no rule beyond the `activo` default, and are not modelled.
- Loading and submitting flags are presentation state and are not modelled.
- Logging is not modelled: the `console.error` calls in the client and appointment hooks' catch blocks have no effect on state or replies.
- The random line id of the cart is a parameter.
- The point-of-sale page never submits its cart to `procesarFactura`: its checkout button has no handler. Its lines carry no employee either, because `handleAddItem` does not copy one (`BillingPage.HandleAddItem`). Invoicing is therefore modelled as `procesarFactura` defines it, for any payload.
- Presentation components, the mock-data pages and declaration-only type files are not modelled.
