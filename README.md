# Monthly earnings and project counts of the freelancer dashboard

This project models the only logic in the analytics dashboard of the freelancer
management front end (`frontend/src/components/Chart.jsx`) and proves what it
promises.

- **The monthly earnings aggregator** (`calculateMonthlyEarnings`). It builds a
  12-entry table with one `{ month, earnings }` entry per month of the trailing
  year. First it pushes the slots newest first, each with zero earnings. Then it
  adds each payment's amount into slot `(currentMonth - paymentMonth + 12) % 12`.
  Finally it reverses the table in place, so that it reads oldest first and ends
  at the current month. The model keeps this form: `MonthlyEarnings.CalculateMonthlyEarnings`
  is a method over a 12-element array with three loops: fill, add, and the
  in-place reverse (`MonthlyEarnings.Reverse`). When every payment date parsed, it
  is proved to return `MonthlyEarnings.Series`, a declarative reference table. In that table, entry
  `j` is labelled with month `(current + 1 + j) mod 12` and holds the total of
  the payments made in that calendar month. The properties are proved about
  `Series` in module `EarningsProperties`:
  - the labels are a rotation of Jan..Dec that ends at the current month;
  - consecutive entries follow the calendar;
  - every payment lands in the entry named after its own month, whatever its year;
  - the total is conserved;
  - the order of the payments does not matter.
- **The project status counts**: `projects.filter(p => p.status === 'Active').length`
  and the same for `'Completed'`. These are pure functions in module `ProjectCounts`.

The clock read `new Date()` becomes the parameter `current`, the month number
0..11 that `getMonth()` would return. A payment record becomes
`PaymentRecord(date, amount)`, where `date` is either `None` (no valid date) or the
year and the month 0..11 that `getMonth()` yields. Once its date has parsed, the
record is a `Payment(year, month, amount)`. The year is carried only so that the
model can state that the aggregator ignores it. Amounts are integers.

Buckets are keyed by calendar month alone, so payments from different years in
the same month share an entry. A rolling 12-month window keyed by (year, month)
would instead drop payments older than twelve months. The model follows the
code, so `SumConserved` sums all payments, of any year. `MarchScenario` and
`YearIgnored` state this outright.

A payment whose date is missing or does not parse has `getMonth()` equal to NaN.
Its slot index is then NaN too, and `earnings[NaN].earnings += …` throws a
TypeError. That aborts the whole dashboard load, and no earnings table is stored.
The model represents such a date as `None`. `CalculateMonthlyEarnings` then returns
`Err(InvalidDate(i))` for the first such record `i`, and returns a table only when
every date parsed.

## Model

| member | source | states |
|---|---|---|
| `MonthlyEarnings.CalculateMonthlyEarnings` | frontend/src/components/Chart.jsx:51-67 | The result is an error exactly when some record has no valid date. The error names the first such record, and every record before it is dated. Otherwise the fill, add and reverse loops return exactly 12 entries, equal to the reference table `Series` of the parsed payments: entry j carries the name of month (current+1+j) mod 12 and the sum of the amounts of the payments made in that month. |
| `MonthlyEarnings.Reverse` | frontend/src/components/Chart.jsx:66 | In-place reversal: afterwards element k is the old element Length-1-k. |
| `MonthlyEarnings.SlotIndex` | frontend/src/components/Chart.jsx:62-63 | The slot index `(current - paid + 12) % 12` is always in 0..11, so the update never writes out of bounds. The slot it picks is labelled with the payment's month, and no other slot is. |
| `MonthlyEarnings.SlotMonth` | frontend/src/components/Chart.jsx:57 | The label index `(current - i + 12) % 12` of slot i is in 0..11. It is the current month minus i, wrapping below January into the previous year. |
| `MonthlyEarnings.Series` | frontend/src/components/Chart.jsx:56-58 | The table always has exactly 12 entries, whatever the payment list, including an empty one. |
| `EarningsProperties.LabelsRotate` | frontend/src/components/Chart.jsx:54-66 | The labels are Jan..Dec rotated to end at the current month. The last entry is the current month and the first is the month after it, i.e. 11 months back. |
| `EarningsProperties.EveryNameOnce` | frontend/src/components/Chart.jsx:54-57 | The multiset of labels is exactly the twelve month names. |
| `EarningsProperties.LabelsDistinct` | frontend/src/components/Chart.jsx:54-57 | No two entries carry the same label. |
| `EarningsProperties.ConsecutiveMonths` | frontend/src/components/Chart.jsx:56-66 | Each entry's label is the calendar successor of the previous entry's label, with December followed by January. The successor is given by an explicit name table (`NextName`), independent of the modular arithmetic. |
| `EarningsProperties.LabelsIgnorePayments` | frontend/src/components/Chart.jsx:56-58 | The labels depend only on the current month, never on the payments. |
| `EarningsProperties.NoPaymentsAllZero` | frontend/src/components/Chart.jsx:56-58 | With no payments, every entry earns 0. |
| `EarningsProperties.AddPayment` | frontend/src/components/Chart.jsx:60-64 | Appending one payment leaves every label and every other entry unchanged. It raises the entry named after the payment's month by exactly the payment's amount. |
| `EarningsProperties.SumConserved` | frontend/src/components/Chart.jsx:60-64 | The entries' earnings sum to the sum of all payment amounts. |
| `EarningsProperties.OrderIrrelevant` | frontend/src/components/Chart.jsx:60-64 | Two payment lists with the same multiset of payments give the same table. |
| `EarningsProperties.YearIgnored` | frontend/src/components/Chart.jsx:61-63 | Payment lists that agree on each payment's month and amount give the same table, whatever the years. A payment from a past year lands in the entry of its calendar month. |
| `EarningsProperties.MarchScenario` | frontend/src/components/Chart.jsx:51-67 | Current month March. Payments of 100 (2024-03), 50 (2024-02) and 25 (2023-03) give "Mar" = 125, "Feb" = 50 and 0 in the ten other entries. |
| `EarningsProperties.JanuaryScenario` | frontend/src/components/Chart.jsx:51-67 | Current month January. A payment of 10 in December of the previous year lands in "Dec", the entry just before "Jan". |
| `ProjectCounts.WithStatus` | frontend/src/components/Chart.jsx:21-22 | The filter keeps exactly the projects whose status equals the given string, and is no longer than the input. |
| `ProjectCounts.CountIsOccurrences` | frontend/src/components/Chart.jsx:21-22 | The filtered length is the number of occurrences of the status among the projects' statuses. |
| `ProjectCounts.ActiveCount` | frontend/src/components/Chart.jsx:21 | The active count is the number of projects whose status is exactly "Active", at most the number of projects. |
| `ProjectCounts.CompletedCount` | frontend/src/components/Chart.jsx:22 | The completed count is the number of projects whose status is exactly "Completed", at most the number of projects. |
| `ProjectCounts.DistinctStatusesDisjoint` | frontend/src/components/Chart.jsx:21-22 | For two different statuses, the two filtered lists together are no longer than the project list. |
| `ProjectCounts.CountsBounded` | frontend/src/components/Chart.jsx:21-22 | The active count plus the completed count is at most the number of projects. |

## Left out

- Fetching projects and payments over HTTP (`api.get`), the loading and error flags, and the React state setters (Chart.jsx:15-49). These are network I/O and UI state. The payment count shown on the dashboard (Chart.jsx:30) is the list's length and is not modelled separately.
- Chart rendering through recharts (Chart.jsx:69-134). It is presentation only, done by a foreign library.
- Date parsing: `new Date(payment.date)` and `getMonth()`. The model receives either no valid date or a parsed year and month 0..11. It does not model the day, time zones, or how a string is parsed. For example, a date-only string is read as UTC midnight but `getMonth()` reports local time, so west of UTC the first of a month falls in the previous month.
- JavaScript number semantics: amounts are unbounded integers. The model does not reproduce floating point, or the coercion of `+=` when an amount arrives as a string or is missing. Such input would concatenate or give NaN. `SumConserved` and `OrderIrrelevant` rest on this assumption. Floating-point addition rounds and is not associative, so with fractional amounts the source's totals can depend on the order of the payments: (0.1+0.2)+0.3 ≠ 0.1+(0.2+0.3).
- The rest of the front end (login, registration, token storage, CSV import and export, the project list with its delete filter, and the project form). These are UI and HTTP plumbing around library calls.
