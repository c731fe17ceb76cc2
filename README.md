# Electricity billing: a verified model

The application logs pairs of electricity-meter readings. For each pair it checks
the readings and the dates, works out the units consumed, the bill from a tiered
tariff and a billing-period label, and then stores, rewrites or deletes the
resulting record. This project models that logic in Dafny and proves its
properties.

- `results.dfy` (module `Results`): `Option` and `Result`.
- `tariff.dfy` (module `Tariff`): `tot_charge` as `Rate`, the bill `Charge(u) = u * Rate(u)`,
  the five bands (`Tier`, `TierOf`, `InTier`) and each band's linear bill (`TierCharge`).
  Rates are exact reals.
- `calendar.dfy` (module `Calendar`): dates as `strptime('%Y-%m-%d')` yields them
  (valid Gregorian year/month/day, year 1000..9999). `Before` is datetime `<`.
  `Format` and `Period` give the `'%b %d, %Y'` label. As independent partners there
  is a day count (`DayNumber`) and a label reader (`ParseLabel`, `SplitPeriod`).
- `billing.dfy` (module `Billing`): `ValidateAndDerive` is the single pure function
  behind the identical blocks in `index` and `update`. It checks the readings first,
  then the dates, stopping at the first failure, and on success returns units, bill
  and label. `Message` gives the text shown for each error.
- `records.dfy` (module `Records`): the `Electricity` table as class `Table`, holding
  a `map<int, Record>` and an id counter. Its methods are `Create` (POST to `index`),
  `Update` (POST to `update`) and `Delete`. Its invariant `Valid` says every stored
  row is `Consistent`, meaning the derivation equations hold.

`Rate` has no precondition. Each of its divisions is guarded by `units > 60`, and
Dafny checks every divisor is non-zero, so `Rate` is total on all integers.

## Model

| member | source | states |
|---|---|---|
| Tariff.Rate | app.py:25-35 | total on every integer, no division by zero; exactly 7.85 for every count up to 60 (zero and negatives included); above 10 for every count above 60 |
| Tariff.TierOf | app.py:26-35 | the band chosen lies within that band's own range |
| Tariff.TierExactlyOne | app.py:26-35 | every count lies in exactly one band's range |
| Tariff.BoundaryRates | app.py:26-35 | each boundary falls into the lower band: 180 gives 32 + 480/180, 120 gives 31.75, 90 gives 11, 60 gives 7.85; one unit above each boundary gives the next band's formula |
| Tariff.Charge | app.py:55-57 | the bill is units times the band rate; in the flat band it is exactly 7.85 per unit |
| Tariff.ChargeByTier | app.py:26-35 | units times rate equals the band's linear bill: 7.85u, 10u+90, 27.75u+480, 32u+480 or 89u+2360 |
| Tariff.ChargeSign | app.py:55-57 | zero units cost exactly 0; any positive consumption costs more than 0 |
| Tariff.ChargeIncreasing | app.py:25-35 | for naturals, more units always cost strictly more, across band boundaries too |
| Tariff.RateWithinTier | app.py:26-35 | the range of rates each band can produce (flat 7.85; [11, 11.5); [31.75, 33.1); (34.6, 36); above 89) |
| Tariff.RateRisesWithTier | app.py:26-35 | a higher band always has a strictly higher per-unit rate than a lower band |
| Calendar.Before | app.py:51 | datetime `<` on midnight dates, compared field by field; a date is never before itself and never before an earlier year (chronological order is proved in BeforeIsChronological) |
| Calendar.BeforeIsChronological | app.py:51 | comparing dates component by component is the same as comparing day numbers, in both directions |
| Calendar.BeforeTrichotomy | app.py:100 | date order is strict and total |
| Calendar.Format | app.py:58 | a date's label is 12 characters long |
| Calendar.FormatRoundTrip | app.py:58 | reading a label back gives the date it came from |
| Calendar.FormatInjective | app.py:58 | different dates have different labels |
| Calendar.Period | app.py:107 | the billing-period label is 27 characters long |
| Calendar.PeriodRoundTrip | app.py:107 | a billing-period label splits back into its two dates, last reading date first |
| Calendar.PeriodExample | app.py:58 | 2024-01-01 and 2024-02-01 give "Jan 01, 2024 - Feb 01, 2024" |
| Billing.ValidateAndDerive | app.py:47-58 | the block shared by `index` and `update` (also app.py:96-107): the reading error exactly when current < last; on success the units are current - last, not negative, and the label has 27 characters. RefusalReasons and AcceptedFields give the full account |
| Billing.Message | app.py:47-53 | the error texts of app.py:49 and 53 (repeated at 98 and 102), both starting with "Error! " |
| Billing.ReadingCheckedFirst | app.py:47-49 | a current reading below the last one gives the reading error, whatever the dates |
| Billing.RefusalReasons | app.py:47-53 | reading error exactly when current < last; date error exactly when readings are fine and the current date's day number is earlier; accepted exactly when both checks pass |
| Billing.AcceptedFields | app.py:55-58 | on success: units = current - last and units >= 0; charge = units * rate(units), equal to the band's linear formula and not negative; the label splits back into (last date, current date) |
| Billing.EqualReadingsCostNothing | app.py:47-57 | equal readings with ordered dates are accepted, giving zero units and zero charge (the check is strict) |
| Billing.MoreUnitsCostMore | app.py:55-57 | two submissions that pass both checks are accepted, and the one with more units has the strictly larger bill |
| Billing.Example150Units | app.py:55-58 | readings 100 to 250, 2024-01-01 to 2024-02-01, give 150 units, bill 5280.0 and label "Jan 01, 2024 - Feb 01, 2024" |
| Billing.Example50Units | app.py:55-57 | readings 0 to 50 give 50 units at the flat rate, bill 392.5 |
| Records.ConsistentIsRevalidation | app.py:12-20 | a row satisfies the table invariants exactly when revalidating its readings succeeds and gives back the fields it already has |
| Records.AcceptedIsConsistent | app.py:55-68 | the row built from an accepted submission satisfies the invariants |
| Records.Table.constructor | app.py:12-20 | a new table is empty and valid |
| Records.Table.Create | app.py:47-71 | a refused submission returns its error and leaves the table unchanged; an accepted one adds exactly one row, under an unused id, holding the derived fields; the invariant is preserved |
| Records.Table.Update | app.py:86-109 | an unknown id gives NotFound before any validation; a refused submission leaves the table unchanged; an accepted one rewrites that row with re-derived fields and leaves all other rows alone; the invariant is preserved |
| Records.Table.Delete | app.py:79-81 | an unknown id gives NotFound; a known id is removed and nothing else changes |

## Left out

- HTTP routing, templates, redirects and `app.run` are presentation only. The listing shown with an error message is also left out; the model returns the error kind, and `Message` gives its text.
- SQLAlchemy configuration, `db.create_all`, sessions and commits are database I/O. The table is an abstract map. Ids come from a counter inside the model; the database's autoincrement policy is not modelled beyond "a new id is unused".
- Parsing form strings with `datetime.strptime` and `int()` is not modelled. Dates and integers arrive already parsed and valid, so malformed input is not modelled.
- Floating-point rounding of the rate and charge is not modelled: arithmetic is exact over the reals. For example, 150 units bill 5280.0 exactly.
- Numeric limits of the source are not modelled. Readings and units are unbounded integers and the bill is an exact real. The source fails in two places the model does not: `total_units * CHARGE_PER_UNIT` raises OverflowError once `total_units` is too large to convert to a float, and `commit` fails for readings outside the `db.Integer` column range (32-bit on PostgreSQL, 64-bit on SQLite). In both cases the source stores no row, whereas Records.Table.Create and Records.Table.Update store every integer.
- Years outside 1000..9999 are excluded, where `%Y` would not print four digits.
- Records.Table.Update: it validates before writing. The handler assigns the submitted values to the ORM object first, and relies on the session not being committed on the error path, so the stored row stays unchanged. The model states that outcome (table unchanged), not the temporary in-memory assignment or its autoflush and rollback behaviour.
- The form-field rewriting at the start of `update` (dates turned back into `'%Y-%m-%d'` strings for the edit form) and the GET branches of `index` and `update` only render pages. They are not modelled.
