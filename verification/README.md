# true-rent: the rent calculator in Dafny

true-rent computes the effective monthly cost of renting a flat. Every fee of
a listing is quoted in a billing unit: yen per month, yen once, yen per
contract term, yen per contract renewal, or a number of months. The calculator
resolves each fee to what it costs over the intended lease, nets the fees into
a total, and reports the monthly average next to the "rent + management fee
only" figure.

This project models that core as pure functions over immutable datatypes:

- `wrappers.dfy` — `Wrappers.Result`, the success-or-error value.
- `constants.dfy` — `Constants.UnitId`, the five billing units, with their
  integer discriminants (`Code`), display labels (`Label`) and the fallible
  decoding of an integer (`Decode`). Decoding follows the program: it filters
  the variants in declaration order by discriminant. It fails when no variant
  matches, and also when a second one does.
- `rust_int.dfy` — `RustInt.TruncDiv`, Rust's `/` on integers, which truncates
  toward zero. Dafny's `/` does not. `TruncQuotient` characterises the result,
  and `TruncQuotientUnique` shows that the characterisation is complete.
- `calculator.dfy` — `Calculator.RentItem`, the fee record `RentElements`
  with its seventeen slots, `Get` (one fee over the tenancy), `Total`,
  `Calc` and `RentResult`.
- `schedule.dfy` — `PaymentSchedule`, an independent month-by-month account of
  the payments each yen unit falls due. For a lease and a term of at least
  one month, and a non-negative value for a renewal fee, `Get` is proved equal
  to the value times the number of payments. Its monotonicity follows from that.
- `calculator_properties.dfy` — `CalculatorProperties`: the unit tests'
  vectors, how the units relate, what the total is made of, the support fee
  that is never read, the nominal baseline, and two complete listings.

Division by zero makes the program panic. The model excludes it with
preconditions instead. `Get` requires a non-zero contract term only for the
two per-contract units (`Resolvable`). `Total` and `Calc` require
`Calculable`, which holds exactly when no division by zero happens:
- the lease and contract slots are read with both durations zero, so neither
  may be per-contract;
- the lease is non-zero;
- every fee that is resolved can be resolved.

Much of the reasoning assumes `FormShaped` listings: both durations in months
and at least one month long. Lemma `FormShapedIsCalculable` shows that such a
listing is calculable. The input form guarantees only half of this. It offers
the month unit alone for the two durations, but it accepts zero months.
`ZeroLeaseNotCalculable` and `ZeroTermNotCalculable` show that a zero lease, or
a zero term beside a per-renewal fee, is not calculable: the program panics on
such a listing.

## Model

| member | source | states |
|---|---|---|
| Constants.Code | src/constants.rs:53-60 | the discriminants run from 0 in declaration order: a unit's code is its position in the order the enum iterates, so no two units share a code |
| Constants.Label | src/constants.rs:62-71 | every label is non-empty, and it starts with the yen sign exactly when the unit is an amount of yen rather than months |
| Constants.LabelsDistinct | src/constants.rs:62-71 | the five unit labels are pairwise different |
| Constants.AllUnitsHaveDistinctCodes | src/constants.rs:53-60 | no two variants in the iteration order used by decoding share a discriminant, which keeps decoding's second-match failure from firing |
| Constants.Matching | src/constants.rs:77 | filtering keeps exactly the variants whose discriminant equals the code |
| Constants.MatchingNone | src/constants.rs:77-78 | when no variant carries the code, the filter yields nothing |
| Constants.MatchingAtMostOne | src/constants.rs:77-80 | with pairwise distinct discriminants, at most one variant matches, so the "second match" failure never fires |
| Constants.Decode | src/constants.rs:74-82 | decoding succeeds exactly for codes 0 to 4, and a decoded unit's discriminant is the code; every other integer is an error |
| Constants.DecodeCode | src/constants.rs:53-60 | round trip: decoding a variant's own discriminant returns that variant |
| Constants.DecodeVectors | src/constants.rs:74-82 | 0, 1, 2, 3, 4 decode to MonthlyYen, OneShotYen, EveryContractYen, EveryContractUpdateYen, Month; -1 and 5 fail |
| RustInt.TruncDiv | src/calculator.rs:186-188 | for a non-zero divisor, integer division as Rust does it: the quotient times the divisor lies between zero and the dividend and misses it by less than one divisor |
| RustInt.TruncQuotientUnique | src/calculator.rs:186-188 | only one quotient meets that description, so it defines the division completely |
| RustInt.TruncDivOfNatural | src/calculator.rs:32-33 | for a non-negative dividend and a positive divisor the truncating and the Euclidean quotient agree |
| RustInt.TruncDivExact | src/calculator.rs:152-153 | dividing an exact multiple by a non-zero divisor returns the multiplier, for either sign |
| RustInt.TruncDivMonotone | src/calculator.rs:186-188 | with a positive divisor, a larger dividend never gives a smaller quotient |
| Calculator.Get | src/calculator.rs:28-36 | over a one-month lease every fee is charged exactly once, except the renewal fee, which is not charged; a non-negative fee never costs a negative total when lease and term are at least one. `PaymentSchedule.GetMatchesSchedule` gives its full meaning |
| Calculator.CostSlotsAreTheAddedAmounts | src/calculator.rs:155-168 | the slots the total adds are every slot except the support fee, the free months, the contract term and the lease, each listed exactly once |
| Calculator.CalculableResolvesSlots | src/calculator.rs:142-168 | a calculable listing can resolve every slot except the support fee |
| Calculator.CostSlotsSum | src/calculator.rs:155-168 | for a calculable listing, the sum over the added slots equals the thirteen amounts added one by one |
| Calculator.Total | src/calculator.rs:142-169 | computed as the program does; `CalculatorProperties.TotalIsSlotSum` and `CostSlotsAreTheAddedAmounts` state that it is every amount but the support fee less the free-rent discount, and `SupportFeeIgnored` that the support fee never affects it |
| Calculator.Calc | src/calculator.rs:170-192 | the report echoes the lease length read from its slot, which is non-zero; its total is `Total`; the nominal total is the resolved rent plus the resolved management fee; both monthly figures are the truncating quotients of their totals by the lease |
| PaymentSchedule.TermBoundaryStep | src/calculator.rs:32-33 | for a month and a term of at least one, the number of terms started grows by one exactly when the month is a multiple of the term |
| PaymentSchedule.PaymentsClosedForm | src/calculator.rs:30-33 | for a yen fee and a lease and term of at least one month, counting the payments month by month gives `lease` for a monthly fee, 1 for a one-time fee, `1 + (lease-1)/term` per contract and `(lease-1)/term` per renewal |
| PaymentSchedule.GetMatchesSchedule | src/calculator.rs:28-36 | for a lease and a term of at least one month, a yen fee resolves to its value times the number of payments due over the lease; for a renewal fee this needs a non-negative value, since the clamp turns a negative one into 0 |
| PaymentSchedule.PaymentsMonotone | src/calculator.rs:28-36 | for a yen fee and a term of at least one month, a longer lease never has fewer payments due |
| PaymentSchedule.GetStep | src/calculator.rs:32-33 | for a non-negative value and a lease and term of at least one month, one more lease month raises a per-contract or per-renewal fee by exactly its value when that month opens a new term, and leaves it otherwise |
| PaymentSchedule.GetMonotone | src/calculator.rs:28-36 | for a non-negative fee and a lease and term of at least one month, a longer lease never costs less, whatever the unit |
| CalculatorProperties.GetVectors | src/calculator.rs:200-231 | the unit tests' values for a fee of 111 under the per-renewal, one-time and per-contract units; with a zero-month lease the renewal clamp turns -111 into 0 |
| CalculatorProperties.FlatUnitsIgnoreDurations | src/calculator.rs:30-34 | a one-time fee and a month count resolve to their value whatever the lease and contract term |
| CalculatorProperties.MonthlyScalesWithLease | src/calculator.rs:30 | a monthly fee over two periods costs the sum of the two, independent of the contract term |
| CalculatorProperties.RenewalNeverNegative | src/calculator.rs:33 | the per-renewal fee is never negative, for any value and lease and any non-zero term |
| CalculatorProperties.PerContractExceedsRenewalByOne | src/calculator.rs:32-33 | for a non-negative value and a lease and term of at least one month, the per-contract charge is the per-renewal charge plus exactly one value |
| CalculatorProperties.TotalIsSlotSum | src/calculator.rs:152-168 | for a calculable listing, the total is the sum of the thirteen resolved amounts less the resolved rent divided by the lease times the free months |
| CalculatorProperties.TotalWithoutFreeRent | src/calculator.rs:152-168 | for a calculable listing with no free months, the total is the plain sum of the amounts it adds |
| CalculatorProperties.MonthlyRentDiscount | src/calculator.rs:152-159 | for a calculable listing with monthly rent, the free-rent discount is exactly the nominal rent times the free months |
| CalculatorProperties.FormShapedIsCalculable | src/calculator.rs:143-144 | durations in months, both at least one, make a listing calculable, and the lease and term read back as the slots' values |
| CalculatorProperties.ZeroLeaseNotCalculable | src/calculator.rs:152-153 | a lease of zero months, which the form accepts, is not calculable: the rent is divided by it |
| CalculatorProperties.ZeroTermNotCalculable | src/calculator.rs:33 | a contract term of zero months is not calculable when the renewal fee is charged per renewal, the only unit the form offers for it |
| CalculatorProperties.SupportFeeIgnored | src/calculator.rs:142-192 | for a calculable listing, changing the support fee keeps it calculable and changes nothing in the report: total, monthly, nominal total and nominal monthly |
| CalculatorProperties.ZeroFeeCostsNothing | src/calculator.rs:28-36 | a fee of zero costs nothing in any unit, for any durations it can be resolved with |
| CalculatorProperties.NominalWhenNoOtherFees | src/calculator.rs:170-189 | for a calculable listing in which every fee other than rent and management fee is zero, free months included, the total and monthly figures equal the nominal ones |
| CalculatorProperties.BaselineIsNominal | src/calculator.rs:182-188 | the nominal figures of any calculable listing are the full figures of the same listing with every other fee removed |
| CalculatorProperties.ExtraFeesRaiseCost | src/calculator.rs:155-188 | for a listing whose durations are in months and at least one, without free rent, non-negative extra fees keep the total and the monthly average at or above the nominal ones |
| CalculatorProperties.TwoYearListingReport | src/calculator.rs:170-192 | rent 50000 and management fee 2000 a month over 24 months report 1248000 in total and 52000 a month, both full and nominal |
| CalculatorProperties.NegativeTotalTruncates | src/calculator.rs:153-188 | free months beyond the lease give a negative total whose monthly average truncates toward zero (-2999 over 2 months is -1499, not -1500) |

## Left out

- `RentElements::build` (src/calculator.rs:65-136) only reads form fields; the model starts from the finished record.
- `to_json_string` and the serde derives: the encoding comes from a library that is not part of this model. That library writes a unit as its variant name, not as its integer code, so no JSON round trip is modelled.
- src/lib.rs, src/form_items.rs, src/form_info.rs and src/utils.rs build the page, read inputs and format the result text. The core does not depend on them.
- `InputId` (src/constants.rs:8-50) names page elements only.
- Integer width: values are unbounded `int`. The program's `i32` arithmetic panics or wraps on overflow; neither is modelled.
- Division by zero is a panic in the program. It is modelled by the preconditions `Resolvable` and `Calculable`, not as an error value. `calc` always returns `Ok`, so `Calc` returns the report itself.
- The decoding error carries no text; the program's error holds one fixed message.
- The program has no `InvalidDuration` error. The form accepts zero months for the lease and the term (src/form_items.rs:135-143), and such a listing panics instead of being reported. The model follows the code: it excludes these listings by precondition, and `ZeroLeaseNotCalculable` and `ZeroTermNotCalculable` say which they are.
- The support fee is not part of the total (src/calculator.rs:155-168). This is kept as written; `SupportFeeIgnored` states it.
- The discount divides the resolved rent back by the lease rather than using the nominal rent. This is kept as written. `MonthlyRentDiscount` shows the two agree for monthly rent.
