# Cinema tickets: a verified model of TicketServiceImpl

`TicketServiceImpl` takes an account id and a list of ticket requests. Each
request is a ticket type (ADULT, CHILD or INFANT) and a count. The service does
three things, in order:

1. It validates the purchase with five ordered checks. The first check that
   fails throws `InvalidPurchaseException`.
2. It computes the amount owed and the number of seats.
3. It calls the payment service once, then the seat-reservation service once,
   each with the account id and one of those totals.

The model has five modules:

- `Domain` (`domain.dfy`) holds the request value, the closed ticket-type
  enumeration and the Java `int`/`long` widths of its fields. A nullable Java
  reference is an `Option`.
- `ThirdParty` (`thirdparty.dfy`) holds the two collaborators. Each one is a
  class whose only behaviour is to append the call it receives to a `CallLog`.
  Two collaborators that share one log show the order of their calls.
- `Pairtest` (`ticket_service.dfy`) holds the service. The three stream
  computations (`validateRequest`, `calculateTotalAmount`,
  `calculateTotalSeats`) are recursive functions over `seq<TicketTypeRequest>`.
  `purchaseTickets` is a method of the class `TicketServiceImpl`, whose two
  `const` fields are the injected collaborators. A thrown
  `InvalidPurchaseException` is a returned `Some(reason)`. The reasons form the
  enumeration `Rejection`, declared in the order the checks run.
- `Overflow` (`overflow.dfy`) models the validation sum as the code computes it,
  in wrapping 32-bit arithmetic (see Findings).
- `Scenarios` (`scenarios.dfy`) restates the cases of the repository's test
  class and passes one refused purchase through the service object. It also
  holds three accepted purchases. One shows that the ADULT rule asks only for
  an ADULT entry, not for an adult ticket. Two show what checking only the
  aggregate count lets through.

The per-type quantity `QuantityOf(rs, t)` is the yardstick. The aggregate
count, the amount and the seat count are each proved equal to a formula over
the ADULT, CHILD and INFANT quantities.

## Model

| member | source | states |
|---|---|---|
| `Pairtest.TotalTickets` | cinema-tickets-java/src/main/java/uk/gov/dwp/uc/pairtest/TicketServiceImpl.java:43-45 | The aggregate that validation checks is the sum of the ADULT, CHILD and INFANT quantities. Negative counts subtract. |
| `Pairtest.CalculateTotalAmount` | cinema-tickets-java/src/main/java/uk/gov/dwp/uc/pairtest/TicketServiceImpl.java:69-84 | Amount = 25 × ADULT quantity + 15 × CHILD quantity. INFANT entries add nothing. |
| `Pairtest.CalculateTotalSeats` | cinema-tickets-java/src/main/java/uk/gov/dwp/uc/pairtest/TicketServiceImpl.java:86-91 | Seats = ADULT quantity + CHILD quantity. Equivalently, the aggregate count minus the INFANT quantity. |
| `Pairtest.Validate` | cinema-tickets-java/src/main/java/uk/gov/dwp/uc/pairtest/TicketServiceImpl.java:33-67 | Each reason is returned exactly when every earlier check passed and its own check failed. An absent or non-positive account id gives InvalidAccountId whatever the requests. An absent or empty list gives NoTicketRequestsProvided. Aggregate ≤ 0 gives NoTicketsRequested. Aggregate > 25 gives TooManyTickets. No ADULT entry gives AdultRequired. A purchase is accepted iff the account is valid, the list is non-empty, the aggregate is in 1..25 and some entry is ADULT. |
| `Pairtest.TicketServiceImpl.PurchaseTickets` | cinema-tickets-java/src/main/java/uk/gov/dwp/uc/pairtest/TicketServiceImpl.java:22-31 | The result is the validation outcome. A rejected purchase leaves both collaborators' logs unchanged. An accepted one appends exactly `Payment(account, amount)` and then `Reservation(account, seats)` to a shared log. With separate logs, each collaborator gets its one call. |
| `Pairtest.TicketServiceImpl.constructor` | cinema-tickets-java/src/main/java/uk/gov/dwp/uc/pairtest/TicketServiceImpl.java:15-19 | Stores the two injected collaborators. |
| `ThirdParty.TicketPaymentService.MakePayment` | cinema-tickets-java/src/main/java/uk/gov/dwp/uc/pairtest/TicketServiceImpl.java:29 | The payment collaborator records one `Payment` call and nothing else. |
| `ThirdParty.SeatReservationService.ReserveSeat` | cinema-tickets-java/src/main/java/uk/gov/dwp/uc/pairtest/TicketServiceImpl.java:30 | The reservation collaborator records one `Reservation` call and nothing else. |
| `Pairtest.QuantityOfAppend` | cinema-tickets-java/src/main/java/uk/gov/dwp/uc/pairtest/TicketServiceImpl.java:43-45 | The per-type quantity of a concatenation is the sum of the two parts' quantities. |
| `Pairtest.TotalTicketsAppend` | cinema-tickets-java/src/main/java/uk/gov/dwp/uc/pairtest/TicketServiceImpl.java:43-45 | The aggregate count of a concatenation is the sum of the two parts' counts. |
| `Pairtest.QuantityOfAbsentType` | cinema-tickets-java/src/main/java/uk/gov/dwp/uc/pairtest/TicketServiceImpl.java:55-61 | A type with no entry has quantity 0. |
| `Pairtest.QuantityOfNonNegative` | cinema-tickets-java/src/main/java/uk/gov/dwp/uc/pairtest/TicketServiceImpl.java:43-45 | If no count is negative, no per-type quantity is negative. |
| `Pairtest.AppendingInfantsKeepsTotals` | cinema-tickets-java/src/main/java/uk/gov/dwp/uc/pairtest/TicketServiceImpl.java:69-91 | Appending INFANT entries changes neither the seat count nor the amount. |
| `Pairtest.AcceptedWithNonNegativeCounts` | cinema-tickets-java/src/main/java/uk/gov/dwp/uc/pairtest/TicketServiceImpl.java:43-91 | Take an accepted purchase with no negative count. Then 0 ≤ seats ≤ aggregate ≤ 25, and 0 ≤ amount ≤ 625. |
| `Overflow.Wrap32` | cinema-tickets-java/src/main/java/uk/gov/dwp/uc/pairtest/TicketServiceImpl.java:43-45 | Java `int` addition: the result is an `int` congruent to the true sum modulo 2^32. It is the true sum when that fits. |
| `Overflow.WrapAdd` | cinema-tickets-java/src/main/java/uk/gov/dwp/uc/pairtest/TicketServiceImpl.java:43-45 | Wrapping after each addition gives the same `int` as wrapping once at the end. |
| `Overflow.StreamSum` | cinema-tickets-java/src/main/java/uk/gov/dwp/uc/pairtest/TicketServiceImpl.java:43-45 | For every list, the wrapping `IntStream.sum` (a left fold of `int` additions) equals the true aggregate wrapped into the `int` range. |
| `Overflow.ValidateAsWritten` | cinema-tickets-java/src/main/java/uk/gov/dwp/uc/pairtest/TicketServiceImpl.java:33-67 | The validation as the code computes it. Each reason is returned exactly when every earlier check passed and its own failed. An absent or non-positive account id gives InvalidAccountId. An absent or empty list gives NoTicketRequestsProvided. Wrapped aggregate ≤ 0 gives NoTicketsRequested. Wrapped aggregate > 25 gives TooManyTickets. Otherwise, no ADULT entry gives AdultRequired. The purchase is accepted iff the wrapped aggregate is in 1..25 and some entry is ADULT. |
| `Overflow.AsWrittenAgreesWhenTotalFits` | cinema-tickets-java/src/main/java/uk/gov/dwp/uc/pairtest/TicketServiceImpl.java:43-53 | Whenever the true aggregate fits in an `int`, the validation as written and `Pairtest.Validate` decide alike. This holds even when a running total overflows on the way. |
| `Overflow.OverflowPassesMaximumCheck` | cinema-tickets-java/src/main/java/uk/gov/dwp/uc/pairtest/TicketServiceImpl.java:43-53 | Take ADULT×2147483647, ADULT×2147483647, ADULT×3. The wrapped aggregate is 1 and the true one is 2^32 + 1. The code as written accepts the purchase; the corrected check rejects it as TooManyTickets. |
| `Overflow.OverflowChangesRejectionReason` | cinema-tickets-java/src/main/java/uk/gov/dwp/uc/pairtest/TicketServiceImpl.java:43-53 | Take ADULT×2147483647, ADULT×2. The true aggregate is 2^31 + 1 and the wrapped one is -2147483647. The code as written refuses with NoTicketsRequested; the corrected check refuses with TooManyTickets. |
| `Scenarios.ValidPurchases` | cinema-tickets-java/src/test/java/uk.gov.dwp.uc.pairtest/CinemaTicketServiceTest.java:44-73 | The four valid test purchases are accepted, with amounts 25, 575, 95, 250 and seats 1, 25, 5, 10. |
| `Scenarios.InvalidPurchases` | cinema-tickets-java/src/test/java/uk.gov.dwp.uc.pairtest/CinemaTicketServiceTest.java:83-118 | The seven invalid test purchases are refused with the expected reasons. |
| `Scenarios.InfantsTakeNoSeat` | cinema-tickets-java/src/test/java/uk.gov.dwp.uc.pairtest/CinemaTicketServiceTest.java:131-139 | ADULT×1 with INFANT×3 pays 25 and reserves 1 seat. |
| `Scenarios.CallsServicesExactlyOnce` | cinema-tickets-java/src/test/java/uk.gov.dwp.uc.pairtest/CinemaTicketServiceTest.java:120-129 | Buying ADULT×2 on account 1 produces exactly the calls `[Payment(1, 50), Reservation(1, 2)]`, in that order. |
| `Scenarios.RejectionCallsNoService` | cinema-tickets-java/src/main/java/uk/gov/dwp/uc/pairtest/TicketServiceImpl.java:22-31 | A refused purchase (CHILD×1 alone) reaches neither collaborator. |
| `Scenarios.ZeroAdultEntrySatisfiesAdultRule` | cinema-tickets-java/src/main/java/uk/gov/dwp/uc/pairtest/TicketServiceImpl.java:55-66 | ADULT×0 with CHILD×1 is accepted: one child seat for 15 with no adult ticket. |
| `Scenarios.NegativeCountLiftsSeatsAboveMaximum` | cinema-tickets-java/src/main/java/uk/gov/dwp/uc/pairtest/TicketServiceImpl.java:43-53 | ADULT×30 with INFANT×-10 is accepted and reserves 30 seats, more than 25. |
| `Scenarios.NegativeCountMakesAmountNegative` | cinema-tickets-java/src/main/java/uk/gov/dwp/uc/pairtest/TicketServiceImpl.java:69-84 | ADULT×-10 with CHILD×15 is accepted, with a payment of -25. |

The last three rows show behaviour that the code allows. A caller might
expect a non-negative amount and seat count. The code checks only the
aggregate count and the presence of an ADULT entry, so it guarantees neither.
The model follows the code.

## Left out

- Pairtest.TotalTickets: sums on mathematical integers. The code sums the
  counts in wrapping 32-bit arithmetic; `Overflow.StreamSum` models that sum.
- Pairtest.Validate: checks the true aggregate, the evidently intended rule.
  The code checks the wrapped aggregate; `Overflow.ValidateAsWritten` models
  that check (see Findings).
- Pairtest.CalculateTotalAmount: sums on mathematical integers. The Java stream
  sum wraps at 32 bits. Counts of large opposite sign can pass validation and
  still make that sum overflow.
- Pairtest.CalculateTotalSeats: sums on mathematical integers, for the same
  reason as the amount.
- The `default` branch of the price switch ("Unknown ticket type") is not
  modelled. `TicketType` is a closed datatype, so the branch cannot be reached.
- The exception messages are not modelled. Each message is a `Rejection`
  constructor, and the constructors keep the order of the checks.
- The real payment gateway and seat-booking system are out of scope. Failures
  raised by a collaborator are not modelled either; the source neither catches
  them nor rolls anything back.
- A request whose ticket type is `null` is not modelled; `TicketType` is a
  closed datatype, so every entry has one of the three types. In Java, neither
  `anyMatch` at TicketServiceImpl.java:55-61 matches a null type. So account 1
  with a single null-type request for 1 ticket passes validation with no ADULT
  entry. The price `switch` then throws `NullPointerException` before either
  collaborator is called. Only such a request makes the inner child-or-infant
  test change the outcome. `Pairtest.Validate` promises "accepted iff some
  ADULT entry" only because the closed type rules this input out.
- A `null` element inside the request array is not modelled; entries are
  values. In Java such an element makes the stream throw a
  `NullPointerException`.
- `TicketTypeRequest.java`, the `TicketService` interface and
  `InvalidPurchaseException` are not part of this model. The shape of the
  request is taken from its uses in `TicketServiceImpl.java`.

## Findings

| source | as written | input that shows it | evidently intended | confidence | as-written member | corrected member |
|---|---|---|---|---|---|---|
| cinema-tickets-java/src/main/java/uk/gov/dwp/uc/pairtest/TicketServiceImpl.java:43-53 | The aggregate count is an `IntStream.sum` of `int`s. That sum wraps around on overflow, and the 1..25 range check is applied to the wrapped value. | Account 1 with ADULT×2147483647, ADULT×2147483647, ADULT×3. The wrapped aggregate is 1, so the purchase is accepted, although 4294967297 tickets were asked for. | Refuse any purchase whose true total exceeds 25 tickets, with the "Maximum of 25 tickets" reason. The same wrapping also turns such a total into "No tickets requested" (`Overflow.OverflowChangesRejectionReason`). | not executed | `Overflow.OverflowPassesMaximumCheck` | `Pairtest.Validate` |
