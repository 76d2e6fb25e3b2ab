/** TicketServiceImpl: validates a purchase, prices it, counts its seats and
    hands the totals to the payment and seat-reservation collaborators. */
module Pairtest {
  import opened Domain
  import opened ThirdParty

  /** Most tickets one purchase may hold. */
  const MaxTickets := 25
  /** Price of one ticket of each type, in whole currency units. */
  const AdultPrice := 25
  const ChildPrice := 15

  /** Why a purchase was refused (the InvalidPurchaseException messages),
      listed in the order the checks are made. */
  datatype Rejection =
    | InvalidAccountId
    | NoTicketRequestsProvided
    | NoTicketsRequested
    | TooManyTickets
    | AdultRequired

  // ---------------------------------------------------------------------
  // Reference definitions: per-type quantities and the presence of a type.

  /** Sum of the counts of the entries of type `t` (the independent yardstick
      the service's own sums are measured against). */
  function QuantityOf(rs: seq<TicketTypeRequest>, t: TicketType): (quantity: int)
  {
    if rs == [] then 0
    else (if rs[0].ticketType == t then rs[0].noOfTickets as int else 0) + QuantityOf(rs[1..], t)
  }

  /** Some entry has type `t`, whatever its count (a stream `anyMatch`). */
  predicate HasType(rs: seq<TicketTypeRequest>, t: TicketType)
  {
    exists i :: 0 <= i < |rs| && rs[i].ticketType == t
  }

  predicate IsValidAccount(accountId: Option<Int64>)
  {
    accountId.Some? && accountId.value > 0
  }

  /** The request array is present and non-empty. */
  predicate IsProvided(ticketTypeRequests: Option<seq<TicketTypeRequest>>)
  {
    ticketTypeRequests.Some? && |ticketTypeRequests.value| > 0
  }

  // ---------------------------------------------------------------------
  // The three stream computations of the service.

  /** The aggregate count that validation checks: every entry's count,
      negative ones included. */
  function TotalTickets(rs: seq<TicketTypeRequest>): (total: int)
    ensures total == QuantityOf(rs, Adult) + QuantityOf(rs, Child) + QuantityOf(rs, Infant)
  {
    if rs == [] then 0 else rs[0].noOfTickets as int + TotalTickets(rs[1..])
  }

  /** calculateTotalAmount: each entry priced by its type, infants free. */
  function CalculateTotalAmount(rs: seq<TicketTypeRequest>): (amount: int)
    ensures amount == AdultPrice * QuantityOf(rs, Adult) + ChildPrice * QuantityOf(rs, Child)
  {
    if rs == [] then 0
    else
      var price := match rs[0].ticketType
        case Adult => AdultPrice * rs[0].noOfTickets as int
        case Child => ChildPrice * rs[0].noOfTickets as int
        case Infant => 0;
      price + CalculateTotalAmount(rs[1..])
  }

  /** calculateTotalSeats: the counts of every entry that is not an infant's. */
  function CalculateTotalSeats(rs: seq<TicketTypeRequest>): (seats: int)
    ensures seats == QuantityOf(rs, Adult) + QuantityOf(rs, Child)
    ensures seats == TotalTickets(rs) - QuantityOf(rs, Infant)
  {
    if rs == [] then 0
    else if rs[0].ticketType != Infant then rs[0].noOfTickets as int + CalculateTotalSeats(rs[1..])
    else CalculateTotalSeats(rs[1..])
  }

  // ---------------------------------------------------------------------
  // validateRequest

  /** The checks of validateRequest in order; the first that fails is the
      reason returned, None means the purchase may go ahead. Each reason is
      returned exactly when every earlier check passed and its own failed. */
  function Validate(accountId: Option<Int64>, ticketTypeRequests: Option<seq<TicketTypeRequest>>): (r: Option<Rejection>)
    ensures r == Some(InvalidAccountId) <==> !IsValidAccount(accountId)
    ensures r == Some(NoTicketRequestsProvided) <==>
      IsValidAccount(accountId) && !IsProvided(ticketTypeRequests)
    ensures r == Some(NoTicketsRequested) <==>
      IsValidAccount(accountId) && IsProvided(ticketTypeRequests) &&
      TotalTickets(ticketTypeRequests.value) <= 0
    ensures r == Some(TooManyTickets) <==>
      IsValidAccount(accountId) && IsProvided(ticketTypeRequests) &&
      TotalTickets(ticketTypeRequests.value) > MaxTickets
    ensures r == Some(AdultRequired) <==>
      IsValidAccount(accountId) && IsProvided(ticketTypeRequests) &&
      0 < TotalTickets(ticketTypeRequests.value) <= MaxTickets &&
      !HasType(ticketTypeRequests.value, Adult)
    // What every accepted purchase has: the child-or-infant test of the
    // source amounts to "some ADULT entry", since each entry has one of
    // the three types and there is at least one entry.
    ensures r == None <==>
      IsValidAccount(accountId) && IsProvided(ticketTypeRequests) &&
      0 < TotalTickets(ticketTypeRequests.value) <= MaxTickets &&
      HasType(ticketTypeRequests.value, Adult)
  {
    if !IsValidAccount(accountId) then Some(InvalidAccountId)
    else if !IsProvided(ticketTypeRequests) then Some(NoTicketRequestsProvided)
    else
      var rs := ticketTypeRequests.value;
      var totalTickets := TotalTickets(rs);
      if totalTickets <= 0 then Some(NoTicketsRequested)
      else if totalTickets > MaxTickets then Some(TooManyTickets)
      else if !HasType(rs, Adult) then
        assert HasType(rs, rs[0].ticketType);
        if HasType(rs, Child) || HasType(rs, Infant) then Some(AdultRequired) else None
      else None
  }

  // ---------------------------------------------------------------------
  // purchaseTickets

  class TicketServiceImpl {
    const paymentService: TicketPaymentService
    const reservationService: SeatReservationService

    constructor (paymentService: TicketPaymentService, reservationService: SeatReservationService)
      ensures this.paymentService == paymentService
      ensures this.reservationService == reservationService
    {
      this.paymentService := paymentService;
      this.reservationService := reservationService;
    }

    /** Validates, then prices and counts seats, then pays and then reserves.
        A rejection (the InvalidPurchaseException) is returned before any
        collaborator is called; otherwise each collaborator is called exactly
        once, payment first, with the account and the computed totals. */
    method PurchaseTickets(accountId: Option<Int64>, ticketTypeRequests: Option<seq<TicketTypeRequest>>)
      returns (rejection: Option<Rejection>)
      modifies paymentService.log, reservationService.log
      ensures rejection == Validate(accountId, ticketTypeRequests)
      ensures rejection.Some? ==>
        paymentService.log.calls == old(paymentService.log.calls) &&
        reservationService.log.calls == old(reservationService.log.calls)
      // Both collaborators report to one log: the order of the two calls shows.
      ensures rejection.None? && paymentService.log == reservationService.log ==>
        paymentService.log.calls == old(paymentService.log.calls) + [
          Payment(accountId.value, CalculateTotalAmount(ticketTypeRequests.value)),
          Reservation(accountId.value, CalculateTotalSeats(ticketTypeRequests.value))
        ]
      // Separate logs: each collaborator received its one call.
      ensures rejection.None? && paymentService.log != reservationService.log ==>
        paymentService.log.calls == old(paymentService.log.calls) + [
          Payment(accountId.value, CalculateTotalAmount(ticketTypeRequests.value))
        ] &&
        reservationService.log.calls == old(reservationService.log.calls) + [
          Reservation(accountId.value, CalculateTotalSeats(ticketTypeRequests.value))
        ]
    {
      rejection := Validate(accountId, ticketTypeRequests);
      if rejection.Some? {
        return;
      }
      var rs := ticketTypeRequests.value;
      var totalAmount := CalculateTotalAmount(rs);
      var totalSeats := CalculateTotalSeats(rs);
      paymentService.MakePayment(accountId.value, totalAmount);
      reservationService.ReserveSeat(accountId.value, totalSeats);
    }
  }

  // ---------------------------------------------------------------------
  // Properties of the totals.

  lemma {:induction false} QuantityOfAppend(a: seq<TicketTypeRequest>, b: seq<TicketTypeRequest>, t: TicketType)
    ensures QuantityOf(a + b, t) == QuantityOf(a, t) + QuantityOf(b, t)
  {
    if a != [] {
      assert (a + b)[1..] == a[1..] + b;
      QuantityOfAppend(a[1..], b, t);
    } else {
      assert a + b == b;
    }
  }

  lemma TotalTicketsAppend(a: seq<TicketTypeRequest>, b: seq<TicketTypeRequest>)
    ensures TotalTickets(a + b) == TotalTickets(a) + TotalTickets(b)
  {
    QuantityOfAppend(a, b, Adult);
    QuantityOfAppend(a, b, Child);
    QuantityOfAppend(a, b, Infant);
  }

  lemma {:induction false} QuantityOfAbsentType(rs: seq<TicketTypeRequest>, t: TicketType)
    requires !HasType(rs, t)
    ensures QuantityOf(rs, t) == 0
  {
    if rs != [] {
      assert !HasType(rs[1..], t) by {
        forall i | 0 <= i < |rs[1..]| ensures rs[1..][i].ticketType != t {
          assert rs[1..][i] == rs[i + 1];
        }
      }
      QuantityOfAbsentType(rs[1..], t);
    }
  }

  lemma {:induction false} QuantityOfNonNegative(rs: seq<TicketTypeRequest>, t: TicketType)
    requires forall i :: 0 <= i < |rs| ==> rs[i].noOfTickets >= 0
    ensures QuantityOf(rs, t) >= 0
  {
    if rs != [] {
      assert forall i :: 0 <= i < |rs[1..]| ==> rs[1..][i] == rs[i + 1];
      QuantityOfNonNegative(rs[1..], t);
    }
  }

  /** Appending INFANT entries never changes the seats reserved nor the
      amount paid. */
  lemma AppendingInfantsKeepsTotals(rs: seq<TicketTypeRequest>, infants: seq<TicketTypeRequest>)
    requires forall i :: 0 <= i < |infants| ==> infants[i].ticketType == Infant
    ensures CalculateTotalSeats(rs + infants) == CalculateTotalSeats(rs)
    ensures CalculateTotalAmount(rs + infants) == CalculateTotalAmount(rs)
  {
    QuantityOfAppend(rs, infants, Adult);
    QuantityOfAppend(rs, infants, Child);
    QuantityOfAbsentType(infants, Adult);
    QuantityOfAbsentType(infants, Child);
  }

  /** When no entry is negative, an accepted purchase reserves at most 25
      seats, at most as many as tickets, and costs between 0 and 25 adult
      prices. */
  lemma AcceptedWithNonNegativeCounts(accountId: Option<Int64>, rs: seq<TicketTypeRequest>)
    requires Validate(accountId, Some(rs)) == None
    requires forall i :: 0 <= i < |rs| ==> rs[i].noOfTickets >= 0
    ensures 0 <= CalculateTotalSeats(rs) <= TotalTickets(rs) <= MaxTickets
    ensures 0 <= CalculateTotalAmount(rs) <= AdultPrice * MaxTickets
  {
    QuantityOfNonNegative(rs, Adult);
    QuantityOfNonNegative(rs, Child);
    QuantityOfNonNegative(rs, Infant);
  }
}
