/** Concrete purchases: the cases of the service's own test class, a refused
    purchase passed through the service object, and accepted requests that show
    what checking only the aggregate count and the presence of an ADULT entry
    lets through. */
module Scenarios {
  import opened Domain
  import opened ThirdParty
  import opened Pairtest

  /** Valid purchases are priced and seated as the test cases expect. */
  lemma ValidPurchases()
    ensures var rs := [TicketTypeRequest(Adult, 1)];
      Validate(Some(1), Some(rs)) == None &&
      CalculateTotalAmount(rs) == 25 && CalculateTotalSeats(rs) == 1
    ensures var rs := [TicketTypeRequest(Adult, 20), TicketTypeRequest(Child, 5)];
      Validate(Some(2), Some(rs)) == None &&
      CalculateTotalAmount(rs) == 575 && CalculateTotalSeats(rs) == 25
    ensures var rs := [TicketTypeRequest(Adult, 2), TicketTypeRequest(Child, 3), TicketTypeRequest(Infant, 1)];
      Validate(Some(3), Some(rs)) == None &&
      CalculateTotalAmount(rs) == 95 && CalculateTotalSeats(rs) == 5
    ensures var rs := [TicketTypeRequest(Adult, 10)];
      Validate(Some(4), Some(rs)) == None &&
      CalculateTotalAmount(rs) == 250 && CalculateTotalSeats(rs) == 10
  {
  }

  /** Invalid purchases are refused with the reasons the test cases expect. */
  lemma InvalidPurchases()
    ensures Validate(Some(1), Some([TicketTypeRequest(Child, 1)])) == Some(AdultRequired)
    ensures Validate(Some(2), Some([TicketTypeRequest(Infant, 1)])) == Some(AdultRequired)
    ensures Validate(Some(3), Some([TicketTypeRequest(Adult, 26)])) == Some(TooManyTickets)
    ensures Validate(Some(4), Some([TicketTypeRequest(Adult, 0)])) == Some(NoTicketsRequested)
    ensures Validate(Some(5), Some([TicketTypeRequest(Adult, -1)])) == Some(NoTicketsRequested)
    ensures Validate(Some(6), None) == Some(NoTicketRequestsProvided)
    ensures Validate(Some(0), Some([TicketTypeRequest(Adult, 1)])) == Some(InvalidAccountId)
  {
  }

  /** One adult and three infants: the infants are free and take no seat. */
  lemma InfantsTakeNoSeat()
    ensures var rs := [TicketTypeRequest(Adult, 1), TicketTypeRequest(Infant, 3)];
      Validate(Some(1), Some(rs)) == None &&
      CalculateTotalAmount(rs) == 25 && CalculateTotalSeats(rs) == 1
  {
  }

  /** One purchase of two adult tickets makes exactly one payment of 50 and
      then exactly one reservation of 2 seats, and no other call. */
  method CallsServicesExactlyOnce() returns (rejection: Option<Rejection>, calls: seq<Call>)
    ensures rejection == None && calls == [Payment(1, 50), Reservation(1, 2)]
  {
    var log := new CallLog();
    var payments := new TicketPaymentService(log);
    var reservations := new SeatReservationService(log);
    var service := new TicketServiceImpl(payments, reservations);
    var rs := [TicketTypeRequest(Adult, 2)];
    assert rs[0].ticketType == Adult;
    rejection := service.PurchaseTickets(Some(1), Some(rs));
    calls := log.calls;
  }

  /** A refused purchase reaches neither collaborator. */
  method RejectionCallsNoService() returns (rejection: Option<Rejection>, calls: seq<Call>)
    ensures rejection == Some(AdultRequired) && calls == []
  {
    var log := new CallLog();
    var payments := new TicketPaymentService(log);
    var reservations := new SeatReservationService(log);
    var service := new TicketServiceImpl(payments, reservations);
    var rs := [TicketTypeRequest(Child, 1)];
    assert !HasType(rs, Adult);
    rejection := service.PurchaseTickets(Some(1), Some(rs));
    calls := log.calls;
  }

  // The checks look at the aggregate count and at the presence of an ADULT
  // entry, not at each entry's count. Three accepted purchases that follow.

  /** An ADULT entry for zero tickets lets a child in alone. */
  lemma ZeroAdultEntrySatisfiesAdultRule()
    ensures var rs := [TicketTypeRequest(Adult, 0), TicketTypeRequest(Child, 1)];
      Validate(Some(1), Some(rs)) == None &&
      QuantityOf(rs, Adult) == 0 && CalculateTotalSeats(rs) == 1 && CalculateTotalAmount(rs) == 15
  {
  }

  /** A negative INFANT count offsets adult tickets: 30 seats pass the cap of 25. */
  lemma NegativeCountLiftsSeatsAboveMaximum()
    ensures var rs := [TicketTypeRequest(Adult, 30), TicketTypeRequest(Infant, -10)];
      Validate(Some(1), Some(rs)) == None &&
      CalculateTotalSeats(rs) == 30 && CalculateTotalSeats(rs) > MaxTickets
  {
  }

  /** A negative ADULT count makes the amount to pay negative. */
  lemma NegativeCountMakesAmountNegative()
    ensures var rs := [TicketTypeRequest(Adult, -10), TicketTypeRequest(Child, 15)];
      Validate(Some(1), Some(rs)) == None &&
      CalculateTotalAmount(rs) == -25 && CalculateTotalSeats(rs) == 5
  {
  }
}
