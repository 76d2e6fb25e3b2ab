/** validateRequest as written sums the ticket counts with `IntStream.sum`,
    that is, in 32-bit `int` arithmetic that wraps around. This module models
    that sum and shows a request whose true aggregate is far above the
    maximum but whose wrapped aggregate passes both range checks. The rest
    of the model (Pairtest.Validate) sums without wrapping, which is what the
    checks evidently intend. */
module Overflow {
  import opened Domain
  import opened Pairtest

  const TwoTo32 := 0x1_0000_0000

  /** Java's `int` addition result: x reduced into the `int` range. */
  function Wrap32(x: int): (r: Int32)
    ensures (x - r as int) % TwoTo32 == 0
    ensures -0x8000_0000 <= x < 0x8000_0000 ==> r as int == x
  {
    var m := x % TwoTo32;
    if m >= 0x8000_0000 then (m - TwoTo32) as Int32 else m as Int32
  }

  /** Wrapping after every addition gives the same `int` as wrapping once at
      the end. */
  lemma WrapAdd(a: int, b: int)
    ensures Wrap32(Wrap32(a) as int + b) == Wrap32(a + b)
  {
  }

  /** `IntStream.sum` over the counts: a left fold of wrapping additions. Its
      value is the true aggregate, wrapped into the `int` range. */
  function StreamSum(rs: seq<TicketTypeRequest>): (total: Int32)
    ensures total == Wrap32(TotalTickets(rs))
  {
    if rs == [] then 0
    else
      var front, last := rs[..|rs| - 1], rs[|rs| - 1];
      assert rs == front + [last];
      TotalTicketsAppend(front, [last]);
      WrapAdd(TotalTickets(front), last.noOfTickets as int);
      Wrap32(StreamSum(front) as int + last.noOfTickets as int)
  }

  /** validateRequest as written: the checks of Pairtest.Validate, with the
      aggregate taken from the wrapping stream sum. Each reason is returned
      exactly when every earlier check passed and its own failed, the count
      checks reading the WRAPPED aggregate. */
  function ValidateAsWritten(accountId: Option<Int64>, ticketTypeRequests: Option<seq<TicketTypeRequest>>): (r: Option<Rejection>)
    ensures r == Some(InvalidAccountId) <==> !IsValidAccount(accountId)
    ensures r == Some(NoTicketRequestsProvided) <==>
      IsValidAccount(accountId) && !IsProvided(ticketTypeRequests)
    ensures r == Some(NoTicketsRequested) <==>
      IsValidAccount(accountId) && IsProvided(ticketTypeRequests) &&
      Wrap32(TotalTickets(ticketTypeRequests.value)) as int <= 0
    ensures r == Some(TooManyTickets) <==>
      IsValidAccount(accountId) && IsProvided(ticketTypeRequests) &&
      Wrap32(TotalTickets(ticketTypeRequests.value)) as int > MaxTickets
    ensures r == Some(AdultRequired) <==>
      IsValidAccount(accountId) && IsProvided(ticketTypeRequests) &&
      0 < Wrap32(TotalTickets(ticketTypeRequests.value)) as int <= MaxTickets &&
      !HasType(ticketTypeRequests.value, Adult)
    ensures r == None <==>
      IsValidAccount(accountId) && IsProvided(ticketTypeRequests) &&
      0 < Wrap32(TotalTickets(ticketTypeRequests.value)) as int <= MaxTickets &&
      HasType(ticketTypeRequests.value, Adult)
  {
    if !IsValidAccount(accountId) then Some(InvalidAccountId)
    else if !IsProvided(ticketTypeRequests) then Some(NoTicketRequestsProvided)
    else
      var rs := ticketTypeRequests.value;
      var totalTickets := StreamSum(rs);
      if totalTickets <= 0 then Some(NoTicketsRequested)
      else if totalTickets as int > MaxTickets then Some(TooManyTickets)
      else if !HasType(rs, Adult) then
        assert HasType(rs, rs[0].ticketType);
        if HasType(rs, Child) || HasType(rs, Infant) then Some(AdultRequired) else None
      else None
  }

  /** Whenever the true aggregate fits in an `int`, the code as written and
      the corrected Validate decide alike, whatever the running totals. */
  lemma AsWrittenAgreesWhenTotalFits(accountId: Option<Int64>, rs: seq<TicketTypeRequest>)
    requires -0x8000_0000 <= TotalTickets(rs) < 0x8000_0000
    ensures ValidateAsWritten(accountId, Some(rs)) == Validate(accountId, Some(rs))
  {
  }

  /** Two ADULT entries of the largest `int` count and one of 3: the true
      aggregate is 2^32 + 1, the wrapped one is 1, so the request as written
      is accepted, where the corrected check rejects it as too many tickets. */
  lemma OverflowPassesMaximumCheck()
    ensures var rs := [TicketTypeRequest(Adult, 0x7FFF_FFFF), TicketTypeRequest(Adult, 0x7FFF_FFFF),
                       TicketTypeRequest(Adult, 3)];
      StreamSum(rs) == 1 && TotalTickets(rs) == TwoTo32 + 1 &&
      ValidateAsWritten(Some(1), Some(rs)) == None &&
      Validate(Some(1), Some(rs)) == Some(TooManyTickets)
  {
  }

  /** ADULT entries of the largest `int` count and of 2: the true aggregate
      is 2^31 + 1, far above the maximum, but the wrapped one is -2^31 + 1, so
      the code as written refuses the purchase for the wrong reason. */
  lemma OverflowChangesRejectionReason()
    ensures var rs := [TicketTypeRequest(Adult, 0x7FFF_FFFF), TicketTypeRequest(Adult, 2)];
      StreamSum(rs) == -0x7FFF_FFFF && TotalTickets(rs) == 0x8000_0001 &&
      ValidateAsWritten(Some(1), Some(rs)) == Some(NoTicketsRequested) &&
      Validate(Some(1), Some(rs)) == Some(TooManyTickets)
  {
  }
}
