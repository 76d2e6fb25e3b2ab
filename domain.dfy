/** The value types the ticket service works on: the ticket request of
    uk.gov.dwp.uc.pairtest.domain.TicketTypeRequest and the Java integer
    widths of its fields. */
module Domain {

  /** A Java `int`. */
  newtype Int32 = x: int | -0x8000_0000 <= x < 0x8000_0000

  /** A Java `long`. */
  newtype Int64 = x: int | -0x8000_0000_0000_0000 <= x < 0x8000_0000_0000_0000

  /** A Java reference that may be null. */
  datatype Option<+T> = None | Some(value: T)

  /** TicketTypeRequest.Type: a closed enumeration, so a request can never
      carry a type outside these three. */
  datatype TicketType = Adult | Child | Infant

  /** An immutable request for `noOfTickets` tickets of one type. The count is
      whatever the caller supplied; it may be zero or negative. */
  datatype TicketTypeRequest = TicketTypeRequest(ticketType: TicketType, noOfTickets: Int32)
}
