/** The two collaborators the ticket service delegates to. Their real
    implementations (a payment gateway and a seat-booking system) are not part
    of this model: each collaborator here only records the call it receives,
    in one log shared by both, so that which calls were made, with what
    arguments and in what order is something a proof can state. */
module ThirdParty {
  import opened Domain

  /** One call received by a collaborator. */
  datatype Call =
    | Payment(accountId: Int64, totalAmountToPay: int)
    | Reservation(accountId: Int64, totalSeatsToAllocate: int)

  /** The calls received so far, oldest first. */
  class CallLog {
    var calls: seq<Call>

    constructor ()
      ensures calls == []
    {
      calls := [];
    }
  }

  /** TicketPaymentService: takes a payment from an account. */
  class TicketPaymentService {
    const log: CallLog

    constructor (log: CallLog)
      ensures this.log == log
    {
      this.log := log;
    }

    method MakePayment(accountId: Int64, totalAmountToPay: int)
      modifies log
      ensures log.calls == old(log.calls) + [Payment(accountId, totalAmountToPay)]
    {
      log.calls := log.calls + [Payment(accountId, totalAmountToPay)];
    }
  }

  /** SeatReservationService: reserves seats for an account. */
  class SeatReservationService {
    const log: CallLog

    constructor (log: CallLog)
      ensures this.log == log
    {
      this.log := log;
    }

    method ReserveSeat(accountId: Int64, totalSeatsToAllocate: int)
      modifies log
      ensures log.calls == old(log.calls) + [Reservation(accountId, totalSeatsToAllocate)]
    {
      log.calls := log.calls + [Reservation(accountId, totalSeatsToAllocate)];
    }
  }
}
