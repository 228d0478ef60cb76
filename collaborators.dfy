/**
 * The two third-party services the ticket services call. Their code is not
 * part of this model: each is a stub that records the call it receives in a
 * CallLog, the outside observer through which the order of calls is seen.
 * When both services report to one log, the log shows the order of calls
 * across the two.
 */
module Collaborators {

  datatype Call =
    | MakePayment(accountId: int, totalAmountToPay: int)
    | ReserveSeat(accountId: int, totalSeatsToAllocate: int)

  class CallLog {
    var calls: seq<Call>

    constructor ()
      ensures calls == []
    {
      calls := [];
    }
  }

  class TicketPaymentService {
    const log: CallLog

    constructor (log: CallLog)
      ensures this.log == log
    {
      this.log := log;
    }

    method MakePayment(accountId: int, totalAmountToPay: int)
      modifies log
      ensures log.calls == old(log.calls) + [Call.MakePayment(accountId, totalAmountToPay)]
    {
      log.calls := log.calls + [Call.MakePayment(accountId, totalAmountToPay)];
    }
  }

  class SeatReservationService {
    const log: CallLog

    constructor (log: CallLog)
      ensures this.log == log
    {
      this.log := log;
    }

    method ReserveSeat(accountId: int, totalSeatsToAllocate: int)
      modifies log
      ensures log.calls == old(log.calls) + [Call.ReserveSeat(accountId, totalSeatsToAllocate)]
    {
      log.calls := log.calls + [Call.ReserveSeat(accountId, totalSeatsToAllocate)];
    }
  }
}
