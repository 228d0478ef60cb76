/**
 * The ticket service whose two collaborators are injected through its
 * constructor. purchaseTickets folds the requests, validates the folded map,
 * builds the receipt, pays, reserves, and returns the receipt; a failed rule
 * throws before either collaborator is called.
 */
module PairtestService {

  import opened Wrappers
  import opened TicketTypeRequests
  import opened TicketReservationResponses
  import opened Collaborators
  import opened OrderRules

  class TicketService {
    const paymentService: TicketPaymentService
    const reservationService: SeatReservationService

    constructor (paymentService: TicketPaymentService, reservationService: SeatReservationService)
      ensures this.paymentService == paymentService && this.reservationService == reservationService
    {
      this.paymentService := paymentService;
      this.reservationService := reservationService;
    }

    /**
     * Returns the receipt, or the error thrown. On an error no collaborator
     * is called; on success the payment of the receipt's cost comes first and
     * the reservation of its seats second, both for accountId.
     */
    method PurchaseTickets(accountId: int, ticketTypeRequests: seq<TicketTypeRequest>)
      returns (r: Result<TicketReservationResponse, PurchaseError>)
      modifies paymentService.log, reservationService.log
      ensures r == Purchase(ticketTypeRequests)
      ensures r.Err? ==> paymentService.log.calls == old(paymentService.log.calls)
                         && reservationService.log.calls == old(reservationService.log.calls)
      ensures r.Ok? && paymentService.log == reservationService.log ==>
                paymentService.log.calls == old(paymentService.log.calls)
                  + [Call.MakePayment(accountId, r.value.totalCost), Call.ReserveSeat(accountId, r.value.seatsReserved)]
      ensures r.Ok? && paymentService.log != reservationService.log ==>
                && paymentService.log.calls == old(paymentService.log.calls) + [Call.MakePayment(accountId, r.value.totalCost)]
                && reservationService.log.calls == old(reservationService.log.calls)
                     + [Call.ReserveSeat(accountId, r.value.seatsReserved)]
    {
      var simplifiedTicketMap := ReduceTickets(ticketTypeRequests);
      var invalid := ValidateOrder(simplifiedTicketMap);
      if invalid.Some? {
        return Err(invalid.value);
      }
      var ticketReservation := GenerateTicketReservationResponse(simplifiedTicketMap).value;
      paymentService.MakePayment(accountId, GetTotalCost(ticketReservation));
      reservationService.ReserveSeat(accountId, GetSeatsReserved(ticketReservation));
      return Ok(ticketReservation);
    }
  }

  /**
   * Two purchases with the same requests give the same receipt and the same
   * calls: nothing carries over between calls. This holds whether the two
   * collaborators share one log or each has its own.
   */
  method PurchaseTwice(service: TicketService, accountId: int, ticketTypeRequests: seq<TicketTypeRequest>)
    returns (first: Result<TicketReservationResponse, PurchaseError>, second: Result<TicketReservationResponse, PurchaseError>)
    modifies service.paymentService.log, service.reservationService.log
    ensures first == second
    ensures first.Err? ==>
              && service.paymentService.log.calls == old(service.paymentService.log.calls)
              && service.reservationService.log.calls == old(service.reservationService.log.calls)
    ensures first.Ok? && service.paymentService.log == service.reservationService.log ==>
              var calls := [Call.MakePayment(accountId, first.value.totalCost), Call.ReserveSeat(accountId, first.value.seatsReserved)];
              service.paymentService.log.calls == old(service.paymentService.log.calls) + calls + calls
    ensures first.Ok? && service.paymentService.log != service.reservationService.log ==>
              var payment, reservation := Call.MakePayment(accountId, first.value.totalCost),
                                          Call.ReserveSeat(accountId, first.value.seatsReserved);
              && service.paymentService.log.calls == old(service.paymentService.log.calls) + [payment, payment]
              && service.reservationService.log.calls == old(service.reservationService.log.calls) + [reservation, reservation]
  {
    first := service.PurchaseTickets(accountId, ticketTypeRequests);
    second := service.PurchaseTickets(accountId, ticketTypeRequests);
  }
}
