/**
 * The draft of the ticket service that constructs its own collaborators and
 * builds the receipt inline, after paying and reserving. Its fold and rules
 * are the ones in OrderRules.
 */
module CinemaJsService {

  import opened Wrappers
  import JsValues
  import opened TicketTypeRequests
  import opened TicketReservationResponses
  import opened Collaborators
  import opened OrderRules

  class TicketService {
    const paymentService: TicketPaymentService
    const reservationService: SeatReservationService

    /** The collaborators made by the constructor report to one log. */
    ghost predicate Valid()
      reads this
    {
      paymentService.log == reservationService.log
    }

    /** Both collaborators are new; one fresh log records the calls made to either. */
    constructor ()
      ensures Valid()
      ensures fresh(paymentService) && fresh(reservationService) && fresh(paymentService.log)
      ensures paymentService.log.calls == []
    {
      var log := new CallLog();
      paymentService := new TicketPaymentService(log);
      reservationService := new SeatReservationService(log);
    }

    /** Returns the receipt, or the error thrown; calls the collaborators, payment first, only when the rules pass. */
    method PurchaseTickets(accountId: int, ticketTypeRequests: seq<TicketTypeRequest>)
      returns (r: Result<TicketReservationResponse, PurchaseError>)
      requires Valid()
      modifies paymentService.log
      ensures Valid()
      ensures r == Purchase(ticketTypeRequests)
      ensures r.Err? ==> paymentService.log.calls == old(paymentService.log.calls)
      ensures r.Ok? ==>
                paymentService.log.calls == old(paymentService.log.calls)
                  + [Call.MakePayment(accountId, r.value.totalCost), Call.ReserveSeat(accountId, r.value.seatsReserved)]
    {
      var simplifiedTicketMap := ReduceTickets(ticketTypeRequests);
      var invalid := ValidateOrder(simplifiedTicketMap);
      if invalid.Some? {
        return Err(invalid.value);
      }
      var totalTickets := CalculateTotalTickets(simplifiedTicketMap);
      var orderTotal := CalculateOrderCost(simplifiedTicketMap);
      var seatTotal := CalculateTotalSeats(simplifiedTicketMap);
      paymentService.MakePayment(accountId, orderTotal);
      reservationService.ReserveSeat(accountId, seatTotal);
      var response := TicketReservationResponses.New(JsValues.Integer(totalTickets), JsValues.Integer(orderTotal),
                                                     JsValues.Integer(seatTotal));
      return Ok(response.value);
    }
  }

  /** The receipt carries exactly the three totals the helpers compute, in the order (tickets, cost, seats). */
  lemma InlineReceipt(ticketTypeRequests: seq<TicketTypeRequest>)
    requires Purchase(ticketTypeRequests).Ok?
    ensures var m := Aggregate(ticketTypeRequests);
            Purchase(ticketTypeRequests).value
              == TicketReservationResponse(CalculateTotalTickets(m), CalculateOrderCost(m), CalculateTotalSeats(m))
  {
    OrderCostMatchesPriceTable(Aggregate(ticketTypeRequests));
  }
}
