/**
 * TicketReservationResponse: the immutable receipt. Its guarded constructor
 * checks that each of the three values is an integer, in the order
 * ticketsOrdered, totalCost, seatsReserved, and reports the first failure.
 */
module TicketReservationResponses {

  import opened Wrappers
  import opened JsValues

  datatype TicketReservationResponse = TicketReservationResponse(ticketsOrdered: int, totalCost: int, seatsReserved: int)

  function New(ticketsOrdered: Value, totalCost: Value, seatsReserved: Value): (r: Result<TicketReservationResponse, TypeError>)
    ensures r.Ok? <==> IsInteger(ticketsOrdered) && IsInteger(totalCost) && IsInteger(seatsReserved)
    ensures !IsInteger(ticketsOrdered) ==> r == Err(TypeError("ticketsOrdered must be an integer"))
    ensures IsInteger(ticketsOrdered) && !IsInteger(totalCost) ==> r == Err(TypeError("totalCost must be an integer"))
    ensures IsInteger(ticketsOrdered) && IsInteger(totalCost) && !IsInteger(seatsReserved) ==>
              r == Err(TypeError("seatsReserved must be an integer"))
  {
    if !IsInteger(ticketsOrdered) then Err(TypeError("ticketsOrdered must be an integer"))
    else if !IsInteger(totalCost) then Err(TypeError("totalCost must be an integer"))
    else if !IsInteger(seatsReserved) then Err(TypeError("seatsReserved must be an integer"))
    else Ok(TicketReservationResponse(ticketsOrdered.n, totalCost.n, seatsReserved.n))
  }

  function GetTicketsOrdered(r: TicketReservationResponse): int
  {
    r.ticketsOrdered
  }

  function GetTotalCost(r: TicketReservationResponse): int
  {
    r.totalCost
  }

  function GetSeatsReserved(r: TicketReservationResponse): int
  {
    r.seatsReserved
  }

  /** Three integers always make a receipt, and the getters give them back unchanged. */
  lemma GettersReturnArguments(ticketsOrdered: int, totalCost: int, seatsReserved: int)
    ensures New(Integer(ticketsOrdered), Integer(totalCost), Integer(seatsReserved)).Ok?
    ensures var r := New(Integer(ticketsOrdered), Integer(totalCost), Integer(seatsReserved)).value;
            GetTicketsOrdered(r) == ticketsOrdered && GetTotalCost(r) == totalCost && GetSeatsReserved(r) == seatsReserved
  {
  }
}
