/**
 * TicketTypeRequest: an immutable (type, number of tickets) pair built by a
 * guarded constructor. The type must be a key of the price table and the
 * number must be an integer; nothing else is checked, so zero and negative
 * numbers of tickets are accepted.
 */
module TicketTypeRequests {

  import opened Wrappers
  import opened JsValues
  import opened TicketTypeMapping

  datatype TicketTypeRequest = TicketTypeRequest(ticketType: TicketType, noOfTickets: int)

  /** Array.prototype.join: the parts with sep between consecutive ones. */
  function Join(parts: seq<string>, sep: string): (s: string)
    ensures |parts| == 1 ==> s == parts[0]
  {
    if |parts| == 0 then ""
    else if |parts| == 1 then parts[0]
    else parts[0] + sep + Join(parts[1..], sep)
  }

  /** The message for an unknown type: all keys but the last joined by ", ", then ", or " and the last. */
  const TypeMessage: string := "type must be " + Join(Keys[..|Keys| - 1], ", ") + ", or " + Keys[|Keys| - 1]

  const CountMessage: string := "noOfTickets must be an integer"

  /** The type guard: a string that is one of the price table's keys. */
  predicate IsKnownType(ticketType: Value)
  {
    ticketType.Str? && ticketType.s in Keys
  }

  /** The guarded constructor: the type check runs first, then the integer check. */
  function New(ticketType: Value, noOfTickets: Value): (r: Result<TicketTypeRequest, TypeError>)
    ensures r.Ok? <==> IsKnownType(ticketType) && IsInteger(noOfTickets)
    ensures !IsKnownType(ticketType) ==> r == Err(TypeError(TypeMessage))
    ensures IsKnownType(ticketType) && !IsInteger(noOfTickets) ==> r == Err(TypeError(CountMessage))
    ensures r.Ok? ==> Name(r.value.ticketType) == ticketType.s && r.value.noOfTickets == noOfTickets.n
  {
    if !IsKnownType(ticketType) then Err(TypeError(TypeMessage))
    else if !IsInteger(noOfTickets) then Err(TypeError(CountMessage))
    else Ok(TicketTypeRequest(Lookup(ticketType.s).value, noOfTickets.n))
  }

  function GetNoOfTickets(r: TicketTypeRequest): int
  {
    r.noOfTickets
  }

  function GetTicketType(r: TicketTypeRequest): string
  {
    Name(r.ticketType)
  }

  /** The message names the keys of the table in order. */
  lemma TypeMessageText()
    ensures TypeMessage == "type must be ADULT, CHILD, or INFANT"
  {
    assert Keys[..|Keys| - 1] == ["ADULT", "CHILD"];
    assert Join(["ADULT", "CHILD"], ", ") == "ADULT, CHILD";
  }

  /** The getters give back exactly what the constructor was given. */
  lemma GettersReturnArguments(ticketType: Value, noOfTickets: Value)
    requires New(ticketType, noOfTickets).Ok?
    ensures GetTicketType(New(ticketType, noOfTickets).value) == ticketType.s
    ensures GetNoOfTickets(New(ticketType, noOfTickets).value) == noOfTickets.n
  {
  }

  /** Every type's own key with any integer is accepted, zero and negative numbers included. */
  lemma AnyIntegerAccepted(t: TicketType, n: int)
    ensures New(Str(Name(t)), Integer(n)) == Ok(TicketTypeRequest(t, n))
  {
    LookupName(t);
  }
}
