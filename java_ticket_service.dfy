/**
 * The Java draft of the ticket service. It folds the requests into a HashMap
 * from type to count, checks the account and then the ticket rules in one
 * if/else-if chain (at most 20 tickets, an adult with any child or infant, an
 * adult per infant; there is no rule against zero tickets), pays the sum of
 * the requests' prices and reserves a seat per adult and child. The method
 * returns nothing; a broken rule throws.
 */
module JavaTicketService {

  import opened Wrappers
  import opened TicketTypeMapping
  import opened Collaborators
  import Decimal

  /**
   * The Java TicketTypeRequest, whose class is not part of this model: its
   * type, its number of tickets and the total price getTotalPrice returns.
   */
  datatype TicketTypeRequest = TicketTypeRequest(ticketType: TicketType, noOfTickets: int, totalPrice: int)

  /** The InvalidPurchaseException the rules throw, by cause. */
  datatype InvalidPurchase =
    | AccountNotPositive
    | TooManyTickets
    | AdultRequired
    | InfantWithoutAdult

  /**
   * The exception's message, thrown by validatePurchaseRequest: every one
   * starts with "ERROR: ".
   */
  function Message(e: InvalidPurchase): (msg: string)
    ensures |msg| > 7 && msg[..7] == "ERROR: "
  {
    match e
    case AccountNotPositive => "ERROR: " + "Account number must be greater than 0"
    case TooManyTickets => "ERROR: " + "Only 20 tickets can be requested at once"
    case AdultRequired => "ERROR: " + "At least one adult ticket is required when purchasing a child/infant ticket"
    case InfantWithoutAdult => "ERROR: " + "Each infant ticket must be accompanied by an adult ticket"
  }

  const MaxTickets: int := 20

  /** The count message writes MaxTickets in decimal. */
  lemma TooManyTicketsMessageNamesMax()
    ensures var msg := Message(TooManyTickets); |msg| > 14 && msg[12..14] == Decimal.NatToString(MaxTickets)
  {
    var detail := "Only 20 tickets can be requested at once";
    assert Message(TooManyTickets) == "ERROR: " + detail;
    assert detail[5] == '2' && detail[6] == '0';
    assert Decimal.DigitChar(2) == '2' && Decimal.DigitChar(0) == '0';
  }

  /** The message identifies the cause. */
  lemma MessageIdentifiesCause(e: InvalidPurchase, f: InvalidPurchase)
    requires Message(e) == Message(f)
    ensures e == f
  {
  }

  /** A map holding an entry for each of the three types. */
  predicate HasAllTypes(m: map<TicketType, int>)
  {
    ADULT in m && CHILD in m && INFANT in m
  }

  /** Reference definition: the number of tickets of type t over all requests. */
  function TicketsOfType(ticketTypeRequests: seq<TicketTypeRequest>, t: TicketType): int
  {
    if ticketTypeRequests == [] then 0
    else
      var last := ticketTypeRequests[|ticketTypeRequests| - 1];
      TicketsOfType(ticketTypeRequests[..|ticketTypeRequests| - 1], t) + (if last.ticketType == t then last.noOfTickets else 0)
  }

  /** The map getMapOfTicketsPerType builds, entry by entry. */
  function TicketsPerType(ticketTypeRequests: seq<TicketTypeRequest>): (m: map<TicketType, int>)
    ensures HasAllTypes(m) && m.Keys == {ADULT, CHILD, INFANT}
  {
    map[ADULT := TicketsOfType(ticketTypeRequests, ADULT),
        CHILD := TicketsOfType(ticketTypeRequests, CHILD),
        INFANT := TicketsOfType(ticketTypeRequests, INFANT)]
  }

  /** getMapOfTicketsPerType: start every type at 0 and add each request's tickets to its type's entry. */
  method GetMapOfTicketsPerType(ticketTypeRequests: seq<TicketTypeRequest>) returns (mapOfTicketsPerType: map<TicketType, int>)
    ensures mapOfTicketsPerType == TicketsPerType(ticketTypeRequests)
  {
    mapOfTicketsPerType := map[ADULT := 0, CHILD := 0, INFANT := 0];
    for i := 0 to |ticketTypeRequests|
      invariant mapOfTicketsPerType == TicketsPerType(ticketTypeRequests[..i])
    {
      assert ticketTypeRequests[..i + 1][..i] == ticketTypeRequests[..i];
      assert ticketTypeRequests[i].ticketType in {ADULT, CHILD, INFANT} by {
        match ticketTypeRequests[i].ticketType
        case ADULT =>
        case CHILD =>
        case INFANT =>
      }
      var numberOfSeats := mapOfTicketsPerType[ticketTypeRequests[i].ticketType];
      var ticketType := ticketTypeRequests[i].ticketType;
      mapOfTicketsPerType := mapOfTicketsPerType[ticketType := numberOfSeats + ticketTypeRequests[i].noOfTickets];
    }
    assert ticketTypeRequests[..|ticketTypeRequests|] == ticketTypeRequests;
  }

  /**
   * validatePurchaseRequest: None when the request is valid, else the first
   * rule broken. The account is checked before any ticket rule; then over 20
   * tickets is the error; up to 20, a child or infant without adults; then
   * more infants than adults. A valid request satisfies every rule.
   */
  function ValidatePurchaseRequest(mapOfTicketsPerType: map<TicketType, int>, accountId: int): (r: Option<InvalidPurchase>)
    requires HasAllTypes(mapOfTicketsPerType)
    ensures var a, c, i := mapOfTicketsPerType[ADULT], mapOfTicketsPerType[CHILD], mapOfTicketsPerType[INFANT];
            && (accountId <= 0 ==> r == Some(AccountNotPositive))
            && (accountId > 0 && a + c + i > MaxTickets ==> r == Some(TooManyTickets))
            && (accountId > 0 && a + c + i <= MaxTickets && (c > 0 || i > 0) && a == 0 ==> r == Some(AdultRequired))
            && (accountId > 0 && a + c + i <= MaxTickets && a != 0 && i > a ==> r == Some(InfantWithoutAdult))
            && (r.None? <==> accountId > 0 && a + c + i <= MaxTickets && i <= a && (c > 0 ==> a != 0))
            && (r.None? ==> (c > 0 || i > 0 ==> a != 0))
  {
    var numberOfAdultTickets := mapOfTicketsPerType[ADULT];
    var numberOfChildTickets := mapOfTicketsPerType[CHILD];
    var numberOfInfantTickets := mapOfTicketsPerType[INFANT];
    var totalNumberOfTickets := numberOfAdultTickets + numberOfChildTickets + numberOfInfantTickets;
    if accountId <= 0 then Some(AccountNotPositive)
    else if totalNumberOfTickets > MaxTickets then Some(TooManyTickets)
    else if (numberOfChildTickets > 0 || numberOfInfantTickets > 0) && numberOfAdultTickets == 0 then Some(AdultRequired)
    else if numberOfInfantTickets > numberOfAdultTickets then Some(InfantWithoutAdult)
    else None
  }

  /** calculateTotalNumberOfSeatsToReserve: adults and children get a seat. */
  function CalculateTotalNumberOfSeatsToReserve(mapOfTicketsPerType: map<TicketType, int>): (seats: int)
    requires HasAllTypes(mapOfTicketsPerType)
    ensures seats + mapOfTicketsPerType[INFANT]
            == mapOfTicketsPerType[ADULT] + mapOfTicketsPerType[CHILD] + mapOfTicketsPerType[INFANT]
    ensures mapOfTicketsPerType[CHILD] >= 0 && mapOfTicketsPerType[INFANT] <= mapOfTicketsPerType[ADULT] ==>
              mapOfTicketsPerType[INFANT] <= seats
  {
    mapOfTicketsPerType[ADULT] + mapOfTicketsPerType[CHILD]
  }

  /** Reference definition: each request's tickets at the price table's rates. */
  predicate PricedAtTable(r: TicketTypeRequest)
  {
    r.totalPrice == r.noOfTickets * Price(r.ticketType)
  }

  /**
   * calculateTotalPaymentAmount: the sum of the requests' total prices. When
   * every request prices its tickets at the table's rates, the payment is 25
   * per adult and 15 per child, as in the JavaScript drafts.
   */
  function CalculateTotalPaymentAmount(ticketTypeRequests: seq<TicketTypeRequest>): (total: int)
    ensures (forall i :: 0 <= i < |ticketTypeRequests| ==> PricedAtTable(ticketTypeRequests[i])) ==>
              total == 25 * TicketsOfType(ticketTypeRequests, ADULT) + 15 * TicketsOfType(ticketTypeRequests, CHILD)
  {
    if ticketTypeRequests == [] then 0
    else
      var init := ticketTypeRequests[..|ticketTypeRequests| - 1];
      assert forall i :: 0 <= i < |init| ==> init[i] == ticketTypeRequests[i];
      CalculateTotalPaymentAmount(init) + ticketTypeRequests[|ticketTypeRequests| - 1].totalPrice
  }

  /** There is no rule against an empty order: with a positive account it passes, paying nothing and reserving no seat. */
  lemma EmptyOrderPasses(accountId: int)
    requires accountId > 0
    ensures ValidatePurchaseRequest(TicketsPerType([]), accountId).None?
    ensures CalculateTotalPaymentAmount([]) == 0
    ensures CalculateTotalNumberOfSeatsToReserve(TicketsPerType([])) == 0
  {
  }

  /** Exactly 20 tickets pass the count rule. */
  lemma TwentyAdultsPass(accountId: int)
    requires accountId > 0
    ensures ValidatePurchaseRequest(map[ADULT := 20, CHILD := 0, INFANT := 0], accountId).None?
    ensures ValidatePurchaseRequest(map[ADULT := 21, CHILD := 0, INFANT := 0], accountId) == Some(TooManyTickets)
  {
  }

  class TicketServiceImpl {
    const ticketPaymentService: TicketPaymentService
    const seatReservationService: SeatReservationService

    constructor (ticketPaymentService: TicketPaymentService, seatReservationService: SeatReservationService)
      ensures this.ticketPaymentService == ticketPaymentService && this.seatReservationService == seatReservationService
    {
      this.ticketPaymentService := ticketPaymentService;
      this.seatReservationService := seatReservationService;
    }

    /**
     * None when the purchase went through, else the exception thrown. On an
     * exception no collaborator is called; otherwise the payment of the sum
     * of the requests' prices comes first and the reservation of a seat per
     * adult and child second.
     */
    method PurchaseTickets(accountId: int, ticketTypeRequests: seq<TicketTypeRequest>) returns (thrown: Option<InvalidPurchase>)
      modifies ticketPaymentService.log, seatReservationService.log
      ensures thrown == ValidatePurchaseRequest(TicketsPerType(ticketTypeRequests), accountId)
      ensures thrown.Some? ==>
                && ticketPaymentService.log.calls == old(ticketPaymentService.log.calls)
                && seatReservationService.log.calls == old(seatReservationService.log.calls)
      ensures var payment := Call.MakePayment(accountId, CalculateTotalPaymentAmount(ticketTypeRequests));
              var reservation := Call.ReserveSeat(accountId,
                TicketsOfType(ticketTypeRequests, ADULT) + TicketsOfType(ticketTypeRequests, CHILD));
              && (thrown.None? && ticketPaymentService.log == seatReservationService.log ==>
                    ticketPaymentService.log.calls == old(ticketPaymentService.log.calls) + [payment, reservation])
              && (thrown.None? && ticketPaymentService.log != seatReservationService.log ==>
                    && ticketPaymentService.log.calls == old(ticketPaymentService.log.calls) + [payment]
                    && seatReservationService.log.calls == old(seatReservationService.log.calls) + [reservation])
    {
      var mapOfTicketsPerType := GetMapOfTicketsPerType(ticketTypeRequests);
      thrown := ValidatePurchaseRequest(mapOfTicketsPerType, accountId);
      if thrown.Some? {
        return;
      }
      var totalPaymentAmount := CalculateTotalPaymentAmount(ticketTypeRequests);
      ticketPaymentService.MakePayment(accountId, totalPaymentAmount);
      var numberOfAdultTickets := CalculateTotalNumberOfSeatsToReserve(mapOfTicketsPerType);
      seatReservationService.ReserveSeat(accountId, numberOfAdultTickets);
    }
  }
}
