/**
 * The order logic the two JavaScript ticket services share: folding the
 * requests into a flat map of the three types, the business rules checked on
 * that map (count first, then adults), and the totals a receipt reports.
 */
module OrderRules {

  import opened Wrappers
  import opened TicketTypeMapping
  import opened TicketTypeRequests
  import opened TicketReservationResponses
  import JsValues
  import Decimal

  /** The flattened map of requested tickets: one count per type. */
  datatype TicketMap = TicketMap(adult: int, child: int, infant: int)

  /** The starting value of the reduce: zero tickets of every type. */
  const EmptyMap: TicketMap := TicketMap(0, 0, 0)

  /** The map's entry for type t. */
  function Get(m: TicketMap, t: TicketType): int
  {
    match t
    case ADULT => m.adult
    case CHILD => m.child
    case INFANT => m.infant
  }

  /** _simplifyTickets: adds the request's count to its type's entry. */
  function SimplifyTickets(baseMap: TicketMap, ongoingTicket: TicketTypeRequest): (r: TicketMap)
    ensures Get(r, ongoingTicket.ticketType) == Get(baseMap, ongoingTicket.ticketType) + GetNoOfTickets(ongoingTicket)
    ensures forall t :: t != ongoingTicket.ticketType ==> Get(r, t) == Get(baseMap, t)
  {
    var n := GetNoOfTickets(ongoingTicket);
    match ongoingTicket.ticketType
    case ADULT => baseMap.(adult := baseMap.adult + n)
    case CHILD => baseMap.(child := baseMap.child + n)
    case INFANT => baseMap.(infant := baseMap.infant + n)
  }

  /**
   * The reduce in purchaseTickets: _simplifyTickets applied to each request in
   * turn, from the all-zero map. Repeated types add up: each entry is the sum
   * of the counts of the requests of that type.
   */
  function Aggregate(requests: seq<TicketTypeRequest>): (m: TicketMap)
    ensures m.adult == CountOf(requests, ADULT)
    ensures m.child == CountOf(requests, CHILD)
    ensures m.infant == CountOf(requests, INFANT)
  {
    if requests == [] then EmptyMap
    else
      var init, last := requests[..|requests| - 1], requests[|requests| - 1];
      assert requests == init + [last];
      CountOfLast(init, last, ADULT);
      CountOfLast(init, last, CHILD);
      CountOfLast(init, last, INFANT);
      SimplifyTickets(Aggregate(init), last)
  }

  /** Reference definition: the number of tickets of type t over all requests. */
  function CountOf(requests: seq<TicketTypeRequest>, t: TicketType): int
  {
    if requests == [] then 0
    else (if requests[0].ticketType == t then requests[0].noOfTickets else 0) + CountOf(requests[1..], t)
  }

  /** The number of tickets over all requests, whatever their type. */
  function SumCounts(requests: seq<TicketTypeRequest>): int
  {
    if requests == [] then 0
    else SumCounts(requests[..|requests| - 1]) + requests[|requests| - 1].noOfTickets
  }

  /** The price of every request at the price table's rates. */
  function SumPrices(requests: seq<TicketTypeRequest>): int
  {
    if requests == [] then 0
    else
      var last := requests[|requests| - 1];
      SumPrices(requests[..|requests| - 1]) + last.noOfTickets * Price(last.ticketType)
  }

  /** The reduce in purchaseTickets, on a fresh accumulator updated in place. */
  method ReduceTickets(ticketTypeRequests: seq<TicketTypeRequest>) returns (baseMap: TicketMap)
    ensures baseMap == Aggregate(ticketTypeRequests)
    ensures forall t :: Get(baseMap, t) == CountOf(ticketTypeRequests, t)
  {
    baseMap := EmptyMap;
    var i := 0;
    while i < |ticketTypeRequests|
      invariant 0 <= i <= |ticketTypeRequests|
      invariant baseMap == Aggregate(ticketTypeRequests[..i])
    {
      assert ticketTypeRequests[..i + 1][..i] == ticketTypeRequests[..i];
      baseMap := SimplifyTickets(baseMap, ticketTypeRequests[i]);
      i := i + 1;
    }
    assert ticketTypeRequests[..i] == ticketTypeRequests;
    forall t ensures Get(baseMap, t) == CountOf(ticketTypeRequests, t) {
      match t
      case ADULT =>
      case CHILD =>
      case INFANT =>
    }
  }

  lemma {:induction false} CountOfAppend(a: seq<TicketTypeRequest>, b: seq<TicketTypeRequest>, t: TicketType)
    ensures CountOf(a + b, t) == CountOf(a, t) + CountOf(b, t)
  {
    if a == [] {
      assert a + b == b;
    } else {
      assert (a + b)[0] == a[0];
      assert (a + b)[1..] == a[1..] + b;
      CountOfAppend(a[1..], b, t);
    }
  }

  /** One more request adds its count to its own type only. */
  lemma CountOfLast(init: seq<TicketTypeRequest>, last: TicketTypeRequest, t: TicketType)
    ensures CountOf(init + [last], t) == CountOf(init, t) + (if last.ticketType == t then last.noOfTickets else 0)
  {
    CountOfAppend(init, [last], t);
    assert CountOf([last], t) == (if last.ticketType == t then last.noOfTickets else 0) + CountOf([last][1..], t);
  }

  /** Taking out the request at index j takes out exactly its tickets. */
  lemma CountOfRemove(b: seq<TicketTypeRequest>, j: int, t: TicketType)
    requires 0 <= j < |b|
    ensures CountOf(b, t) == CountOf([b[j]], t) + CountOf(b[..j] + b[j + 1..], t)
  {
    assert b == b[..j] + [b[j]] + b[j + 1..];
    CountOfAppend(b[..j] + [b[j]], b[j + 1..], t);
    CountOfAppend(b[..j], [b[j]], t);
    CountOfAppend(b[..j], b[j + 1..], t);
  }

  lemma MultisetRemove(a: seq<TicketTypeRequest>, b: seq<TicketTypeRequest>, j: int)
    requires a != [] && 0 <= j < |b| && b[j] == a[0]
    requires multiset(a) == multiset(b)
    ensures multiset(a[1..]) == multiset(b[..j] + b[j + 1..])
  {
    assert b == b[..j] + [b[j]] + b[j + 1..];
    assert a == [a[0]] + a[1..];
    assert multiset(b) == multiset(b[..j]) + multiset{b[j]} + multiset(b[j + 1..]);
    assert multiset(b[..j] + b[j + 1..]) == multiset(b[..j]) + multiset(b[j + 1..]);
    assert multiset(a) == multiset{a[0]} + multiset(a[1..]);
    assert multiset(a[1..]) == multiset(a) - multiset{a[0]};
  }

  lemma {:induction false} CountOfPermutation(a: seq<TicketTypeRequest>, b: seq<TicketTypeRequest>, t: TicketType)
    requires multiset(a) == multiset(b)
    ensures CountOf(a, t) == CountOf(b, t)
  {
    if a == [] {
      assert b == [];
    } else {
      assert a[0] in multiset(b);
      var j :| 0 <= j < |b| && b[j] == a[0];
      MultisetRemove(a, b, j);
      CountOfPermutation(a[1..], b[..j] + b[j + 1..], t);
      CountOfRemove(b, j, t);
      assert CountOf([a[0]], t) == (if a[0].ticketType == t then a[0].noOfTickets else 0) + CountOf([a[0]][1..], t);
    }
  }

  /** The folded map does not depend on the order of the requests. */
  lemma AggregateIgnoresOrder(a: seq<TicketTypeRequest>, b: seq<TicketTypeRequest>)
    requires multiset(a) == multiset(b)
    ensures Aggregate(a) == Aggregate(b)
  {
    CountOfPermutation(a, b, ADULT);
    CountOfPermutation(a, b, CHILD);
    CountOfPermutation(a, b, INFANT);
  }

  /** The map's values in insertion order: adults, children, infants. */
  function Values(m: TicketMap): seq<int>
  {
    [m.adult, m.child, m.infant]
  }

  /** The running total of the reduce in _calculateTotalTickets: the values added left to right from 0. */
  function SumValues(values: seq<int>): int
  {
    if values == [] then 0 else SumValues(values[..|values| - 1]) + values[|values| - 1]
  }

  /** _calculateTotalTickets: every ticket counts, infants included. */
  function CalculateTotalTickets(m: TicketMap): (total: int)
    ensures total == m.adult + m.child + m.infant
  {
    var values := Values(m);
    assert values[..2] == [m.adult, m.child];
    assert [m.adult, m.child][..1] == [m.adult];
    assert [m.adult][..0] == [];
    assert SumValues([m.adult]) == m.adult;
    assert SumValues([m.adult, m.child]) == m.adult + m.child;
    SumValues(values)
  }

  /** _calculateOrderCost, with the prices written into the service. */
  function CalculateOrderCost(m: TicketMap): (cost: int)
    ensures cost == m.adult * Price(ADULT) + m.child * Price(CHILD) + m.infant * Price(INFANT)
  {
    m.adult * 25 + m.child * 15
  }

  /** _calculateTotalSeats: adults and children get a seat, infants do not. */
  function CalculateTotalSeats(m: TicketMap): (seats: int)
    ensures seats == CalculateTotalTickets(m) - m.infant
  {
    m.adult + m.child
  }

  /** Sum over the given types of count times price. */
  function PriceTableSum(m: TicketMap, types: seq<TicketType>): int
  {
    if types == [] then 0 else Get(m, types[0]) * Price(types[0]) + PriceTableSum(m, types[1..])
  }

  /** The prices written into the service agree with the price table: sum of count times price over its entries. */
  lemma OrderCostMatchesPriceTable(m: TicketMap)
    ensures CalculateOrderCost(m) == PriceTableSum(m, Types)
  {
    assert Types[1..] == [CHILD, INFANT];
    assert [CHILD, INFANT][1..] == [INFANT];
    assert [INFANT][1..] == [];
    assert PriceTableSum(m, [INFANT]) == 0;
    assert PriceTableSum(m, [CHILD, INFANT]) == m.child * 15;
  }

  /** The cost of the folded map is the price of every request at the table's rates (infants are free). */
  lemma {:induction false} CostOfRequests(requests: seq<TicketTypeRequest>)
    ensures CalculateOrderCost(Aggregate(requests)) == SumPrices(requests)
  {
    if requests != [] {
      CostOfRequests(requests[..|requests| - 1]);
    }
  }

  /** The total of the folded map is the number of tickets over all requests. */
  lemma {:induction false} TicketsOfRequests(requests: seq<TicketTypeRequest>)
    ensures CalculateTotalTickets(Aggregate(requests)) == SumCounts(requests)
  {
    if requests != [] {
      TicketsOfRequests(requests[..|requests| - 1]);
    }
  }

  /** The maximum number of tickets in one transaction. */
  const MaxTickets: int := 25

  /** The InvalidPurchaseException the rules throw, by cause. */
  datatype PurchaseError =
    | NoTickets
    | TooManyTickets
    | NotEnoughAdults(required: int)

  /**
   * The exception's message. A missing-adults message is the fixed prefix and
   * suffix around the decimal text of the number required: digits with no
   * leading zero that read back as that number.
   */
  function Message(e: PurchaseError): (msg: string)
    ensures e.NotEnoughAdults? ==>
              && |AdultsPrefix| + |AdultsSuffix| < |msg|
              && msg[..|AdultsPrefix|] == AdultsPrefix
              && msg[|msg| - |AdultsSuffix|..] == AdultsSuffix
    ensures e.NotEnoughAdults? && e.required >= 0 ==>
              var digits := msg[|AdultsPrefix|..|msg| - |AdultsSuffix|];
              && (forall i :: 0 <= i < |digits| ==> Decimal.IsDigit(digits[i]))
              && (|digits| > 1 ==> digits[0] != '0')
              && Decimal.ParseNat(digits) == e.required
  {
    match e
    case NoTickets => "At least one ticket must be purchased"
    case TooManyTickets => "A maximum of " + "25" + " tickets can be booked in one transaction"
    case NotEnoughAdults(required) =>
      var text := Decimal.IntToString(required);
      var msg := AdultsPrefix + text + AdultsSuffix;
      assert msg[..|AdultsPrefix|] == AdultsPrefix;
      assert msg[|msg| - |AdultsSuffix|..] == AdultsSuffix;
      assert msg[|AdultsPrefix|..|msg| - |AdultsSuffix|] == text;
      if required >= 0 then Decimal.ParseNatToString(required); msg else msg
  }

  const AdultsPrefix: string := "At least "
  const AdultsSuffix: string := " adult ticket(s) are required for this transaction"

  /** _validateTicketCount: None when the count is acceptable, else the error thrown. */
  function ValidateTicketCount(m: TicketMap): (r: Option<PurchaseError>)
    ensures r.None? <==> 1 <= m.adult + m.child + m.infant <= MaxTickets
    ensures m.adult + m.child + m.infant <= 0 ==> r == Some(NoTickets)
    ensures m.adult + m.child + m.infant > MaxTickets ==> r == Some(TooManyTickets)
  {
    var totalTickets := CalculateTotalTickets(m);
    if totalTickets <= 0 then Some(NoTickets)
    else if totalTickets > MaxTickets then Some(TooManyTickets)
    else None
  }

  /** One adult always, or one adult per infant when there are infants. */
  function AdultsRequired(m: TicketMap): (required: int)
    ensures required >= 1 && required >= m.infant
    ensures required == 1 || required == m.infant
  {
    if m.infant > 0 then m.infant else 1
  }

  /** _validateRequiredAdults: None when there are enough adults, else the error naming how many are required. */
  function ValidateRequiredAdults(m: TicketMap): (r: Option<PurchaseError>)
    ensures r.None? <==> m.adult >= 1 && m.adult >= m.infant
    ensures r.Some? ==> r.value == NotEnoughAdults(AdultsRequired(m)) && m.adult < r.value.required
  {
    var adultsRequired := AdultsRequired(m);
    if m.adult < adultsRequired then Some(NotEnoughAdults(adultsRequired)) else None
  }

  /**
   * _validateOrder: the count check, and only if it passes the adult check.
   * An order passes exactly when it has 1 to 25 tickets, at least one adult
   * and an adult for every infant; otherwise the first rule broken decides the
   * error: zero tickets, then too many, then too few adults.
   */
  function ValidateOrder(m: TicketMap): (r: Option<PurchaseError>)
    ensures r.None? <==> 1 <= m.adult + m.child + m.infant <= MaxTickets && m.adult >= 1 && m.adult >= m.infant
    ensures m.adult + m.child + m.infant <= 0 ==> r == Some(NoTickets)
    ensures m.adult + m.child + m.infant > MaxTickets ==> r == Some(TooManyTickets)
    ensures 1 <= m.adult + m.child + m.infant <= MaxTickets && (m.adult < 1 || m.adult < m.infant) ==>
              r == Some(NotEnoughAdults(if m.infant > 0 then m.infant else 1))
  {
    match ValidateTicketCount(m)
    case Some(e) => Some(e)
    case None => ValidateRequiredAdults(m)
  }

  /** The message of a missing-adults error names the number required, and different numbers give different messages. */
  lemma AdultsMessageNamesRequired(i: int, j: int)
    requires Message(NotEnoughAdults(i)) == Message(NotEnoughAdults(j))
    ensures i == j
  {
    var a, b := Decimal.IntToString(i), Decimal.IntToString(j);
    assert |a| == |b|;
    assert a == Message(NotEnoughAdults(i))[9..9 + |a|];
    assert b == Message(NotEnoughAdults(j))[9..9 + |b|];
    Decimal.IntToStringInjective(i, j);
  }

  /** The maximum message writes MaxTickets in decimal. */
  lemma TooManyTicketsMessageNamesMax()
    ensures var msg := Message(TooManyTickets); |msg| > 15 && msg[13..15] == Decimal.NatToString(MaxTickets)
  {
    var prefix, digits := "A maximum of ", "25";
    assert (prefix + digits + " tickets can be booked in one transaction")[13..15] == digits;
    assert Decimal.DigitChar(2) == '2' && Decimal.DigitChar(5) == '5';
    assert Decimal.NatToString(MaxTickets) == digits;
  }

  lemma AdultsMessageExamples()
    ensures Message(NotEnoughAdults(1)) == AdultsPrefix + "1" + AdultsSuffix
    ensures Message(NotEnoughAdults(3)) == AdultsPrefix + "3" + AdultsSuffix
  {
    assert Decimal.DigitChar(1) == '1';
    assert Decimal.DigitChar(3) == '3';
  }

  /** _generateTicketReservationResponse: the constructor's integer guards always pass on the computed totals. */
  function GenerateTicketReservationResponse(m: TicketMap): (r: Result<TicketReservationResponse, JsValues.TypeError>)
    ensures r.Ok?
    ensures GetTicketsOrdered(r.value) == m.adult + m.child + m.infant
    ensures GetTotalCost(r.value) == PriceTableSum(m, Types)
    ensures GetSeatsReserved(r.value) == m.adult + m.child
  {
    OrderCostMatchesPriceTable(m);
    TicketReservationResponses.New(
      JsValues.Integer(CalculateTotalTickets(m)),
      JsValues.Integer(CalculateOrderCost(m)),
      JsValues.Integer(CalculateTotalSeats(m)))
  }

  /**
   * What purchaseTickets returns, or the InvalidPurchaseException it throws,
   * stated on the number of tickets of each type over all requests.
   */
  function Purchase(ticketTypeRequests: seq<TicketTypeRequest>): (r: Result<TicketReservationResponse, PurchaseError>)
    ensures var a, c, i := CountOf(ticketTypeRequests, ADULT), CountOf(ticketTypeRequests, CHILD),
                           CountOf(ticketTypeRequests, INFANT);
            && (r.Ok? <==> 1 <= a + c + i <= MaxTickets && a >= 1 && a >= i)
            && (r.Ok? ==>
                  r.value == TicketReservationResponse(a + c + i, a * Price(ADULT) + c * Price(CHILD) + i * Price(INFANT), a + c))
            && (r.Err? ==> r.error == ValidateOrder(TicketMap(a, c, i)).value)
  {
    var simplifiedTicketMap := Aggregate(ticketTypeRequests);
    OrderCostMatchesPriceTable(simplifiedTicketMap);
    match ValidateOrder(simplifiedTicketMap)
    case Some(e) => Err(e)
    case None => Ok(GenerateTicketReservationResponse(simplifiedTicketMap).value)
  }

  /**
   * The whole purchase in terms of the requests alone: when it succeeds, the
   * receipt, and otherwise the first rule broken.
   */
  lemma PurchaseOutcome(requests: seq<TicketTypeRequest>)
    ensures var total, adults, infants := SumCounts(requests), CountOf(requests, ADULT), CountOf(requests, INFANT);
      && (Purchase(requests).Ok? <==> 1 <= total <= MaxTickets && adults >= 1 && adults >= infants)
      && (Purchase(requests).Ok? ==>
            Purchase(requests).value == TicketReservationResponse(total, SumPrices(requests), adults + CountOf(requests, CHILD)))
      && (total <= 0 ==> Purchase(requests) == Err(NoTickets))
      && (total > MaxTickets ==> Purchase(requests) == Err(TooManyTickets))
      && (1 <= total <= MaxTickets && adults < (if infants > 0 then infants else 1) ==>
            Purchase(requests) == Err(NotEnoughAdults(if infants > 0 then infants else 1)))
  {
    var m := Aggregate(requests);
    TicketsOfRequests(requests);
    CostOfRequests(requests);
    assert m == TicketMap(CountOf(requests, ADULT), CountOf(requests, CHILD), CountOf(requests, INFANT));
    assert SumCounts(requests) == m.adult + m.child + m.infant;
    assert SumPrices(requests) == m.adult * Price(ADULT) + m.child * Price(CHILD) + m.infant * Price(INFANT);
  }

  /** Every receipt is for 1 to 25 tickets, with at least one adult and an adult for every infant. */
  lemma PurchaseReceiptBounds(requests: seq<TicketTypeRequest>)
    requires Purchase(requests).Ok?
    ensures 1 <= GetTicketsOrdered(Purchase(requests).value) <= MaxTickets
    ensures CountOf(requests, ADULT) >= 1 && CountOf(requests, ADULT) >= CountOf(requests, INFANT)
  {
    PurchaseOutcome(requests);
  }

  lemma {:induction false} CountOfNonNegative(requests: seq<TicketTypeRequest>, t: TicketType)
    requires forall i :: 0 <= i < |requests| ==> requests[i].noOfTickets >= 0
    ensures CountOf(requests, t) >= 0
  {
    if requests != [] {
      CountOfNonNegative(requests[1..], t);
    }
  }

  /** With no negative request, a receipt never charges less than zero and never seats more than it tickets. */
  lemma NonNegativeReceipt(requests: seq<TicketTypeRequest>)
    requires forall i :: 0 <= i < |requests| ==> requests[i].noOfTickets >= 0
    requires Purchase(requests).Ok?
    ensures GetTotalCost(Purchase(requests).value) >= 25
    ensures 1 <= GetSeatsReserved(Purchase(requests).value) <= GetTicketsOrdered(Purchase(requests).value)
  {
    CountOfNonNegative(requests, CHILD);
    CountOfNonNegative(requests, INFANT);
  }

  /** The fold applied to one more request. */
  lemma AggregateSnoc(requests: seq<TicketTypeRequest>, r: TicketTypeRequest)
    ensures Aggregate(requests + [r]) == SimplifyTickets(Aggregate(requests), r)
  {
    assert (requests + [r])[..|requests|] == requests;
  }

  /** Negative numbers of tickets are only checked for integrality, so they reach the receipt and the payment. */
  lemma NegativeCountsReachReceipt()
    ensures Purchase([TicketTypeRequest(ADULT, 6), TicketTypeRequest(CHILD, -11), TicketTypeRequest(INFANT, 6)])
            == Ok(TicketReservationResponse(1, -15, -5))
  {
    var a, c, i := TicketTypeRequest(ADULT, 6), TicketTypeRequest(CHILD, -11), TicketTypeRequest(INFANT, 6);
    assert Aggregate([a]) == TicketMap(6, 0, 0) by { AggregateSnoc([], a); }
    assert Aggregate([a, c]) == TicketMap(6, -11, 0) by { AggregateSnoc([a], c); assert [a] + [c] == [a, c]; }
    assert Aggregate([a, c, i]) == TicketMap(6, -11, 6) by { AggregateSnoc([a, c], i); assert [a, c] + [i] == [a, c, i]; }
    PurchaseOfMap([a, c, i], TicketMap(6, -11, 6));
  }

  /** The purchase of requests whose folded map is known: what validation of that map decides. */
  lemma PurchaseOfMap(requests: seq<TicketTypeRequest>, m: TicketMap)
    requires Aggregate(requests) == m
    ensures ValidateOrder(m).Some? ==> Purchase(requests) == Err(ValidateOrder(m).value)
    ensures ValidateOrder(m).None? ==>
              Purchase(requests) == Ok(TicketReservationResponse(m.adult + m.child + m.infant, 25 * m.adult + 15 * m.child,
                                                                 m.adult + m.child))
  {
    OrderCostMatchesPriceTable(m);
  }

  // The outcomes fixed by the unit tests, one lemma per case. The tests pass
  // plain objects with count and type fields, which have no getTicketType
  // method, so on the tests' own arguments the reduce throws a TypeError;
  // these lemmas state the outcomes for the matching constructed requests.

  lemma ExampleOneAdult()
    ensures Purchase([TicketTypeRequest(ADULT, 1)]) == Ok(TicketReservationResponse(1, 25, 1))
  {
    assert Aggregate([TicketTypeRequest(ADULT, 1)]) == TicketMap(1, 0, 0) by { AggregateSnoc([], TicketTypeRequest(ADULT, 1)); }
    PurchaseOfMap([TicketTypeRequest(ADULT, 1)], TicketMap(1, 0, 0));
  }

  lemma ExampleAdultAndChild()
    ensures Purchase([TicketTypeRequest(ADULT, 1), TicketTypeRequest(CHILD, 1)]) == Ok(TicketReservationResponse(2, 40, 2))
  {
    var a, c := TicketTypeRequest(ADULT, 1), TicketTypeRequest(CHILD, 1);
    assert Aggregate([a]) == TicketMap(1, 0, 0) by { AggregateSnoc([], a); }
    assert Aggregate([a, c]) == TicketMap(1, 1, 0) by { AggregateSnoc([a], c); assert [a] + [c] == [a, c]; }
    PurchaseOfMap([a, c], TicketMap(1, 1, 0));
    assert ValidateOrder(TicketMap(1, 1, 0)).None?;
  }

  lemma ExampleInfantAndAdult()
    ensures Purchase([TicketTypeRequest(INFANT, 1), TicketTypeRequest(ADULT, 1)]) == Ok(TicketReservationResponse(2, 25, 1))
  {
    var i, a := TicketTypeRequest(INFANT, 1), TicketTypeRequest(ADULT, 1);
    assert Aggregate([i]) == TicketMap(0, 0, 1) by { AggregateSnoc([], i); }
    assert Aggregate([i, a]) == TicketMap(1, 0, 1) by { AggregateSnoc([i], a); assert [i] + [a] == [i, a]; }
    PurchaseOfMap([i, a], TicketMap(1, 0, 1));
    assert ValidateOrder(TicketMap(1, 0, 1)).None?;
  }

  /** Three infants, then three single adults, fold to three of each. */
  lemma GroupsOfAdultsFold()
    ensures Aggregate([TicketTypeRequest(INFANT, 3), TicketTypeRequest(ADULT, 1), TicketTypeRequest(ADULT, 1),
                       TicketTypeRequest(ADULT, 1)]) == TicketMap(3, 0, 3)
  {
    var i, a := TicketTypeRequest(INFANT, 3), TicketTypeRequest(ADULT, 1);
    assert Aggregate([i]) == TicketMap(0, 0, 3) by { AggregateSnoc([], i); }
    assert Aggregate([i, a]) == TicketMap(1, 0, 3) by { AggregateSnoc([i], a); assert [i] + [a] == [i, a]; }
    assert Aggregate([i, a, a]) == TicketMap(2, 0, 3) by { AggregateSnoc([i, a], a); assert [i, a] + [a] == [i, a, a]; }
    AggregateSnoc([i, a, a], a);
    assert [i, a, a] + [a] == [i, a, a, a];
  }

  lemma ExampleGroupsOfAdults()
    ensures Purchase([TicketTypeRequest(INFANT, 3), TicketTypeRequest(ADULT, 1), TicketTypeRequest(ADULT, 1),
                      TicketTypeRequest(ADULT, 1)]) == Ok(TicketReservationResponse(6, 75, 3))
  {
    var i, a := TicketTypeRequest(INFANT, 3), TicketTypeRequest(ADULT, 1);
    GroupsOfAdultsFold();
    PurchaseOfMap([i, a, a, a], TicketMap(3, 0, 3));
    assert ValidateOrder(TicketMap(3, 0, 3)).None?;
  }

  lemma ExampleNoTickets()
    ensures Purchase([]) == Err(NoTickets)
  {
    assert Aggregate([]) == EmptyMap;
    PurchaseOfMap([], EmptyMap);
    assert ValidateOrder(EmptyMap) == Some(NoTickets);
  }

  lemma ExampleChildOnly()
    ensures Purchase([TicketTypeRequest(CHILD, 1)]) == Err(NotEnoughAdults(1))
  {
    assert Aggregate([TicketTypeRequest(CHILD, 1)]) == TicketMap(0, 1, 0) by { AggregateSnoc([], TicketTypeRequest(CHILD, 1)); }
    PurchaseOfMap([TicketTypeRequest(CHILD, 1)], TicketMap(0, 1, 0));
    assert ValidateOrder(TicketMap(0, 1, 0)) == Some(NotEnoughAdults(1));
  }

  lemma ExampleInfantOnly()
    ensures Purchase([TicketTypeRequest(INFANT, 1)]) == Err(NotEnoughAdults(1))
  {
    assert Aggregate([TicketTypeRequest(INFANT, 1)]) == TicketMap(0, 0, 1) by { AggregateSnoc([], TicketTypeRequest(INFANT, 1)); }
    PurchaseOfMap([TicketTypeRequest(INFANT, 1)], TicketMap(0, 0, 1));
    assert ValidateOrder(TicketMap(0, 0, 1)) == Some(NotEnoughAdults(1));
  }

  lemma ExampleMoreInfantsThanAdults()
    ensures Purchase([TicketTypeRequest(INFANT, 3), TicketTypeRequest(ADULT, 1)]) == Err(NotEnoughAdults(3))
  {
    var i, a := TicketTypeRequest(INFANT, 3), TicketTypeRequest(ADULT, 1);
    assert Aggregate([i]) == TicketMap(0, 0, 3) by { AggregateSnoc([], i); }
    assert Aggregate([i, a]) == TicketMap(1, 0, 3) by { AggregateSnoc([i], a); assert [i] + [a] == [i, a]; }
    PurchaseOfMap([i, a], TicketMap(1, 0, 3));
    assert ValidateOrder(TicketMap(1, 0, 3)) == Some(NotEnoughAdults(3));
  }

  lemma ExampleTooManySingle()
    ensures Purchase([TicketTypeRequest(ADULT, 26)]) == Err(TooManyTickets)
  {
    assert Aggregate([TicketTypeRequest(ADULT, 26)]) == TicketMap(26, 0, 0) by { AggregateSnoc([], TicketTypeRequest(ADULT, 26)); }
    PurchaseOfMap([TicketTypeRequest(ADULT, 26)], TicketMap(26, 0, 0));
    assert ValidateOrder(TicketMap(26, 0, 0)) == Some(TooManyTickets);
  }

  lemma ExampleTooManyCombined()
    ensures Purchase([TicketTypeRequest(ADULT, 10), TicketTypeRequest(ADULT, 10), TicketTypeRequest(ADULT, 10)])
            == Err(TooManyTickets)
  {
    var a := TicketTypeRequest(ADULT, 10);
    assert Aggregate([a]) == TicketMap(10, 0, 0) by { AggregateSnoc([], a); }
    assert Aggregate([a, a]) == TicketMap(20, 0, 0) by { AggregateSnoc([a], a); assert [a] + [a] == [a, a]; }
    assert Aggregate([a, a, a]) == TicketMap(30, 0, 0) by { AggregateSnoc([a, a], a); assert [a, a] + [a] == [a, a, a]; }
    PurchaseOfMap([a, a, a], TicketMap(30, 0, 0));
    assert ValidateOrder(TicketMap(30, 0, 0)) == Some(TooManyTickets);
  }

  lemma ExampleTooManyWithInfants()
    ensures Purchase([TicketTypeRequest(ADULT, 10), TicketTypeRequest(ADULT, 10), TicketTypeRequest(INFANT, 10)])
            == Err(TooManyTickets)
  {
    var a, i := TicketTypeRequest(ADULT, 10), TicketTypeRequest(INFANT, 10);
    assert Aggregate([a]) == TicketMap(10, 0, 0) by { AggregateSnoc([], a); }
    assert Aggregate([a, a]) == TicketMap(20, 0, 0) by { AggregateSnoc([a], a); assert [a] + [a] == [a, a]; }
    assert Aggregate([a, a, i]) == TicketMap(20, 0, 10) by { AggregateSnoc([a, a], i); assert [a, a] + [i] == [a, a, i]; }
    PurchaseOfMap([a, a, i], TicketMap(20, 0, 10));
    assert ValidateOrder(TicketMap(20, 0, 10)) == Some(TooManyTickets);
  }
}
