# Cinema tickets: order validation and pricing

This project models the ticket service of the cinema-tickets exercise in
three drafts, with the value types they use:

- `src/pairtest/TicketService.js` (module `PairtestService`, helpers in
  `OrderRules`). The payment and seat-reservation collaborators are injected
  through the constructor. `purchaseTickets` folds the ticket requests into a
  flat `{ ADULT, CHILD, INFANT }` map, starting from all zeros. It then
  checks the rules in this order:
  - between 1 and 25 tickets, infants included;
  - at least one adult, and one adult per infant when there are infants.

  It then builds the receipt `(tickets ordered, 25·adults + 15·children,
  adults + children)`, pays the cost, reserves the seats and returns the
  receipt. A broken rule throws before either collaborator is called.
- `cinema-tickets-javascript/src/pairtest/TicketService.js` (module
  `CinemaJsService`). The same fold, rules and totals. The helper functions
  at lines 16-63 are the same text as in the first draft, so `OrderRules`
  models them once. This draft differs in two ways: it constructs its own
  collaborators, and it builds the receipt inline after paying and
  reserving.
- `cinema-tickets-java/.../TicketServiceImpl.java` (module
  `JavaTicketService`). It folds the requests into a `HashMap`. The account
  id must be positive, and it is checked first. After that, one chain of
  checks:
  - at most 20 tickets;
  - an adult whenever there is a child or infant;
  - no more infants than adults.

  There is no rule against zero tickets. It pays the sum of the requests'
  prices and reserves a seat per adult and child.
- `TicketTypeRequest` (module `TicketTypeRequests`). A guarded constructor:
  the type must be a key of the price table (checked first), and the number
  of tickets must be an integer. `TicketTypeMapping` is the price table:
  ADULT 25, CHILD 15, INFANT 0, in that key order. `TicketReservationResponse`
  (module `TicketReservationResponses`) is the immutable receipt. Its guard
  checks that ticketsOrdered, totalCost and seatsReserved are integers, in
  that order.

JavaScript's dynamic values are modelled by `JsValues.Value`. It is an
integer number, a string, or anything else, which is all that
`Number.isInteger` and key membership can tell apart. The exceptions the
source throws become `Result`/`Option` values that carry the cause, and for
the missing-adults error the number of adults required. Their text is given
by `OrderRules.Message` and `JavaTicketService.Message`. The third-party
services are stubs in `Collaborators`. Each one appends the call it receives
to a `CallLog`. When both services share one log, the log shows the order of
the calls.

Three behaviours of the code are easy to misread:
- the JavaScript drafts do not check the account id;
- `TicketTypeRequest` accepts zero and negative numbers of tickets (it checks
  only that the number is an integer);
- the Java draft allows 20 tickets at most and has no zero-ticket rule.

Because negative numbers are accepted, the `src/pairtest` draft can issue a
receipt with a negative cost and a negative seat count, and pay that amount.
The `cinema-tickets-javascript` draft's service would do the same if given a
request with a negative count; its own request class, which is not part of
this model, is meant to reject such counts.
`OrderRules.NegativeCountsReachReceipt` proves this for ADULT×6, CHILD×−11,
INFANT×6. A non-negative cost and seats ≤ tickets are proved only for
requests without negative numbers (`OrderRules.NonNegativeReceipt`).

## Model

| member | source | states |
|---|---|---|
| `Decimal.NatToString` | src/pairtest/TicketService.js:71 | the number written into the adults message is a non-empty string of decimal digits with no leading zero |
| `Decimal.ParseNatToString` | src/pairtest/TicketService.js:71 | reading that decimal text back gives the number, so the text identifies it |
| `Decimal.IntToString` | src/pairtest/TicketService.js:71 | the text of a number starts with a minus sign exactly when the number is negative, and the digits after the sign have no leading zero and read back as its magnitude, which fixes the text exactly |
| `Decimal.IntToStringInjective` | src/pairtest/TicketService.js:71 | different integers are written as different texts |
| `TicketTypeMapping.PriceTable` | src/pairtest/lib/TicketTypeMapping.js:6-10 | ADULT costs 25, CHILD 15, INFANT 0 |
| `TicketTypeMapping.KeysFollowTypes` | src/pairtest/lib/TicketTypeMapping.js:6-10 | the table has exactly three distinct keys, ADULT, CHILD, INFANT in that order, one per type |
| `TicketTypeMapping.Price` | src/pairtest/lib/TicketTypeMapping.js:6-10 | only infants are free; no ticket costs more than an adult's 25, and every other type costs less |
| `TicketTypeMapping.Lookup` | src/pairtest/lib/TicketTypeRequest.js:13 | a string names a type exactly when it is one of the table's keys, and then it is that type's key |
| `TicketTypeMapping.LookupName` | src/pairtest/lib/TicketTypeRequest.js:13-17 | looking up a type's own key gives that type back |
| `TicketTypeRequests.New` | src/pairtest/lib/TicketTypeRequest.js:12-25 | a request is built exactly when the type is a key of the table and the count is an integer; an unknown type reports the type message whatever the count is; a known type with a non-integer count reports the count message; a built request holds the given type and count |
| `TicketTypeRequests.TypeMessageText` | src/pairtest/lib/TicketTypeRequest.js:13-17 | the unknown-type message reads "type must be ADULT, CHILD, or INFANT", built from the table's keys |
| `TicketTypeRequests.GettersReturnArguments` | src/pairtest/lib/TicketTypeRequest.js:23-33 | getTicketType and getNoOfTickets return exactly the constructor's arguments |
| `TicketTypeRequests.AnyIntegerAccepted` | src/pairtest/lib/TicketTypeRequest.js:19-21 | every integer count is accepted for every type, zero and negative counts included |
| `TicketReservationResponses.New` | cinema-tickets-javascript/src/pairtest/lib/TicketReservationResponse.js:10-24 | a receipt is built exactly when all three values are integers; otherwise the first non-integer, in the order ticketsOrdered, totalCost, seatsReserved, decides the message |
| `TicketReservationResponses.GettersReturnArguments` | cinema-tickets-javascript/src/pairtest/lib/TicketReservationResponse.js:21-36 | three integers always make a receipt, and its getters return them unchanged |
| `OrderRules.SimplifyTickets` | src/pairtest/TicketService.js:28-31 | the request's count is added to its own type's entry, and every other entry is unchanged |
| `OrderRules.ReduceTickets` | src/pairtest/TicketService.js:184-192 | the fold from the all-zero map gives, for every type, the sum of the counts of the requests of that type |
| `OrderRules.Aggregate` | src/pairtest/TicketService.js:185-192 | the reduce of _simplifyTickets from the all-zero map gives each type the sum of the counts of the requests of that type, so repeated types add up |
| `OrderRules.AggregateIgnoresOrder` | src/pairtest/TicketService.js:185-192 | two request lists that are permutations of each other fold to the same map |
| `OrderRules.CalculateTotalTickets` | src/pairtest/TicketService.js:98-103 | the sum over the map's values counts adults, children and infants |
| `OrderRules.TicketsOfRequests` | cinema-tickets-javascript/src/pairtest/TicketService.js:50-55 | the tickets ordered are the sum of all the requests' counts |
| `OrderRules.OrderCostMatchesPriceTable` | src/pairtest/TicketService.js:112-114 | the hard-coded 25·adult + 15·child equals the sum of count × price over the table's entries |
| `OrderRules.CalculateOrderCost` | src/pairtest/TicketService.js:112-114 | the cost is each type's count times its price in the table, infants free |
| `OrderRules.CostOfRequests` | cinema-tickets-javascript/src/pairtest/TicketService.js:57-59 | the cost of the folded map is the sum of each request's count × the price of its type |
| `OrderRules.CalculateTotalSeats` | src/pairtest/TicketService.js:125-127 | the seats are all tickets except the infants' |
| `OrderRules.AdultsRequired` | src/pairtest/TicketService.js:65-67 | the number of adults required is the larger of 1 and the number of infants |
| `OrderRules.Message` | src/pairtest/TicketService.js:69-72 | the missing-adults message is a fixed prefix and suffix around decimal digits, with no leading zero, that read back as the number of adults required, so the text is fixed |
| `OrderRules.ValidateTicketCount` | src/pairtest/TicketService.js:42-53 | passes exactly when there are 1 to 25 tickets; zero or fewer is the no-tickets error, more than 25 the maximum error |
| `OrderRules.ValidateRequiredAdults` | src/pairtest/TicketService.js:65-74 | passes exactly when there is at least one adult and no more infants than adults; otherwise the error names the number required, which is more than the adults present |
| `OrderRules.ValidateOrder` | src/pairtest/TicketService.js:42-88 | an order passes exactly when it has 1 to 25 tickets, at least one adult and no more infants than adults; the count rule is checked first, so zero or fewer tickets, or more than 25, report the count error even when adults are also missing; only then are missing adults reported, with the number required |
| `OrderRules.AdultsMessageNamesRequired` | src/pairtest/TicketService.js:69-72 | the missing-adults message names the number required: different numbers give different messages |
| `OrderRules.TooManyTicketsMessageNamesMax` | src/pairtest/TicketService.js:48-51 | the maximum-tickets message writes the limit of 25 in decimal |
| `OrderRules.AdultsMessageExamples` | cinema-tickets-javascript/src/pairtest/TicketService.js:38-42 | the missing-adults message for 1 and for 3 adults writes the digit between its fixed prefix and suffix |
| `OrderRules.GenerateTicketReservationResponse` | src/pairtest/TicketService.js:139-145 | the receipt's integer guard always passes on the computed totals; the receipt holds all tickets, the table-priced cost and the adult and child seats |
| `OrderRules.Purchase` | src/pairtest/TicketService.js:184-203 | stated on each type's count over all requests: the purchase succeeds exactly when there are 1 to 25 tickets, an adult and no more infants than adults; the receipt holds all tickets, the table-priced cost and adults + children; an error is the one validation reports on those counts |
| `OrderRules.PurchaseOutcome` | src/pairtest/TicketService.js:184-203 | stated on the requests alone: the purchase succeeds exactly when 1 ≤ total ≤ 25, adults ≥ 1 and adults ≥ infants; it then returns (total, priced cost, adults + children); otherwise it returns the first broken rule's error |
| `OrderRules.PurchaseReceiptBounds` | cinema-tickets-javascript/src/pairtest/TicketService.js:21-48 | every receipt is for 1 to 25 tickets, with at least one adult and no more infants than adults |
| `OrderRules.NonNegativeReceipt` | src/pairtest/TicketService.js:112-127 | when no request count is negative, a receipt costs at least 25 and has 1 ≤ seats ≤ tickets ordered |
| `OrderRules.NegativeCountsReachReceipt` | src/pairtest/lib/TicketTypeRequest.js:19-21 | ADULT×6, CHILD×−11, INFANT×6 passes every rule and yields the receipt (1, −15, −5) |
| `OrderRules.ExampleOneAdult` | test/unit/pairtest/test_TicketService_spec.js:22-29 | one adult gives the receipt (1, 25, 1) |
| `OrderRules.ExampleChildOnly` | test/unit/pairtest/test_TicketService_spec.js:31-36 | a child alone fails, requiring 1 adult |
| `OrderRules.ExampleAdultAndChild` | test/unit/pairtest/test_TicketService_spec.js:38-48 | an adult and a child give (2, 40, 2) |
| `OrderRules.ExampleInfantOnly` | test/unit/pairtest/test_TicketService_spec.js:52-57 | an infant alone fails, requiring 1 adult |
| `OrderRules.ExampleInfantAndAdult` | test/unit/pairtest/test_TicketService_spec.js:59-69 | an infant and an adult give (2, 25, 1) |
| `OrderRules.ExampleMoreInfantsThanAdults` | test/unit/pairtest/test_TicketService_spec.js:71-79 | 3 infants and 1 adult fail, requiring 3 adults |
| `OrderRules.ExampleGroupsOfAdults` | test/unit/pairtest/test_TicketService_spec.js:81-93 | 3 infants and three single adults give (6, 75, 3) |
| `OrderRules.ExampleTooManySingle` | test/unit/pairtest/test_TicketService_spec.js:97-102 | 26 adults fail with the maximum error |
| `OrderRules.ExampleTooManyCombined` | test/unit/pairtest/test_TicketService_spec.js:104-113 | three requests of 10 adults fail with the maximum error |
| `OrderRules.ExampleTooManyWithInfants` | test/unit/pairtest/test_TicketService_spec.js:115-124 | 20 adults and 10 infants fail with the maximum error: infants count toward the total |
| `OrderRules.ExampleNoTickets` | test/unit/pairtest/test_TicketService_spec.js:156-161 | an empty request list fails with the zero-tickets error |
| `PairtestService.TicketService.constructor` | src/pairtest/TicketService.js:14-17 | the service keeps the two collaborators it is given |
| `PairtestService.TicketService.PurchaseTickets` | src/pairtest/TicketService.js:184-203 | returns the purchase outcome; on an error no collaborator is called; on success makePayment(accountId, receipt cost) and then reserveSeat(accountId, receipt seats) are recorded, in that order when both share a log, and the returned receipt is the one whose values were sent |
| `PairtestService.PurchaseTwice` | src/pairtest/TicketService.js:184-203 | two purchases with the same requests return the same result and make the same calls twice, whether the collaborators share one log or each has its own: nothing carries over between calls |
| `CinemaJsService.TicketService.constructor` | cinema-tickets-javascript/src/pairtest/TicketService.js:8-11 | the service makes two new collaborators, which report to one new, empty log |
| `CinemaJsService.TicketService.PurchaseTickets` | cinema-tickets-javascript/src/pairtest/TicketService.js:83-103 | returns the purchase outcome; nothing is logged on an error; on success the payment of the cost and then the reservation of the seats are logged |
| `CinemaJsService.InlineReceipt` | cinema-tickets-javascript/src/pairtest/TicketService.js:95-102 | the receipt built inline carries exactly (total tickets, order cost, total seats) of the folded map |
| `JavaTicketService.TicketsPerType` | cinema-tickets-java/src/main/java/uk/gov/dwp/uc/pairtest/TicketServiceImpl.java:75-76 | the map has an entry for exactly the three types |
| `JavaTicketService.GetMapOfTicketsPerType` | cinema-tickets-java/src/main/java/uk/gov/dwp/uc/pairtest/TicketServiceImpl.java:74-85 | the loop starts every type at 0, adds each request's count to its type's entry, and ends with, per type, the sum of that type's counts |
| `JavaTicketService.Message` | cinema-tickets-java/src/main/java/uk/gov/dwp/uc/pairtest/TicketServiceImpl.java:60-71 | every exception message the validation throws starts with "ERROR: " |
| `JavaTicketService.TooManyTicketsMessageNamesMax` | cinema-tickets-java/src/main/java/uk/gov/dwp/uc/pairtest/TicketServiceImpl.java:62-63 | the count message writes the limit of 20 in decimal |
| `JavaTicketService.MessageIdentifiesCause` | cinema-tickets-java/src/main/java/uk/gov/dwp/uc/pairtest/TicketServiceImpl.java:60-71 | different causes throw different messages |
| `JavaTicketService.ValidatePurchaseRequest` | cinema-tickets-java/src/main/java/uk/gov/dwp/uc/pairtest/TicketServiceImpl.java:54-72 | an account id ≤ 0 is the error whatever the tickets are; with a positive account, more than 20 tickets is the error; otherwise a child or infant with no adult; then more infants than adults; the request is valid exactly when the account is positive, there are ≤ 20 tickets, infants ≤ adults and an adult whenever there is a child, so a valid request has an adult whenever it has a child or infant |
| `JavaTicketService.EmptyOrderPasses` | cinema-tickets-java/src/main/java/uk/gov/dwp/uc/pairtest/TicketServiceImpl.java:41-72 | with a positive account an empty request list is valid, pays 0 and reserves 0 seats |
| `JavaTicketService.TwentyAdultsPass` | cinema-tickets-java/src/main/java/uk/gov/dwp/uc/pairtest/TicketServiceImpl.java:62-63 | exactly 20 tickets pass the count rule, and 21 fail it |
| `JavaTicketService.CalculateTotalNumberOfSeatsToReserve` | cinema-tickets-java/src/main/java/uk/gov/dwp/uc/pairtest/TicketServiceImpl.java:41-46 | seats and infants together make up every ticket; when no child count is negative and infants ≤ adults, there is an adult's seat for every infant |
| `JavaTicketService.CalculateTotalPaymentAmount` | cinema-tickets-java/src/main/java/uk/gov/dwp/uc/pairtest/TicketServiceImpl.java:48-52 | when every request is priced at count × table price, the payment is 25·adults + 15·children, as in the JavaScript drafts |
| `JavaTicketService.TicketServiceImpl.constructor` | cinema-tickets-java/src/main/java/uk/gov/dwp/uc/pairtest/TicketServiceImpl.java:17-21 | the service keeps the two collaborators it is given |
| `JavaTicketService.TicketServiceImpl.PurchaseTickets` | cinema-tickets-java/src/main/java/uk/gov/dwp/uc/pairtest/TicketServiceImpl.java:23-39 | throws exactly what validation of the folded map reports; on an error no collaborator is called; otherwise the payment of the summed request prices and then the reservation of adult + child seats are recorded |

## Left out

- JavaScript number semantics: counts and totals are unbounded integers. Floating-point precision above 2^53 is not modelled. Inputs that are not numbers (strings, NaN, fractions, undefined) are collapsed into `JsValues.Value`, which is all the guards can distinguish.
- The JavaScript `accountId` is modelled as an integer passed through unchecked. The JavaScript drafts validate nothing about it.
- Raw `{count, type}` objects passed straight to `purchaseTickets` are not modelled. The services take constructed `TicketTypeRequest` values, whose getters the fold calls. The unit tests pass such raw objects, on which the reduce's `getTicketType()` call throws a `TypeError`; the `OrderRules.Example*` lemmas state the outcomes for the matching constructed requests, not for the tests' own arguments.
- `src/pairtest/lib/TicketReservationResponse.js` is not part of this model. The receipt of `cinema-tickets-javascript/src/pairtest/lib/TicketReservationResponse.js` stands in for both JavaScript drafts. Likewise `cinema-tickets-javascript/src/pairtest/lib/TicketTypeRequest.js` is not part of this model, and the request of `src/pairtest/lib/TicketTypeRequest.js` stands in for it.
- The `InvalidPurchaseException` and `TypeError` classes are not part of this model. Each thrown exception is a value that carries its cause (and, for the missing-adults error, the number required); its text is given by `OrderRules.Message` and `JavaTicketService.Message`.
- The third-party `TicketPaymentService` and `SeatReservationService` are not part of this model. They are stubs that record each call; their own failures and exceptions are not modelled.
- The Java `TicketTypeRequest` class, and so `getTotalPrice`, is not part of this model. Each Java request carries its total price as given. Its relation to the price table is a hypothesis of the contract of `JavaTicketService.CalculateTotalPaymentAmount`.
- Java's `Long` nulls and 32-bit `int` overflow of counts and sums are not modelled.
- Java `purchaseTickets` returns nothing and throws on a broken rule. The model returns `Option`, holding the exception when one is thrown.
- The reduce's accumulator object is fresh and local to each call. Its in-place update is modelled as reassigning a local map value in a loop.
- `src/lib/services/TicketService.js`, `src/services/ticketService.js`, `src/handlers/tickets.js` and `src/constants/routes.js` are not part of this model. They are logging, HTTP and routing wrappers, or they depend on the helpers `src/lib/helpers/validators.js`, `combineTicketRequests.js`, `calculatePayment.js` and `calculateSeatReservation.js`, which this model does not cover.
- Test expectations that none of the modelled code implements are not modelled as properties: the "invalid account number" and "invalid ticket request" errors, and the object-argument API.
