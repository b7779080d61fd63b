# Tokyo Tower ticketing domain: orders, returns, reports and performances

This project models the core of a ticketing backend. The backend sells
tickets for tour performances. It works through four services:

- **The place-order transaction.** `start` opens the transaction. The WAITER
  passport check lets a client open one. `canBeClosed` decides whether the
  transaction may close. `createResult` builds the order and the confirmed
  reservations. `createPotentialActionsFromTransaction` builds the follow-up
  actions: card payments, reservation confirmations and order notifications.
  `confirm` puts all of this together and writes it back.
- **The sales report.** Each order becomes one CSV row per seat. A return
  becomes one cancellation-fee row. The rows carry a padded sort key, status,
  payment-method and customer-group codes, and the unit price.
- **Returning every order of a performance (`processReturnAllByPerformance`).**
  It finds the transactions to return and resets the performance's refund
  counters. For each order it builds the seller-reason refund e-mail, the
  ticket summary, the credit-card refund parameters and the return-order
  request.
- **Performances.** Importing an event keeps only the offer codes 001 to 006,
  narrowed to their unit price. A search result has the attributes the
  point-of-sale expects. When an order is returned, the refund counters move.

The model uses the following Dafny modules:

- `Base`: Option, Result and the error kinds.
- `Text`: fixed-width digits, `split`/`join`, `Number()` and lexicographic order.
- `Domain`: the shared order and reservation data, `filter`/`find`, and the
  Tokyo date formats.
- `PlaceOrder`, `PotentialActions` and `TransactionStore`: the place-order
  transaction.
- `SalesReport`: the sales report.
- `OrderReturn`: returning a performance's orders.
- `Performances`: importing, searching and refund counters.

Most of the code builds values, and those parts are datatypes and functions.
Several parts of the source work step by step, and those are methods proved
against the functions:

- the loops that collect payment methods and potential actions;
- the `forEach` that counts tickets by type;
- the transaction store, whose two unique indexes are maps;
- the performance refund counters, a class that `onOrderReturned` updates in
  place.

A JavaScript `TypeError` the source does not guard against is modelled as
`Err(TypeError)`: reading a field of `undefined`, or indexing an empty array.
`NaN` is modelled as `None`.

Calls into other systems are not modelled. Their results are parameters
instead:

- the seller lookup and passport verification;
- the action, reservation and transaction searches;
- the payment-number allocator;
- the print token;
- the clock;
- conversion of an instant to Tokyo local time;
- `numeral` number formatting.

## Model

| member | source | states |
|---|---|---|
| PlaceOrder.ValidatePassport | src/service/transaction/placeOrderInProgress.ts:147-163 | fails exactly when the issuer setting is unset; otherwise it is true iff the passport issuer is one of the comma-separated issuers and the scope splits into `placeOrderTransaction` and the seller identifier |
| PlaceOrder.ScopeSegments | src/service/transaction/placeOrderInProgress.ts:155-160 | the scope check holds exactly for scopes whose first two dot-separated segments are the prefix and the seller |
| PlaceOrder.SegmentsNameSeller | src/service/transaction/placeOrderInProgress.ts:155-160 | a scope whose first two segments are the prefix and the seller passes the scope check |
| PlaceOrder.SellerSegments | src/service/transaction/placeOrderInProgress.ts:155-160 | a scope that passes the scope check starts with the prefix and the seller segments |
| PlaceOrder.IssuerList | src/service/transaction/placeOrderInProgress.ts:148-153 | when no issuer contains a comma, splitting the joined setting finds exactly the listed issuers |
| PlaceOrder.SettledActions | src/service/transaction/placeOrderInProgress.ts:265-267 | keeps only actions that ended before now, and keeps every such action |
| PlaceOrder.SettledIgnoresLate | src/service/transaction/placeOrderInProgress.ts:265-267 | an action that has not ended before now makes no difference to the settled list |
| PlaceOrder.SettledIdempotent | src/service/transaction/placeOrderInProgress.ts:265-267 | filtering the settled actions again changes nothing |
| PlaceOrder.SumOf | src/service/transaction/placeOrderInProgress.ts:355-362 | the reduce throws (a TypeError) iff some summed action has no result; it is NaN iff some amount is missing; otherwise it is the total of the amounts |
| PlaceOrder.CanBeClosed | src/service/transaction/placeOrderInProgress.ts:335-370 | never returns false; rejects `paymentMethod` when a card payment has no completed card authorization; otherwise succeeds iff the agent's total equals the seller's total, and rejects `transactionId` when it does not |
| PlaceOrder.TotalPermutation | src/service/transaction/placeOrderInProgress.ts:355-362 | the total of authorized amounts does not depend on the order of the actions |
| PlaceOrder.SumOfPermutation | src/service/transaction/placeOrderInProgress.ts:355-362 | the reduce gives the same outcome, TypeError and NaN included, for any reordering |
| PlaceOrder.CanBeClosedPermutation | src/service/transaction/placeOrderInProgress.ts:335-370 | whether a transaction can close does not depend on the order of its authorize actions |
| PlaceOrder.OrderNumber | src/service/transaction/placeOrderInProgress.ts:403 | `TT-`, the six-digit Tokyo date, `-`, then the payment number |
| PlaceOrder.ConfirmationNumber | src/service/transaction/placeOrderInProgress.ts:493 | the eight-digit Tokyo date followed by the payment number |
| PlaceOrder.OrderNumberInjective | src/service/transaction/placeOrderInProgress.ts:403 | equal order numbers mean the same payment number and the same date modulo a century |
| PlaceOrder.ConfirmationNumberInjective | src/service/transaction/placeOrderInProgress.ts:493 | confirmation numbers are equal iff date and payment number are |
| PlaceOrder.CollectPaymentMethods | src/service/transaction/placeOrderInProgress.ts:409-432 | the nested loop produces exactly the payment methods grouped by type in enum order |
| PlaceOrder.MethodsOfTypeMembers | src/service/transaction/placeOrderInProgress.ts:413-431 | every method collected for a type has that type, and every completed action paying with it is represented |
| PlaceOrder.PaymentMethodsOfMembers | src/service/transaction/placeOrderInProgress.ts:409-432 | every collected method has an enumerated type, and every completed action paying with an enumerated type has an entry |
| PlaceOrder.ConfirmReservation | src/service/transaction/placeOrderInProgress.ts:524-585 | the confirmed reservation keeps the Chevre id, event and ticket; it is confirmed at the booking time; it appends `paymentSeatIndex`; its under-name identifiers begin with the order number, payment number, transaction id and GMO order id |
| PlaceOrder.PaymentSeatIndexReadsBack | src/service/transaction/placeOrderInProgress.ts:448 | the seat index read back from the reservation's properties parses to the index it was given |
| PlaceOrder.ConfirmedReservationNamesTransaction | src/service/transaction/placeOrderInProgress.ts:524-585 | looking up `transaction` in the confirmed reservation's under-name finds the transaction id |
| PlaceOrder.ConfirmReservations | src/service/transaction/placeOrderInProgress.ts:435-455 | succeeds iff every temporary reservation has a Chevre twin and, when there are any, a payment method exists; the first missing twin or the missing method decides the error; each result keeps its temporary reservation's id and is confirmed |
| PlaceOrder.ConfirmReservationsEntry | src/service/transaction/placeOrderInProgress.ts:435-455 | entry `i` confirms the first Chevre twin of the `i`-th temporary reservation, named after the first payment method, with seat index `i` |
| PlaceOrder.OffersFor | src/service/transaction/placeOrderInProgress.ts:457-471 | one offer per reservation, in order |
| PlaceOrder.OrderPriceIsSumOfOffers | src/service/transaction/placeOrderInProgress.ts:457-482 | the order price equals the sum of the accepted offers' prices |
| PlaceOrder.OrderOf | src/service/transaction/placeOrderInProgress.ts:484-518 | the order carries the two numbers; one offer per reservation, for that reservation at its ticket type's unit price; the sum of the unit prices as its price, equal to the sum of the offer prices; the collected methods; status delivered, no discounts, not a gift, in JPY |
| PlaceOrder.CreateResult | src/service/transaction/placeOrderInProgress.ts:376-519 | a TypeError without a completed seat authorization or its result; an `Argument("Transaction")` error without a reserve transaction; on success the numbers, the methods and the status, and offer `i` holds the `i`-th confirmed reservation at its unit price, the order price being the sum of those unit prices |
| PlaceOrder.CreateResultFails | src/service/transaction/placeOrderInProgress.ts:435-455 | once the shape checks pass, the result is an error exactly when a temporary reservation has no Chevre twin, or when there are reservations but no payment method |
| PotentialActions.PayActionsFor | src/service/transaction/placeOrderInProgress.ts:610-646 | one pay action per card authorization still due, in order |
| PotentialActions.DefaultInstruments | src/service/transaction/placeOrderInProgress.ts:664-669 | only a seat authorization with no instrument changes, and it gets the Chevre WebAPI instrument |
| PotentialActions.DefaultInstrumentsIdempotent | src/service/transaction/placeOrderInProgress.ts:664-669 | defaulting instruments twice is the same as once |
| PotentialActions.ReservationUpdates | src/service/transaction/placeOrderInProgress.ts:686-700 | succeeds iff every offer is an event reservation; then one update per reservation with its id |
| PotentialActions.ConfirmActionsFor | src/service/transaction/placeOrderInProgress.ts:658-718 | a TypeError iff a seat action with a result has no response body or the offers are not all reservations; otherwise one confirm action per seat action with a result |
| PotentialActions.InformActionsFor | src/service/transaction/placeOrderInProgress.ts:720-748 | one inform action per requested recipient with a URL, in order |
| PotentialActions.PotentialActionsOf | src/service/transaction/placeOrderInProgress.ts:594-767 | fails, with a TypeError, exactly when confirming the settled seat reservations fails |
| PotentialActions.PotentialActionsContents | src/service/transaction/placeOrderInProgress.ts:594-767 | on success the order action holds one pay action per due card authorization, one confirm action per seat action with a result carrying its transaction id, defaulted instrument and reservation updates, and the inform actions |
| PotentialActions.ConfirmActionsForEntry | src/service/transaction/placeOrderInProgress.ts:658-718 | the `k`-th confirm action carries the `k`-th seat action's Chevre transaction id, its defaulted instrument and one update per reserved offer |
| PotentialActions.PayStep | src/service/transaction/placeOrderInProgress.ts:611-646 | extending the scanned prefix by one action adds its pay action exactly when it is due |
| PotentialActions.CollectPayments | src/service/transaction/placeOrderInProgress.ts:600-646 | the loop yields the pay actions of the due card authorizations |
| PotentialActions.ConfirmStep | src/service/transaction/placeOrderInProgress.ts:661-718 | extending the scanned prefix by one action appends its confirm action, or leaves the list unchanged when it is not a seat action |
| PotentialActions.ConfirmSeat | src/service/transaction/placeOrderInProgress.ts:661-717 | one pass of the callback defaults the seat's instrument and appends its confirm action, or reports the TypeError the whole confirmation ends in |
| PotentialActions.CollectConfirmations | src/service/transaction/placeOrderInProgress.ts:658-718 | the loop yields the confirm actions or the same TypeError, and sets the default instruments |
| PotentialActions.FailedSeat | src/service/transaction/placeOrderInProgress.ts:671-675 | one seat action with a result but no response body makes the whole confirmation fail |
| PotentialActions.InformStep | src/service/transaction/placeOrderInProgress.ts:725-746 | extending the scanned prefix adds an inform action exactly for a recipient with a URL |
| PotentialActions.CollectInforms | src/service/transaction/placeOrderInProgress.ts:720-748 | the loop yields the inform actions of the requested recipients with a URL; none when none were requested |
| PotentialActions.CreatePotentialActions | src/service/transaction/placeOrderInProgress.ts:594-767 | the three loops together give the potential actions and the instrument defaults |
| TransactionStore.StartOutcome | src/service/transaction/placeOrderInProgress.ts:62-140 | `NotFound("Seller")` without a seller; an `Argument("passportToken")` error for an unverified token, a seller without an identifier or an invalid passport; `AlreadyInUse` for a used token; otherwise the new in-progress transaction |
| TransactionStore.FindInProgress | src/service/transaction/placeOrderInProgress.ts:250-251 | finds the transaction iff it exists and is in progress |
| TransactionStore.Prepare | src/service/transaction/placeOrderInProgress.ts:269-293 | a failing price gate passes its error on; `Argument("transactionId")` without a seat authorization and a TypeError without its event; errors of `createResult` and of the potential actions pass on; when every step succeeds so does the preparation, and the result is `createResult`'s order under the published payment number with the actions compiled for it |
| TransactionStore.SettledStaySettled | src/service/transaction/placeOrderInProgress.ts:266-267 | defaulting instruments keeps every settled action settled |
| TransactionStore.ConfirmOutcome | src/service/transaction/placeOrderInProgress.ts:233-330 | `NotFound` for a missing or closed transaction; `Forbidden` for another agent; for the agent's own transaction a price-gate error passes on, a missing seat authorization is `Argument("transactionId")`, every preparation error passes on, `AlreadyInUse` is reported exactly when the prepared order number is already used, and otherwise the preparation is the result |
| TransactionStore.ConfirmOutcomeConfirms | src/service/transaction/placeOrderInProgress.ts:233-330 | on success the stored transaction is the agent's in-progress one, confirmed, with only the actions that ended before `now`, their instruments defaulted, the price gate passed, an unused order number, `createResult`'s order on the settled transaction and the potential actions compiled for it |
| TransactionStore.PrepareConfirmation | src/service/transaction/placeOrderInProgress.ts:269-293 | the method computes the same confirmation as its specification |
| TransactionStore.ConfirmIgnoresLate | src/service/transaction/placeOrderInProgress.ts:265-267 | an authorize action that ends after the confirmation started does not change its outcome |
| TransactionStore.IndexedMeansUnique | src/repo/mongoose/model/transaction.ts:110-165 | two indexed transactions never share a passport token or an order number |
| TransactionStore.IndexedAfterStart | src/repo/mongoose/model/transaction.ts:110-120 | storing a new transaction under an unused token keeps the indexes consistent |
| TransactionStore.IndexedAfterConfirm | src/repo/mongoose/model/transaction.ts:155-165 | storing a confirmation under an unused order number keeps the indexes consistent |
| TransactionStore.TransactionStore.Start | src/service/transaction/placeOrderInProgress.ts:117-136 | stores the started transaction exactly on success and keeps the indexes valid |
| TransactionStore.TransactionStore.Store | src/service/transaction/placeOrderInProgress.ts:302-323 | writes the confirmed transaction, its order-number index entry and its potential actions, keeping the indexes valid |
| TransactionStore.TransactionStore.Confirm | src/service/transaction/placeOrderInProgress.ts:302-323 | returns the error of `confirm` and writes nothing, or writes the confirmed transaction and its potential actions and returns its order; the indexes stay valid |
| TransactionStore.ConfirmedOnce | src/service/transaction/placeOrderInProgress.ts:250-254 | a transaction that has been confirmed cannot be confirmed again |
| SalesReport.UnitPriceOf | src/service/report/order.ts:17-30 | the price of the first unit component of a compound specification, 0 otherwise |
| SalesReport.SortByFields | src/service/report/order.ts:32-64 | a reservation's sort key splits into the padded start time, the padded confirmation number, the status and the seat |
| SalesReport.SortByStartsWithTime | src/service/report/order.ts:32-64 | a seat's sort key starts with its start-time field, followed by a colon and the rest of the key |
| SalesReport.SortByStartTimeFirst | src/service/report/order.ts:32-64 | an earlier performance start sorts first |
| SalesReport.StatusCode | src/service/report/order.ts:265-291 | codes 00, 01 and 02 for the three categories; any other category is an error |
| SalesReport.OrDefault | src/service/report/order.ts:175-194 | the value when present and non-empty, the default otherwise |
| SalesReport.CustomerSegment | src/service/report/order.ts:192-194 | address, age and gender in that order, with `__`, `__` and `_` for the missing ones |
| SalesReport.CustomerGroup | src/service/report/order.ts:305-315 | the `customerGroup` identifier, `Customer` without one |
| SalesReport.GroupCode | src/service/report/order.ts:325-333 | Customer is 01, Staff is 04, any other group stays as it is |
| SalesReport.PaymentMethodName | src/service/report/order.ts:182-190 | the first method's name for `Others`, its type otherwise, empty without methods |
| SalesReport.PaymentMethodCode | src/service/report/order.ts:317-323 | CreditCard is 0, any other name stays as it is |
| Domain.CancellationFeeOf | src/service/report/order.ts:267-277 | the `cancellationFee` of the returner read as a number, 0 without one |
| SalesReport.ReservationRow | src/service/report/order.ts:165-303 | an error exactly for an unknown category; otherwise the category, the amount (the fee on a cancellation-fee row), the sort key, the seat index, the sales date, the order's numbers, date and price, the payment code, every customer field with its default, and the reservation's id, event, start, csv code, ticket name, unit price and seat, or empty ids at the order date for another item |
| SalesReport.SeatRows | src/service/report/order.ts:76-98 | one row per event-reservation offer, in order |
| SalesReport.OrderReport | src/service/report/order.ts:69-124 | no rows unless the order is processing or returned; one Reserved row per seat at the order date for a processing order, one Cancelled row per seat at the return date for a returned order |
| SalesReport.RefundOrderReport | src/service/report/order.ts:129-159 | at most one row, a cancellation-fee row for the first seat |
| SalesReport.RefundRowMatchesFirstSeat | src/service/report/order.ts:129-159 | the refund row has the same reservation fields as the first seat row of the order report |
| OrderReturn.OrderUnitPrice | src/service/order.ts:260-278 | the integer price of the first unit component when the offer has a specification, the integer offer price otherwise, and 0 in every other case |
| OrderReturn.UnitPriceMatchesReport | src/service/order.ts:260-278 | for a compound offer with an integral unit price, the e-mail price equals the report's unit price |
| OrderReturn.TransactionIdOf | src/service/order.ts:81-91 | the under-name `transaction` identifier, else the legacy transaction field |
| OrderReturn.ConfirmedReservationTransaction | src/service/order.ts:81-91 | a reservation confirmed by the place-order transaction maps back to that transaction |
| OrderReturn.SearchedReservations | src/service/order.ts:65-78 | no search and no reservations without client ids |
| OrderReturn.Difference | src/service/order.ts:104 | keeps exactly the ids that are not excluded |
| OrderReturn.DifferenceInOrder | src/service/order.ts:104 | `difference` keeps the remaining ids in their order: it filters out the excluded ones |
| OrderReturn.Uniq | src/service/order.ts:104 | the same members, each once |
| OrderReturn.UniqOfDistinct | src/service/order.ts:104 | removing duplicates from a sequence without any changes nothing |
| OrderReturn.TransactionIdsSpec | src/service/order.ts:80-91 | an id is collected iff some reservation names that transaction |
| OrderReturn.CheckedInTransactionIdsSpec | src/service/order.ts:93-103 | an id is excluded iff some reservation of that transaction has been checked in |
| OrderReturn.SelectedTransactionIds | src/service/order.ts:80-104 | distinct ids of the transactions with a reservation and no checked-in reservation |
| OrderReturn.SelectedTransactionIdsSpec | src/service/order.ts:80-104 | an id is selected iff some reservation names it and none of its reservations has a check-in |
| OrderReturn.StartReturnAll | src/service/order.ts:65-116 | returns the selected ids and resets the performance's counters to 0 refunded and that many unrefunded, status instructed |
| OrderReturn.TicketTableOf | src/service/order.ts:312-326 | every key of the ticket table has an entry |
| OrderReturn.CountTickets | src/service/order.ts:312-326 | a TypeError iff some offer is not a reservation; otherwise the table built by the loop |
| OrderReturn.CountTicket | src/service/order.ts:313-325 | one pass of the callback adds the ticket to its type's count, creating the entry with the ticket's name and charge the first time |
| OrderReturn.CountOfferEntry | src/service/order.ts:313-325 | counting a ticket keeps the name and charge of a listed type and gives a new type the ticket's name and charge |
| OrderReturn.TypeNotYetListed | src/service/order.ts:312-326 | a type no ticket has is not in the table |
| OrderReturn.TicketTableKeys | src/service/order.ts:312-326 | the keys are the ticket types in order of first appearance |
| OrderReturn.TicketTableCounts | src/service/order.ts:312-326 | each type's count is the number of tickets of that type |
| OrderReturn.TicketTableFirstOffer | src/service/order.ts:315-322 | a type's name and charge come from its first ticket |
| OrderReturn.TicketCountsAddUp | src/service/order.ts:312-326 | the counts add up to the number of offers |
| OrderReturn.TicketInfoTextLines | src/service/order.ts:328-337 | the summary text splits back into one line per ticket type |
| OrderReturn.FormatSlashedDate | src/service/order.ts:344 | removing the slashes gives the eight-digit date |
| OrderReturn.FormatColonTime | src/service/order.ts:345 | removing the colon gives the four-digit time |
| OrderReturn.EmailMessageOf | src/service/order.ts:283-367 | a TypeError without offers or with a non-reservation offer; otherwise the sender, the subject, the recipient, the two purchaser names, the last six characters of the confirmation number, the Tokyo day and start time of the first offer's event, the formatted amount, the count and the ticket texts |
| OrderReturn.EmailPaymentNo | src/service/order.ts:343 | the six characters shown are the last six of the payment number |
| OrderReturn.CreateEmailMessage | src/service/order.ts:283-367 | the method builds the message its specification describes |
| OrderReturn.RefundCreditCards | src/service/order.ts:143-175 | a TypeError iff a pay action has no objects; otherwise one refund per card payment |
| OrderReturn.RefundCreditCardsEntries | src/service/order.ts:143-175 | each refund lists the payment-method ids of its pay action, with the e-mail and the inform-order list |
| OrderReturn.InformOrderOrDefault | src/service/order.ts:169-174 | the requested inform-order list, empty without one |
| OrderReturn.CancelReservationOrDefault | src/service/order.ts:187-192 | the requested cancel-reservation list, empty without one |
| OrderReturn.PaysWithoutObjects | src/service/order.ts:143-175 | a completed pay action without objects exists among the filtered actions iff it exists among all actions |
| OrderReturn.ReturnRequestOf | src/service/order.ts:138-211 | the request names the order, expires one minute later, is made by the agent for the seller reason, and carries the refunds of the completed pay actions |
| OrderReturn.ReturnTransaction | src/service/order.ts:121-256 | nothing for a missing transaction or one without a result; otherwise the e-mail's error, or the return request |
| Performances.UnitPriceOffer | src/service/performance.ts:61-75 | a TypeError without price components; otherwise the offer narrowed to its first unit component |
| Performances.UnitPriceOffers | src/service/performance.ts:61-75 | a TypeError iff a coded offer has no components; otherwise one ticket type per offer with codes 001 to 006 |
| Performances.UnitPriceOffersAt | src/service/performance.ts:61-75 | the `i`-th ticket type is what narrowing the `i`-th coded offer gives |
| Performances.UnitPriceOffersEntry | src/service/performance.ts:61-75 | the `i`-th ticket type is the `i`-th coded offer with its price narrowed to the first unit component |
| Performances.ImportPerformance | src/service/performance.ts:77-111 | fails with a `TypeError` exactly when an offer with a code lists no price components; otherwise copies the event's id, dates, duration, location branch code and additional properties; a fresh extension with the tour number, normal statuses and no refunds; the catalog's ticket types |
| Performances.ImportedTicketTypes | src/service/performance.ts:61-111 | every imported ticket type has one of the six codes, and every coded offer is imported |
| Performances.AvailableNum | src/service/performance.ts:169-180 | the capacity of the first aggregation with the ticket type's id, nothing without one |
| Performances.TicketTypeEntryOf | src/service/performance.ts:173-181 | the code as id, and the unit price as charge when there is one |
| Performances.PerformanceToResult | src/service/performance.ts:143-207 | the Tokyo day and times, the seat counts, one entry per ticket type, and the extension's statuses with normal as their default |
| Performances.ResultDayIdentifiesDate | src/service/performance.ts:148-150 | two search results show the same day iff the performances start on the same Tokyo date |
| Performances.ImportedResultEntries | src/service/performance.ts:143-207 | a freshly imported performance lists each coded offer with its code and unit price, and no availability |
| Performances.SellerRefundEntries | src/service/performance.ts:219-242 | a return counts exactly when the first `reason` is Seller and the fee reads as 0 |
| Performances.ReturnedEvent | src/service/performance.ts:212-242 | a TypeError without offers, or when a counted return's first item is not a reservation; otherwise the event to update exactly when the return counts |
| Performances.RefundCounters.InstructRefunds | src/service/order.ts:108-116 | 0 refunded, the given number unrefunded, status instructed, updated now |
| Performances.RefundCounters.RecordReturn | src/service/performance.ts:244-265 | one more refunded and one fewer unrefunded, the sum kept; status completed exactly when none is left unrefunded |
| Performances.OnOrderReturned | src/service/performance.ts:212-265 | the counters move exactly when the return counts for this performance, with the refund update time set to the first clock reading, or to the second one when none is left unrefunded; otherwise they stay unchanged |
| Text.FixedDigitsValue | src/service/report/order.ts:35-40 | a zero-padded number reads back as the number |
| Text.SortKeyFieldOfNat | src/service/report/order.ts:35-40 | padding to twenty characters and keeping the last twenty gives the number in twenty digits |
| Text.SortKeyFieldOrder | src/service/report/order.ts:35-40 | padded sort fields compare as the numbers do |
| Text.SplitJoin | src/service/transaction/placeOrderInProgress.ts:152 | splitting joined parts without the separator gives the parts back |
| Text.JoinSplit | src/service/order.ts:328-337 | joining the split pieces gives the string back |
| Text.NumberOfIntToString | src/service/report/order.ts:271-273 | `Number()` of a printed integer is that integer |
| Domain.FindIsFirstOfFilter | src/service/transaction/placeOrderInProgress.ts:381-386 | `find` returns the first element of the filtered sequence |
| Domain.FilterDropAt | src/service/transaction/placeOrderInProgress.ts:355-362 | removing one element removes it from the filtered multiset exactly when it passes the filter |
| Domain.FilterPermutation | src/service/transaction/placeOrderInProgress.ts:355-362 | filtering reordered sequences gives reordered results |
| Domain.FormatYYYYMMDDInjective | src/service/transaction/placeOrderInProgress.ts:283 | equal eight-digit dates mean equal dates |

## Left out

- Calls into other systems: the Cinerino, Chevre and WAITER APIs; the MongoDB repositories; Redis (payment numbers, print tokens); the report repository writes. Their results are parameters, and their failures are not modelled.
- `Promise.all` concurrency is not modelled. The per-transaction returns and the report row writes are modelled one after another. The counters' two `updateOne` calls in `onOrderReturned` are modelled as one atomic step, so a concurrent return between them is not modelled.
- TransactionStore.TransactionStore.Start: passport verification is an input (`verified`). `Argument("passportToken")` stands for a token that failed verification.
- Time-zone conversion: `moment(...).tz('Asia/Tokyo')` is the parameter `tokyo`, from instant to local date and time. `new Date()` and `moment()` are parameters. Calendar dates are not checked for validity.
- `numeral(...).format('0,0')` is the parameter `formatNumber`.
- The e-mail template rendering (`email.render`) is not modelled: the model returns the data passed to the template.
- `setCustomerContact`: its phone-number formatting belongs to libphonenumber, which is not part of this model.
- `importFromCinerino`:
  - `saveIfNotExists` and the aggregation task it saves are left out.
  - The `superEvent` and Chevre location-name copies are left out.
  - The project and type fields are constants and left out.
- `Number()` is modelled only for optionally signed decimal integers. Forms such as `"0.0"`, `" 0 "` or `"0x0"` read as `None` (NaN). This affects the cancellation-fee tests in the report and in `onOrderReturned`.
- `Object.keys` puts integer-like keys first. The ticket table keeps insertion order, which matches for the non-numeric ticket-type ids the source uses.
- The payment-method type enum order (`Object.keys(factory.cinerino.paymentMethodType)`) is the parameter `paymentMethodTypes`.
- Amounts and prices are whole yen. Authorize-action amounts, `Order.price` and the price of a unit-price specification are `int`. A fractional JS number, such as `Number("100.5")` in the price gate's reduce, is not modelled. Offer prices are `real` but only ever hold those integer unit prices.
- Performances.PerformanceToResult: its `ttts_extension` is not tied to Performances.RefundCounters. The extension has no `unrefunded_count` or `refund_update_at`. Its `refund_status` and `refunded_count` are not connected to the counters. So the search result does not reflect what `StartReturnAll` and `OnOrderReturned` did to the same performance document.
- The payment-number allocator `publish` is a function parameter. That it issues each day's numbers only once is not modelled: the unique order-number index rejects a repeat.
- Performances.RefundCounters models the counter fields of one performance document. An `updateOne` that finds no performance is modelled by a `performanceId` that does not match. An absent `unrefunded_count` is read as 0, as `$inc` does.
- OrderReturn.StartReturnAll: the e-mail and refund flow for each transaction is `OrderReturn.ReturnTransaction`, applied one transaction at a time. Starting and confirming the return-order transactions are outputs (the request), not calls.
- The two unit-price rules differ. `report/order.ts` takes the unit component only when the specification type is compound. `order.ts` looks for a unit component in any specification, and requires an integral price. `OrderReturn.UnitPriceMatchesReport` states the case where they agree.
- OrderReturn.EmailMessageOf: the customer name is a `string`. The source's fallback to `''` for an undefined `order.customer.name` is not modelled, because every order modelled here carries a name.
