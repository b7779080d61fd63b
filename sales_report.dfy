/**
 * The sales report: the rows the report service derives from an order, one
 * per sold seat while the order is processed, one per returned seat once it
 * is returned, and one cancellation-fee row per refunded order. Saving the
 * rows is left to the caller.
 */
module SalesReport {
  import opened Base
  import opened Text
  import opened Domain

  datatype ReportCategory = Reserved | Cancelled | CancellationFee | OtherCategory(name: string)

  datatype ReportCustomer = ReportCustomer(
    group: string,
    givenName: string,
    familyName: string,
    email: string,
    telephone: string,
    segment: string,
    username: string)

  datatype MainEntity = MainEntity(
    confirmationNumber: string,
    customer: ReportCustomer,
    orderDate: Instant,
    orderNumber: string,
    /** `None` when the first payment method is of type `Others` and has no name */
    paymentMethod: Option<string>,
    price: int)

  datatype ReportTicketType = ReportTicketType(csvCode: string, name: MultilingualString, price: real)

  /** The reservation part of a row; `ticket` is absent for an item that is not an event reservation. */
  datatype ReportReservation = ReportReservation(
    id: string,
    eventId: string,
    startDate: Instant,
    ticket: Option<ReportTicketType>,
    seatNumber: Option<string>)

  datatype ReportRow = ReportRow(
    /** `None` when the cancellation fee does not read as a number */
    amount: Option<int>,
    category: ReportCategory,
    dateRecorded: Instant,
    mainEntity: MainEntity,
    reservation: ReportReservation,
    sortBy: string,
    paymentSeatIndex: Option<nat>)

  const Others := "Others"

  // ---------------------------------------------------------------------------
  // Unit price

  /**
   * `getUnitPriceByAcceptedOffer` of the report: the price of the first
   * unit-price component of a compound price specification, when that price
   * is a number; 0 in every other case.
   */
  function UnitPriceOf(offer: AcceptedOffer): (price: real)
    ensures !HasComponents(offer) ==> price == 0.0
    ensures HasComponents(offer) ==>
      var cs := offer.priceSpecification.value.priceComponent.value;
      && ((forall j :: 0 <= j < |cs| ==> !IsUnitPriceComponent(cs[j])) ==> price == 0.0)
      && (forall i :: FirstUnitAt(cs, i) ==> price == cs[i].price.GetOr(0.0))
  {
    if HasComponents(offer) then
      var cs := offer.priceSpecification.value.priceComponent.value;
      var unit := Find(cs, IsUnitPriceComponent);
      assert forall i :: FirstUnitAt(cs, i) ==> unit == Some(cs[i]) by {
        forall i | FirstUnitAt(cs, i) {
          FindFirst(cs, IsUnitPriceComponent, i);
        }
      }
      if unit.Some? && unit.value.price.Some? then unit.value.price.value else 0.0
    else 0.0
  }

  /** The offer's price specification is compound and lists its components. */
  predicate HasComponents(offer: AcceptedOffer) {
    && offer.priceSpecification.Some?
    && offer.priceSpecification.value.typeOf == CompoundPriceSpecification
    && offer.priceSpecification.value.priceComponent.Some?
  }

  // ---------------------------------------------------------------------------
  // Sort key

  /** `moment(t).unix()` as the sort key writes it, zero-filled to 20 characters. */
  function TimeField(t: Instant): string {
    SortKeyField(IntToString(UnixSeconds(t)))
  }

  /** `getSortBy`: start time (order date for other items), confirmation number, status code, and the seat or id. */
  function SortBy(order: Order, item: ItemOffered, status: string): string {
    match item
    case EventReservation(r) =>
      Join([TimeField(r.reservationFor.startDate), SortKeyField(order.confirmationNumber), status,
            r.reservedTicket.seatNumber.GetOr(r.id)], ':')
    case OtherItem(_, _) =>
      Join([TimeField(order.orderDate), SortKeyField(order.confirmationNumber), status], ':')
  }

  /**
   * The sort key reads back as its fields: three for an item that is not a
   * reservation, four for an event reservation, the numeric ones exactly 20
   * characters long.
   */
  lemma {:induction false} SortByFields(order: Order, item: ItemOffered, status: string)
    requires ':' !in order.confirmationNumber && ':' !in status
    requires item.EventReservation? ==> ':' !in item.reservation.reservedTicket.seatNumber.GetOr(item.reservation.id)
    ensures var fields := Split(SortBy(order, item, status), ':');
      && |fields| == (if item.EventReservation? then 4 else 3)
      && |fields[0]| == 20 && |fields[1]| == 20
      && fields[1] == SortKeyField(order.confirmationNumber) && fields[2] == status
      && (item.OtherItem? ==> fields == [TimeField(order.orderDate), SortKeyField(order.confirmationNumber), status])
      && (item.EventReservation? ==>
            fields == [TimeField(item.reservation.reservationFor.startDate), SortKeyField(order.confirmationNumber),
                       status, item.reservation.reservedTicket.seatNumber.GetOr(item.reservation.id)])
  {
    var t := if item.EventReservation? then item.reservation.reservationFor.startDate else order.orderDate;
    IntToStringChars(UnixSeconds(t), ':');
    SortKeyFieldChars(IntToString(UnixSeconds(t)), ':');
    SortKeyFieldChars(order.confirmationNumber, ':');
    if item.EventReservation? {
      var parts := [TimeField(t), SortKeyField(order.confirmationNumber), status,
                    item.reservation.reservedTicket.seatNumber.GetOr(item.reservation.id)];
      SplitJoin(parts, ':');
    } else {
      SplitJoin([TimeField(t), SortKeyField(order.confirmationNumber), status], ':');
    }
  }

  /**
   * Reservation rows sort by the event's start time first: a seat of an
   * earlier event (in whole seconds, from the epoch on) comes before one of a
   * later event, whatever the rest of the key says.
   */
  lemma {:induction false} SortByStartTimeFirst(o1: Order, r1: Reservation, s1: string, o2: Order, r2: Reservation, s2: string)
    requires 0 <= UnixSeconds(r1.reservationFor.startDate) < UnixSeconds(r2.reservationFor.startDate) < Pow10(20)
    ensures LexLess(SortBy(o1, EventReservation(r1), s1), SortBy(o2, EventReservation(r2), s2))
  {
    var n, m := UnixSeconds(r1.reservationFor.startDate), UnixSeconds(r2.reservationFor.startDate);
    SortKeyFieldOrder(n, m);
    var tail1 := SortByStartsWithTime(o1, r1, s1);
    var tail2 := SortByStartsWithTime(o2, r2, s2);
    LexLessPrefix(TimeField(r1.reservationFor.startDate), TimeField(r2.reservationFor.startDate), tail1, tail2);
  }

  /** A reservation's sort key is its time field followed by the rest of the key. */
  lemma {:induction false} SortByStartsWithTime(o: Order, r: Reservation, s: string) returns (tail: string)
    ensures SortBy(o, EventReservation(r), s) == TimeField(r.reservationFor.startDate) + tail
    ensures |tail| > 0 && tail[0] == ':'
  {
    var rest := [SortKeyField(o.confirmationNumber), s, r.reservedTicket.seatNumber.GetOr(r.id)];
    tail := [':'] + Join(rest, ':');
    assert SortBy(o, EventReservation(r), s) == TimeField(r.reservationFor.startDate) + tail;
  }

  /** The status code of a category in the sort key; other categories are not implemented. */
  function StatusCode(category: ReportCategory): (r: Result<string>)
    ensures r.Ok? <==> !category.OtherCategory?
    ensures category == Reserved ==> r == Ok("00")
    ensures category == Cancelled ==> r == Ok("01")
    ensures category == CancellationFee ==> r == Ok("02")
    ensures r.Err? ==> r.error == Failure("category " + category.name + " not implemented")
  {
    match category
    case CancellationFee => Ok("02")
    case Cancelled => Ok("01")
    case Reserved => Ok("00")
    case OtherCategory(name) => Err(Failure("category " + name + " not implemented"))
  }

  // ---------------------------------------------------------------------------
  // Customer and payment codes

  /** A string field the report copies, or `default` when it is absent or empty. */
  function OrDefault(s: Option<string>, default: string): (r: string)
    ensures s.Some? && s.value != "" ==> r == s.value
    ensures s.None? || s.value == "" ==> r == default
  {
    if s.Some? && s.value != "" then s.value else default
  }

  /**
   * The customer segment: locale, age and gender, each replaced by
   * underscores when missing (two for locale and age, one for gender).
   */
  function CustomerSegment(c: Customer): (r: string)
    ensures |r| == |OrDefault(c.address, "__")| + |OrDefault(c.age, "__")| + |OrDefault(c.gender, "_")|
    ensures r[..|OrDefault(c.address, "__")|] == OrDefault(c.address, "__")
    ensures r[|OrDefault(c.address, "__")|..|OrDefault(c.address, "__")| + |OrDefault(c.age, "__")|] == OrDefault(c.age, "__")
    ensures r[|r| - |OrDefault(c.gender, "_")|..] == OrDefault(c.gender, "_")
    ensures c.address.None? && c.age.None? && c.gender.None? ==> r == "_____"
  {
    var s := OrDefault(c.address, "__") + OrDefault(c.age, "__") + OrDefault(c.gender, "_");
    assert s[..|OrDefault(c.address, "__")|] == OrDefault(c.address, "__");
    assert s[|OrDefault(c.address, "__")|..|OrDefault(c.address, "__")| + |OrDefault(c.age, "__")|] == OrDefault(c.age, "__");
    s
  }

  /** `order2customerGroup`: the customer's `customerGroup` identifier, `Customer` without one. */
  function CustomerGroup(order: Order): (group: string)
    ensures FindValueIn(order.customer.identifier, "customerGroup").None? ==> group == "Customer"
    ensures order.customer.identifier.Some? ==>
      forall i :: FirstNamed(order.customer.identifier.value, "customerGroup", i) ==>
        group == order.customer.identifier.value[i].value
  {
    if order.customer.identifier.Some? then
      var ids := order.customer.identifier.value;
      assert forall i :: FirstNamed(ids, "customerGroup", i) ==> FindValue(ids, "customerGroup") == Some(ids[i].value) by {
        forall i | FirstNamed(ids, "customerGroup", i) {
          FindValueFirst(ids, "customerGroup", i);
        }
      }
      FindValueIn(order.customer.identifier, "customerGroup").GetOr("Customer")
    else "Customer"
  }

  /** `customerGroup2reportString`. */
  function GroupCode(group: string): (code: string)
    ensures group == "Customer" ==> code == "01"
    ensures group == "Staff" ==> code == "04"
    ensures group != "Customer" && group != "Staff" ==> code == group
  {
    if group == "Customer" then "01" else if group == "Staff" then "04" else group
  }

  /** The payment-method name the report takes from the first payment method: its name for `Others`, else its type. */
  function PaymentMethodName(order: Order): (name: Option<string>)
    ensures |order.paymentMethods| == 0 ==> name == Some("")
    ensures |order.paymentMethods| > 0 && order.paymentMethods[0].typeOf == Others ==> name == order.paymentMethods[0].name
    ensures |order.paymentMethods| > 0 && order.paymentMethods[0].typeOf != Others ==> name == Some(order.paymentMethods[0].typeOf)
  {
    if |order.paymentMethods| == 0 then Some("")
    else if order.paymentMethods[0].typeOf == Others then order.paymentMethods[0].name
    else Some(order.paymentMethods[0].typeOf)
  }

  /** `paymentMethodName2reportString`: `CreditCard` becomes '0', any other name stays. */
  function PaymentMethodCode(name: Option<string>): (code: Option<string>)
    ensures name == Some("CreditCard") ==> code == Some("0")
    ensures name != Some("CreditCard") ==> code == name
  {
    if name == Some("CreditCard") then Some("0") else name
  }

  // ---------------------------------------------------------------------------
  // Rows

  function ReportCustomerOf(order: Order): ReportCustomer {
    var c := order.customer;
    ReportCustomer(GroupCode(CustomerGroup(order)), OrDefault(c.givenName, ""), OrDefault(c.familyName, ""),
                   OrDefault(c.email, ""), OrDefault(c.telephone, ""), CustomerSegment(c), c.membershipNumber.GetOr(""))
  }

  function MainEntityOf(order: Order): MainEntity {
    MainEntity(order.confirmationNumber, ReportCustomerOf(order), order.orderDate, order.orderNumber,
               PaymentMethodCode(PaymentMethodName(order)), order.price)
  }

  /** The reservation part of a row: the reservation's own fields, or empty ids dated at the order date. */
  function ReportReservationOf(item: ItemOffered, unitPrice: real, order: Order): ReportReservation {
    match item
    case EventReservation(r) =>
      var csvCode := FindValueIn(r.reservedTicket.ticketType.additionalProperty, "csvCode").GetOr("");
      ReportReservation(r.id, r.reservationFor.id, r.reservationFor.startDate,
                        Some(ReportTicketType(csvCode, r.reservedTicket.ticketType.name, unitPrice)),
                        r.reservedTicket.seatNumber)
    case OtherItem(_, _) => ReportReservation("", "", order.orderDate, None, None)
  }

  /**
   * `reservation2report`: one row. Its amount is the order price, except on
   * a cancellation-fee row, whose amount is the order's cancellation fee;
   * a category without a status code fails.
   */
  function ReservationRow(category: ReportCategory, item: ItemOffered, unitPrice: real, order: Order,
                          paymentSeatIndex: Option<nat>, salesDate: Instant): (r: Result<ReportRow>)
    ensures r.Ok? <==> !category.OtherCategory?
    ensures r.Err? ==> r.error == StatusCode(category).error
    ensures r.Ok? ==>
      && r.value.category == category
      && r.value.amount == (if category == CancellationFee then CancellationFeeOf(order) else Some(order.price))
      && r.value.sortBy == SortBy(order, item, StatusCode(category).value)
      && r.value.paymentSeatIndex == paymentSeatIndex
      && r.value.dateRecorded == salesDate
      && r.value.mainEntity.orderNumber == order.orderNumber && r.value.mainEntity.price == order.price
      && r.value.mainEntity.confirmationNumber == order.confirmationNumber
      && r.value.mainEntity.orderDate == order.orderDate
      && r.value.mainEntity.paymentMethod == PaymentMethodCode(PaymentMethodName(order))
    ensures r.Ok? ==>
      var c := order.customer;
      var rc := r.value.mainEntity.customer;
      && rc.group == GroupCode(CustomerGroup(order))
      && rc.segment == CustomerSegment(c)
      && rc.givenName == OrDefault(c.givenName, "") && rc.familyName == OrDefault(c.familyName, "")
      && rc.email == OrDefault(c.email, "") && rc.telephone == OrDefault(c.telephone, "")
      && rc.username == c.membershipNumber.GetOr("")
    ensures r.Ok? && item.EventReservation? ==>
      var res := item.reservation;
      var rr := r.value.reservation;
      && rr.id == res.id && rr.eventId == res.reservationFor.id && rr.startDate == res.reservationFor.startDate
      && rr.ticket == Some(ReportTicketType(
           FindValueIn(res.reservedTicket.ticketType.additionalProperty, "csvCode").GetOr(""),
           res.reservedTicket.ticketType.name, unitPrice))
      && rr.seatNumber == res.reservedTicket.seatNumber
    ensures r.Ok? && !item.EventReservation? ==>
      r.value.reservation == ReportReservation("", "", order.orderDate, None, None)
  {
    var code :- StatusCode(category);
    var amount := if category == CancellationFee then CancellationFeeOf(order) else Some(order.price);
    Ok(ReportRow(amount, category, salesDate, MainEntityOf(order), ReportReservationOf(item, unitPrice, order),
                 SortBy(order, item, code), paymentSeatIndex))
  }

  predicate IsEventReservationOffer(o: AcceptedOffer) {
    o.itemOffered.EventReservation?
  }

  /** The date a return is recorded at: `dateReturned`, or the clock reading `now` when it is missing. */
  function ReturnDate(order: Order, now: Instant): Instant {
    order.dateReturned.GetOr(now)
  }

  /** The rows of one category for each event-reservation offer, indexed by position among them. */
  function SeatRows(order: Order, category: ReportCategory, salesDate: Instant): (rows: seq<ReportRow>)
    requires !category.OtherCategory?
    ensures var seats := Filter(order.acceptedOffers, IsEventReservationOffer);
      && |rows| == |seats|
      && forall i :: 0 <= i < |rows| ==>
           Ok(rows[i]) == ReservationRow(category, seats[i].itemOffered, UnitPriceOf(seats[i]), order, Some(i), salesDate)
  {
    var seats := Filter(order.acceptedOffers, IsEventReservationOffer);
    seq(|seats|, i requires 0 <= i < |seats| =>
      ReservationRow(category, seats[i].itemOffered, UnitPriceOf(seats[i]), order, Some(i), salesDate).value)
  }

  /**
   * `createOrderReport`: a processed order gives a Reserved row per seat
   * dated at the order date, a returned order a Cancelled row per seat dated
   * at its return, and any other order no rows.
   */
  function OrderReport(order: Order, now: Instant): (rows: seq<ReportRow>)
    ensures !(order.orderStatus.OrderProcessing? || order.orderStatus.OrderReturned?) ==> rows == []
    ensures order.orderStatus.OrderProcessing? || order.orderStatus.OrderReturned? ==>
      var seats := Filter(order.acceptedOffers, IsEventReservationOffer);
      && |rows| == |seats|
      && forall i :: 0 <= i < |rows| ==>
           && rows[i].category == (if order.orderStatus.OrderProcessing? then Reserved else Cancelled)
           && rows[i].paymentSeatIndex == Some(i)
           && rows[i].amount == Some(order.price)
           && rows[i].dateRecorded == (if order.orderStatus.OrderProcessing? then order.orderDate else ReturnDate(order, now))
           && rows[i].sortBy == SortBy(order, seats[i].itemOffered, if order.orderStatus.OrderProcessing? then "00" else "01")
           && rows[i].reservation.id == seats[i].itemOffered.reservation.id
  {
    match order.orderStatus
    case OrderProcessing => SeatRows(order, Reserved, order.orderDate)
    case OrderReturned => SeatRows(order, Cancelled, ReturnDate(order, now))
    case _ => []
  }

  /**
   * `createRefundOrderReport`: at most one row, a cancellation-fee row for
   * the first event-reservation offer, without a seat index.
   */
  function RefundOrderReport(order: Order, now: Instant): (rows: seq<ReportRow>)
    ensures var seats := Filter(order.acceptedOffers, IsEventReservationOffer);
      |rows| == if |seats| > 0 then 1 else 0
    ensures |rows| == 1 ==>
      var first := Filter(order.acceptedOffers, IsEventReservationOffer)[0];
      && rows[0].category == CancellationFee
      && rows[0].paymentSeatIndex.None?
      && rows[0].amount == CancellationFeeOf(order)
      && rows[0].dateRecorded == ReturnDate(order, now)
      && rows[0].sortBy == SortBy(order, first.itemOffered, "02")
  {
    var seats := Filter(order.acceptedOffers, IsEventReservationOffer);
    if |seats| > 0 then
      [ReservationRow(CancellationFee, seats[0].itemOffered, UnitPriceOf(seats[0]), order, None, ReturnDate(order, now)).value]
    else []
  }

  /** The refund row is the report's first seat, recategorised: same sort key but for the status code. */
  lemma {:induction false} RefundRowMatchesFirstSeat(order: Order, now: Instant)
    requires order.orderStatus.OrderReturned?
    requires |Filter(order.acceptedOffers, IsEventReservationOffer)| > 0
    ensures var seat := OrderReport(order, now)[0];
      var fee := RefundOrderReport(order, now)[0];
      && fee.reservation == seat.reservation
      && fee.mainEntity == seat.mainEntity
      && fee.dateRecorded == seat.dateRecorded
  {
  }
}
