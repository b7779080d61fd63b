/**
 * Performances: importing a Chevre screening event as a performance, the
 * view the search service returns for one, and the refund counters that a
 * returned order moves.
 */
module Performances {
  import opened Base
  import opened Text
  import opened Domain

  /** The offer codes a performance sells. */
  const OfferCodes: seq<string> := ["001", "002", "003", "004", "005", "006"]

  /** A ticket offer of an event, as the offer search returns it. */
  datatype TicketOffer = TicketOffer(
    id: string,
    identifier: string,
    name: MultilingualString,
    priceSpecification: PriceSpecification)

  /** A ticket type of a performance: an offer whose price is narrowed to its unit-price component. */
  datatype PerformanceTicketType = PerformanceTicketType(
    id: string,
    identifier: string,
    name: MultilingualString,
    /** `None` when the offer has no unit-price component */
    priceSpecification: Option<PriceComponent>)

  datatype TicketTypeGroup = TicketTypeGroup(
    id: Option<string>,
    ticketTypes: seq<PerformanceTicketType>,
    name: MultilingualString)

  /** Elevator service and online sales status. */
  datatype ServiceStatus = Normal | OtherServiceStatus(name: string)

  /** `RefundStatus.None`, `RefundStatus.Instructed`, and `RefundStatus.Compeleted` (spelled so). */
  datatype RefundStatus = RefundNone | Instructed | Compeleted

  /** The `ttts_extension` of a performance as it is imported. */
  datatype TttsExtension = TttsExtension(
    tourNumber: string,
    evServiceStatus: ServiceStatus,
    evServiceUpdateUser: string,
    onlineSalesStatus: ServiceStatus,
    onlineSalesUpdateUser: string,
    refundStatus: RefundStatus,
    refundUpdateUser: string,
    refundedCount: int)

  /** The remaining capacity the aggregation task records for one offer. */
  datatype OfferAggregation = OfferAggregation(id: string, remainingAttendeeCapacity: Option<int>)

  /** A Chevre screening event. */
  datatype ScreeningEvent = ScreeningEvent(
    id: string,
    doorTime: Instant,
    startDate: Instant,
    endDate: Instant,
    /** `superEvent.duration` */
    duration: string,
    locationBranchCode: string,
    additionalProperty: Option<seq<PropertyValue>>,
    /** `hasOfferCatalog?.id` */
    offerCatalogId: Option<string>)

  /**
   * A stored performance, with the aggregation fields the search reads;
   * `None` stands for a field that is absent or not a number.
   */
  datatype Performance = Performance(
    id: string,
    doorTime: Instant,
    startDate: Instant,
    endDate: Instant,
    duration: string,
    locationBranchCode: string,
    additionalProperty: Option<seq<PropertyValue>>,
    extension: Option<TttsExtension>,
    ticketTypeGroup: Option<TicketTypeGroup>,
    remainingAttendeeCapacity: Option<int>,
    remainingAttendeeCapacityForWheelchair: Option<int>,
    offers: Option<seq<OfferAggregation>>)

  const TicketTypeGroupName := MultilingualString("トップデッキツアー料金改定", "Top Deck Tour")

  // ---------------------------------------------------------------------------
  // Import

  predicate HasOfferCode(o: TicketOffer) {
    o.identifier in OfferCodes
  }

  /** `t` is `o` with its price specification replaced by the first unit-price component. */
  ghost predicate NarrowedFrom(t: PerformanceTicketType, o: TicketOffer)
    requires o.priceSpecification.priceComponent.Some?
  {
    var cs := o.priceSpecification.priceComponent.value;
    && t.id == o.id && t.identifier == o.identifier && t.name == o.name
    && (t.priceSpecification.Some? <==> exists k :: 0 <= k < |cs| && IsUnitPriceComponent(cs[k]))
    && (forall k :: FirstUnitAt(cs, k) ==> t.priceSpecification == Some(cs[k]))
  }

  /** Narrowing one offer; reading the components of an offer that lists none is a `TypeError`. */
  function UnitPriceOffer(o: TicketOffer): (r: Result<PerformanceTicketType>)
    ensures r.Err? <==> o.priceSpecification.priceComponent.None?
    ensures r.Err? ==> r.error == TypeError
    ensures r.Ok? ==> NarrowedFrom(r.value, o)
  {
    if o.priceSpecification.priceComponent.None? then Err(TypeError)
    else
      var cs := o.priceSpecification.priceComponent.value;
      var unit := Find(cs, IsUnitPriceComponent);
      assert forall k :: FirstUnitAt(cs, k) ==> unit == Some(cs[k]) by {
        forall k | FirstUnitAt(cs, k) {
          FindFirst(cs, IsUnitPriceComponent, k);
        }
      }
      Ok(PerformanceTicketType(o.id, o.identifier, o.name, unit))
  }

  /** The offers with one of the offer codes, in order, each narrowed to its unit price. */
  function UnitPriceOffers(offers: seq<TicketOffer>): (r: Result<seq<PerformanceTicketType>>)
    ensures r.Err? <==>
      exists i :: 0 <= i < |offers| && HasOfferCode(offers[i]) && offers[i].priceSpecification.priceComponent.None?
    ensures r.Err? ==> r.error == TypeError
    ensures r.Ok? ==> |r.value| == |Filter(offers, HasOfferCode)|
  {
    if |offers| == 0 then Ok([])
    else
      var rest := UnitPriceOffers(offers[1..]);
      assert forall i :: 1 <= i < |offers| ==> offers[i] == offers[1..][i - 1];
      if !HasOfferCode(offers[0]) then rest
      else
        var head := UnitPriceOffer(offers[0]);
        if head.Err? then Err(TypeError)
        else if rest.Err? then Err(TypeError)
        else Ok([head.value] + rest.value)
  }

  /** Entry `i` of the imported ticket types is the `i`-th coded offer put through `UnitPriceOffer`. */
  lemma {:induction false} UnitPriceOffersAt(offers: seq<TicketOffer>, i: nat)
    requires UnitPriceOffers(offers).Ok?
    requires i < |UnitPriceOffers(offers).value|
    ensures UnitPriceOffer(Filter(offers, HasOfferCode)[i]) == Ok(UnitPriceOffers(offers).value[i])
    decreases |offers|
  {
    var rest := UnitPriceOffers(offers[1..]);
    var coded := Filter(offers[1..], HasOfferCode);
    assert Filter(offers, HasOfferCode) == (if HasOfferCode(offers[0]) then [offers[0]] else []) + coded;
    if !HasOfferCode(offers[0]) {
      assert UnitPriceOffers(offers) == rest;
      UnitPriceOffersAt(offers[1..], i);
    } else {
      var head := UnitPriceOffer(offers[0]);
      assert UnitPriceOffers(offers) == Ok([head.value] + rest.value);
      if i > 0 {
        UnitPriceOffersAt(offers[1..], i - 1);
      }
    }
  }

  /** Entry `i` of the imported ticket types is the `i`-th coded offer, narrowed. */
  lemma {:induction false} UnitPriceOffersEntry(offers: seq<TicketOffer>, i: nat)
    requires UnitPriceOffers(offers).Ok?
    requires i < |UnitPriceOffers(offers).value|
    ensures Filter(offers, HasOfferCode)[i].priceSpecification.priceComponent.Some?
    ensures NarrowedFrom(UnitPriceOffers(offers).value[i], Filter(offers, HasOfferCode)[i])
  {
    UnitPriceOffersAt(offers, i);
  }

  /** `additionalProperty?.find((p) => p.name === 'tourNumber')?.value`. */
  function TourNumberOf(props: Option<seq<PropertyValue>>): Option<string>
  {
    FindValueIn(props, "tourNumber")
  }

  /** The performance `importFromCinerino` builds from an event and its ticket offers. */
  function ImportPerformance(event: ScreeningEvent, offers: seq<TicketOffer>): (r: Result<Performance>)
    ensures r.Err? <==>
      exists i :: 0 <= i < |offers| && HasOfferCode(offers[i]) && offers[i].priceSpecification.priceComponent.None?
    ensures r.Err? ==> r.error == TypeError
    ensures r.Ok? ==>
      && r.value.id == event.id
      && r.value.doorTime == event.doorTime
      && r.value.startDate == event.startDate
      && r.value.endDate == event.endDate
      && r.value.duration == event.duration
      && r.value.locationBranchCode == event.locationBranchCode
      && r.value.additionalProperty == event.additionalProperty
      && r.value.extension == Some(TttsExtension(
           TourNumberOf(event.additionalProperty).GetOr(""), Normal, "", Normal, "", RefundNone, "", 0))
      && r.value.ticketTypeGroup.Some?
      && r.value.ticketTypeGroup.value.id == event.offerCatalogId
      && r.value.ticketTypeGroup.value.ticketTypes == UnitPriceOffers(offers).value
  {
    var tts :- UnitPriceOffers(offers);
    var tourNumber := TourNumberOf(event.additionalProperty);
    Ok(Performance(
      event.id, event.doorTime, event.startDate, event.endDate, event.duration,
      event.locationBranchCode, event.additionalProperty,
      Some(TttsExtension(if tourNumber.Some? then tourNumber.value else "", Normal, "", Normal, "", RefundNone, "", 0)),
      Some(TicketTypeGroup(event.offerCatalogId, tts, TicketTypeGroupName)),
      None, None, None))
  }

  /** An imported performance sells exactly the offers that carry one of the offer codes, in order. */
  lemma {:induction false} ImportedTicketTypes(event: ScreeningEvent, offers: seq<TicketOffer>)
    requires ImportPerformance(event, offers).Ok?
    ensures var tts := ImportPerformance(event, offers).value.ticketTypeGroup.value.ticketTypes;
      && (forall i :: 0 <= i < |tts| ==> tts[i].identifier in OfferCodes)
      && (forall j :: 0 <= j < |offers| && HasOfferCode(offers[j]) ==>
            exists i :: 0 <= i < |tts| && tts[i].id == offers[j].id)
  {
    var tts := UnitPriceOffers(offers).value;
    var kept := Filter(offers, HasOfferCode);
    forall i | 0 <= i < |tts|
      ensures tts[i].identifier in OfferCodes
    {
      UnitPriceOffersEntry(offers, i);
      assert HasOfferCode(kept[i]);
    }
    FilterMembers(offers, HasOfferCode);
    forall j | 0 <= j < |offers| && HasOfferCode(offers[j])
      ensures exists i :: 0 <= i < |tts| && tts[i].id == offers[j].id
    {
      assert offers[j] in kept;
      var i :| 0 <= i < |kept| && kept[i] == offers[j];
      UnitPriceOffersEntry(offers, i);
    }
  }

  // ---------------------------------------------------------------------------
  // Search results

  datatype TicketTypeEntry = TicketTypeEntry(
    name: MultilingualString,
    /** the offer code, not the offer id */
    id: string,
    charge: Option<real>,
    availableNum: Option<int>)

  /** The `attributes` kept for the point-of-sale clients. */
  datatype Attributes = Attributes(
    day: string,
    openTime: string,
    startTime: string,
    endTime: string,
    seatStatus: Option<int>,
    tourNumber: Option<string>,
    wheelchairAvailable: Option<int>,
    ticketTypes: seq<TicketTypeEntry>,
    onlineSalesStatus: ServiceStatus,
    refundedCount: Option<int>,
    refundStatus: Option<RefundStatus>,
    evServiceStatus: Option<ServiceStatus>)

  datatype PerformanceResult = PerformanceResult(
    performance: Performance,
    evServiceStatus: ServiceStatus,
    onlineSalesStatus: ServiceStatus,
    extension: Option<TttsExtension>,
    attributes: Attributes,
    tourNumber: Option<string>)

  /** Position `k` holds the first aggregation for the offer `id`. */
  predicate FirstAggregationAt(aggs: seq<OfferAggregation>, id: string, k: int) {
    0 <= k < |aggs| && aggs[k].id == id && forall j :: 0 <= j < k ==> aggs[j].id != id
  }

  /** The remaining capacity of an offer, looked up by the offer id. */
  function AvailableNum(offers: Option<seq<OfferAggregation>>, id: string): (n: Option<int>)
    ensures offers.None? ==> n.None?
    ensures offers.Some? ==>
      && ((forall j :: 0 <= j < |offers.value| ==> offers.value[j].id != id) ==> n.None?)
      && (forall k :: FirstAggregationAt(offers.value, id, k) ==> n == offers.value[k].remainingAttendeeCapacity)
  {
    if offers.None? then None
    else
      var aggs := offers.value;
      var found := Find(aggs, (o: OfferAggregation) => o.id == id);
      assert forall k :: FirstAggregationAt(aggs, id, k) ==> found == Some(aggs[k]) by {
        forall k | FirstAggregationAt(aggs, id, k) {
          FindFirst(aggs, (o: OfferAggregation) => o.id == id, k);
        }
      }
      if found.Some? then found.value.remainingAttendeeCapacity else None
  }

  function TicketTypeEntryOf(p: Performance, t: PerformanceTicketType): (e: TicketTypeEntry)
    ensures e.name == t.name && e.id == t.identifier
    ensures e.charge.Some? <==> t.priceSpecification.Some? && t.priceSpecification.value.price.Some?
    ensures e.charge.Some? ==> e.charge == t.priceSpecification.value.price
    ensures e.availableNum == AvailableNum(p.offers, t.id)
  {
    TicketTypeEntry(
      t.name, t.identifier,
      if t.priceSpecification.Some? then t.priceSpecification.value.price else None,
      AvailableNum(p.offers, t.id))
  }

  function TicketTypeEntries(p: Performance, tts: seq<PerformanceTicketType>): (es: seq<TicketTypeEntry>)
    ensures |es| == |tts|
    ensures forall i :: 0 <= i < |tts| ==> es[i] == TicketTypeEntryOf(p, tts[i])
  {
    if |tts| == 0 then [] else [TicketTypeEntryOf(p, tts[0])] + TicketTypeEntries(p, tts[1..])
  }

  /**
   * `performance2result`. `tokyo` converts an instant to the date and time
   * in Asia/Tokyo.
   */
  function PerformanceToResult(p: Performance, tokyo: Instant -> LocalDateTime): (r: PerformanceResult)
    ensures r.performance == p && r.extension == p.extension
    ensures r.tourNumber == TourNumberOf(p.additionalProperty) && r.attributes.tourNumber == r.tourNumber
    ensures p.extension.None? ==>
      && r.evServiceStatus == Normal && r.onlineSalesStatus == Normal
      && r.attributes.onlineSalesStatus == Normal
      && r.attributes.refundedCount.None? && r.attributes.refundStatus.None?
      && r.attributes.evServiceStatus.None?
    ensures p.extension.Some? ==>
      && r.evServiceStatus == p.extension.value.evServiceStatus
      && r.onlineSalesStatus == p.extension.value.onlineSalesStatus
      && r.attributes.onlineSalesStatus == p.extension.value.onlineSalesStatus
      && r.attributes.refundedCount == Some(p.extension.value.refundedCount)
      && r.attributes.refundStatus == Some(p.extension.value.refundStatus)
      && r.attributes.evServiceStatus == Some(p.extension.value.evServiceStatus)
    ensures r.attributes.day == FormatYYYYMMDD(tokyo(p.startDate).date)
    ensures r.attributes.openTime == FormatHHmm(tokyo(p.doorTime))
    ensures r.attributes.startTime == FormatHHmm(tokyo(p.startDate))
    ensures r.attributes.endTime == FormatHHmm(tokyo(p.endDate))
    ensures r.attributes.seatStatus == p.remainingAttendeeCapacity
    ensures r.attributes.wheelchairAvailable == p.remainingAttendeeCapacityForWheelchair
    ensures p.ticketTypeGroup.None? ==> r.attributes.ticketTypes == []
    ensures p.ticketTypeGroup.Some? ==>
      var tts := p.ticketTypeGroup.value.ticketTypes;
      && |r.attributes.ticketTypes| == |tts|
      && forall i :: 0 <= i < |tts| ==> r.attributes.ticketTypes[i] == TicketTypeEntryOf(p, tts[i])
  {
    var tts := if p.ticketTypeGroup.Some? then p.ticketTypeGroup.value.ticketTypes else [];
    var tourNumber := TourNumberOf(p.additionalProperty);
    var ext := p.extension;
    var attributes := Attributes(
      FormatYYYYMMDD(tokyo(p.startDate).date),
      FormatHHmm(tokyo(p.doorTime)),
      FormatHHmm(tokyo(p.startDate)),
      FormatHHmm(tokyo(p.endDate)),
      p.remainingAttendeeCapacity,
      tourNumber,
      p.remainingAttendeeCapacityForWheelchair,
      TicketTypeEntries(p, tts),
      if ext.Some? then ext.value.onlineSalesStatus else Normal,
      if ext.Some? then Some(ext.value.refundedCount) else None,
      if ext.Some? then Some(ext.value.refundStatus) else None,
      if ext.Some? then Some(ext.value.evServiceStatus) else None);
    PerformanceResult(
      p,
      if ext.Some? then ext.value.evServiceStatus else Normal,
      if ext.Some? then ext.value.onlineSalesStatus else Normal,
      ext,
      attributes,
      tourNumber)
  }

  /** Two results show the same day exactly when the performances start on the same Tokyo date. */
  lemma {:induction false} ResultDayIdentifiesDate(p: Performance, q: Performance, tokyo: Instant -> LocalDateTime)
    ensures PerformanceToResult(p, tokyo).attributes.day == PerformanceToResult(q, tokyo).attributes.day
      <==> tokyo(p.startDate).date == tokyo(q.startDate).date
  {
    FormatYYYYMMDDInjective(tokyo(p.startDate).date, tokyo(q.startDate).date);
  }

  /**
   * The search result of a freshly imported performance lists one entry per
   * offer with an offer code, identified by that code and charging the
   * offer's first unit price.
   */
  lemma {:induction false} ImportedResultEntries(event: ScreeningEvent, offers: seq<TicketOffer>, tokyo: Instant -> LocalDateTime, i: nat, k: nat)
    requires ImportPerformance(event, offers).Ok?
    requires i < |Filter(offers, HasOfferCode)|
    requires Filter(offers, HasOfferCode)[i].priceSpecification.priceComponent.Some?
    requires FirstUnitAt(Filter(offers, HasOfferCode)[i].priceSpecification.priceComponent.value, k)
    ensures var es := PerformanceToResult(ImportPerformance(event, offers).value, tokyo).attributes.ticketTypes;
      var o := Filter(offers, HasOfferCode)[i];
      && |es| == |Filter(offers, HasOfferCode)|
      && es[i].id == o.identifier && es[i].id in OfferCodes
      && es[i].charge == o.priceSpecification.priceComponent.value[k].price
      && es[i].availableNum.None?
  {
    var p := ImportPerformance(event, offers).value;
    var tts := p.ticketTypeGroup.value.ticketTypes;
    UnitPriceOffersEntry(offers, i);
  }

  // ---------------------------------------------------------------------------
  // Returned orders

  const SellerReason := "Seller"
  const CustomerReason := "Customer"

  /** The return reason; `Customer` unless the returner names one. */
  function ReturnReason(order: Order): string
  {
    ReturnerValue(order, "reason").GetOr(CustomerReason)
  }

  /** A return for the seller's reasons without a fee is passed on to the performance. */
  predicate CountsAsSellerRefund(order: Order) {
    ReturnReason(order) == SellerReason && CancellationFeeOf(order) == Some(0)
  }

  /**
   * The reason and the fee are read as the first entries with those names,
   * and a fee entry that is not a number prevents the count.
   */
  lemma {:induction false} SellerRefundEntries(order: Order, r: nat, f: nat)
    requires order.returner.Some? && order.returner.value.identifier.Some?
    requires FirstNamed(order.returner.value.identifier.value, "reason", r)
    requires FirstNamed(order.returner.value.identifier.value, "cancellationFee", f)
    ensures var ids := order.returner.value.identifier.value;
      CountsAsSellerRefund(order) <==> ids[r].value == SellerReason && StringToNumber(ids[f].value) == Some(0)
  {
    FindValueFirst(order.returner.value.identifier.value, "reason", r);
    FindValueFirst(order.returner.value.identifier.value, "cancellationFee", f);
  }

  /**
   * What `onOrderReturned` does before the update: `Ok(Some(id))` when the
   * counters of performance `id` move, `Ok(None)` when the return does not
   * count, and a `TypeError` when the order has no offer or the first offer
   * is not for an event but the return counts.
   */
  function ReturnedEvent(order: Order): (r: Result<Option<string>>)
    ensures r.Err? <==>
      |order.acceptedOffers| == 0
      || (CountsAsSellerRefund(order) && !order.acceptedOffers[0].itemOffered.EventReservation?)
    ensures r.Err? ==> r.error == TypeError
    ensures r.Ok? ==> (r.value.Some? <==> CountsAsSellerRefund(order))
    ensures r.Ok? && r.value.Some? ==>
      r.value.value == order.acceptedOffers[0].itemOffered.reservation.reservationFor.id
  {
    if |order.acceptedOffers| == 0 then Err(TypeError)
    else
      var item := order.acceptedOffers[0].itemOffered;
      if !CountsAsSellerRefund(order) then Ok(None)
      else if item.EventReservation? then Ok(Some(item.reservation.reservationFor.id))
      else Err(TypeError)
  }

  /**
   * The refund fields of one stored performance's `ttts_extension`. An
   * `unrefunded_count` that was never set reads as 0, which is what `$inc`
   * makes of it.
   */
  class RefundCounters {
    const performanceId: string
    var refundedCount: int
    var unrefundedCount: int
    var refundStatus: RefundStatus
    var refundUpdateAt: Option<Instant>

    /** The counters of a freshly imported performance. */
    constructor(performanceId: string)
      ensures this.performanceId == performanceId
      ensures refundedCount == 0 && unrefundedCount == 0
      ensures refundStatus == RefundNone && refundUpdateAt.None?
    {
      this.performanceId := performanceId;
      refundedCount := 0;
      unrefundedCount := 0;
      refundStatus := RefundNone;
      refundUpdateAt := None;
    }

    /** A refund of `count` reservations is instructed: nothing is refunded yet. */
    method InstructRefunds(count: nat, now: Instant)
      modifies this
      ensures refundedCount == 0 && unrefundedCount == count
      ensures refundStatus == Instructed && refundUpdateAt == Some(now)
    {
      refundedCount := 0;
      unrefundedCount := count;
      refundStatus := Instructed;
      refundUpdateAt := Some(now);
    }

    /**
     * One reservation is refunded: the two counts trade one, and the refund
     * is complete once none is left unrefunded. `now` and `later` are the
     * two clock readings of the two updates.
     */
    method RecordReturn(now: Instant, later: Instant)
      modifies this
      ensures refundedCount == old(refundedCount) + 1
      ensures unrefundedCount == old(unrefundedCount) - 1
      ensures refundedCount + unrefundedCount == old(refundedCount + unrefundedCount)
      ensures refundStatus == (if unrefundedCount == 0 then Compeleted else old(refundStatus))
      ensures refundUpdateAt == Some(if unrefundedCount == 0 then later else now)
    {
      refundedCount := refundedCount + 1;
      unrefundedCount := unrefundedCount - 1;
      refundUpdateAt := Some(now);
      if unrefundedCount == 0 {
        refundStatus := Compeleted;
        refundUpdateAt := Some(later);
      }
    }
  }

  /**
   * `onOrderReturned` as seen by the counters of one performance: they move
   * only when the return counts and is for that performance.
   */
  method OnOrderReturned(order: Order, counters: RefundCounters, now: Instant, later: Instant)
    returns (r: Result<Option<string>>)
    modifies counters
    ensures r == ReturnedEvent(order)
    ensures r == Ok(Some(counters.performanceId)) ==>
      && counters.refundedCount == old(counters.refundedCount) + 1
      && counters.unrefundedCount == old(counters.unrefundedCount) - 1
      && counters.refundStatus == (if counters.unrefundedCount == 0 then Compeleted else old(counters.refundStatus))
      && counters.refundUpdateAt == Some(if counters.unrefundedCount == 0 then later else now)
    ensures r != Ok(Some(counters.performanceId)) ==>
      && counters.refundedCount == old(counters.refundedCount)
      && counters.unrefundedCount == old(counters.unrefundedCount)
      && counters.refundStatus == old(counters.refundStatus)
      && counters.refundUpdateAt == old(counters.refundUpdateAt)
  {
    r := ReturnedEvent(order);
    if r == Ok(Some(counters.performanceId)) {
      counters.RecordReturn(now, later);
    }
  }
}
