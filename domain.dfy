/**
 * The records the services pass between each other: property lists, Tokyo
 * calendar dates, event reservations and orders. Each service module reads
 * the parts of these it needs; fields the core only copies through are left
 * out.
 *
 * Instants are milliseconds since the epoch. Conversions to Tokyo local time
 * happen outside this model: a date or clock time that a service formats is
 * given already converted.
 */
module Domain {
  import opened Base
  import opened Text

  // ---------------------------------------------------------------------------
  // Generic sequence helpers

  /** `s.filter(p)`. */
  function Filter<T>(s: seq<T>, p: T -> bool): (r: seq<T>)
    ensures |r| <= |s|
    ensures forall i :: 0 <= i < |r| ==> p(r[i])
  {
    if |s| == 0 then [] else (if p(s[0]) then [s[0]] else []) + Filter(s[1..], p)
  }

  /** Filtering keeps exactly the elements that pass. */
  lemma {:induction false} FilterMembers<T>(s: seq<T>, p: T -> bool)
    ensures forall i :: 0 <= i < |Filter(s, p)| ==> Filter(s, p)[i] in s
    ensures forall i :: 0 <= i < |s| && p(s[i]) ==> s[i] in Filter(s, p)
  {
    if |s| > 0 {
      FilterMembers(s[1..], p);
      assert forall i :: 1 <= i < |s| ==> s[i] == s[1..][i - 1];
    }
  }

  lemma {:induction false} FilterConcat<T>(a: seq<T>, b: seq<T>, p: T -> bool)
    ensures Filter(a + b, p) == Filter(a, p) + Filter(b, p)
  {
    if |a| > 0 {
      assert (a + b)[1..] == a[1..] + b;
      FilterConcat(a[1..], b, p);
      assert (a + b)[0] == a[0];
    } else {
      assert a + b == b;
    }
  }

  lemma {:induction false} FilterSnoc<T>(s: seq<T>, x: T, p: T -> bool)
    ensures Filter(s + [x], p) == Filter(s, p) + (if p(x) then [x] else [])
  {
    FilterConcat(s, [x], p);
    assert Filter([x], p) == (if p(x) then [x] else []) by {
      assert [x][1..] == [];
    }
  }

  /** Filtering twice by the same test changes nothing. */
  lemma {:induction false} FilterIdempotent<T>(s: seq<T>, p: T -> bool)
    ensures Filter(Filter(s, p), p) == Filter(s, p)
  {
    if |s| > 0 {
      FilterIdempotent(s[1..], p);
      if p(s[0]) {
        var f := Filter(s, p);
        assert f == [s[0]] + Filter(s[1..], p);
        assert f[1..] == Filter(s[1..], p);
      } else {
        assert Filter(s, p) == Filter(s[1..], p);
      }
    }
  }

  /** Filtering keeps as many copies of each value as passed the test. */
  lemma {:induction false} FilterCount<T>(s: seq<T>, p: T -> bool, x: T)
    ensures multiset(Filter(s, p))[x] == if p(x) then multiset(s)[x] else 0
  {
    if |s| > 0 {
      FilterCount(s[1..], p, x);
      assert s == [s[0]] + s[1..];
      assert multiset(s) == multiset([s[0]]) + multiset(s[1..]);
    }
  }

  /** Taking out one element before filtering takes out at most that element after. */
  lemma {:induction false} FilterDropAt<T>(b: seq<T>, j: nat, p: T -> bool)
    requires j < |b|
    ensures multiset(Filter(b, p))
         == multiset(Filter(b[..j] + b[j + 1..], p)) + (if p(b[j]) then multiset{b[j]} else multiset{})
  {
    var b1, b2 := b[..j], b[j + 1..];
    assert b == b1 + ([b[j]] + b2);
    FilterConcat(b1, [b[j]] + b2, p);
    FilterConcat([b[j]], b2, p);
    FilterConcat(b1, b2, p);
    var f1, fx, f2 := Filter(b1, p), Filter([b[j]], p), Filter(b2, p);
    assert Filter(b, p) == f1 + (fx + f2);
    assert multiset(Filter(b, p)) == multiset(f1) + multiset(fx) + multiset(f2);
    assert multiset(Filter(b1 + b2, p)) == multiset(f1) + multiset(f2);
    assert fx == if p(b[j]) then [b[j]] else [];
  }

  /** Taking out one element of a sequence takes one copy out of its multiset. */
  lemma {:induction false} MultisetDropAt<T>(b: seq<T>, j: nat)
    requires j < |b|
    ensures multiset(b[..j] + b[j + 1..]) == multiset(b) - multiset{b[j]}
  {
    assert b == b[..j] + [b[j]] + b[j + 1..];
  }

  /** Filtering a reordering gives a reordering of the filtered sequence. */
  lemma {:induction false} FilterPermutation<T>(a: seq<T>, b: seq<T>, p: T -> bool)
    requires multiset(a) == multiset(b)
    ensures multiset(Filter(a, p)) == multiset(Filter(b, p))
    decreases |a|
  {
    if |a| == 0 {
      assert |multiset(b)| == 0;
      assert b == [];
    } else {
      var x := a[0];
      assert x in multiset(b);
      var j :| 0 <= j < |b| && b[j] == x;
      assert a == [x] + a[1..];
      assert multiset(a[1..]) == multiset(a) - multiset{x};
      MultisetDropAt(b, j);
      FilterDropAt(b, j, p);
      FilterPermutation(a[1..], b[..j] + b[j + 1..], p);
      assert Filter(a, p) == (if p(x) then [x] else []) + Filter(a[1..], p);
    }
  }

  /** `s.find(p)`: the first element that passes. */
  function Find<T>(s: seq<T>, p: T -> bool): (r: Option<T>)
    ensures r.Some? <==> exists i :: 0 <= i < |s| && p(s[i])
    ensures r.Some? ==> r.value in s && p(r.value)
    ensures r.Some? && |s| > 0 && p(s[0]) ==> r.value == s[0]
  {
    if |s| == 0 then None
    else if p(s[0]) then Some(s[0])
    else
      var r := Find(s[1..], p);
      assert forall i :: 1 <= i < |s| ==> s[i] == s[1..][i - 1];
      r
  }

  /** `find` returns the element at the first position that passes. */
  lemma {:induction false} FindFirst<T>(s: seq<T>, p: T -> bool, i: nat)
    requires i < |s| && p(s[i])
    requires forall j :: 0 <= j < i ==> !p(s[j])
    ensures Find(s, p) == Some(s[i])
  {
    if i > 0 {
      assert !p(s[0]);
      assert forall j :: 0 <= j < i - 1 ==> s[1..][j] == s[j + 1];
      FindFirst(s[1..], p, i - 1);
    }
  }

  lemma {:induction false} FindIsFirstOfFilter<T>(s: seq<T>, p: T -> bool)
    ensures Find(s, p) == if |Filter(s, p)| == 0 then None else Some(Filter(s, p)[0])
  {
    if |s| > 0 && !p(s[0]) {
      FindIsFirstOfFilter(s[1..], p);
    }
  }

  // ---------------------------------------------------------------------------
  // Property lists

  /** A `{ name, value }` entry of an identifier or additional-property list. */
  datatype PropertyValue = PropertyValue(name: string, value: string)

  /** `props.find((p) => p.name === name)?.value`. */
  function FindValue(props: seq<PropertyValue>, name: string): (r: Option<string>)
    ensures r.Some? <==> exists i :: 0 <= i < |props| && props[i].name == name
    ensures |props| > 0 && props[0].name == name ==> r == Some(props[0].value)
  {
    if |props| == 0 then None
    else if props[0].name == name then Some(props[0].value)
    else
      var r := FindValue(props[1..], name);
      assert forall i :: 1 <= i < |props| ==> props[i] == props[1..][i - 1];
      r
  }

  /** Position `i` holds the first entry named `name`. */
  predicate FirstNamed(props: seq<PropertyValue>, name: string, i: int) {
    0 <= i < |props| && props[i].name == name && forall j :: 0 <= j < i ==> props[j].name != name
  }

  /** The value found is that of the first entry with the name. */
  lemma {:induction false} FindValueFirst(props: seq<PropertyValue>, name: string, i: nat)
    requires FirstNamed(props, name, i)
    ensures FindValue(props, name) == Some(props[i].value)
  {
    if i > 0 {
      assert forall j :: 0 <= j < i - 1 ==> props[1..][j] == props[j + 1];
      FindValueFirst(props[1..], name, i - 1);
    }
  }

  /** `Array.isArray(props) ? props.find(...)?.value : undefined` with `props` possibly absent. */
  function FindValueIn(props: Option<seq<PropertyValue>>, name: string): Option<string>
  {
    if props.Some? then FindValue(props.value, name) else None
  }

  /** The value of the first entry named `name` is found even behind entries with other names. */
  lemma {:induction false} FindValueSkips(front: seq<PropertyValue>, back: seq<PropertyValue>, name: string)
    requires forall i :: 0 <= i < |front| ==> front[i].name != name
    ensures FindValue(front + back, name) == FindValue(back, name)
  {
    if |front| > 0 {
      assert (front + back)[1..] == front[1..] + back;
      FindValueSkips(front[1..], back, name);
      assert (front + back)[0] == front[0];
    } else {
      assert front + back == back;
    }
  }

  /** A possibly undefined string inside a template literal: undefined renders as "undefined". */
  function Interpolate(s: Option<string>): string
  {
    if s.Some? then s.value else "undefined"
  }

  // ---------------------------------------------------------------------------
  // Dates and times in Tokyo

  type Instant = int
  type Year = y: nat | y < 10000
  type Month = m: nat | 1 <= m <= 12 witness 1
  type DayOfMonth = d: nat | 1 <= d <= 31 witness 1
  type Hour = h: nat | h < 24
  type Minute = m: nat | m < 60

  /** A calendar date in the Asia/Tokyo time zone. */
  datatype CalendarDate = CalendarDate(year: Year, month: Month, day: DayOfMonth)

  /** A wall-clock time in the Asia/Tokyo time zone. */
  datatype LocalDateTime = LocalDateTime(date: CalendarDate, hour: Hour, minute: Minute)

  /** moment's `format('YYMMDD')`. */
  function FormatYYMMDD(d: CalendarDate): (s: string)
    ensures |s| == 6 && AllDigits(s)
  {
    FixedDigits(d.year % 100, 2) + FixedDigits(d.month, 2) + FixedDigits(d.day, 2)
  }

  /** moment's `format('YYYYMMDD')`. */
  function FormatYYYYMMDD(d: CalendarDate): (s: string)
    ensures |s| == 8 && AllDigits(s)
  {
    FixedDigits(d.year, 4) + FixedDigits(d.month, 2) + FixedDigits(d.day, 2)
  }

  /** moment's `format('HHmm')`. */
  function FormatHHmm(t: LocalDateTime): (s: string)
    ensures |s| == 4 && AllDigits(s)
  {
    FixedDigits(t.hour, 2) + FixedDigits(t.minute, 2)
  }

  /** moment's `unix()`: whole seconds, rounded down. */
  function UnixSeconds(t: Instant): int
  {
    t / 1000
  }

  lemma {:induction false} Pow10Small()
    ensures Pow10(2) == 100 && Pow10(4) == 10000
  {
  }

  /** Two dates share a `YYYYMMDD` key exactly when they are the same date. */
  lemma {:induction false} FormatYYYYMMDDInjective(d1: CalendarDate, d2: CalendarDate)
    ensures FormatYYYYMMDD(d1) == FormatYYYYMMDD(d2) <==> d1 == d2
  {
    if FormatYYYYMMDD(d1) == FormatYYYYMMDD(d2) {
      var s1, s2 := FormatYYYYMMDD(d1), FormatYYYYMMDD(d2);
      assert s1[..4] == FixedDigits(d1.year, 4) && s2[..4] == FixedDigits(d2.year, 4);
      assert s1[4..6] == FixedDigits(d1.month, 2) && s2[4..6] == FixedDigits(d2.month, 2);
      assert s1[6..] == FixedDigits(d1.day, 2) && s2[6..] == FixedDigits(d2.day, 2);
      Pow10Small();
      FixedDigitsInjective(d1.year, d2.year, 4);
      FixedDigitsInjective(d1.month, d2.month, 2);
      FixedDigitsInjective(d1.day, d2.day, 2);
    }
  }

  /** Two dates share a `YYMMDD` key exactly when they agree on month, day and year modulo 100. */
  lemma {:induction false} FormatYYMMDDEqual(d1: CalendarDate, d2: CalendarDate)
    ensures FormatYYMMDD(d1) == FormatYYMMDD(d2)
        <==> d1.year % 100 == d2.year % 100 && d1.month == d2.month && d1.day == d2.day
  {
    if FormatYYMMDD(d1) == FormatYYMMDD(d2) {
      var s1, s2 := FormatYYMMDD(d1), FormatYYMMDD(d2);
      assert s1[..2] == FixedDigits(d1.year % 100, 2) && s2[..2] == FixedDigits(d2.year % 100, 2);
      assert s1[2..4] == FixedDigits(d1.month, 2) && s2[2..4] == FixedDigits(d2.month, 2);
      assert s1[4..] == FixedDigits(d1.day, 2) && s2[4..] == FixedDigits(d2.day, 2);
      Pow10Small();
      FixedDigitsInjective(d1.year % 100, d2.year % 100, 2);
      FixedDigitsInjective(d1.month, d2.month, 2);
      FixedDigitsInjective(d1.day, d2.day, 2);
    }
  }

  // ---------------------------------------------------------------------------
  // Reservations

  datatype MultilingualString = MultilingualString(ja: string, en: string)

  /** The unit price a Chevre ticket type carries (whole yen). */
  datatype UnitPriceSpecification = UnitPriceSpecification(price: int)

  datatype TicketType = TicketType(
    id: string,
    name: MultilingualString,
    priceSpecification: Option<UnitPriceSpecification>,
    additionalProperty: Option<seq<PropertyValue>>)

  datatype Ticket = Ticket(
    ticketType: TicketType,
    /** `ticketedSeat?.seatNumber` when it is a string */
    seatNumber: Option<string>,
    ticketToken: Option<string>,
    issuedBy: string,
    underName: Option<UnderName>)

  /** The event a reservation is for. */
  datatype EventRef = EventRef(id: string, startDate: Instant)

  datatype UnderName = UnderName(
    id: string,
    name: string,
    familyName: Option<string>,
    givenName: Option<string>,
    email: Option<string>,
    telephone: Option<string>,
    gender: Option<string>,
    address: Option<string>,
    identifier: Option<seq<PropertyValue>>)

  datatype Reservation = Reservation(
    id: string,
    reservationStatus: string,
    reservationFor: EventRef,
    reservedTicket: Ticket,
    underName: Option<UnderName>,
    additionalProperty: seq<PropertyValue>,
    additionalTicketText: Option<string>,
    bookingTime: Option<Instant>,
    /** the number of entries in `checkins` */
    checkinCount: nat,
    /** the legacy top-level `transaction` field */
    legacyTransaction: Option<string>)

  /** What an accepted offer sells: an event reservation or some other item. */
  datatype ItemOffered =
    | EventReservation(reservation: Reservation)
    | OtherItem(typeOf: string, id: string)

  // ---------------------------------------------------------------------------
  // Orders

  /** A component of a compound price; `price` is `None` when it is not a number. */
  datatype PriceComponent = PriceComponent(typeOf: string, price: Option<real>)

  datatype PriceSpecification = PriceSpecification(typeOf: string, priceComponent: Option<seq<PriceComponent>>)

  const CompoundPriceSpecification := "CompoundPriceSpecification"
  const UnitPriceSpecificationType := "UnitPriceSpecification"

  predicate IsUnitPriceComponent(c: PriceComponent) {
    c.typeOf == UnitPriceSpecificationType
  }

  /** Position `i` holds the first unit-price component. */
  predicate FirstUnitAt(cs: seq<PriceComponent>, i: int) {
    0 <= i < |cs| && IsUnitPriceComponent(cs[i]) && forall j :: 0 <= j < i ==> !IsUnitPriceComponent(cs[j])
  }

  datatype AcceptedOffer = AcceptedOffer(
    itemOffered: ItemOffered,
    /** `offer.price`; `None` when undefined */
    price: Option<real>,
    priceSpecification: Option<PriceSpecification>,
    sellerName: string)

  datatype PaymentMethod = PaymentMethod(
    accountId: Option<string>,
    additionalProperty: seq<PropertyValue>,
    name: Option<string>,
    paymentMethodId: string,
    totalPaymentDue: Option<int>,
    typeOf: string)

  datatype Customer = Customer(
    id: string,
    typeOf: string,
    name: string,
    givenName: Option<string>,
    familyName: Option<string>,
    email: Option<string>,
    telephone: Option<string>,
    gender: Option<string>,
    age: Option<string>,
    address: Option<string>,
    identifier: Option<seq<PropertyValue>>,
    /** `memberOf.membershipNumber` */
    membershipNumber: Option<string>,
    url: string)

  datatype OrderSeller = OrderSeller(id: string, typeOf: string, name: string, url: string)

  datatype OrderStatus = OrderProcessing | OrderDelivered | OrderReturned | OtherOrderStatus(name: string)

  /** Who returned an order; `identifier` carries `reason` and `cancellationFee`. */
  datatype Returner = Returner(identifier: Option<seq<PropertyValue>>)

  datatype Order = Order(
    seller: OrderSeller,
    customer: Customer,
    acceptedOffers: seq<AcceptedOffer>,
    confirmationNumber: string,
    orderNumber: string,
    price: int,
    priceCurrency: string,
    paymentMethods: seq<PaymentMethod>,
    discounts: seq<string>,
    url: string,
    orderStatus: OrderStatus,
    orderDate: Instant,
    isGift: bool,
    dateReturned: Option<Instant>,
    returner: Option<Returner>)

  /** The value of the returner's identifier named `name`, if the returner and the entry exist. */
  function ReturnerValue(order: Order, name: string): Option<string>
  {
    if order.returner.Some? then FindValueIn(order.returner.value.identifier, name) else None
  }

  /**
   * The cancellation fee of a returned order: its returner's `cancellationFee`
   * read with `Number()`, 0 when absent, `None` when it reads as NaN.
   */
  function CancellationFeeOf(order: Order): (fee: Option<int>)
    ensures ReturnerValue(order, "cancellationFee").None? ==> fee == Some(0)
    ensures ReturnerValue(order, "cancellationFee").Some? ==> fee == StringToNumber(ReturnerValue(order, "cancellationFee").value)
  {
    var v := ReturnerValue(order, "cancellationFee");
    if v.None? then Some(0) else StringToNumber(v.value)
  }
}
