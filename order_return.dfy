/**
 * Returning every order of a performance for the seller's reasons: which
 * place-order transactions are returned, how the performance's refund
 * counters are reset, the refund parameters assembled for each returned
 * order, and the seller-reason email with its per-ticket-type summary.
 */
module OrderReturn {
  import opened Base
  import opened Text
  import opened Domain
  import PlaceOrder
  import PotentialActions
  import SalesReport
  import Performances

  // ---------------------------------------------------------------------------
  // Unit price

  /** `Number.isInteger` on a number that is known not to be NaN. */
  predicate IsInteger(x: real) {
    x == x.Floor as real
  }

  /** A price that is defined and an integer, in whole yen. */
  function WholeYen(p: Option<real>): (r: Option<int>)
    ensures r.Some? <==> p.Some? && IsInteger(p.value)
    ensures r.Some? ==> r.value as real == p.value
  {
    if p.Some? && IsInteger(p.value) then Some(p.value.Floor) else None
  }

  /**
   * `getUnitPriceByAcceptedOffer` of the order service: with a price
   * specification, the integral price of its first unit-price component,
   * whatever the specification's type, and `offer.price` is not consulted;
   * without one, `offer.price` when it is an integer. 0 otherwise.
   */
  function OrderUnitPrice(offer: AcceptedOffer): (price: int)
    ensures offer.priceSpecification.None? ==> price == WholeYen(offer.price).GetOr(0)
    ensures offer.priceSpecification.Some? && offer.priceSpecification.value.priceComponent.None? ==> price == 0
    ensures offer.priceSpecification.Some? && offer.priceSpecification.value.priceComponent.Some? ==>
      var cs := offer.priceSpecification.value.priceComponent.value;
      && ((forall j :: 0 <= j < |cs| ==> !IsUnitPriceComponent(cs[j])) ==> price == 0)
      && (forall k :: FirstUnitAt(cs, k) ==> price == WholeYen(cs[k].price).GetOr(0))
  {
    if offer.priceSpecification.Some? then
      var spec := offer.priceSpecification.value;
      if spec.priceComponent.Some? then
        var cs := spec.priceComponent.value;
        var unit := Find(cs, IsUnitPriceComponent);
        assert forall k :: FirstUnitAt(cs, k) ==> unit == Some(cs[k]) by {
          forall k | FirstUnitAt(cs, k) {
            FindFirst(cs, IsUnitPriceComponent, k);
          }
        }
        if unit.Some? then WholeYen(unit.value.price).GetOr(0) else 0
      else 0
    else WholeYen(offer.price).GetOr(0)
  }

  /**
   * For a compound specification whose first unit price is a whole number,
   * the order service and the sales report agree on the unit price.
   */
  lemma {:induction false} UnitPriceMatchesReport(offer: AcceptedOffer, k: nat)
    requires SalesReport.HasComponents(offer)
    requires FirstUnitAt(offer.priceSpecification.value.priceComponent.value, k)
    requires WholeYen(offer.priceSpecification.value.priceComponent.value[k].price).Some?
    ensures OrderUnitPrice(offer) as real == SalesReport.UnitPriceOf(offer)
  {
  }

  // ---------------------------------------------------------------------------
  // Which transactions are returned

  /**
   * The place-order transaction a reservation belongs to: the underName
   * identifier named `transaction`, else the legacy `transaction` field.
   */
  function TransactionIdOf(r: Reservation): (id: Option<string>)
    ensures r.underName.Some? && FindValueIn(r.underName.value.identifier, "transaction").Some? ==>
      id == FindValueIn(r.underName.value.identifier, "transaction")
    ensures r.underName.None? || FindValueIn(r.underName.value.identifier, "transaction").None? ==>
      id == r.legacyTransaction
  {
    var named := if r.underName.Some? then FindValueIn(r.underName.value.identifier, "transaction") else None;
    if named.Some? then named else r.legacyTransaction
  }

  /** A reservation confirmed by a place-order transaction names that transaction. */
  lemma {:induction false} ConfirmedReservationTransaction(tmp: PlaceOrder.TmpReservation, chevre: Reservation, ctx: PlaceOrder.ConfirmContext, index: nat)
    ensures TransactionIdOf(PlaceOrder.ConfirmReservation(tmp, chevre, ctx, index)) == Some(ctx.tx.id)
  {
    PlaceOrder.ConfirmedReservationNamesTransaction(tmp, chevre, ctx, index);
  }

  /** The reservations searched: none at all when no client id is given. */
  function SearchedReservations(clientIds: seq<string>, found: seq<Reservation>): seq<Reservation>
  {
    if |clientIds| > 0 then found else []
  }

  /** The transaction ids of the reservations, in order. */
  function TransactionIds(rs: seq<Reservation>): (ids: seq<Option<string>>)
    ensures |ids| == |rs|
    ensures forall i :: 0 <= i < |rs| ==> ids[i] == TransactionIdOf(rs[i])
  {
    if |rs| == 0 then [] else [TransactionIdOf(rs[0])] + TransactionIds(rs[1..])
  }

  predicate HasCheckins(r: Reservation) {
    r.checkinCount > 0
  }

  /** The transaction ids of the reservations with at least one check-in. */
  function CheckedInTransactionIds(rs: seq<Reservation>): seq<Option<string>>
  {
    TransactionIds(Filter(rs, HasCheckins))
  }

  /** lodash `difference`: the elements of `a` not in `b`, in order, duplicates kept. */
  function Difference<T(==,!new)>(a: seq<T>, b: seq<T>): (r: seq<T>)
    ensures forall x :: x in r <==> x in a && x !in b
  {
    if |a| == 0 then []
    else
      var rest := Difference(a[1..], b);
      assert forall x :: x in a <==> x == a[0] || x in a[1..];
      (if a[0] in b then [] else [a[0]]) + rest
  }

  function NotIn<T(==)>(b: seq<T>): T -> bool {
    (x: T) => x !in b
  }

  /** `difference` keeps the order of `a`: it is `a` filtered by non-membership in `b`. */
  lemma {:induction false} DifferenceInOrder<T(!new)>(a: seq<T>, b: seq<T>)
    ensures Difference(a, b) == Filter(a, NotIn(b))
  {
    if |a| > 0 {
      DifferenceInOrder(a[1..], b);
    }
  }

  predicate Distinct<T(==,!new)>(s: seq<T>) {
    forall i, j :: 0 <= i < j < |s| ==> s[i] != s[j]
  }

  /** lodash `uniq`: the first occurrence of each element, in order. */
  function Uniq<T(==,!new)>(s: seq<T>): (r: seq<T>)
    ensures forall x :: x in r <==> x in s
    ensures Distinct(r)
    decreases |s|
  {
    if |s| == 0 then []
    else
      var front := s[..|s| - 1];
      var last := s[|s| - 1];
      assert s == front + [last];
      var u := Uniq(front);
      if last in u then u else u + [last]
  }

  /** `uniq` leaves a list without duplicates as it is. */
  lemma {:induction false} UniqOfDistinct<T(!new)>(s: seq<T>)
    requires Distinct(s)
    ensures Uniq(s) == s
    decreases |s|
  {
    if |s| > 0 {
      var front := s[..|s| - 1];
      assert Distinct(front);
      UniqOfDistinct(front);
      assert s[|s| - 1] !in front;
      assert s == front + [s[|s| - 1]];
    }
  }

  /** `uniq(difference(transactionIds, transactionsIdsWithCheckins))`. */
  function SelectedTransactionIds(rs: seq<Reservation>): seq<Option<string>>
  {
    Uniq(Difference(TransactionIds(rs), CheckedInTransactionIds(rs)))
  }

  /** Some reservation belongs to transaction `id`. */
  predicate SomeReservationOf(rs: seq<Reservation>, id: Option<string>) {
    exists i :: 0 <= i < |rs| && TransactionIdOf(rs[i]) == id
  }

  /** No reservation with a check-in belongs to transaction `id`. */
  predicate NoCheckinOf(rs: seq<Reservation>, id: Option<string>) {
    forall i :: 0 <= i < |rs| && HasCheckins(rs[i]) ==> TransactionIdOf(rs[i]) != id
  }

  /** The checked-in ids are the transactions with a checked-in reservation. */
  lemma {:induction false} CheckedInTransactionIdsSpec(rs: seq<Reservation>)
    ensures forall id :: id in CheckedInTransactionIds(rs) <==> !NoCheckinOf(rs, id)
  {
    var checked := Filter(rs, HasCheckins);
    FilterMembers(rs, HasCheckins);
    forall id
      ensures id in CheckedInTransactionIds(rs) <==> !NoCheckinOf(rs, id)
    {
      if id in CheckedInTransactionIds(rs) {
        var j :| 0 <= j < |checked| && TransactionIds(checked)[j] == id;
        var i :| 0 <= i < |rs| && rs[i] == checked[j];
        assert HasCheckins(rs[i]) && TransactionIdOf(rs[i]) == id;
      }
      if !NoCheckinOf(rs, id) {
        var i :| 0 <= i < |rs| && HasCheckins(rs[i]) && TransactionIdOf(rs[i]) == id;
        var j :| 0 <= j < |checked| && checked[j] == rs[i];
        assert TransactionIds(checked)[j] == id;
      }
    }
  }

  /** The listed ids are the transactions of the reservations. */
  lemma {:induction false} TransactionIdsSpec(rs: seq<Reservation>)
    ensures forall id :: id in TransactionIds(rs) <==> SomeReservationOf(rs, id)
  {
    forall id
      ensures id in TransactionIds(rs) <==> SomeReservationOf(rs, id)
    {
      if id in TransactionIds(rs) {
        var i :| 0 <= i < |rs| && TransactionIds(rs)[i] == id;
        assert TransactionIdOf(rs[i]) == id;
      }
      if SomeReservationOf(rs, id) {
        var i :| 0 <= i < |rs| && TransactionIdOf(rs[i]) == id;
        assert TransactionIds(rs)[i] == id;
      }
    }
  }

  /**
   * The selected transactions are listed once each, and they are exactly the
   * transactions of the reservations none of whose reservations has been
   * checked in.
   */
  lemma {:induction false} SelectedTransactionIdsSpec(rs: seq<Reservation>)
    ensures Distinct(SelectedTransactionIds(rs))
    ensures forall id :: id in SelectedTransactionIds(rs) <==> SomeReservationOf(rs, id) && NoCheckinOf(rs, id)
  {
    CheckedInTransactionIdsSpec(rs);
    TransactionIdsSpec(rs);
  }

  /**
   * The start of `processReturnAllByPerformance`: select the transactions
   * and, on performance `performanceId`, reset the refund counters to
   * nothing refunded out of as many as are selected.
   */
  method StartReturnAll(performanceId: string, clientIds: seq<string>, found: seq<Reservation>,
                        counters: Performances.RefundCounters, now: Instant)
    returns (ids: seq<Option<string>>)
    modifies counters
    ensures ids == SelectedTransactionIds(SearchedReservations(clientIds, found))
    ensures |clientIds| == 0 ==> ids == []
    ensures counters.performanceId == performanceId ==>
      && counters.refundedCount == 0
      && counters.unrefundedCount == |ids|
      && counters.refundStatus == Performances.Instructed
      && counters.refundUpdateAt == Some(now)
    ensures counters.performanceId != performanceId ==>
      && counters.refundedCount == old(counters.refundedCount)
      && counters.unrefundedCount == old(counters.unrefundedCount)
      && counters.refundStatus == old(counters.refundStatus)
      && counters.refundUpdateAt == old(counters.refundUpdateAt)
  {
    ids := SelectedTransactionIds(SearchedReservations(clientIds, found));
    if counters.performanceId == performanceId {
      counters.InstructRefunds(|ids|, now);
    }
  }

  // ---------------------------------------------------------------------------
  // Tickets per ticket type, for the seller-reason email

  datatype TicketInfo = TicketInfo(name: MultilingualString, charge: string, count: nat)

  /** `ticketInfos`, with its keys in the insertion order that `Object.keys` follows. */
  datatype TicketTable = TicketTable(keys: seq<string>, infos: map<string, TicketInfo>)

  predicate AllReservations(offers: seq<AcceptedOffer>) {
    forall i :: 0 <= i < |offers| ==> offers[i].itemOffered.EventReservation?
  }

  function TicketTypeOf(o: AcceptedOffer): TicketType
    requires o.itemOffered.EventReservation?
  {
    o.itemOffered.reservation.reservedTicket.ticketType
  }

  /** The ticket type ids of the offers, in order. */
  function TicketTypeIds(offers: seq<AcceptedOffer>): (ids: seq<string>)
    requires AllReservations(offers)
    ensures |ids| == |offers|
    ensures forall i :: 0 <= i < |offers| ==> ids[i] == TicketTypeOf(offers[i]).id
  {
    seq(|offers|, i requires 0 <= i < |offers| => TicketTypeOf(offers[i]).id)
  }

  /** The charge shown for a unit price; `formatNumber` is numeral's `'0,0'` format. */
  function ChargeText(price: int, formatNumber: int -> string): string
  {
    "\\" + formatNumber(price)
  }

  /** One pass of the `forEach`: a type seen for the first time enters with count 0, then the offer is counted. */
  function CountOffer(t: TicketTable, o: AcceptedOffer, formatNumber: int -> string): TicketTable
    requires o.itemOffered.EventReservation?
  {
    var tt := TicketTypeOf(o);
    var seen :=
      if tt.id in t.infos then t
      else TicketTable(t.keys + [tt.id], t.infos[tt.id := TicketInfo(tt.name, ChargeText(OrderUnitPrice(o), formatNumber), 0)]);
    seen.(infos := seen.infos[tt.id := seen.infos[tt.id].(count := seen.infos[tt.id].count + 1)])
  }

  /** The table after counting every offer, in order. */
  function TicketTableOf(offers: seq<AcceptedOffer>, formatNumber: int -> string): (t: TicketTable)
    requires AllReservations(offers)
    ensures forall k :: k in t.keys <==> k in t.infos
    decreases |offers|
  {
    if |offers| == 0 then TicketTable([], map[])
    else
      var n := |offers| - 1;
      assert forall i :: 0 <= i < n ==> offers[..n][i] == offers[i];
      CountOffer(TicketTableOf(offers[..n], formatNumber), offers[n], formatNumber)
  }

  /** The `forEach` over the accepted offers that fills `ticketInfos`. */
  method CountTickets(offers: seq<AcceptedOffer>, formatNumber: int -> string) returns (r: Result<TicketTable>)
    ensures r.Err? <==> !AllReservations(offers)
    ensures r.Err? ==> r.error == TypeError
    ensures r.Ok? ==> AllReservations(offers) && r.value == TicketTableOf(offers, formatNumber)
  {
    var keys: seq<string> := [];
    var infos: map<string, TicketInfo> := map[];
    var i := 0;
    assert offers[..0] == [];
    while i < |offers|
      invariant 0 <= i <= |offers|
      invariant AllReservations(offers[..i])
      invariant TicketTable(keys, infos) == TicketTableOf(offers[..i], formatNumber)
    {
      if !offers[i].itemOffered.EventReservation? {
        return Err(TypeError);
      }
      TicketTableStep(offers, i, formatNumber);
      keys, infos := CountTicket(keys, infos, offers[i], formatNumber);
      i := i + 1;
    }
    assert offers[..i] == offers;
    r := Ok(TicketTable(keys, infos));
  }

  /** The body of the `forEach`: the offer's type enters the table when new, then its count goes up by one. */
  method CountTicket(keys: seq<string>, infos: map<string, TicketInfo>, o: AcceptedOffer, formatNumber: int -> string)
    returns (keys': seq<string>, infos': map<string, TicketInfo>)
    requires o.itemOffered.EventReservation?
    ensures TicketTable(keys', infos') == CountOffer(TicketTable(keys, infos), o, formatNumber)
  {
    var ticketType := o.itemOffered.reservation.reservedTicket.ticketType;
    var unitPrice := OrderUnitPrice(o);
    keys', infos' := keys, infos;
    if ticketType.id !in infos' {
      keys' := keys' + [ticketType.id];
      infos' := infos'[ticketType.id := TicketInfo(ticketType.name, ChargeText(unitPrice, formatNumber), 0)];
    }
    infos' := infos'[ticketType.id := infos'[ticketType.id].(count := infos'[ticketType.id].count + 1)];
  }

  lemma {:induction false} TicketTableStep(offers: seq<AcceptedOffer>, i: nat, formatNumber: int -> string)
    requires i < |offers| && AllReservations(offers[..i]) && offers[i].itemOffered.EventReservation?
    ensures AllReservations(offers[..i + 1])
    ensures TicketTableOf(offers[..i + 1], formatNumber) == CountOffer(TicketTableOf(offers[..i], formatNumber), offers[i], formatNumber)
  {
    assert offers[..i + 1] == offers[..i] + [offers[i]];
    assert offers[..i + 1][..i] == offers[..i];
  }

  /** The keys are the distinct ticket type ids, in the order of their first offers. */
  lemma {:induction false} TicketTableKeys(offers: seq<AcceptedOffer>, formatNumber: int -> string)
    requires AllReservations(offers)
    ensures TicketTableOf(offers, formatNumber).keys == Uniq(TicketTypeIds(offers))
    decreases |offers|
  {
    if |offers| > 0 {
      var n := |offers| - 1;
      var front := offers[..n];
      assert AllReservations(front);
      TicketTableKeys(front, formatNumber);
      var ids := TicketTypeIds(offers);
      assert ids[..n] == TicketTypeIds(front);
    }
  }

  /** Position `i` holds the first offer of ticket type `id`. */
  predicate FirstOfTypeAt(offers: seq<AcceptedOffer>, id: string, i: int)
    requires AllReservations(offers)
  {
    0 <= i < |offers| && TicketTypeOf(offers[i]).id == id && forall j :: 0 <= j < i ==> TicketTypeOf(offers[j]).id != id
  }

  /** Each type's count is the number of offers of that type. */
  lemma {:induction false} TicketTableCounts(offers: seq<AcceptedOffer>, formatNumber: int -> string)
    requires AllReservations(offers)
    ensures forall k :: k in TicketTableOf(offers, formatNumber).infos ==>
      TicketTableOf(offers, formatNumber).infos[k].count == multiset(TicketTypeIds(offers))[k]
    decreases |offers|
  {
    if |offers| > 0 {
      var n := |offers| - 1;
      var front := offers[..n];
      assert AllReservations(front);
      TicketTableCounts(front, formatNumber);
      TicketTableKeys(front, formatNumber);
      var ids := TicketTypeIds(offers);
      assert ids == TicketTypeIds(front) + [ids[n]];
      assert multiset(ids) == multiset(TicketTypeIds(front)) + multiset{ids[n]};
      var t := TicketTableOf(front, formatNumber);
      assert TicketTableOf(offers, formatNumber) == CountOffer(t, offers[n], formatNumber);
      if ids[n] !in t.infos {
        assert ids[n] !in Uniq(TicketTypeIds(front));
        assert multiset(TicketTypeIds(front))[ids[n]] == 0;
      }
    }
  }

  /** Each type's name and charge are those of its first offer. */
  lemma {:induction false} TicketTableFirstOffer(offers: seq<AcceptedOffer>, formatNumber: int -> string, id: string, i: nat)
    requires AllReservations(offers)
    requires FirstOfTypeAt(offers, id, i)
    ensures id in TicketTableOf(offers, formatNumber).infos
    ensures TicketTableOf(offers, formatNumber).infos[id].name == TicketTypeOf(offers[i]).name
    ensures TicketTableOf(offers, formatNumber).infos[id].charge == ChargeText(OrderUnitPrice(offers[i]), formatNumber)
    decreases |offers|
  {
    var n := |offers| - 1;
    var front := offers[..n];
    assert AllReservations(front);
    var t := TicketTableOf(front, formatNumber);
    assert TicketTableOf(offers, formatNumber) == CountOffer(t, offers[n], formatNumber);
    if i < n {
      assert FirstOfTypeAt(front, id, i);
      TicketTableFirstOffer(front, formatNumber, id, i);
    } else {
      assert forall j :: 0 <= j < n ==> TicketTypeOf(front[j]).id != id;
      TypeNotYetListed(front, formatNumber, id);
    }
    CountOfferEntry(t, offers[n], formatNumber, id);
  }

  /** Counting an offer keeps the name and charge of a listed type, and enters a new type with its offer's. */
  lemma {:induction false} CountOfferEntry(t: TicketTable, o: AcceptedOffer, formatNumber: int -> string, id: string)
    requires o.itemOffered.EventReservation?
    ensures id in t.infos ==>
      && id in CountOffer(t, o, formatNumber).infos
      && CountOffer(t, o, formatNumber).infos[id].name == t.infos[id].name
      && CountOffer(t, o, formatNumber).infos[id].charge == t.infos[id].charge
    ensures id !in t.infos && TicketTypeOf(o).id == id ==>
      && id in CountOffer(t, o, formatNumber).infos
      && CountOffer(t, o, formatNumber).infos[id].name == TicketTypeOf(o).name
      && CountOffer(t, o, formatNumber).infos[id].charge == ChargeText(OrderUnitPrice(o), formatNumber)
  {
  }

  /** A type none of the offers has is not in the table. */
  lemma {:induction false} TypeNotYetListed(offers: seq<AcceptedOffer>, formatNumber: int -> string, id: string)
    requires AllReservations(offers)
    requires forall j :: 0 <= j < |offers| ==> TicketTypeOf(offers[j]).id != id
    ensures id !in TicketTableOf(offers, formatNumber).infos
  {
    TicketTableKeys(offers, formatNumber);
    var ids := TicketTypeIds(offers);
    assert id !in ids by {
      forall j | 0 <= j < |ids|
        ensures ids[j] != id
      {
        assert TicketTypeOf(offers[j]).id != id;
      }
    }
    assert id !in Uniq(ids);
  }

  /** The sum of the counts of the listed types. */
  function TotalCount(keys: seq<string>, infos: map<string, TicketInfo>): nat
    requires forall k :: k in keys ==> k in infos
  {
    if |keys| == 0 then 0 else TotalCount(keys[..|keys| - 1], infos) + infos[keys[|keys| - 1]].count
  }

  /** Changing the entry of a type that is not listed leaves the sum alone. */
  lemma {:induction false} TotalCountOther(keys: seq<string>, infos: map<string, TicketInfo>, id: string, info: TicketInfo)
    requires forall k :: k in keys ==> k in infos
    requires id !in keys
    ensures TotalCount(keys, infos[id := info]) == TotalCount(keys, infos)
    decreases |keys|
  {
    if |keys| > 0 {
      TotalCountOther(keys[..|keys| - 1], infos, id, info);
    }
  }

  /** Changing the count of a type listed once changes the sum by the same amount. */
  lemma {:induction false} TotalCountBump(keys: seq<string>, infos: map<string, TicketInfo>, id: string, info: TicketInfo)
    requires forall k :: k in keys ==> k in infos
    requires Distinct(keys) && id in keys
    ensures TotalCount(keys, infos[id := info]) == TotalCount(keys, infos) - infos[id].count + info.count
    decreases |keys|
  {
    var n := |keys| - 1;
    var front := keys[..n];
    assert forall k :: k in front ==> k in keys;
    if keys[n] == id {
      assert id !in front by {
        forall j | 0 <= j < n
          ensures front[j] != id
        {
          assert keys[j] != keys[n];
        }
      }
      TotalCountOther(front, infos, id, info);
    } else {
      assert id in front by {
        var j :| 0 <= j < |keys| && keys[j] == id;
        assert front[j] == id;
      }
      TotalCountBump(front, infos, id, info);
    }
  }

  /** Counting one more offer adds one to the sum. */
  lemma {:induction false} TotalCountStep(t: TicketTable, o: AcceptedOffer, formatNumber: int -> string)
    requires o.itemOffered.EventReservation?
    requires forall k :: k in t.keys <==> k in t.infos
    requires Distinct(t.keys)
    ensures forall k :: k in CountOffer(t, o, formatNumber).keys ==> k in CountOffer(t, o, formatNumber).infos
    ensures TotalCount(CountOffer(t, o, formatNumber).keys, CountOffer(t, o, formatNumber).infos) == TotalCount(t.keys, t.infos) + 1
  {
    var tt := TicketTypeOf(o);
    var u := CountOffer(t, o, formatNumber);
    if tt.id in t.infos {
      TotalCountBump(t.keys, t.infos, tt.id, t.infos[tt.id].(count := t.infos[tt.id].count + 1));
    } else {
      var counted := TicketInfo(tt.name, ChargeText(OrderUnitPrice(o), formatNumber), 1);
      assert u.keys == t.keys + [tt.id];
      assert u.infos == t.infos[tt.id := counted];
      assert u.keys[..|u.keys| - 1] == t.keys;
      TotalCountOther(t.keys, t.infos, tt.id, counted);
    }
  }

  /** The counts add up to the number of accepted offers. */
  lemma {:induction false} TicketCountsAddUp(offers: seq<AcceptedOffer>, formatNumber: int -> string)
    requires AllReservations(offers)
    ensures TotalCount(TicketTableOf(offers, formatNumber).keys, TicketTableOf(offers, formatNumber).infos) == |offers|
    decreases |offers|
  {
    if |offers| > 0 {
      var n := |offers| - 1;
      var front := offers[..n];
      assert AllReservations(front);
      TicketCountsAddUp(front, formatNumber);
      TicketTableKeys(front, formatNumber);
      TotalCountStep(TicketTableOf(front, formatNumber), offers[n], formatNumber);
    }
  }

  // ---------------------------------------------------------------------------
  // The seller-reason email

  function TicketLine(info: TicketInfo, english: bool): string
  {
    if english then info.name.en + " " + info.charge + " × " + NatToString(info.count) + " ticket(s)"
    else info.name.ja + " " + info.charge + " × " + NatToString(info.count) + "枚"
  }

  /** One line per ticket type, in key order. */
  function TicketLines(t: TicketTable, english: bool): (lines: seq<string>)
    requires forall k :: k in t.keys ==> k in t.infos
    ensures |lines| == |t.keys|
    ensures forall i :: 0 <= i < |t.keys| ==> lines[i] == TicketLine(t.infos[t.keys[i]], english)
  {
    seq(|t.keys|, i requires 0 <= i < |t.keys| => TicketLine(t.infos[t.keys[i]], english))
  }

  /** `ticketInfoJa` / `ticketInfoEn`: the lines joined by newlines. */
  function TicketInfoText(t: TicketTable, english: bool): string
    requires forall k :: k in t.keys ==> k in t.infos
  {
    Join(TicketLines(t, english), '\n')
  }

  /** Names and charges without newlines make the summary read back line by line. */
  lemma {:induction false} TicketInfoTextLines(t: TicketTable, english: bool)
    requires forall k :: k in t.keys ==> k in t.infos
    requires |t.keys| >= 1
    requires forall k :: k in t.infos ==>
      '\n' !in t.infos[k].name.ja && '\n' !in t.infos[k].name.en && '\n' !in t.infos[k].charge
    ensures Split(TicketInfoText(t, english), '\n') == TicketLines(t, english)
  {
    var lines := TicketLines(t, english);
    forall i | 0 <= i < |lines|
      ensures '\n' !in lines[i]
    {
      var info := t.infos[t.keys[i]];
      NatToStringDigits(info.count);
      assert !IsDigit('\n');
      assert '\n' !in NatToString(info.count);
    }
    SplitJoin(lines, '\n');
  }

  /** moment's `format('YYYY/MM/DD')`. */
  function FormatSlashedDate(d: CalendarDate): (s: string)
    ensures |s| == 10 && s[4] == '/' && s[7] == '/'
    ensures s[..4] + s[5..7] + s[8..] == FormatYYYYMMDD(d)
  {
    var s := FixedDigits(d.year, 4) + "/" + FixedDigits(d.month, 2) + "/" + FixedDigits(d.day, 2);
    assert s[..4] == FixedDigits(d.year, 4) && s[5..7] == FixedDigits(d.month, 2) && s[8..] == FixedDigits(d.day, 2);
    s
  }

  /** moment's `format('HH:mm')`. */
  function FormatColonTime(t: LocalDateTime): (s: string)
    ensures |s| == 5 && s[2] == ':'
    ensures s[..2] + s[3..] == FormatHHmm(t)
  {
    var s := FixedDigits(t.hour, 2) + ":" + FixedDigits(t.minute, 2);
    assert s[..2] == FixedDigits(t.hour, 2) && s[3..] == FixedDigits(t.minute, 2);
    s
  }

  /** The values handed to the `returnOrderBySeller` template. */
  datatype EmailData = EmailData(
    purchaserNameJa: string,
    purchaserNameEn: string,
    paymentNo: string,
    day: string,
    startTime: string,
    amount: string,
    numberOfReservations: nat,
    ticketInfoJa: string,
    ticketInfoEn: string)

  datatype EmailMessage = EmailMessage(
    senderName: string,
    senderEmail: string,
    recipientName: string,
    recipientEmail: string,
    about: string,
    data: EmailData)

  const SenderName := "Tokyo Tower TOP DECK TOUR Online Ticket"
  const SenderEmail := "noreply@tokyotower.co.jp"
  const About := "東京タワートップデッキツアー 返金完了のお知らせ (Payment Refund Notification for the Tokyo Tower Top Deck Tour)"

  /** The message once the tickets are counted. */
  function EmailFor(order: Order, t: TicketTable, tokyo: Instant -> LocalDateTime, formatNumber: int -> string): EmailMessage
    requires |order.acceptedOffers| > 0 && order.acceptedOffers[0].itemOffered.EventReservation?
    requires forall k :: k in t.keys ==> k in t.infos
  {
    var start := tokyo(order.acceptedOffers[0].itemOffered.reservation.reservationFor.startDate);
    var c := order.customer;
    EmailMessage(
      SenderName, SenderEmail, c.name, c.email.GetOr(""), About,
      EmailData(
        Interpolate(c.familyName) + " " + Interpolate(c.givenName),
        c.name,
        LastChars(order.confirmationNumber, 6),
        FormatSlashedDate(start.date),
        FormatColonTime(start),
        formatNumber(order.price),
        |order.acceptedOffers|,
        TicketInfoText(t, false),
        TicketInfoText(t, true)))
  }

  /**
   * `createEmailMessage4sellerReason` up to rendering: a `TypeError` when the
   * order has no offer or an offer that is not for an event.
   */
  function EmailMessageOf(order: Order, tokyo: Instant -> LocalDateTime, formatNumber: int -> string): (r: Result<EmailMessage>)
    ensures r.Err? <==> |order.acceptedOffers| == 0 || !AllReservations(order.acceptedOffers)
    ensures r.Err? ==> r.error == TypeError
    ensures r.Ok? ==>
      var m := r.value;
      && m.recipientName == order.customer.name
      && m.recipientEmail == order.customer.email.GetOr("")
      && m.data.numberOfReservations == |order.acceptedOffers|
      && m.data.paymentNo == LastChars(order.confirmationNumber, 6)
      && m.data.ticketInfoJa == TicketInfoText(TicketTableOf(order.acceptedOffers, formatNumber), false)
      && m.data.ticketInfoEn == TicketInfoText(TicketTableOf(order.acceptedOffers, formatNumber), true)
    ensures r.Ok? ==>
      var m := r.value;
      var c := order.customer;
      var start := tokyo(order.acceptedOffers[0].itemOffered.reservation.reservationFor.startDate);
      && m.senderName == SenderName && m.senderEmail == SenderEmail && m.about == About
      && m.data.purchaserNameJa == Interpolate(c.familyName) + " " + Interpolate(c.givenName)
      && m.data.purchaserNameEn == c.name
      && m.data.day == FormatSlashedDate(start.date)
      && m.data.startTime == FormatColonTime(start)
      && m.data.amount == formatNumber(order.price)
  {
    if |order.acceptedOffers| == 0 || !AllReservations(order.acceptedOffers) then Err(TypeError)
    else Ok(EmailFor(order, TicketTableOf(order.acceptedOffers, formatNumber), tokyo, formatNumber))
  }

  /** The payment number in the email is the tail of a confirmation number the order was confirmed with. */
  lemma {:induction false} EmailPaymentNo(day: CalendarDate, paymentNo: string)
    requires |paymentNo| >= 6
    ensures LastChars(PlaceOrder.ConfirmationNumber(day, paymentNo), 6) == paymentNo[|paymentNo| - 6..]
  {
    var cn := PlaceOrder.ConfirmationNumber(day, paymentNo);
    assert cn[|cn| - 6..] == cn[8..][|paymentNo| - 6..];
  }

  /** The email of `createEmailMessage4sellerReason`, counting the tickets with a loop. */
  method CreateEmailMessage(order: Order, tokyo: Instant -> LocalDateTime, formatNumber: int -> string)
    returns (r: Result<EmailMessage>)
    ensures r == EmailMessageOf(order, tokyo, formatNumber)
  {
    if |order.acceptedOffers| == 0 {
      return Err(TypeError);
    }
    var table := CountTickets(order.acceptedOffers, formatNumber);
    if table.Err? {
      return Err(TypeError);
    }
    r := Ok(EmailFor(order, table.value, tokyo, formatNumber));
  }

  // ---------------------------------------------------------------------------
  // Refund parameters of one returned order

  datatype PayObject = PayObject(paymentMethodTypeOf: string, paymentMethodId: string)

  /** An action recorded on an order; `objects` is the `object` list of what a pay action paid with. */
  datatype ActionOnOrder = ActionOnOrder(typeOf: string, actionStatus: string, objects: seq<PayObject>)

  /** A cancel-reservation parameter, passed through as given. */
  datatype CancelReservationParam = CancelReservationParam(id: string)

  /** The caller's `potentialActions.returnOrder.potentialActions`. */
  datatype ReturnOrderParams = ReturnOrderParams(
    informOrder: Option<seq<PotentialActions.InformOrderParam>>,
    cancelReservation: Option<seq<CancelReservationParam>>)

  datatype RefundCreditCardParams = RefundCreditCardParams(
    paymentMethodIds: seq<string>,
    email: EmailMessage,
    informOrder: seq<PotentialActions.InformOrderParam>)

  /** The start and confirm parameters of one return-order transaction. */
  datatype ReturnRequest = ReturnRequest(
    orderNumber: string,
    expires: Instant,
    agentId: string,
    agentIdentifier: seq<PropertyValue>,
    refundCreditCard: seq<RefundCreditCardParams>,
    cancelReservation: seq<CancelReservationParam>)

  /** One minute, in milliseconds. */
  const ReturnWindow := 60000

  predicate IsCompletedPayAction(a: ActionOnOrder) {
    a.typeOf == "PayAction" && a.actionStatus == "CompletedActionStatus"
  }

  /** The first thing the action paid with is a credit card. */
  predicate PaidByCard(a: ActionOnOrder) {
    |a.objects| > 0 && a.objects[0].paymentMethodTypeOf == "CreditCard"
  }

  function PaymentMethodIds(objects: seq<PayObject>): (ids: seq<string>)
    ensures |ids| == |objects|
    ensures forall i :: 0 <= i < |objects| ==> ids[i] == objects[i].paymentMethodId
  {
    seq(|objects|, i requires 0 <= i < |objects| => objects[i].paymentMethodId)
  }

  /**
   * One refund per completed pay action whose first object is a credit card,
   * in order; reading the first object of a pay action without one is a
   * `TypeError`.
   */
  function RefundCreditCards(pays: seq<ActionOnOrder>, email: EmailMessage, informOrder: seq<PotentialActions.InformOrderParam>)
    : (r: Result<seq<RefundCreditCardParams>>)
    ensures r.Err? <==> exists i :: 0 <= i < |pays| && |pays[i].objects| == 0
    ensures r.Err? ==> r.error == TypeError
    ensures r.Ok? ==> |r.value| == |Filter(pays, PaidByCard)|
  {
    if |pays| == 0 then Ok([])
    else
      var rest := RefundCreditCards(pays[1..], email, informOrder);
      assert forall i :: 1 <= i < |pays| ==> pays[i] == pays[1..][i - 1];
      if |pays[0].objects| == 0 then Err(TypeError)
      else if rest.Err? then Err(TypeError)
      else if PaidByCard(pays[0]) then Ok([RefundCreditCardParams(PaymentMethodIds(pays[0].objects), email, informOrder)] + rest.value)
      else rest
  }

  /** The refunds follow the credit-card pay actions one for one, each with their payment method ids. */
  lemma {:induction false} RefundCreditCardsEntries(pays: seq<ActionOnOrder>, email: EmailMessage,
                                                     informOrder: seq<PotentialActions.InformOrderParam>, j: nat)
    requires RefundCreditCards(pays, email, informOrder).Ok?
    requires j < |RefundCreditCards(pays, email, informOrder).value|
    ensures RefundCreditCards(pays, email, informOrder).value[j] ==
      RefundCreditCardParams(PaymentMethodIds(Filter(pays, PaidByCard)[j].objects), email, informOrder)
  {
    var rest := RefundCreditCards(pays[1..], email, informOrder);
    var kept := Filter(pays[1..], PaidByCard);
    if PaidByCard(pays[0]) {
      assert Filter(pays, PaidByCard) == [pays[0]] + kept;
      if j > 0 {
        RefundCreditCardsEntries(pays[1..], email, informOrder, j - 1);
      }
    } else {
      assert Filter(pays, PaidByCard) == kept;
      RefundCreditCardsEntries(pays[1..], email, informOrder, j);
    }
  }

  function InformOrderOrDefault(params: Option<ReturnOrderParams>): seq<PotentialActions.InformOrderParam>
  {
    if params.Some? && params.value.informOrder.Some? then params.value.informOrder.value else []
  }

  function CancelReservationOrDefault(params: Option<ReturnOrderParams>): seq<CancelReservationParam>
  {
    if params.Some? && params.value.cancelReservation.Some? then params.value.cancelReservation.value else []
  }

  /** A completed pay action without objects is one among the filtered pays. */
  lemma {:induction false} PaysWithoutObjects(actions: seq<ActionOnOrder>)
    ensures (exists i :: 0 <= i < |Filter(actions, IsCompletedPayAction)| && |Filter(actions, IsCompletedPayAction)[i].objects| == 0) <==>
      (exists i :: 0 <= i < |actions| && IsCompletedPayAction(actions[i]) && |actions[i].objects| == 0)
  {
    var pays := Filter(actions, IsCompletedPayAction);
    FilterMembers(actions, IsCompletedPayAction);
    forall i | 0 <= i < |pays| && |pays[i].objects| == 0
      ensures exists j :: 0 <= j < |actions| && IsCompletedPayAction(actions[j]) && |actions[j].objects| == 0
    {
      var j :| 0 <= j < |actions| && actions[j] == pays[i];
      assert IsCompletedPayAction(actions[j]);
    }
    forall i | 0 <= i < |actions| && IsCompletedPayAction(actions[i]) && |actions[i].objects| == 0
      ensures exists j :: 0 <= j < |pays| && |pays[j].objects| == 0
    {
      var j :| 0 <= j < |pays| && pays[j] == actions[i];
    }
  }

  /**
   * The return-order transaction for one order: it expires a minute from
   * `now`, is started by `agentId` for the seller's reasons, and refunds the
   * credit-card payments among the completed pay actions.
   */
  function ReturnRequestOf(agentId: string, order: Order, actions: seq<ActionOnOrder>, params: Option<ReturnOrderParams>,
                           email: EmailMessage, now: Instant): (r: Result<ReturnRequest>)
    ensures r.Err? <==> exists i :: 0 <= i < |actions| && IsCompletedPayAction(actions[i]) && |actions[i].objects| == 0
    ensures r.Err? ==> r.error == TypeError
    ensures r.Ok? ==>
      && r.value.orderNumber == order.orderNumber
      && r.value.expires == now + ReturnWindow
      && r.value.agentId == agentId
      && r.value.agentIdentifier == [PropertyValue("reason", Performances.SellerReason)]
      && r.value.cancelReservation == CancelReservationOrDefault(params)
      && RefundCreditCards(Filter(actions, IsCompletedPayAction), email, InformOrderOrDefault(params)) == Ok(r.value.refundCreditCard)
  {
    var pays := Filter(actions, IsCompletedPayAction);
    PaysWithoutObjects(actions);
    var refunds :- RefundCreditCards(pays, email, InformOrderOrDefault(params));
    Ok(ReturnRequest(
      order.orderNumber, now + ReturnWindow, agentId,
      [PropertyValue("reason", Performances.SellerReason)],
      refunds, CancelReservationOrDefault(params)))
  }

  /**
   * The work for one selected transaction: nothing when the place-order
   * transaction is not found or has no result; otherwise the email, then the
   * return request. `actionsOf` stands for the action search by order number.
   */
  method ReturnTransaction(agentId: string, placeOrder: Option<PlaceOrder.Transaction>,
                           actionsOf: string -> seq<ActionOnOrder>, params: Option<ReturnOrderParams>,
                           now: Instant, tokyo: Instant -> LocalDateTime, formatNumber: int -> string)
    returns (r: Result<Option<ReturnRequest>>)
    ensures placeOrder.None? || placeOrder.value.result.None? ==> r == Ok(None)
    ensures placeOrder.Some? && placeOrder.value.result.Some? ==>
      var order := placeOrder.value.result.value;
      var email := EmailMessageOf(order, tokyo, formatNumber);
      && (email.Err? ==> r == Err(email.error))
      && (email.Ok? ==>
            var request := ReturnRequestOf(agentId, order, actionsOf(order.orderNumber), params, email.value, now);
            r == if request.Ok? then Ok(Some(request.value)) else Err(request.error))
  {
    if placeOrder.None? || placeOrder.value.result.None? {
      return Ok(None);
    }
    var order := placeOrder.value.result.value;
    var email := CreateEmailMessage(order, tokyo, formatNumber);
    if email.Err? {
      return Err(email.error);
    }
    var request := ReturnRequestOf(agentId, order, actionsOf(order.orderNumber), params, email.value, now);
    if request.Err? {
      return Err(request.error);
    }
    r := Ok(Some(request.value));
  }
}
