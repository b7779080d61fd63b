/**
 * `createPotentialActionsFromTransaction` (src/service/transaction/placeOrderInProgress.ts):
 * the actions a confirmed order schedules. They are a credit-card payment
 * per authorization still due, one delivery of the order from the seller to
 * the customer, a Chevre confirmation per seat authorization, and a
 * notification per requested recipient that has a url. Along the way, every
 * completed seat authorization without an instrument is given the Chevre
 * web API as its instrument, in place.
 */
module PotentialActions {
  import opened Base
  import opened Domain
  import opened PlaceOrder

  const PaymentDue := "PaymentDue"

  /** The order fields the scheduled actions cite as their purpose. */
  datatype OrderPurpose = OrderPurpose(
    seller: OrderSeller,
    customer: Customer,
    confirmationNumber: string,
    orderNumber: string,
    price: int,
    priceCurrency: string,
    orderDate: Instant)

  datatype PayCreditCard = PayCreditCard(paymentMethod: PaymentMethod, price: Option<int>, agent: Agent, purpose: OrderPurpose)

  datatype SendOrder = SendOrder(order: Order, agent: TransactionSeller, recipient: Agent)

  /** The project-specific reservation fields passed on to Chevre. */
  datatype ReservationUpdate = ReservationUpdate(
    id: string,
    additionalTicketText: Option<string>,
    issuedBy: string,
    ticketToken: Option<string>,
    ticketUnderName: Option<UnderName>,
    underName: Option<UnderName>,
    additionalProperty: seq<PropertyValue>)

  datatype ConfirmReservationAction = ConfirmReservationAction(
    reserveTransactionId: string,
    reservations: seq<ReservationUpdate>,
    agent: Agent,
    purpose: OrderPurpose,
    instrument: Instrument)

  datatype InformOrder = InformOrder(
    agent: TransactionSeller,
    order: Order,
    recipientId: string,
    recipientName: Option<string>,
    recipientTypeOf: string,
    url: string)

  datatype OrderAction = OrderAction(
    order: Order,
    agent: Agent,
    confirmReservation: seq<ConfirmReservationAction>,
    informOrder: seq<InformOrder>,
    payCreditCard: seq<PayCreditCard>,
    sendOrder: SendOrder,
    transactionId: string)

  /**
   * A requested `informOrder` entry. `url` is its recipient's url when the
   * recipient is defined and the url is a string, and `None` otherwise.
   */
  datatype InformOrderParam = InformOrderParam(url: Option<string>)

  function PurposeOf(order: Order): OrderPurpose {
    OrderPurpose(order.seller, order.customer, order.confirmationNumber, order.orderNumber,
                 order.price, order.priceCurrency, order.orderDate)
  }

  // ---------------------------------------------------------------------------
  // Credit-card payments

  /** A completed authorization paid by credit card whose payment is still due. */
  predicate IsDueCardPayment(a: AuthorizeAction) {
    && IsCompleted(a) && a.result.Some?
    && a.result.value.paymentMethod == Some(CreditCard)
    && a.result.value.paymentStatus == Some(PaymentDue)
  }

  function PayFor(a: AuthorizeAction, tx: Transaction, order: Order): PayCreditCard
    requires IsDueCardPayment(a)
  {
    PayCreditCard(PaymentMethodOf(a.result.value, CreditCard), a.result.value.amount, tx.agent, PurposeOf(order))
  }

  function PayActionsFor(due: seq<AuthorizeAction>, tx: Transaction, order: Order): (r: seq<PayCreditCard>)
    requires forall i :: 0 <= i < |due| ==> IsDueCardPayment(due[i])
    ensures |r| == |due|
    ensures forall k :: 0 <= k < |due| ==> r[k] == PayFor(due[k], tx, order)
  {
    if |due| == 0 then [] else PayActionsFor(due[..|due| - 1], tx, order) + [PayFor(due[|due| - 1], tx, order)]
  }

  // ---------------------------------------------------------------------------
  // Reservation confirmations and instruments

  predicate IsSeatAuthorization(a: AuthorizeAction) {
    IsCompleted(a) && IsSeatReservationObject(a)
  }

  /** A completed seat authorization with a result: it yields a confirmation. */
  predicate IsConfirmable(a: AuthorizeAction) {
    IsSeatAuthorization(a) && a.result.Some?
  }

  /** The instrument of a seat authorization, Chevre when it has none. */
  function InstrumentOf(a: AuthorizeAction): Instrument {
    a.instrument.GetOr(ChevreInstrument)
  }

  function WithDefaultInstrument(a: AuthorizeAction): AuthorizeAction {
    if IsSeatAuthorization(a) && a.instrument.None? then a.(instrument := Some(ChevreInstrument)) else a
  }

  /**
   * The authorize actions as the compiler leaves them: only the instrument
   * changes, every completed seat authorization has one, and one that was
   * there is kept.
   */
  function DefaultInstruments(actions: seq<AuthorizeAction>): (r: seq<AuthorizeAction>)
    ensures |r| == |actions|
    ensures forall k :: 0 <= k < |r| ==> r[k].(instrument := actions[k].instrument) == actions[k]
    ensures forall k :: 0 <= k < |r| && IsSeatAuthorization(actions[k]) ==> r[k].instrument == Some(InstrumentOf(actions[k]))
    ensures forall k :: 0 <= k < |r| && !IsSeatAuthorization(actions[k]) ==> r[k].instrument == actions[k].instrument
  {
    seq(|actions|, k requires 0 <= k < |actions| => WithDefaultInstrument(actions[k]))
  }

  /** Defaulting the instruments a second time changes nothing. */
  lemma {:induction false} DefaultInstrumentsIdempotent(actions: seq<AuthorizeAction>)
    ensures DefaultInstruments(DefaultInstruments(actions)) == DefaultInstruments(actions)
  {
    var once := DefaultInstruments(actions);
    var twice := DefaultInstruments(once);
    forall k | 0 <= k < |actions|
      ensures twice[k] == once[k]
    {
      assert IsSeatAuthorization(once[k]) == IsSeatAuthorization(actions[k]);
    }
  }

  function UpdateFor(r: Reservation): ReservationUpdate {
    ReservationUpdate(r.id, r.additionalTicketText, r.reservedTicket.issuedBy, r.reservedTicket.ticketToken,
                      r.reservedTicket.underName, r.underName, r.additionalProperty)
  }

  /**
   * The reservations of the order as passed to Chevre. Reading the ticket of
   * an item that is not a reservation is a `TypeError`.
   */
  function ReservationUpdates(offers: seq<AcceptedOffer>): (r: Result<seq<ReservationUpdate>>)
    ensures r.Ok? <==> forall i :: 0 <= i < |offers| ==> offers[i].itemOffered.EventReservation?
    ensures r.Err? ==> r.error == TypeError
    ensures r.Ok? ==> |r.value| == |offers|
    ensures r.Ok? ==> forall i :: 0 <= i < |offers| ==> r.value[i].id == offers[i].itemOffered.reservation.id
  {
    if |offers| == 0 then Ok([])
    else
      var front := offers[..|offers| - 1];
      var last := offers[|offers| - 1];
      assert forall i :: 0 <= i < |front| ==> front[i] == offers[i];
      var rest := ReservationUpdates(front);
      if rest.Err? then rest
      else if !last.itemOffered.EventReservation? then Err(TypeError)
      else Ok(rest.value + [UpdateFor(last.itemOffered.reservation)])
  }

  function ConfirmFor(a: AuthorizeAction, updates: seq<ReservationUpdate>, tx: Transaction, order: Order): ConfirmReservationAction
    requires a.result.Some? && a.result.value.responseBody.Some?
  {
    ConfirmReservationAction(a.result.value.responseBody.value.id, updates, tx.agent, PurposeOf(order), InstrumentOf(a))
  }

  /**
   * The confirmations of the seat authorizations: each one reads its reserve
   * transaction's id, a `TypeError` when there is none.
   */
  function ConfirmActionsFor(seats: seq<AuthorizeAction>, tx: Transaction, order: Order): (r: Result<seq<ConfirmReservationAction>>)
    requires forall i :: 0 <= i < |seats| ==> IsSeatAuthorization(seats[i]) && seats[i].result.Some?
    ensures r.Ok? <==>
      && (forall i :: 0 <= i < |seats| ==> seats[i].result.value.responseBody.Some?)
      && (|seats| == 0 || ReservationUpdates(order.acceptedOffers).Ok?)
    ensures r.Err? ==> r.error == TypeError
    ensures r.Ok? ==> |r.value| == |seats|
  {
    if |seats| == 0 then Ok([])
    else
      var front := seats[..|seats| - 1];
      var a := seats[|seats| - 1];
      assert forall i :: 0 <= i < |front| ==> front[i] == seats[i];
      var rest := ConfirmActionsFor(front, tx, order);
      if rest.Err? then rest
      else if a.result.value.responseBody.None? then Err(TypeError)
      else
        var updates := ReservationUpdates(order.acceptedOffers);
        if updates.Err? then Err(updates.error)
        else Ok(rest.value + [ConfirmFor(a, updates.value, tx, order)])
  }

  /**
   * Confirmation `k` confirms the reservation transaction of seat action `k`,
   * with that action's instrument and the order's reservation updates.
   */
  lemma {:induction false} ConfirmActionsForEntry(seats: seq<AuthorizeAction>, tx: Transaction, order: Order, k: nat)
    requires forall i :: 0 <= i < |seats| ==> IsSeatAuthorization(seats[i]) && seats[i].result.Some?
    requires ConfirmActionsFor(seats, tx, order).Ok?
    requires k < |seats|
    ensures seats[k].result.value.responseBody.Some? && ReservationUpdates(order.acceptedOffers).Ok?
    ensures var c := ConfirmActionsFor(seats, tx, order).value[k];
      && c.reserveTransactionId == seats[k].result.value.responseBody.value.id
      && c.instrument == InstrumentOf(seats[k])
      && c.reservations == ReservationUpdates(order.acceptedOffers).value
    decreases |seats|
  {
    var front := seats[..|seats| - 1];
    var a := seats[|seats| - 1];
    assert forall i :: 0 <= i < |front| ==> front[i] == seats[i];
    var rest := ConfirmActionsFor(front, tx, order);
    var updates := ReservationUpdates(order.acceptedOffers);
    assert ConfirmActionsFor(seats, tx, order) == Ok(rest.value + [ConfirmFor(a, updates.value, tx, order)]);
    if k < |front| {
      ConfirmActionsForEntry(front, tx, order, k);
      assert front[k] == seats[k];
    }
  }

  // ---------------------------------------------------------------------------
  // Notifications

  predicate HasUrl(p: InformOrderParam) {
    p.url.Some?
  }

  function InformFor(p: InformOrderParam, tx: Transaction, order: Order): InformOrder
    requires HasUrl(p)
  {
    InformOrder(tx.seller, order, tx.agent.id, tx.agent.name, tx.agent.typeOf, p.url.value)
  }

  function InformActionsFor(requested: seq<InformOrderParam>, tx: Transaction, order: Order): (r: seq<InformOrder>)
    requires forall i :: 0 <= i < |requested| ==> HasUrl(requested[i])
    ensures |r| == |requested|
    ensures forall k :: 0 <= k < |r| ==> r[k] == InformFor(requested[k], tx, order)
  {
    if |requested| == 0 then []
    else InformActionsFor(requested[..|requested| - 1], tx, order) + [InformFor(requested[|requested| - 1], tx, order)]
  }

  // ---------------------------------------------------------------------------
  // The compiler

  /**
   * The order action the compiler returns. `informOrder` is the requested
   * list, `None` when the parameters or any level inside them is missing.
   */
  function PotentialActionsOf(tx: Transaction, order: Order, informOrder: Option<seq<InformOrderParam>>): (r: Result<OrderAction>)
    ensures r.Err? ==> r.error == TypeError
    ensures r.Ok? <==>
      var seats := Filter(tx.authorizeActions, IsConfirmable);
      && (forall i :: 0 <= i < |seats| ==> seats[i].result.value.responseBody.Some?)
      && (|seats| == 0 || ReservationUpdates(order.acceptedOffers).Ok?)
  {
    var pays := PayActionsFor(Filter(tx.authorizeActions, IsDueCardPayment), tx, order);
    var confirms :- ConfirmActionsFor(Filter(tx.authorizeActions, IsConfirmable), tx, order);
    var informs := InformActionsFor(Filter(informOrder.GetOr([]), HasUrl), tx, order);
    Ok(OrderAction(order, tx.agent, confirms, informs, pays, SendOrder(order, tx.seller, tx.agent), tx.id))
  }

  /**
   * The order action pays each due credit-card authorization its amount with
   * its payment method, confirms each seat authorization with its
   * instrument, informs each requested url, and sends the order, all in the
   * order of the lists they come from.
   */
  lemma {:induction false} PotentialActionsContents(tx: Transaction, order: Order, informOrder: Option<seq<InformOrderParam>>)
    requires PotentialActionsOf(tx, order, informOrder).Ok?
    ensures var r := PotentialActionsOf(tx, order, informOrder);
      var due := Filter(tx.authorizeActions, IsDueCardPayment);
      var requested := Filter(informOrder.GetOr([]), HasUrl);
      var seats := Filter(tx.authorizeActions, IsConfirmable);
      && r.value.sendOrder == SendOrder(order, tx.seller, tx.agent)
      && |r.value.payCreditCard| == |due|
      && (forall k :: 0 <= k < |due| ==>
            && r.value.payCreditCard[k].paymentMethod.typeOf == CreditCard
            && r.value.payCreditCard[k].paymentMethod.paymentMethodId == due[k].result.value.paymentMethodId
            && r.value.payCreditCard[k].price == due[k].result.value.amount)
      && |r.value.confirmReservation| == |seats|
      && (forall k :: 0 <= k < |seats| ==>
            && r.value.confirmReservation[k].instrument == InstrumentOf(seats[k])
            && seats[k].result.Some? && seats[k].result.value.responseBody.Some?
            && r.value.confirmReservation[k].reserveTransactionId == seats[k].result.value.responseBody.value.id
            && ReservationUpdates(order.acceptedOffers).Ok?
            && r.value.confirmReservation[k].reservations == ReservationUpdates(order.acceptedOffers).value)
      && |r.value.informOrder| == |requested|
      && (forall k :: 0 <= k < |requested| ==> Some(r.value.informOrder[k].url) == requested[k].url)
      && r.value.order == order && r.value.agent == tx.agent && r.value.transactionId == tx.id
  {
    var seats := Filter(tx.authorizeActions, IsConfirmable);
    var confirms := ConfirmActionsFor(seats, tx, order).value;
    assert PotentialActionsOf(tx, order, informOrder).value.confirmReservation == confirms;
    forall k | 0 <= k < |seats|
      ensures confirms[k].instrument == InstrumentOf(seats[k])
      ensures seats[k].result.Some? && seats[k].result.value.responseBody.Some?
      ensures confirms[k].reserveTransactionId == seats[k].result.value.responseBody.value.id
      ensures ReservationUpdates(order.acceptedOffers).Ok?
      ensures confirms[k].reservations == ReservationUpdates(order.acceptedOffers).value
    {
      ConfirmActionsForEntry(seats, tx, order, k);
    }
  }

  lemma {:induction false} PayStep(all: seq<AuthorizeAction>, i: nat, pays: seq<PayCreditCard>, tx: Transaction, order: Order)
    requires i < |all|
    requires pays == PayActionsFor(Filter(all[..i], IsDueCardPayment), tx, order)
    ensures IsDueCardPayment(all[i]) ==>
      pays + [PayFor(all[i], tx, order)] == PayActionsFor(Filter(all[..i + 1], IsDueCardPayment), tx, order)
    ensures !IsDueCardPayment(all[i]) ==> pays == PayActionsFor(Filter(all[..i + 1], IsDueCardPayment), tx, order)
  {
    assert all[..i + 1] == all[..i] + [all[i]];
    FilterSnoc(all[..i], all[i], IsDueCardPayment);
    if IsDueCardPayment(all[i]) {
      var due := Filter(all[..i + 1], IsDueCardPayment);
      assert due[..|due| - 1] == Filter(all[..i], IsDueCardPayment);
    }
  }

  /** The payment loop: one payment per due credit-card authorization, in action order. */
  method CollectPayments(tx: Transaction, order: Order) returns (pays: seq<PayCreditCard>)
    ensures pays == PayActionsFor(Filter(tx.authorizeActions, IsDueCardPayment), tx, order)
  {
    var all := tx.authorizeActions;
    pays := [];
    var i := 0;
    assert all[..0] == [];
    while i < |all|
      invariant 0 <= i <= |all|
      invariant pays == PayActionsFor(Filter(all[..i], IsDueCardPayment), tx, order)
    {
      PayStep(all, i, pays, tx, order);
      if IsDueCardPayment(all[i]) {
        pays := pays + [PayFor(all[i], tx, order)];
      }
      i := i + 1;
    }
    assert all[..i] == all;
  }

  /** The confirmations of the seat actions among the first `i` actions are `confirms`. */
  ghost predicate ConfirmedUpTo(all: seq<AuthorizeAction>, i: nat, tx: Transaction, order: Order,
                                confirms: seq<ConfirmReservationAction>)
    requires i <= |all|
  {
    ConfirmActionsFor(Filter(all[..i], IsConfirmable), tx, order) == Ok(confirms)
  }

  lemma {:induction false} ConfirmStep(all: seq<AuthorizeAction>, i: nat, confirms: seq<ConfirmReservationAction>, tx: Transaction, order: Order)
    requires i < |all|
    requires ConfirmedUpTo(all, i, tx, order, confirms)
    ensures !IsConfirmable(all[i]) ==> ConfirmedUpTo(all, i + 1, tx, order, confirms)
    ensures IsConfirmable(all[i]) && all[i].result.value.responseBody.Some? && ReservationUpdates(order.acceptedOffers).Ok? ==>
      ConfirmedUpTo(all, i + 1, tx, order,
                    confirms + [ConfirmFor(all[i], ReservationUpdates(order.acceptedOffers).value, tx, order)])
  {
    assert all[..i + 1] == all[..i] + [all[i]];
    FilterSnoc(all[..i], all[i], IsConfirmable);
    if IsConfirmable(all[i]) {
      var seats := Filter(all[..i + 1], IsConfirmable);
      assert seats[..|seats| - 1] == Filter(all[..i], IsConfirmable);
    } else {
      assert Filter(all[..i + 1], IsConfirmable) == Filter(all[..i], IsConfirmable);
    }
  }

  /** `actions` is `all` with the instruments of the first `i` defaulted. */
  ghost predicate DefaultedUpTo(actions: seq<AuthorizeAction>, all: seq<AuthorizeAction>, i: nat) {
    && |actions| == |all| && i <= |all|
    && (forall k {:trigger actions[k]} :: 0 <= k < i ==> actions[k] == WithDefaultInstrument(all[k]))
    && (forall k {:trigger actions[k]} :: i <= k < |all| ==> actions[k] == all[k])
  }

  lemma {:induction false} DefaultedAll(actions: seq<AuthorizeAction>, all: seq<AuthorizeAction>)
    requires DefaultedUpTo(actions, all, |all|)
    ensures actions == DefaultInstruments(all)
  {
  }

  lemma {:induction false} DefaultStep(actions: seq<AuthorizeAction>, all: seq<AuthorizeAction>, i: nat)
    requires i < |all| && DefaultedUpTo(actions, all, i)
    ensures DefaultedUpTo(actions[i := WithDefaultInstrument(all[i])], all, i + 1)
  {
  }

  /**
   * The seat loop: defaults each seat authorization's instrument in place and
   * collects a confirmation for each one with a result.
   */
  method CollectConfirmations(tx: Transaction, order: Order)
    returns (r: Result<seq<ConfirmReservationAction>>, actions: seq<AuthorizeAction>)
    ensures r == ConfirmActionsFor(Filter(tx.authorizeActions, IsConfirmable), tx, order)
    ensures r.Ok? ==> actions == DefaultInstruments(tx.authorizeActions)
  {
    var all := tx.authorizeActions;
    actions := all;
    var confirms: seq<ConfirmReservationAction> := [];
    var i := 0;
    assert all[..0] == [];
    assert DefaultedUpTo(actions, all, 0);
    while i < |all|
      invariant 0 <= i <= |all|
      invariant DefaultedUpTo(actions, all, i)
      invariant ConfirmedUpTo(all, i, tx, order, confirms)
    {
      var failed;
      actions, confirms, failed := ConfirmSeat(all, i, actions, confirms, tx, order);
      if failed {
        r := Err(TypeError);
        return;
      }
      i := i + 1;
    }
    assert all[..i] == all;
    DefaultedAll(actions, all);
    assert ConfirmedUpTo(all, i, tx, order, confirms);
    r := Ok(confirms);
  }

  /**
   * The body of the seat loop for action `i`: its instrument is defaulted,
   * and when it is a seat authorization with a result, its confirmation is
   * added, or the loop fails when none can be built.
   */
  method ConfirmSeat(all: seq<AuthorizeAction>, i: nat, actions: seq<AuthorizeAction>,
                     confirms: seq<ConfirmReservationAction>, tx: Transaction, order: Order)
    returns (actions': seq<AuthorizeAction>, confirms': seq<ConfirmReservationAction>, failed: bool)
    requires i < |all| && DefaultedUpTo(actions, all, i) && ConfirmedUpTo(all, i, tx, order, confirms)
    ensures failed ==> ConfirmActionsFor(Filter(all, IsConfirmable), tx, order) == Err(TypeError)
    ensures !failed ==> DefaultedUpTo(actions', all, i + 1) && ConfirmedUpTo(all, i + 1, tx, order, confirms')
  {
    var a := all[i];
    DefaultStep(actions, all, i);
    ConfirmStep(all, i, confirms, tx, order);
    actions' := actions[i := WithDefaultInstrument(a)];
    confirms' := confirms;
    failed := false;
    if IsConfirmable(a) {
      var updates := ReservationUpdates(order.acceptedOffers);
      if a.result.value.responseBody.None? || updates.Err? {
        FailedSeat(all, i, tx, order);
        failed := true;
      } else {
        confirms' := confirms + [ConfirmFor(a, updates.value, tx, order)];
      }
    }
  }

  /** A seat authorization whose confirmation cannot be built makes the whole list fail. */
  lemma {:induction false} FailedSeat(all: seq<AuthorizeAction>, i: nat, tx: Transaction, order: Order)
    requires i < |all| && IsConfirmable(all[i])
    requires all[i].result.value.responseBody.None? || ReservationUpdates(order.acceptedOffers).Err?
    ensures ConfirmActionsFor(Filter(all, IsConfirmable), tx, order) == Err(TypeError)
  {
    FilterMembers(all, IsConfirmable);
    assert all[i] in Filter(all, IsConfirmable);
  }

  lemma {:induction false} InformStep(requested: seq<InformOrderParam>, i: nat, informs: seq<InformOrder>, tx: Transaction, order: Order)
    requires i < |requested|
    requires informs == InformActionsFor(Filter(requested[..i], HasUrl), tx, order)
    ensures HasUrl(requested[i]) ==>
      informs + [InformFor(requested[i], tx, order)] == InformActionsFor(Filter(requested[..i + 1], HasUrl), tx, order)
    ensures !HasUrl(requested[i]) ==> informs == InformActionsFor(Filter(requested[..i + 1], HasUrl), tx, order)
  {
    assert requested[..i + 1] == requested[..i] + [requested[i]];
    FilterSnoc(requested[..i], requested[i], HasUrl);
    if HasUrl(requested[i]) {
      var wanted := Filter(requested[..i + 1], HasUrl);
      assert wanted[..|wanted| - 1] == Filter(requested[..i], HasUrl);
    }
  }

  /** The notification loop: one notification per requested recipient with a url. */
  method CollectInforms(tx: Transaction, order: Order, informOrder: Option<seq<InformOrderParam>>) returns (informs: seq<InformOrder>)
    ensures informs == InformActionsFor(Filter(informOrder.GetOr([]), HasUrl), tx, order)
  {
    var requested := informOrder.GetOr([]);
    informs := [];
    var i := 0;
    assert requested[..0] == [];
    while i < |requested|
      invariant 0 <= i <= |requested|
      invariant informs == InformActionsFor(Filter(requested[..i], HasUrl), tx, order)
    {
      InformStep(requested, i, informs, tx, order);
      if HasUrl(requested[i]) {
        informs := informs + [InformFor(requested[i], tx, order)];
      }
      i := i + 1;
    }
    assert requested[..i] == requested;
  }

  /**
   * `createPotentialActionsFromTransaction`. Besides the order action it
   * returns the authorize actions with their instruments defaulted, which the
   * caller stores.
   */
  method CreatePotentialActions(tx: Transaction, order: Order, informOrder: Option<seq<InformOrderParam>>)
    returns (r: Result<OrderAction>, actions: seq<AuthorizeAction>)
    ensures r == PotentialActionsOf(tx, order, informOrder)
    ensures r.Ok? ==> actions == DefaultInstruments(tx.authorizeActions)
  {
    var pays := CollectPayments(tx, order);
    var confirms;
    confirms, actions := CollectConfirmations(tx, order);
    if confirms.Err? {
      r := Err(confirms.error);
      return;
    }
    var informs := CollectInforms(tx, order, informOrder);
    r := Ok(OrderAction(order, tx.agent, confirms.value, informs, pays, SendOrder(order, tx.seller, tx.agent), tx.id));
  }
}
