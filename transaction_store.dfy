/**
 * The place-order transactions as the store keeps them, and the two service
 * operations that write them: `start`, which opens a transaction, and
 * `confirm`, which closes one with its order.
 *
 * The store has two partial unique indexes, one on the passport token and
 * one on the order number of the result. They are modelled as maps from the
 * indexed value to the id of the transaction that holds it. A write that
 * would put a second transaction under a value already in an index fails,
 * and both services report that failure as `AlreadyInUse`.
 *
 * Every call into another system is an argument here: the seller lookup,
 * passport verification, the authorize-action search, the payment-number
 * allocator `publish`, both clock readings and the print token.
 */
module TransactionStore {
  import opened Base
  import opened Domain
  import opened PlaceOrder
  import opened PotentialActions

  /** The seller document found by identifier. */
  datatype SellerRecord = SellerRecord(
    id: string,
    typeOf: string,
    identifier: Option<string>,
    name: MultilingualString,
    url: Option<string>)

  datatype StartParams = StartParams(
    sellerIdentifier: string,
    agent: Agent,
    passportToken: Option<string>,
    expires: Instant)

  datatype ConfirmParams = ConfirmParams(
    agentId: string,
    transactionId: string,
    paymentMethod: string,
    /** `potentialActions.order.potentialActions.informOrder`, `None` when any level is missing */
    informOrder: Option<seq<InformOrderParam>>)

  /** What `confirm` returns. */
  datatype ConfirmResult = ConfirmResult(order: Order, printToken: string)

  /** What `confirm` writes back: the confirmed transaction and its potential actions. */
  datatype Confirmation = Confirmation(tx: Transaction, potentialActions: OrderAction)

  const DuplicatePassport := AlreadyInUse("transaction", ["passportToken"])
  const DuplicateOrderNumber := AlreadyInUse("transaction", ["result.order.orderNumber"])

  // ---------------------------------------------------------------------------
  // start

  /** The new in-progress transaction, with no authorize actions and no result. */
  function Opened(p: StartParams, id: string, seller: SellerRecord, now: Instant): Transaction {
    Transaction(id, InProgress, p.agent, TransactionSeller(seller.id, seller.typeOf, seller.name, seller.url),
                p.passportToken, [], p.expires, now, None)
  }

  /**
   * `start`. `seller` is the seller found by the requested identifier,
   * `verified` the claims that passport verification returns for the token
   * (`None` when verification throws), `issuerSetting` the allowed-issuer
   * setting, and `usedTokens` the passport tokens already in the index.
   */
  function StartOutcome(usedTokens: set<string>, p: StartParams, id: string, seller: Option<SellerRecord>,
                        verified: Option<Passport>, issuerSetting: Option<string>, now: Instant): (r: Result<Transaction>)
    ensures seller.None? ==> r == Err(NotFound("Seller"))
    ensures r.Ok? <==>
      && seller.Some?
      && (p.passportToken.Some? ==>
            && verified.Some? && seller.value.identifier.Some?
            && ValidatePassport(issuerSetting, verified.value, seller.value.identifier.value) == Ok(true)
            && p.passportToken.value !in usedTokens)
    ensures seller.Some? && p.passportToken.Some? && (verified.None? || seller.value.identifier.None?) ==>
      r == Err(Argument("passportToken"))
    ensures seller.Some? && p.passportToken.Some? && verified.Some? && seller.value.identifier.Some? ==>
      match ValidatePassport(issuerSetting, verified.value, seller.value.identifier.value)
      case Err(e) => r == Err(e)
      case Ok(valid) =>
        if !valid then r == Err(Argument("passportToken"))
        else if p.passportToken.value in usedTokens then r == Err(DuplicatePassport)
        else r.Ok?
    ensures r.Ok? ==>
      && r.value.id == id && r.value.status == InProgress && r.value.agent == p.agent
      && r.value.seller.id == seller.value.id && r.value.passportToken == p.passportToken
      && r.value.authorizeActions == [] && r.value.result.None? && r.value.startDate == now
  {
    if seller.None? then Err(NotFound("Seller"))
    else if p.passportToken.Some? && verified.None? then Err(Argument("passportToken"))
    else if p.passportToken.Some? && seller.value.identifier.None? then Err(Argument("passportToken"))
    else if p.passportToken.Some? && ValidatePassport(issuerSetting, verified.value, seller.value.identifier.value).Err? then
      Err(ValidatePassport(issuerSetting, verified.value, seller.value.identifier.value).error)
    else if p.passportToken.Some? && !ValidatePassport(issuerSetting, verified.value, seller.value.identifier.value).value then
      Err(Argument("passportToken"))
    else if p.passportToken.Some? && p.passportToken.value in usedTokens then Err(DuplicatePassport)
    else Ok(Opened(p, id, seller.value, now))
  }

  // ---------------------------------------------------------------------------
  // confirm

  /** `findInProgressById`: only an in-progress transaction is found. */
  function FindInProgress(txs: map<string, Transaction>, id: string): (r: Result<Transaction>)
    ensures r.Ok? <==> id in txs && txs[id].status == InProgress
    ensures r.Ok? ==> r.value == txs[id]
    ensures r.Err? ==> r.error == NotFound("Transaction")
  {
    if id in txs && txs[id].status == InProgress then Ok(txs[id]) else Err(NotFound("Transaction"))
  }

  /**
   * The checks and derivations of `confirm` after the end-date filter, on
   * the transaction carrying the settled actions. `orderDate` is the clock
   * reading of the order, and `publish` turns a `YYYYMMDD` day key into the
   * next payment number of that day.
   */
  function Prepare(tx: Transaction, p: ConfirmParams, publish: string -> string, orderDate: Instant,
                   paymentMethodTypes: seq<string>): (r: Result<Confirmation>)
    ensures CanBeClosed(tx, p.paymentMethod).Err? ==> r == Err(CanBeClosed(tx, p.paymentMethod).error)
    ensures CanBeClosed(tx, p.paymentMethod).Ok? && SeatAction(tx.authorizeActions).None? ==>
      r == Err(Argument("transactionId"))
    ensures (CanBeClosed(tx, p.paymentMethod).Ok? && SeatAction(tx.authorizeActions).Some? &&
             SeatAction(tx.authorizeActions).value.event.None?) ==> r == Err(TypeError)
    ensures (CanBeClosed(tx, p.paymentMethod).Ok? && SeatAction(tx.authorizeActions).Some? &&
             SeatAction(tx.authorizeActions).value.event.Some?) ==>
      var day := SeatAction(tx.authorizeActions).value.event.value.startDay;
      var created := CreateResult(publish(FormatYYYYMMDD(day)), tx, orderDate, paymentMethodTypes);
      && (created.Err? ==> r == Err(created.error))
      && (created.Ok? && PotentialActionsOf(tx.(result := Some(created.value)), created.value, p.informOrder).Err? ==>
            r == Err(PotentialActionsOf(tx.(result := Some(created.value)), created.value, p.informOrder).error))
      && (created.Ok? && PotentialActionsOf(tx.(result := Some(created.value)), created.value, p.informOrder).Ok? ==> r.Ok?)
    ensures r.Ok? ==>
      && CanBeClosed(tx, p.paymentMethod) == Ok(true)
      && SeatAction(tx.authorizeActions).Some? && SeatAction(tx.authorizeActions).value.event.Some?
      && var day := SeatAction(tx.authorizeActions).value.event.value.startDay;
         && r.value.tx.result.Some?
         && r.value.tx == tx.(status := Confirmed, authorizeActions := DefaultInstruments(tx.authorizeActions),
                              result := r.value.tx.result)
         && r.value.tx.result.value.orderNumber == OrderNumber(day, publish(FormatYYYYMMDD(day)))
         && CreateResult(publish(FormatYYYYMMDD(day)), tx, orderDate, paymentMethodTypes) == Ok(r.value.tx.result.value)
         && PotentialActionsOf(tx.(result := r.value.tx.result), r.value.tx.result.value, p.informOrder)
            == Ok(r.value.potentialActions)
  {
    var closable :- CanBeClosed(tx, p.paymentMethod);
    var seat := SeatAction(tx.authorizeActions);
    if seat.None? then Err(Argument("transactionId"))
    else if seat.value.event.None? then Err(TypeError)
    else
      var paymentNo := publish(FormatYYYYMMDD(seat.value.event.value.startDay));
      var order :- CreateResult(paymentNo, tx, orderDate, paymentMethodTypes);
      var withResult := tx.(result := Some(order));
      var actions :- PotentialActionsOf(withResult, order, p.informOrder);
      Ok(Confirmation(withResult.(status := Confirmed, authorizeActions := DefaultInstruments(tx.authorizeActions)), actions))
  }

  /** Defaulting the instruments of the settled actions leaves them settled. */
  lemma {:induction false} SettledStaySettled(actions: seq<AuthorizeAction>, now: Instant)
    ensures var d := DefaultInstruments(SettledActions(actions, now));
      forall k :: 0 <= k < |d| ==> d[k].endDate.Some? && d[k].endDate.value < now
  {
    var s := SettledActions(actions, now);
    var d := DefaultInstruments(s);
    forall k | 0 <= k < |d|
      ensures d[k].endDate == s[k].endDate
    {
      assert d[k].(instrument := s[k].instrument) == s[k];
    }
  }

  /**
   * `confirm`, on the store's transactions and order-number index: the
   * transaction as it is to be stored, or the error `confirm` throws.
   * `searched` is what the action search returns for the transaction and
   * `now` the clock reading the end-date filter compares with.
   */
  function ConfirmOutcome(txs: map<string, Transaction>, usedOrderNumbers: set<string>, p: ConfirmParams, now: Instant,
                          searched: seq<AuthorizeAction>, publish: string -> string, orderDate: Instant,
                          paymentMethodTypes: seq<string>): (r: Result<Confirmation>)
    ensures !(p.transactionId in txs && txs[p.transactionId].status == InProgress) ==> r == Err(NotFound("Transaction"))
    ensures p.transactionId in txs && txs[p.transactionId].status == InProgress && txs[p.transactionId].agent.id != p.agentId ==>
      r == Err(Forbidden)
    ensures p.transactionId in txs && txs[p.transactionId].status == InProgress && txs[p.transactionId].agent.id == p.agentId ==>
      var tx := txs[p.transactionId].(authorizeActions := SettledActions(searched, now));
      var prepared := Prepare(tx, p, publish, orderDate, paymentMethodTypes);
      && (CanBeClosed(tx, p.paymentMethod).Err? ==> r == Err(CanBeClosed(tx, p.paymentMethod).error))
      && (CanBeClosed(tx, p.paymentMethod).Ok? && SeatAction(tx.authorizeActions).None? ==> r == Err(Argument("transactionId")))
      && (prepared.Err? ==> r == Err(prepared.error))
      && (prepared.Ok? ==> (r == Err(DuplicateOrderNumber) <==> prepared.value.tx.result.value.orderNumber in usedOrderNumbers))
      && (prepared.Ok? && prepared.value.tx.result.value.orderNumber !in usedOrderNumbers ==> r == Ok(prepared.value))
    ensures r.Ok? ==> r.value.tx.result.Some?
  {
    var tx :- FindInProgress(txs, p.transactionId);
    if tx.agent.id != p.agentId then Err(Forbidden)
    else
      var c :- Prepare(tx.(authorizeActions := SettledActions(searched, now)), p, publish, orderDate, paymentMethodTypes);
      if c.tx.result.value.orderNumber in usedOrderNumbers then Err(DuplicateOrderNumber)
      else Ok(c)
  }

  /**
   * A successful `confirm` stores the in-progress transaction of the agent
   * confirmed, with a result under a fresh order number derived from the
   * seat event's day, and with only actions that had ended before `now`,
   * their instruments defaulted; and the price gate passed on those actions.
   */
  lemma {:induction false} ConfirmOutcomeConfirms(txs: map<string, Transaction>, usedOrderNumbers: set<string>, p: ConfirmParams, now: Instant,
                               searched: seq<AuthorizeAction>, publish: string -> string, orderDate: Instant,
                               paymentMethodTypes: seq<string>)
    requires ConfirmOutcome(txs, usedOrderNumbers, p, now, searched, publish, orderDate, paymentMethodTypes).Ok?
    ensures p.transactionId in txs
    ensures var r := ConfirmOutcome(txs, usedOrderNumbers, p, now, searched, publish, orderDate, paymentMethodTypes);
      var old_ := txs[p.transactionId];
      var settled := SettledActions(searched, now);
      var stored := r.value.tx;
      && old_.status == InProgress && old_.agent.id == p.agentId
      && CanBeClosed(old_.(authorizeActions := settled), p.paymentMethod) == Ok(true)
      && stored.status == Confirmed
      && stored == old_.(status := Confirmed, authorizeActions := stored.authorizeActions, result := stored.result)
      && stored.authorizeActions == DefaultInstruments(settled)
      && stored.result.Some?
      && stored.result.value.orderNumber !in usedOrderNumbers
      && SeatAction(settled).Some? && SeatAction(settled).value.event.Some?
      && var day := SeatAction(settled).value.event.value.startDay;
         && stored.result.value.orderNumber == OrderNumber(day, publish(FormatYYYYMMDD(day)))
         && CreateResult(publish(FormatYYYYMMDD(day)), old_.(authorizeActions := settled), orderDate, paymentMethodTypes)
            == Ok(stored.result.value)
         && PotentialActionsOf(old_.(authorizeActions := settled, result := stored.result), stored.result.value, p.informOrder)
            == Ok(r.value.potentialActions)
    ensures var r := ConfirmOutcome(txs, usedOrderNumbers, p, now, searched, publish, orderDate, paymentMethodTypes);
      forall k :: 0 <= k < |r.value.tx.authorizeActions| ==>
        r.value.tx.authorizeActions[k].endDate.Some? && r.value.tx.authorizeActions[k].endDate.value < now
  {
    SettledStaySettled(searched, now);
    var tx := txs[p.transactionId];
    assert Prepare(tx.(authorizeActions := SettledActions(searched, now)), p, publish, orderDate, paymentMethodTypes)
        == ConfirmOutcome(txs, usedOrderNumbers, p, now, searched, publish, orderDate, paymentMethodTypes);
  }

  /**
   * The steps of `confirm` between the end-date filter and the store write,
   * in the order the service takes them: the price gate, the seat
   * authorization, the payment number, the order, and the potential actions,
   * whose compilation also defaults the instruments of the actions that are
   * stored.
   */
  method PrepareConfirmation(tx: Transaction, p: ConfirmParams, publish: string -> string, orderDate: Instant,
                             paymentMethodTypes: seq<string>) returns (r: Result<Confirmation>)
    ensures r == Prepare(tx, p, publish, orderDate, paymentMethodTypes)
  {
    var closable := CanBeClosed(tx, p.paymentMethod);
    if closable.Err? {
      return Err(closable.error);
    }
    var seat := SeatAction(tx.authorizeActions);
    if seat.None? {
      return Err(Argument("transactionId"));
    }
    if seat.value.event.None? {
      return Err(TypeError);
    }
    var paymentNo := publish(FormatYYYYMMDD(seat.value.event.value.startDay));
    var created := CreateResult(paymentNo, tx, orderDate, paymentMethodTypes);
    if created.Err? {
      return Err(created.error);
    }
    var order := created.value;
    var withResult := tx.(result := Some(order));
    var compiled, stored := CreatePotentialActions(withResult, order, p.informOrder);
    if compiled.Err? {
      return Err(compiled.error);
    }
    r := Ok(Confirmation(withResult.(status := Confirmed, authorizeActions := stored), compiled.value));
  }

  /** Actions that had not ended when `confirm` started make no difference to it. */
  lemma {:induction false} ConfirmIgnoresLate(txs: map<string, Transaction>, usedOrderNumbers: set<string>, p: ConfirmParams, now: Instant,
                           front: seq<AuthorizeAction>, late: AuthorizeAction, back: seq<AuthorizeAction>,
                           publish: string -> string, orderDate: Instant, paymentMethodTypes: seq<string>)
    requires late.endDate.None? || late.endDate.value >= now
    ensures ConfirmOutcome(txs, usedOrderNumbers, p, now, front + [late] + back, publish, orderDate, paymentMethodTypes)
         == ConfirmOutcome(txs, usedOrderNumbers, p, now, front + back, publish, orderDate, paymentMethodTypes)
  {
    SettledIgnoresLate(front, late, back, now);
  }

  // ---------------------------------------------------------------------------
  // The unique indexes

  /**
   * The indexes are exact: every stored transaction has an id equal to its key
   * and has no result while in progress; the passport index holds precisely the
   * tokens of the stored transactions, each under the id of its holder; and
   * the order-number index holds precisely the order numbers of their
   * results, each under the id of its holder.
   */
  ghost predicate Indexed(txs: map<string, Transaction>, passportIndex: map<string, string>, orderNumberIndex: map<string, string>) {
    && (forall id :: id in txs ==> txs[id].id == id)
    && (forall id :: id in txs && txs[id].status == InProgress ==> txs[id].result.None?)
    && (forall id :: id in txs && txs[id].passportToken.Some? ==>
          && txs[id].passportToken.value in passportIndex
          && passportIndex[txs[id].passportToken.value] == id)
    && (forall t :: t in passportIndex ==>
          passportIndex[t] in txs && txs[passportIndex[t]].passportToken == Some(t))
    && (forall id :: id in txs && txs[id].result.Some? ==>
          && txs[id].result.value.orderNumber in orderNumberIndex
          && orderNumberIndex[txs[id].result.value.orderNumber] == id)
    && (forall n :: n in orderNumberIndex ==>
          && orderNumberIndex[n] in txs
          && txs[orderNumberIndex[n]].result.Some?
          && txs[orderNumberIndex[n]].result.value.orderNumber == n)
  }

  /** Exact indexes make both values unique: no two stored transactions share a passport token or an order number. */
  lemma {:induction false} IndexedMeansUnique(txs: map<string, Transaction>, passportIndex: map<string, string>,
                           orderNumberIndex: map<string, string>, a: string, b: string)
    requires Indexed(txs, passportIndex, orderNumberIndex)
    requires a in txs && b in txs && a != b
    ensures txs[a].passportToken.Some? ==> txs[a].passportToken != txs[b].passportToken
    ensures txs[a].result.Some? && txs[b].result.Some? ==>
      txs[a].result.value.orderNumber != txs[b].result.value.orderNumber
  {
  }

  /** Storing a new in-progress transaction whose token is not yet indexed, and indexing its token, keeps the indexes exact. */
  lemma {:induction false} IndexedAfterStart(txs: map<string, Transaction>, passportIndex: map<string, string>,
                          orderNumberIndex: map<string, string>, t: Transaction)
    requires Indexed(txs, passportIndex, orderNumberIndex)
    requires t.id !in txs && t.status == InProgress && t.result.None?
    requires t.passportToken.Some? ==> t.passportToken.value !in passportIndex
    ensures Indexed(txs[t.id := t],
                    if t.passportToken.Some? then passportIndex[t.passportToken.value := t.id] else passportIndex,
                    orderNumberIndex)
  {
    assert forall k :: k in passportIndex ==> passportIndex[k] != t.id;
    assert forall n :: n in orderNumberIndex ==> orderNumberIndex[n] != t.id;
  }

  /**
   * Replacing an in-progress transaction by its confirmed form, with the same
   * passport token and a result whose order number is not yet indexed, and
   * indexing that order number, keeps the indexes exact.
   */
  lemma {:induction false} IndexedAfterConfirm(txs: map<string, Transaction>, passportIndex: map<string, string>,
                            orderNumberIndex: map<string, string>, t: Transaction)
    requires Indexed(txs, passportIndex, orderNumberIndex)
    requires t.id in txs && txs[t.id].status == InProgress && t.passportToken == txs[t.id].passportToken
    requires t.status == Confirmed && t.result.Some? && t.result.value.orderNumber !in orderNumberIndex
    ensures Indexed(txs[t.id := t], passportIndex, orderNumberIndex[t.result.value.orderNumber := t.id])
  {
    assert forall n :: n in orderNumberIndex ==> orderNumberIndex[n] != t.id;
  }

  // ---------------------------------------------------------------------------
  // The store

  class TransactionStore {
    var transactions: map<string, Transaction>
    /** The unique index on `object.passportToken`. */
    var passportIndex: map<string, string>
    /** The unique index on `result.order.orderNumber`. */
    var orderNumberIndex: map<string, string>
    var potentialActions: map<string, OrderAction>

    ghost predicate Valid()
      reads this
    {
      Indexed(transactions, passportIndex, orderNumberIndex) && potentialActions.Keys <= transactions.Keys
    }

    constructor()
      ensures Valid()
      ensures transactions == map[] && potentialActions == map[]
    {
      transactions := map[];
      passportIndex := map[];
      orderNumberIndex := map[];
      potentialActions := map[];
    }

    /**
     * `start`: on success the new transaction is stored under `id`, a fresh
     * id the store allocates, and its passport token enters the index;
     * on failure nothing changes.
     */
    method Start(p: StartParams, id: string, seller: Option<SellerRecord>, verified: Option<Passport>,
                 issuerSetting: Option<string>, now: Instant) returns (r: Result<Transaction>)
      requires Valid()
      requires id !in transactions
      modifies this
      ensures Valid()
      ensures r == StartOutcome(old(passportIndex).Keys, p, id, seller, verified, issuerSetting, now)
      ensures r.Ok? ==> transactions == old(transactions)[id := r.value]
      ensures r.Err? ==> transactions == old(transactions)
      ensures orderNumberIndex == old(orderNumberIndex) && potentialActions == old(potentialActions)
    {
      r := StartOutcome(passportIndex.Keys, p, id, seller, verified, issuerSetting, now);
      if r.Ok? {
        IndexedAfterStart(transactions, passportIndex, orderNumberIndex, r.value);
        transactions := transactions[id := r.value];
        if p.passportToken.Some? {
          passportIndex := passportIndex[p.passportToken.value := id];
        }
      }
    }

    /**
     * `confirm`: on success the transaction is stored confirmed, with its
     * settled authorize actions, its order and its potential actions, and
     * the order number enters the index; on failure nothing changes.
     */
    method Confirm(p: ConfirmParams, now: Instant, searched: seq<AuthorizeAction>, publish: string -> string,
                   orderDate: Instant, paymentMethodTypes: seq<string>, printToken: string)
      returns (r: Result<ConfirmResult>)
      requires Valid()
      modifies this
      ensures Valid()
      ensures var c := ConfirmOutcome(old(transactions), old(orderNumberIndex).Keys, p, now, searched, publish,
                                      orderDate, paymentMethodTypes);
        && (c.Err? ==> r == Err(c.error) && transactions == old(transactions) && potentialActions == old(potentialActions))
        && (c.Ok? ==>
              && r == Ok(ConfirmResult(c.value.tx.result.value, printToken))
              && transactions == old(transactions)[p.transactionId := c.value.tx]
              && potentialActions == old(potentialActions)[p.transactionId := c.value.potentialActions])
      ensures passportIndex == old(passportIndex)
    {
      var found := FindInProgress(transactions, p.transactionId);
      if found.Err? {
        return Err(found.error);
      }
      var tx := found.value;
      if tx.agent.id != p.agentId {
        return Err(Forbidden);
      }
      var prepared := PrepareConfirmation(tx.(authorizeActions := SettledActions(searched, now)), p, publish,
                                          orderDate, paymentMethodTypes);
      if prepared.Err? {
        return Err(prepared.error);
      }
      var c := prepared.value;
      var order := c.tx.result.value;
      if order.orderNumber in orderNumberIndex {
        return Err(DuplicateOrderNumber);
      }
      assert ConfirmOutcome(transactions, orderNumberIndex.Keys, p, now, searched, publish, orderDate,
                            paymentMethodTypes) == Ok(c);
      ConfirmOutcomeConfirms(transactions, orderNumberIndex.Keys, p, now, searched, publish, orderDate, paymentMethodTypes);
      assert c.tx.id == p.transactionId;
      Store(c);
      r := Ok(ConfirmResult(order, printToken));
    }

    /**
     * The store write of `confirm`: the confirmed transaction replaces the
     * in-progress one, its potential actions are kept beside it, and its
     * order number enters the index.
     */
    method Store(c: Confirmation)
      requires Valid()
      requires c.tx.id in transactions && transactions[c.tx.id].status == InProgress
      requires c.tx.passportToken == transactions[c.tx.id].passportToken
      requires c.tx.status == Confirmed && c.tx.result.Some? && c.tx.result.value.orderNumber !in orderNumberIndex
      modifies this
      ensures Valid()
      ensures transactions == old(transactions)[c.tx.id := c.tx]
      ensures orderNumberIndex == old(orderNumberIndex)[c.tx.result.value.orderNumber := c.tx.id]
      ensures potentialActions == old(potentialActions)[c.tx.id := c.potentialActions]
      ensures passportIndex == old(passportIndex)
    {
      IndexedAfterConfirm(transactions, passportIndex, orderNumberIndex, c.tx);
      transactions := transactions[c.tx.id := c.tx];
      orderNumberIndex := orderNumberIndex[c.tx.result.value.orderNumber := c.tx.id];
      potentialActions := potentialActions[c.tx.id := c.potentialActions];
    }
  }

  /** A transaction is confirmed at most once: once stored confirmed, `confirm` no longer finds it. */
  lemma {:induction false} ConfirmedOnce(txs: map<string, Transaction>, c: Confirmation, usedOrderNumbers: set<string>, p: ConfirmParams,
                      now: Instant, searched: seq<AuthorizeAction>, publish: string -> string, orderDate: Instant,
                      paymentMethodTypes: seq<string>)
    requires c.tx.status == Confirmed
    ensures ConfirmOutcome(txs[p.transactionId := c.tx], usedOrderNumbers, p, now, searched, publish, orderDate,
                           paymentMethodTypes) == Err(NotFound("Transaction"))
  {
  }
}
