/**
 * The logic of the place-order transaction (src/service/transaction/placeOrderInProgress.ts):
 * the passport check made when a transaction starts, the price gate and the
 * end-date filter applied when it is confirmed, and the order built from its
 * authorize actions.
 */
module PlaceOrder {
  import opened Base
  import opened Text
  import opened Domain

  const SeatReservationObject := "SeatReservation"
  const CreditCard := "CreditCard"
  const ScopePrefix := "placeOrderTransaction"
  const ReservationConfirmed := "ReservationConfirmed"
  const IssuerUnset := "WAITER_PASSPORT_ISSUER unset"

  // ---------------------------------------------------------------------------
  // Transactions and their authorize actions

  datatype ActionStatus =
    | CompletedActionStatus
    | ActiveActionStatus
    | FailedActionStatus
    | CanceledActionStatus
    | PotentialActionStatus

  /** The service an action was authorized through. */
  datatype Instrument = Instrument(typeOf: string, identifier: string)

  const ChevreInstrument := Instrument("WebAPI", "Chevre")

  datatype TmpReservation = TmpReservation(
    id: string,
    additionalProperty: Option<seq<PropertyValue>>,
    additionalTicketText: Option<string>)

  /** The Chevre reserve transaction a seat authorization opened. */
  datatype ReserveTransaction = ReserveTransaction(id: string, reservations: seq<Reservation>)

  /**
   * The result of an authorize action. Seat reservations fill `price`,
   * `tmpReservations` and `responseBody`; payment authorizations fill the
   * others. `amount` is `Number(result.amount)`, `None` when that is NaN.
   */
  datatype ActionResult = ActionResult(
    amount: Option<int>,
    price: Option<int>,
    paymentMethod: Option<string>,
    paymentStatus: Option<string>,
    paymentMethodId: string,
    accountId: Option<string>,
    name: Option<string>,
    totalPaymentDue: Option<int>,
    additionalProperty: Option<seq<PropertyValue>>,
    tmpReservations: seq<TmpReservation>,
    responseBody: Option<ReserveTransaction>)

  /** The event of a seat reservation, with its start date already in Tokyo time. */
  datatype EventInfo = EventInfo(id: string, startDay: CalendarDate)

  datatype AuthorizeAction = AuthorizeAction(
    id: string,
    actionStatus: ActionStatus,
    agentId: string,
    /** `object.typeOf` */
    objectType: string,
    /** `object.event` */
    event: Option<EventInfo>,
    result: Option<ActionResult>,
    endDate: Option<Instant>,
    instrument: Option<Instrument>)

  datatype Agent = Agent(
    id: string,
    typeOf: string,
    name: Option<string>,
    givenName: Option<string>,
    familyName: Option<string>,
    email: Option<string>,
    telephone: Option<string>,
    gender: Option<string>,
    age: Option<string>,
    address: Option<string>,
    identifier: Option<seq<PropertyValue>>,
    /** `memberOf.membershipNumber` */
    membershipNumber: Option<string>)

  datatype TransactionSeller = TransactionSeller(id: string, typeOf: string, name: MultilingualString, url: Option<string>)

  datatype TransactionStatus = InProgress | Confirmed | Expired | Canceled

  datatype Transaction = Transaction(
    id: string,
    status: TransactionStatus,
    agent: Agent,
    seller: TransactionSeller,
    passportToken: Option<string>,
    authorizeActions: seq<AuthorizeAction>,
    expires: Instant,
    startDate: Instant,
    result: Option<Order>)

  /** The claims of a verified passport. */
  datatype Passport = Passport(iss: string, scope: string)

  // ---------------------------------------------------------------------------
  // Passport check

  /**
   * `validatePassport`: the issuer must be one of the comma-separated issuers
   * of the setting, and the scope's first two `.`-segments must be the
   * place-order prefix and the seller identifier.
   */
  function ValidatePassport(issuerSetting: Option<string>, passport: Passport, sellerIdentifier: string): (r: Result<bool>)
    ensures r.Err? <==> issuerSetting.None?
    ensures r.Err? ==> r.error == Failure(IssuerUnset)
    ensures r.Ok? ==> (r.value <==> passport.iss in Split(issuerSetting.value, ',') && ScopeNames(passport.scope, sellerIdentifier))
  {
    if issuerSetting.None? then Err(Failure(IssuerUnset))
    else
      var issuers := Split(issuerSetting.value, ',');
      var validIssuer := passport.iss in issuers;
      var segments := Split(passport.scope, '.');
      var validScope := segments[0] == ScopePrefix && |segments| > 1 && segments[1] == sellerIdentifier;
      ScopeSegments(passport.scope, sellerIdentifier);
      Ok(validIssuer && validScope)
  }

  /**
   * A scope names a seller when it is `placeOrderTransaction.<seller>`,
   * optionally followed by further `.`-segments, and the seller identifier
   * itself has no `.`.
   */
  predicate ScopeNames(scope: string, seller: string) {
    var head := ScopePrefix + "." + seller;
    '.' !in seller && |head| <= |scope| && scope[..|head|] == head && (|scope| == |head| || scope[|head|] == '.')
  }

  /** A scope whose first two segments are the prefix and the seller names the seller. */
  lemma {:induction false} SegmentsNameSeller(scope: string, seller: string)
    requires var segments := Split(scope, '.');
      segments[0] == ScopePrefix && |segments| > 1 && segments[1] == seller
    ensures ScopeNames(scope, seller)
  {
    var segments := Split(scope, '.');
    var head := ScopePrefix + "." + seller;
    JoinSplit(scope, '.');
    assert segments[1] in segments;
    if |segments| == 2 {
      assert Join(segments[1..], '.') == seller;
      assert scope == head;
    } else {
      var rest := Join(segments[2..], '.');
      assert segments[1..][1..] == segments[2..];
      assert Join(segments[1..], '.') == seller + "." + rest;
      assert scope == head + "." + rest;
      assert scope[..|head|] == head;
    }
  }

  /** A scope that names the seller splits into the prefix, the seller and the rest. */
  lemma {:induction false} SellerSegments(scope: string, seller: string)
    requires ScopeNames(scope, seller)
    ensures var segments := Split(scope, '.');
      segments[0] == ScopePrefix && |segments| > 1 && segments[1] == seller
  {
    var head := ScopePrefix + "." + seller;
    assert ScopePrefix == "placeOrderTransaction";
    assert '.' !in ScopePrefix;
    if |scope| == |head| {
      assert scope == ScopePrefix + "." + seller;
      SplitAtFirst(ScopePrefix, '.', seller);
      SplitNoSeparator(seller, '.');
    } else {
      var rest := scope[|head| + 1..];
      assert scope == ScopePrefix + "." + (seller + "." + rest);
      SplitAtFirst(ScopePrefix, '.', seller + "." + rest);
      SplitAtFirst(seller, '.', rest);
    }
  }

  /** The segment test of `validatePassport` holds exactly when the scope names the seller. */
  lemma {:induction false} ScopeSegments(scope: string, seller: string)
    ensures var segments := Split(scope, '.');
      (segments[0] == ScopePrefix && |segments| > 1 && segments[1] == seller) <==> ScopeNames(scope, seller)
  {
    var segments := Split(scope, '.');
    if segments[0] == ScopePrefix && |segments| > 1 && segments[1] == seller {
      SegmentsNameSeller(scope, seller);
    }
    if ScopeNames(scope, seller) {
      SellerSegments(scope, seller);
    }
  }

  /** An issuer setting written as a comma-separated list accepts exactly the issuers of the list. */
  lemma {:induction false} IssuerList(issuers: seq<string>, iss: string)
    requires |issuers| >= 1
    requires forall i :: 0 <= i < |issuers| ==> ',' !in issuers[i]
    ensures iss in Split(Join(issuers, ','), ',') <==> iss in issuers
  {
    SplitJoin(issuers, ',');
  }

  // ---------------------------------------------------------------------------
  // Selections of authorize actions

  predicate IsCompleted(a: AuthorizeAction) {
    a.actionStatus == CompletedActionStatus
  }

  predicate IsSeatReservationObject(a: AuthorizeAction) {
    a.objectType == SeatReservationObject
  }

  predicate IsCreditCardObject(a: AuthorizeAction) {
    a.objectType == CreditCard
  }

  function AgentIs(id: string): AuthorizeAction -> bool {
    (a: AuthorizeAction) => a.agentId == id
  }

  function Completed(actions: seq<AuthorizeAction>): seq<AuthorizeAction> {
    Filter(actions, IsCompleted)
  }

  /** The completed seat-reservation action `confirm` and `createResult` work from. */
  function SeatAction(actions: seq<AuthorizeAction>): Option<AuthorizeAction> {
    Find(Completed(actions), IsSeatReservationObject)
  }

  /** The completed credit-card action `createResult` takes the GMO order id from. */
  function CardAction(actions: seq<AuthorizeAction>): Option<AuthorizeAction> {
    Find(Completed(actions), IsCreditCardObject)
  }

  /** Whether an action had ended strictly before `now`. */
  function EndedBefore(now: Instant): AuthorizeAction -> bool {
    (a: AuthorizeAction) => a.endDate.Some? && a.endDate.value < now
  }

  /** The end-date filter of `confirm`: actions still running, or ended at or after `now`, are ignored. */
  function SettledActions(actions: seq<AuthorizeAction>, now: Instant): (r: seq<AuthorizeAction>)
    ensures forall i :: 0 <= i < |r| ==> r[i].endDate.Some? && r[i].endDate.value < now
    ensures forall i :: 0 <= i < |actions| && actions[i].endDate.Some? && actions[i].endDate.value < now ==> actions[i] in r
  {
    FilterMembers(actions, EndedBefore(now));
    Filter(actions, EndedBefore(now))
  }

  /** An action that had not ended before `now` makes no difference to what `confirm` sees. */
  lemma {:induction false} SettledIgnoresLate(front: seq<AuthorizeAction>, late: AuthorizeAction, back: seq<AuthorizeAction>, now: Instant)
    requires late.endDate.None? || late.endDate.value >= now
    ensures SettledActions(front + [late] + back, now) == SettledActions(front + back, now)
  {
    var p := EndedBefore(now);
    assert !p(late);
    assert Filter([late], p) == [] by {
      assert [late][1..] == [];
    }
    FilterConcat(front + [late], back, p);
    FilterConcat(front, [late], p);
    FilterConcat(front, back, p);
  }

  /** Filtering a second time keeps the same actions. */
  lemma {:induction false} SettledIdempotent(actions: seq<AuthorizeAction>, now: Instant)
    ensures SettledActions(SettledActions(actions, now), now) == SettledActions(actions, now)
  {
    FilterIdempotent(actions, EndedBefore(now));
  }

  // ---------------------------------------------------------------------------
  // Price gate

  function Amount(r: ActionResult): Option<int> {
    r.amount
  }

  function Price(r: ActionResult): Option<int> {
    r.price
  }

  predicate HasMissingResult(s: seq<AuthorizeAction>) {
    exists i :: 0 <= i < |s| && s[i].result.None?
  }

  /** Every action has a result whose `field` is a number. */
  predicate AllDefined(s: seq<AuthorizeAction>, field: ActionResult -> Option<int>) {
    forall i :: 0 <= i < |s| ==> s[i].result.Some? && field(s[i].result.value).Some?
  }

  /** The plain sum of a field every action defines. */
  function Total(s: seq<AuthorizeAction>, field: ActionResult -> Option<int>): int
    requires AllDefined(s, field)
  {
    if |s| == 0 then 0 else Total(s[..|s| - 1], field) + field(s[|s| - 1].result.value).value
  }

  function AddNumbers(x: Option<int>, y: Option<int>): Option<int> {
    if x.Some? && y.Some? then Some(x.value + y.value) else None
  }

  /**
   * `s.reduce((a, b) => a + b.result.<field>, 0)`: a `TypeError` when some
   * action has no result, NaN (`None`) when some result has no number, and
   * otherwise the sum.
   */
  function SumOf(s: seq<AuthorizeAction>, field: ActionResult -> Option<int>): (r: Result<Option<int>>)
    ensures r.Err? <==> HasMissingResult(s)
    ensures r.Err? ==> r.error == TypeError
    ensures r.Ok? ==> (r.value.Some? <==> AllDefined(s, field))
    ensures r.Ok? && r.value.Some? ==> AllDefined(s, field) && r.value.value == Total(s, field)
  {
    if |s| == 0 then Ok(Some(0))
    else
      var front := s[..|s| - 1];
      var last := s[|s| - 1];
      assert forall i :: 0 <= i < |front| ==> front[i] == s[i];
      assert s == front + [last];
      var sum := SumOf(front, field);
      if sum.Err? then sum
      else if last.result.None? then Err(TypeError)
      else Ok(AddNumbers(sum.value, field(last.result.value)))
  }

  /** The completed actions the card requirement looks at. */
  function CardActions(actions: seq<AuthorizeAction>): seq<AuthorizeAction> {
    Filter(Completed(actions), IsCreditCardObject)
  }

  /** The completed actions of one agent, whose results are summed. */
  function ActionsOf(actions: seq<AuthorizeAction>, agentId: string): seq<AuthorizeAction> {
    Filter(Completed(actions), AgentIs(agentId))
  }

  predicate CardRequirementMet(actions: seq<AuthorizeAction>, paymentMethod: string) {
    paymentMethod != CreditCard || |CardActions(actions)| > 0
  }

  /**
   * `canBeClosed`: paying by credit card needs a completed credit-card
   * authorization; then the amounts the customer authorized must add up to the
   * prices the seller authorized. It returns true or fails; it never returns
   * false.
   */
  function CanBeClosed(tx: Transaction, paymentMethod: string): (r: Result<bool>)
    ensures r.Ok? ==> r.value
    ensures !CardRequirementMet(tx.authorizeActions, paymentMethod) ==> r == Err(Argument("paymentMethod"))
    ensures var byAgent := ActionsOf(tx.authorizeActions, tx.agent.id);
      var bySeller := ActionsOf(tx.authorizeActions, tx.seller.id);
      && (r.Ok? <==>
          CardRequirementMet(tx.authorizeActions, paymentMethod)
          && AllDefined(byAgent, Amount) && AllDefined(bySeller, Price)
          && Total(byAgent, Amount) == Total(bySeller, Price))
      && (CardRequirementMet(tx.authorizeActions, paymentMethod) && r.Err? ==>
          if HasMissingResult(byAgent) || HasMissingResult(bySeller) then r.error == TypeError
          else r.error == Argument("transactionId"))
  {
    if !CardRequirementMet(tx.authorizeActions, paymentMethod) then Err(Argument("paymentMethod"))
    else
      var byAgent :- SumOf(ActionsOf(tx.authorizeActions, tx.agent.id), Amount);
      var bySeller :- SumOf(ActionsOf(tx.authorizeActions, tx.seller.id), Price);
      if byAgent.None? || bySeller.None? || byAgent.value != bySeller.value then Err(Argument("transactionId"))
      else Ok(true)
  }

  lemma {:induction false} TotalConcat(a: seq<AuthorizeAction>, b: seq<AuthorizeAction>, field: ActionResult -> Option<int>)
    requires AllDefined(a, field) && AllDefined(b, field)
    ensures AllDefined(a + b, field) && Total(a + b, field) == Total(a, field) + Total(b, field)
    decreases |b|
  {
    if |b| == 0 {
      assert a + b == a;
    } else {
      var b' := b[..|b| - 1];
      assert (a + b)[..|a + b| - 1] == a + b';
      assert (a + b)[|a + b| - 1] == b[|b| - 1];
      TotalConcat(a, b', field);
    }
  }

  lemma {:induction false} AllDefinedPermutation(a: seq<AuthorizeAction>, b: seq<AuthorizeAction>, field: ActionResult -> Option<int>)
    requires multiset(a) == multiset(b) && AllDefined(a, field)
    ensures AllDefined(b, field)
  {
    forall j | 0 <= j < |b|
      ensures b[j].result.Some? && field(b[j].result.value).Some?
    {
      assert b[j] in multiset(a);
      var i :| 0 <= i < |a| && a[i] == b[j];
    }
  }

  /** Taking one action out of a sum subtracts its value. */
  lemma {:induction false} TotalRemove(b: seq<AuthorizeAction>, j: nat, field: ActionResult -> Option<int>)
    requires j < |b| && AllDefined(b, field)
    ensures AllDefined(b[..j] + b[j + 1..], field)
    ensures Total(b, field) == Total(b[..j] + b[j + 1..], field) + field(b[j].result.value).value
  {
    var b1, b2 := b[..j], b[j + 1..];
    assert b == b1 + [b[j]] + b2;
    assert AllDefined(b1, field) && AllDefined(b2, field) && AllDefined([b[j]], field);
    TotalConcat(b1, [b[j]], field);
    TotalConcat(b1 + [b[j]], b2, field);
    TotalConcat(b1, b2, field);
    assert Total([b[j]], field) == field(b[j].result.value).value by {
      assert [b[j]][..0] == [];
    }
  }

  lemma {:induction false} MultisetRemove(a: seq<AuthorizeAction>, b: seq<AuthorizeAction>, j: nat)
    requires |a| > 0 && j < |b| && b[j] == a[|a| - 1] && multiset(a) == multiset(b)
    ensures multiset(a[..|a| - 1]) == multiset(b[..j] + b[j + 1..])
  {
    var x := a[|a| - 1];
    assert a == a[..|a| - 1] + [x];
    assert b == b[..j] + [x] + b[j + 1..];
    assert multiset(a[..|a| - 1]) == multiset(a) - multiset([x]);
    assert multiset(b[..j] + b[j + 1..]) == multiset(b) - multiset([x]);
  }

  /** The sum does not depend on the order of the actions. */
  lemma {:induction false} TotalPermutation(a: seq<AuthorizeAction>, b: seq<AuthorizeAction>, field: ActionResult -> Option<int>)
    requires multiset(a) == multiset(b) && AllDefined(a, field)
    ensures AllDefined(b, field) && Total(a, field) == Total(b, field)
    decreases |a|
  {
    AllDefinedPermutation(a, b, field);
    if |a| > 0 {
      var x := a[|a| - 1];
      assert x in multiset(b);
      var j :| 0 <= j < |b| && b[j] == x;
      MultisetRemove(a, b, j);
      TotalPermutation(a[..|a| - 1], b[..j] + b[j + 1..], field);
      TotalRemove(b, j, field);
    }
  }

  lemma {:induction false} MissingResultPermutation(a: seq<AuthorizeAction>, b: seq<AuthorizeAction>)
    requires multiset(a) == multiset(b)
    ensures HasMissingResult(a) == HasMissingResult(b)
  {
    if HasMissingResult(a) {
      var i :| 0 <= i < |a| && a[i].result.None?;
      assert a[i] in multiset(b);
      var j :| 0 <= j < |b| && b[j] == a[i];
    }
    if HasMissingResult(b) {
      var j :| 0 <= j < |b| && b[j].result.None?;
      assert b[j] in multiset(a);
      var i :| 0 <= i < |a| && a[i] == b[j];
    }
  }

  lemma {:induction false} SumOfPermutation(a: seq<AuthorizeAction>, b: seq<AuthorizeAction>, field: ActionResult -> Option<int>)
    requires multiset(a) == multiset(b)
    ensures SumOf(a, field) == SumOf(b, field)
  {
    MissingResultPermutation(a, b);
    if AllDefined(a, field) {
      TotalPermutation(a, b, field);
    }
    if AllDefined(b, field) {
      AllDefinedPermutation(b, a, field);
    }
  }

  /** The gate's verdict does not depend on the order in which the actions were found. */
  lemma {:induction false} CanBeClosedPermutation(tx: Transaction, actions: seq<AuthorizeAction>, paymentMethod: string)
    requires multiset(actions) == multiset(tx.authorizeActions)
    ensures CanBeClosed(tx.(authorizeActions := actions), paymentMethod) == CanBeClosed(tx, paymentMethod)
  {
    var tx' := tx.(authorizeActions := actions);
    FilterPermutation(actions, tx.authorizeActions, IsCompleted);
    FilterPermutation(Completed(actions), Completed(tx.authorizeActions), IsCreditCardObject);
    assert |CardActions(actions)| == |CardActions(tx.authorizeActions)| by {
      assert |multiset(CardActions(actions))| == |multiset(CardActions(tx.authorizeActions))|;
    }
    FilterPermutation(Completed(actions), Completed(tx.authorizeActions), AgentIs(tx.agent.id));
    FilterPermutation(Completed(actions), Completed(tx.authorizeActions), AgentIs(tx.seller.id));
    SumOfPermutation(ActionsOf(actions, tx.agent.id), ActionsOf(tx.authorizeActions, tx.agent.id), Amount);
    SumOfPermutation(ActionsOf(actions, tx.seller.id), ActionsOf(tx.authorizeActions, tx.seller.id), Price);
  }

  // ---------------------------------------------------------------------------
  // Order and confirmation numbers

  /** `TT-<YYMMDD of the event start>-<paymentNo>`. */
  function OrderNumber(day: CalendarDate, paymentNo: string): (s: string)
    ensures |s| == 10 + |paymentNo|
    ensures s[..3] == "TT-" && s[3..9] == FormatYYMMDD(day) && s[9] == '-' && s[10..] == paymentNo
  {
    "TT-" + FormatYYMMDD(day) + "-" + paymentNo
  }

  /** `<YYYYMMDD of the event start><paymentNo>`. */
  function ConfirmationNumber(day: CalendarDate, paymentNo: string): (s: string)
    ensures |s| == 8 + |paymentNo|
    ensures s[..8] == FormatYYYYMMDD(day) && s[8..] == paymentNo
  {
    FormatYYYYMMDD(day) + paymentNo
  }

  /** Order numbers coincide exactly when the payment numbers do and the dates agree modulo the century. */
  lemma {:induction false} OrderNumberInjective(d1: CalendarDate, p1: string, d2: CalendarDate, p2: string)
    ensures OrderNumber(d1, p1) == OrderNumber(d2, p2)
        <==> p1 == p2 && d1.year % 100 == d2.year % 100 && d1.month == d2.month && d1.day == d2.day
  {
    FormatYYMMDDEqual(d1, d2);
  }

  /** Confirmation numbers coincide exactly when the dates and the payment numbers do. */
  lemma {:induction false} ConfirmationNumberInjective(d1: CalendarDate, p1: string, d2: CalendarDate, p2: string)
    ensures ConfirmationNumber(d1, p1) == ConfirmationNumber(d2, p2) <==> d1 == d2 && p1 == p2
  {
    FormatYYYYMMDDInjective(d1, d2);
  }

  // ---------------------------------------------------------------------------
  // Payment methods of the order

  /** Whether an action has a result paid with method `t`. */
  function PaysWith(t: string): AuthorizeAction -> bool {
    (a: AuthorizeAction) => a.result.Some? && a.result.value.paymentMethod == Some(t)
  }

  /** The order's payment-method entry for an authorization result. */
  function PaymentMethodOf(res: ActionResult, t: string): PaymentMethod {
    PaymentMethod(res.accountId, res.additionalProperty.GetOr([]), res.name, res.paymentMethodId, res.totalPaymentDue, t)
  }

  /** The entries one payment-method type contributes, in action order. */
  function MethodsOfType(t: string, actions: seq<AuthorizeAction>): seq<PaymentMethod> {
    if |actions| == 0 then []
    else
      var a := actions[|actions| - 1];
      MethodsOfType(t, actions[..|actions| - 1])
        + (if IsCompleted(a) && PaysWith(t)(a) then [PaymentMethodOf(a.result.value, t)] else [])
  }

  /** The order's payment methods: for each type in enumeration order, the entries of that type. */
  function PaymentMethodsOf(types: seq<string>, actions: seq<AuthorizeAction>): seq<PaymentMethod> {
    if |types| == 0 then []
    else PaymentMethodsOf(types[..|types| - 1], actions) + MethodsOfType(types[|types| - 1], actions)
  }

  /** The nested loop of `createResult` that pushes the payment methods. */
  method CollectPaymentMethods(types: seq<string>, actions: seq<AuthorizeAction>) returns (methods: seq<PaymentMethod>)
    ensures methods == PaymentMethodsOf(types, actions)
  {
    methods := [];
    var i := 0;
    assert types[..0] == [];
    while i < |types|
      invariant 0 <= i <= |types|
      invariant methods == PaymentMethodsOf(types[..i], actions)
    {
      var t := types[i];
      var j := 0;
      assert actions[..0] == [];
      while j < |actions|
        invariant 0 <= j <= |actions|
        invariant methods == PaymentMethodsOf(types[..i], actions) + MethodsOfType(t, actions[..j])
      {
        var a := actions[j];
        if IsCompleted(a) && PaysWith(t)(a) {
          methods := methods + [PaymentMethodOf(a.result.value, t)];
        }
        assert actions[..j + 1][..j] == actions[..j];
        j := j + 1;
      }
      assert actions[..j] == actions;
      assert types[..i + 1][..i] == types[..i];
      i := i + 1;
    }
    assert types[..i] == types;
  }

  lemma {:induction false} MethodsOfTypeMembers(t: string, actions: seq<AuthorizeAction>)
    ensures forall k :: 0 <= k < |MethodsOfType(t, actions)| ==> MethodsOfType(t, actions)[k].typeOf == t
    ensures forall i :: 0 <= i < |actions| && IsCompleted(actions[i]) && PaysWith(t)(actions[i]) ==>
                PaymentMethodOf(actions[i].result.value, t) in MethodsOfType(t, actions)
  {
    if |actions| > 0 {
      var front := actions[..|actions| - 1];
      MethodsOfTypeMembers(t, front);
      assert forall i :: 0 <= i < |front| ==> front[i] == actions[i];
    }
  }

  /**
   * Every payment-method entry has one of the enumerated types, and every
   * completed action paid with an enumerated type contributes its entry.
   */
  lemma {:induction false} PaymentMethodsOfMembers(types: seq<string>, actions: seq<AuthorizeAction>)
    ensures forall k :: 0 <= k < |PaymentMethodsOf(types, actions)| ==> PaymentMethodsOf(types, actions)[k].typeOf in types
    ensures forall i, n :: 0 <= i < |actions| && 0 <= n < |types| && IsCompleted(actions[i]) && PaysWith(types[n])(actions[i]) ==>
                PaymentMethodOf(actions[i].result.value, types[n]) in PaymentMethodsOf(types, actions)
  {
    if |types| > 0 {
      var front := types[..|types| - 1];
      var t := types[|types| - 1];
      PaymentMethodsOfMembers(front, actions);
      MethodsOfTypeMembers(t, actions);
      assert forall n :: 0 <= n < |front| ==> front[n] == types[n];
      var r := PaymentMethodsOf(types, actions);
      assert r == PaymentMethodsOf(front, actions) + MethodsOfType(t, actions);
      forall k | 0 <= k < |r|
        ensures r[k].typeOf in types
      {
        if k < |PaymentMethodsOf(front, actions)| {
          assert r[k] == PaymentMethodsOf(front, actions)[k];
        } else {
          assert r[k] == MethodsOfType(t, actions)[k - |PaymentMethodsOf(front, actions)|];
        }
      }
    }
  }

  // ---------------------------------------------------------------------------
  // Confirmed reservations

  /** What `createResult` hands `temporaryReservation2confirmed` besides the two reservations. */
  datatype ConfirmContext = ConfirmContext(
    tx: Transaction,
    orderNumber: string,
    paymentNo: string,
    gmoOrderId: string,
    bookingTime: Instant,
    paymentMethodName: Option<string>)

  function IdentifierEntriesOf(ctx: ConfirmContext): seq<PropertyValue> {
    var agent := ctx.tx.agent;
    [ PropertyValue("orderNumber", ctx.orderNumber),
      PropertyValue("paymentNo", ctx.paymentNo),
      PropertyValue("transaction", ctx.tx.id),
      PropertyValue("gmoOrderId", ctx.gmoOrderId) ]
    + (if agent.age.Some? then [PropertyValue("age", agent.age.value)] else [])
    + agent.identifier.GetOr([])
    + (if agent.membershipNumber.Some? then [PropertyValue("username", agent.membershipNumber.value)] else [])
    + (if ctx.paymentMethodName.Some? then [PropertyValue("paymentMethod", ctx.paymentMethodName.value)] else [])
  }

  function FullName(agent: Agent): string {
    Interpolate(agent.givenName) + " " + Interpolate(agent.familyName)
  }

  /**
   * `temporaryReservation2confirmed`: the Chevre reservation, confirmed,
   * booked at the order date, named after the customer, and carrying the
   * temporary reservation's properties with its seat index appended.
   */
  function ConfirmReservation(tmp: TmpReservation, chevre: Reservation, ctx: ConfirmContext, index: nat): (r: Reservation)
    ensures r.id == chevre.id && r.reservationFor == chevre.reservationFor && r.reservedTicket == chevre.reservedTicket
    ensures r.reservationStatus == ReservationConfirmed && r.bookingTime == Some(ctx.bookingTime)
    ensures |r.additionalProperty| >= 1
    ensures r.additionalProperty[..|r.additionalProperty| - 1] == tmp.additionalProperty.GetOr([])
    ensures r.additionalProperty[|r.additionalProperty| - 1] == PropertyValue("paymentSeatIndex", NatToString(index))
    ensures r.underName.Some? && r.underName.value.id == ctx.tx.agent.id
    ensures r.underName.value.identifier.Some? && |r.underName.value.identifier.value| >= 4
    ensures r.underName.value.identifier.value[..4] ==
      [ PropertyValue("orderNumber", ctx.orderNumber), PropertyValue("paymentNo", ctx.paymentNo),
        PropertyValue("transaction", ctx.tx.id), PropertyValue("gmoOrderId", ctx.gmoOrderId) ]
    ensures r.additionalTicketText == tmp.additionalTicketText
  {
    var agent := ctx.tx.agent;
    var underName := UnderName(
      agent.id, FullName(agent), agent.familyName, agent.givenName, agent.email,
      agent.telephone, agent.gender, agent.address, Some(IdentifierEntriesOf(ctx)));
    var props := tmp.additionalProperty.GetOr([]) + [PropertyValue("paymentSeatIndex", NatToString(index))];
    assert props[..|props| - 1] == tmp.additionalProperty.GetOr([]);
    chevre.(
      bookingTime := Some(ctx.bookingTime),
      reservationStatus := ReservationConfirmed,
      underName := Some(underName),
      additionalProperty := props,
      additionalTicketText := tmp.additionalTicketText)
  }

  /** The seat index a confirmed reservation carries reads back as its position. */
  lemma {:induction false} PaymentSeatIndexReadsBack(tmp: TmpReservation, chevre: Reservation, ctx: ConfirmContext, index: nat)
    requires forall i :: 0 <= i < |tmp.additionalProperty.GetOr([])| ==> tmp.additionalProperty.GetOr([])[i].name != "paymentSeatIndex"
    ensures var r := ConfirmReservation(tmp, chevre, ctx, index);
      FindValue(r.additionalProperty, "paymentSeatIndex") == Some(NatToString(index))
      && StringToNumber(NatToString(index)) == Some(index)
  {
    var props := ConfirmReservation(tmp, chevre, ctx, index).additionalProperty;
    var own := tmp.additionalProperty.GetOr([]);
    assert props == own + [PropertyValue("paymentSeatIndex", NatToString(index))];
    FindValueSkips(own, [PropertyValue("paymentSeatIndex", NatToString(index))], "paymentSeatIndex");
    NumberOfIntToString(index);
  }

  /** The `transaction` identifier of a confirmed reservation is the transaction's id. */
  lemma {:induction false} ConfirmedReservationNamesTransaction(tmp: TmpReservation, chevre: Reservation, ctx: ConfirmContext, index: nat)
    ensures FindValueIn(ConfirmReservation(tmp, chevre, ctx, index).underName.value.identifier, "transaction") == Some(ctx.tx.id)
  {
    var ids := ConfirmReservation(tmp, chevre, ctx, index).underName.value.identifier.value;
    var head := ids[..2];
    assert ids == head + ids[2..];
    FindValueSkips(head, ids[2..], "transaction");
  }

  function HasId(id: string): Reservation -> bool {
    (r: Reservation) => r.id == id
  }

  function FindReservation(reservations: seq<Reservation>, id: string): Option<Reservation> {
    Find(reservations, HasId(id))
  }

  /**
   * `tmpReservations.map(...)` in `createResult`, from position `k` on: each
   * temporary reservation must have a Chevre reservation with its id, and
   * naming the payment method reads `paymentMethods[0]`, which is a
   * `TypeError` when there is none.
   */
  function ConfirmReservations(tmps: seq<TmpReservation>, chevres: seq<Reservation>, ctx: ConfirmContext,
                               firstPayment: Option<PaymentMethod>, k: nat): (r: Result<seq<Reservation>>)
    ensures r.Ok? <==>
              && (|tmps| == 0 || firstPayment.Some?)
              && forall i :: 0 <= i < |tmps| ==> FindReservation(chevres, tmps[i].id).Some?
    ensures r.Err? && firstPayment.Some? ==> r.error == Argument("Transaction")
    ensures r.Err? && firstPayment.None? ==>
      r.error == if FindReservation(chevres, tmps[0].id).Some? then TypeError else Argument("Transaction")
    ensures r.Ok? ==> |r.value| == |tmps| && forall i :: 0 <= i < |tmps| ==>
      r.value[i].id == tmps[i].id && r.value[i].reservationStatus == ReservationConfirmed
    decreases |tmps|
  {
    if |tmps| == 0 then Ok([])
    else
      var found := FindReservation(chevres, tmps[0].id);
      if found.None? then Err(Argument("Transaction"))
      else if firstPayment.None? then Err(TypeError)
      else
        var rest := ConfirmReservations(tmps[1..], chevres, ctx, firstPayment, k + 1);
        assert forall i :: 1 <= i < |tmps| ==> tmps[i] == tmps[1..][i - 1];
        if rest.Err? then rest
        else
          var head := ConfirmReservation(tmps[0], found.value, ctx.(paymentMethodName := firstPayment.value.name), k);
          Ok([head] + rest.value)
  }

  /** Entry `i` confirms the first Chevre reservation with the same id, at seat index `k + i`. */
  lemma {:induction false} ConfirmReservationsEntry(tmps: seq<TmpReservation>, chevres: seq<Reservation>, ctx: ConfirmContext,
                                                    firstPayment: Option<PaymentMethod>, k: nat, i: nat)
    requires ConfirmReservations(tmps, chevres, ctx, firstPayment, k).Ok?
    requires i < |tmps|
    ensures FindReservation(chevres, tmps[i].id).Some? && firstPayment.Some?
    ensures ConfirmReservations(tmps, chevres, ctx, firstPayment, k).value[i]
      == ConfirmReservation(tmps[i], FindReservation(chevres, tmps[i].id).value,
                            ctx.(paymentMethodName := firstPayment.value.name), k + i)
    decreases |tmps|
  {
    var found := FindReservation(chevres, tmps[0].id);
    var named := ctx.(paymentMethodName := firstPayment.value.name);
    var rest := ConfirmReservations(tmps[1..], chevres, ctx, firstPayment, k + 1);
    assert ConfirmReservations(tmps, chevres, ctx, firstPayment, k) == Ok([ConfirmReservation(tmps[0], found.value, named, k)] + rest.value);
    if i > 0 {
      ConfirmReservationsEntry(tmps[1..], chevres, ctx, firstPayment, k + 1, i - 1);
      assert tmps[1..][i - 1] == tmps[i];
    }
  }

  // ---------------------------------------------------------------------------
  // The order

  /** The unit price of a confirmed reservation: its ticket type's price, 0 without one. */
  function UnitPrice(r: Reservation): int {
    var spec := r.reservedTicket.ticketType.priceSpecification;
    if spec.Some? then spec.value.price else 0
  }

  /** `eventReservations.reduce((a, b) => a + unitPrice(b), 0)`. */
  function SumUnitPrices(rs: seq<Reservation>): int {
    if |rs| == 0 then 0 else SumUnitPrices(rs[..|rs| - 1]) + UnitPrice(rs[|rs| - 1])
  }

  function OfferFor(r: Reservation, sellerName: string): AcceptedOffer {
    AcceptedOffer(EventReservation(r), Some(UnitPrice(r) as real), None, sellerName)
  }

  function OffersFor(rs: seq<Reservation>, sellerName: string): (offers: seq<AcceptedOffer>)
    ensures |offers| == |rs|
    ensures forall i :: 0 <= i < |rs| ==> offers[i] == OfferFor(rs[i], sellerName)
  {
    if |rs| == 0 then [] else OffersFor(rs[..|rs| - 1], sellerName) + [OfferFor(rs[|rs| - 1], sellerName)]
  }

  /** The sum of the offers' prices, an undefined price counting as 0. */
  function SumOfferPrices(offers: seq<AcceptedOffer>): real {
    if |offers| == 0 then 0.0 else SumOfferPrices(offers[..|offers| - 1]) + offers[|offers| - 1].price.GetOr(0.0)
  }

  /** The order's price is the sum of the prices of its accepted offers. */
  lemma {:induction false} OrderPriceIsSumOfOffers(rs: seq<Reservation>, sellerName: string)
    ensures SumUnitPrices(rs) as real == SumOfferPrices(OffersFor(rs, sellerName))
  {
    if |rs| > 0 {
      var offers := OffersFor(rs, sellerName);
      assert offers[..|offers| - 1] == OffersFor(rs[..|rs| - 1], sellerName);
      OrderPriceIsSumOfOffers(rs[..|rs| - 1], sellerName);
    }
  }

  function CustomerOf(agent: Agent): Customer {
    Customer(agent.id, agent.typeOf, FullName(agent), agent.givenName, agent.familyName, agent.email,
             agent.telephone, agent.gender, agent.age, agent.address, Some(agent.identifier.GetOr([])),
             agent.membershipNumber, "")
  }

  function OrderSellerOf(seller: TransactionSeller): OrderSeller {
    OrderSeller(seller.id, seller.typeOf, seller.name.ja, seller.url.GetOr(""))
  }

  /** The GMO order id: the payment method id of the first completed credit-card action, '' without one. */
  function GmoOrderId(actions: seq<AuthorizeAction>): string {
    var card := CardAction(actions);
    if card.Some? && card.value.result.Some? then card.value.result.value.paymentMethodId else ""
  }

  /** The order `createResult` assembles around the confirmed reservations. */
  function OrderOf(tx: Transaction, day: CalendarDate, paymentNo: string, orderDate: Instant,
                   methods: seq<PaymentMethod>, rs: seq<Reservation>): (order: Order)
    ensures order.orderNumber == OrderNumber(day, paymentNo)
    ensures order.confirmationNumber == ConfirmationNumber(day, paymentNo)
    ensures |order.acceptedOffers| == |rs|
    ensures forall i :: 0 <= i < |rs| ==> order.acceptedOffers[i].itemOffered == EventReservation(rs[i])
    ensures forall i :: 0 <= i < |rs| ==> order.acceptedOffers[i].price == Some(UnitPrice(rs[i]) as real)
    ensures order.price == SumUnitPrices(rs)
    ensures order.price as real == SumOfferPrices(order.acceptedOffers)
    ensures order.paymentMethods == methods
    ensures order.orderStatus == OrderDelivered && !order.isGift && order.discounts == []
    ensures order.priceCurrency == "JPY" && order.orderDate == orderDate && order.customer.id == tx.agent.id
  {
    var offers := OffersFor(rs, tx.seller.name.ja);
    OrderPriceIsSumOfOffers(rs, tx.seller.name.ja);
    Order(
      OrderSellerOf(tx.seller), CustomerOf(tx.agent), offers, ConfirmationNumber(day, paymentNo),
      OrderNumber(day, paymentNo), SumUnitPrices(rs), "JPY", methods, [], "", OrderDelivered, orderDate,
      false, None, None)
  }

  /**
   * The reservations `createResult` confirms, once the seat authorization, its
   * result, the result's response body and the event are known to exist: the
   * temporary reservations matched with their Chevre twins, named after the
   * first payment method.
   */
  function ConfirmedReservationsOf(paymentNo: string, tx: Transaction, orderDate: Instant, paymentMethodTypes: seq<string>)
    : Result<seq<Reservation>>
    requires SeatAction(tx.authorizeActions).Some? && SeatAction(tx.authorizeActions).value.result.Some?
    requires SeatAction(tx.authorizeActions).value.result.value.responseBody.Some?
    requires SeatAction(tx.authorizeActions).value.event.Some?
  {
    var seat := SeatAction(tx.authorizeActions).value;
    var res := seat.result.value;
    var day := seat.event.value.startDay;
    var methods := PaymentMethodsOf(paymentMethodTypes, tx.authorizeActions);
    var ctx := ConfirmContext(tx, OrderNumber(day, paymentNo), paymentNo, GmoOrderId(tx.authorizeActions), orderDate, None);
    var first := if |methods| == 0 then None else Some(methods[0]);
    ConfirmReservations(res.tmpReservations, res.responseBody.value.reservations, ctx, first, 0)
  }

  /**
   * `createResult`: the order of a transaction whose actions passed the gate.
   * `orderDate` is the clock reading and `paymentMethodTypes` the order in
   * which the payment-method enumeration lists its values.
   */
  function CreateResult(paymentNo: string, tx: Transaction, orderDate: Instant, paymentMethodTypes: seq<string>): (r: Result<Order>)
    ensures SeatAction(tx.authorizeActions).None? ==> r == Err(TypeError)
    ensures var seat := SeatAction(tx.authorizeActions);
      seat.Some? && seat.value.result.None? ==> r == Err(TypeError)
    ensures var seat := SeatAction(tx.authorizeActions);
      seat.Some? && seat.value.result.Some? && seat.value.result.value.responseBody.None? ==> r == Err(Argument("Transaction"))
    ensures r.Ok? ==>
      var seat := SeatAction(tx.authorizeActions).value;
      var res := seat.result.value;
      var tmps := res.tmpReservations;
      var order := r.value;
      && seat.event.Some? && res.responseBody.Some?
      && order.orderNumber == OrderNumber(seat.event.value.startDay, paymentNo)
      && order.confirmationNumber == ConfirmationNumber(seat.event.value.startDay, paymentNo)
      && |order.acceptedOffers| == |tmps|
      && (forall i :: 0 <= i < |tmps| ==>
            order.acceptedOffers[i].itemOffered.EventReservation?
            && order.acceptedOffers[i].itemOffered.reservation.id == tmps[i].id
            && order.acceptedOffers[i].itemOffered.reservation.reservationStatus == ReservationConfirmed)
      && order.price as real == SumOfferPrices(order.acceptedOffers)
      && order.paymentMethods == PaymentMethodsOf(paymentMethodTypes, tx.authorizeActions)
      && order.orderStatus == OrderDelivered && !order.isGift && order.discounts == []
      && order.priceCurrency == "JPY" && order.orderDate == orderDate && order.customer.id == tx.agent.id
    ensures r.Ok? ==>
      && ConfirmedReservationsOf(paymentNo, tx, orderDate, paymentMethodTypes).Ok?
      && var rs := ConfirmedReservationsOf(paymentNo, tx, orderDate, paymentMethodTypes).value;
         && |rs| == |r.value.acceptedOffers|
         && r.value.price == SumUnitPrices(rs)
         && forall i :: 0 <= i < |rs| ==>
              && r.value.acceptedOffers[i].itemOffered == EventReservation(rs[i])
              && r.value.acceptedOffers[i].price == Some(UnitPrice(rs[i]) as real)
  {
    var seat := SeatAction(tx.authorizeActions);
    if seat.None? || seat.value.result.None? then Err(TypeError)
    else
      var res := seat.value.result.value;
      if res.responseBody.None? then Err(Argument("Transaction"))
      else if seat.value.event.None? then Err(TypeError)
      else
        var day := seat.value.event.value.startDay;
        var methods := PaymentMethodsOf(paymentMethodTypes, tx.authorizeActions);
        var confirmed := ConfirmedReservationsOf(paymentNo, tx, orderDate, paymentMethodTypes);
        if confirmed.Err? then Err(confirmed.error)
        else
          Ok(OrderOf(tx, day, paymentNo, orderDate, methods, confirmed.value))
  }

  /**
   * Past the shape checks, `createResult` fails exactly when a temporary
   * reservation has no Chevre counterpart, or when there are reservations to
   * name a payment method after but no payment method.
   */
  lemma {:induction false} CreateResultFails(paymentNo: string, tx: Transaction, orderDate: Instant, paymentMethodTypes: seq<string>)
    requires SeatAction(tx.authorizeActions).Some?
    requires SeatAction(tx.authorizeActions).value.result.Some?
    requires SeatAction(tx.authorizeActions).value.result.value.responseBody.Some?
    requires SeatAction(tx.authorizeActions).value.event.Some?
    ensures var res := SeatAction(tx.authorizeActions).value.result.value;
      var tmps := res.tmpReservations;
      var chevres := res.responseBody.value.reservations;
      CreateResult(paymentNo, tx, orderDate, paymentMethodTypes).Err? <==>
        || (exists i :: 0 <= i < |tmps| && FindReservation(chevres, tmps[i].id).None?)
        || (|tmps| > 0 && |PaymentMethodsOf(paymentMethodTypes, tx.authorizeActions)| == 0)
  {
    var seat := SeatAction(tx.authorizeActions).value;
    var res := seat.result.value;
    var day := seat.event.value.startDay;
    var methods := PaymentMethodsOf(paymentMethodTypes, tx.authorizeActions);
    var ctx := ConfirmContext(tx, OrderNumber(day, paymentNo), paymentNo, GmoOrderId(tx.authorizeActions), orderDate, None);
    var first := if |methods| == 0 then None else Some(methods[0]);
    var confirmed := ConfirmReservations(res.tmpReservations, res.responseBody.value.reservations, ctx, first, 0);
    assert CreateResult(paymentNo, tx, orderDate, paymentMethodTypes).Err? <==> confirmed.Err?;
  }
}
