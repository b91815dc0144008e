/**
 * The payment webhook: after the signature check, the event name selects one of four handlers,
 * each a keyed update of the stored customers, orders, transactions and subscription histories.
 *
 * The signature check is an oracle `validate` whose `None` means the library threw. The handlers
 * are run to completion in order; each catches its own errors, which here means that a payload
 * missing the entity a handler destructures leaves the store unchanged.
 */
module PaymentWebhook {
  import opened Wrappers
  import opened Lookup

  // ---------------------------------------------------------------- events and routing

  /** The four handlers, and no handler at all. */
  datatype Handler = PaymentHandler | OrderPaid | SubscriptionCharged | SubscriptionStatus | Unhandled

  /** The event names some handler takes. */
  const HandledEvents: set<string> :=
    {"payment.authorized", "payment.captured", "payment.failed", "order.paid", "subscription.charged",
     "subscription.authenticated", "subscription.cancelled", "subscription.completed"}

  /** The `switch (event)`. */
  function Route(event: string): (h: Handler)
    ensures h == PaymentHandler <==> event in {"payment.authorized", "payment.captured", "payment.failed"}
    ensures h == OrderPaid <==> event == "order.paid"
    ensures h == SubscriptionCharged <==> event == "subscription.charged"
    ensures h == SubscriptionStatus
            <==> event in {"subscription.authenticated", "subscription.cancelled", "subscription.completed"}
    ensures h == Unhandled <==> event !in HandledEvents
  {
    match event
    case "payment.authorized" => PaymentHandler
    case "payment.captured" => PaymentHandler
    case "payment.failed" => PaymentHandler
    case "order.paid" => OrderPaid
    case "subscription.charged" => SubscriptionCharged
    case "subscription.authenticated" => SubscriptionStatus
    case "subscription.cancelled" => SubscriptionStatus
    case "subscription.completed" => SubscriptionStatus
    case _ => Unhandled
  }

  // ---------------------------------------------------------------- payloads

  datatype Notes = Notes(credits: int)

  /** `payload.subscription.entity`; `notes` is absent on some subscriptions. */
  datatype SubscriptionEntity = SubscriptionEntity(
    id: string, status: string, planId: string, startAt: int, endAt: int, expireBy: int, notes: Option<Notes>)

  /** `payload.order.entity`. */
  datatype OrderEntity = OrderEntity(id: string)

  /** `payload.payment.entity`. */
  datatype PaymentEntity = PaymentEntity(
    amount: int, contact: string, email: string, id: string, orderId: string,
    payMethod: string, currency: string, status: string)

  /** The payload: each entity is present only for the events that carry it. */
  datatype Payload = Payload(subscription: Option<SubscriptionEntity>, order: Option<OrderEntity>,
                             payment: Option<PaymentEntity>)

  datatype WebhookBody = WebhookBody(event: string, payload: Payload)

  // ---------------------------------------------------------------- stored records

  /** A customer's subscription; `planId` is the path the charged handler writes as `subscription.PlanId`. */
  datatype Subscription = Subscription(subscriptionId: string, status: string, planId: string, credits: int)

  datatype Customer = Customer(id: string, subscription: Subscription)

  datatype Order = Order(id: string, razorpayOrderId: string, status: string)

  /** A stored payment transaction, with the gateway's field names changed. */
  datatype Transaction = Transaction(
    amount: int, email: string, payMethod: string, currency: string, status: string,
    rpPaymentId: string, rpOrderId: string, phone: string)

  datatype HistoryEntry = HistoryEntry(userId: string, planId: string, startDate: int, endDate: int, status: string)

  /** The four collections, in natural order. */
  datatype Db = Db(customers: seq<Customer>, orders: seq<Order>, transactions: seq<Transaction>,
                   histories: seq<HistoryEntry>)

  /** The webhook's HTTP answer. */
  datatype Response = Response(status: int, message: string)

  // ---------------------------------------------------------------- lookups and record updates

  /** The field the subscription handlers filter customers on. */
  function SubscriptionIdOf(c: Customer): string { c.subscription.subscriptionId }

  /** The field `orderPaid` filters orders on. */
  function RazorpayOrderIdOf(o: Order): string { o.razorpayOrderId }

  /** `findOneAndUpdate({'subscription.subscriptionId': id})` picks the first such customer. */
  function FirstSubscriber(customers: seq<Customer>, subscriptionId: string): (r: Option<nat>)
    ensures r.Some? ==> r.value < |customers| && customers[r.value].subscription.subscriptionId == subscriptionId
                        && forall j :: 0 <= j < r.value ==> customers[j].subscription.subscriptionId != subscriptionId
    ensures r.None? ==> forall j :: 0 <= j < |customers| ==> customers[j].subscription.subscriptionId != subscriptionId
  {
    FirstWith(customers, SubscriptionIdOf, subscriptionId)
  }

  /** `findOneAndUpdate({razorpayOrderId})` picks the first such order. */
  function FirstOrder(orders: seq<Order>, razorpayOrderId: string): (r: Option<nat>)
    ensures r.Some? ==> r.value < |orders| && orders[r.value].razorpayOrderId == razorpayOrderId
                        && forall j :: 0 <= j < r.value ==> orders[j].razorpayOrderId != razorpayOrderId
    ensures r.None? ==> forall j :: 0 <= j < |orders| ==> orders[j].razorpayOrderId != razorpayOrderId
  {
    FirstWith(orders, RazorpayOrderIdOf, razorpayOrderId)
  }

  /** The charged update: `$set` status and plan, `$inc` credits; the customer and subscription ids stay. */
  function Charge(c: Customer, e: SubscriptionEntity, credits: int): (r: Customer)
    ensures r.id == c.id && r.subscription.subscriptionId == c.subscription.subscriptionId
    ensures r.subscription.status == e.status && r.subscription.planId == e.planId
    ensures r.subscription.credits - c.subscription.credits == credits
  {
    c.(subscription := c.subscription.(status := e.status, planId := e.planId,
                                       credits := c.subscription.credits + credits))
  }

  /** The status update: only `subscription.status` changes. */
  function SetStatus(c: Customer, status: string): (r: Customer)
    ensures r.subscription.status == status
    ensures r.(subscription := r.subscription.(status := c.subscription.status)) == c
  {
    c.(subscription := c.subscription.(status := status))
  }

  /** The subscription-history record created for an updated customer. */
  function HistoryOf(userId: string, e: SubscriptionEntity): HistoryEntry
  {
    HistoryEntry(userId, e.planId, e.startAt, e.endAt, e.status)
  }

  /** `newPayment`: five fields copied, three renamed; the inverse is PaymentOf. */
  function ToTransaction(p: PaymentEntity): (t: Transaction)
    ensures PaymentOf(t) == p
  {
    Transaction(p.amount, p.email, p.payMethod, p.currency, p.status, p.id, p.orderId, p.contact)
  }

  /** The payment entity a transaction was made from. */
  function PaymentOf(t: Transaction): PaymentEntity
  {
    PaymentEntity(t.amount, t.phone, t.email, t.rpPaymentId, t.rpOrderId, t.payMethod, t.currency, t.status)
  }

  /** The mapping loses nothing in either direction: every transaction comes from exactly one payment entity. */
  lemma TransactionRoundTrip(t: Transaction)
    ensures ToTransaction(PaymentOf(t)) == t
  {
  }

  // ---------------------------------------------------------------- the handlers as state steps

  /** `subscriptionCharged`. A missing entity or missing notes throws before the update and is caught. */
  function ApplyCharged(db: Db, p: Payload): (r: Db)
    ensures r.orders == db.orders && r.transactions == db.transactions
    ensures |r.customers| == |db.customers|
  {
    if p.subscription.None? || p.subscription.value.notes.None? then db
    else
      var e := p.subscription.value;
      match FirstSubscriber(db.customers, e.id)
      case None => db
      case Some(k) =>
        var updated := Charge(db.customers[k], e, e.notes.value.credits);
        db.(customers := db.customers[k := updated], histories := db.histories + [HistoryOf(updated.id, e)])
  }

  /** `subscriptionHandler`: status only. */
  function ApplyStatus(db: Db, p: Payload): (r: Db)
    ensures r.orders == db.orders && r.transactions == db.transactions
    ensures |r.customers| == |db.customers|
  {
    if p.subscription.None? then db
    else
      var e := p.subscription.value;
      match FirstSubscriber(db.customers, e.id)
      case None => db
      case Some(k) =>
        var updated := SetStatus(db.customers[k], e.status);
        db.(customers := db.customers[k := updated], histories := db.histories + [HistoryOf(updated.id, e)])
  }

  /** `orderPaid`. */
  function ApplyOrderPaid(db: Db, p: Payload): (r: Db)
    ensures r.customers == db.customers && r.transactions == db.transactions && r.histories == db.histories
    ensures |r.orders| == |db.orders|
  {
    if p.order.None? then db
    else match FirstOrder(db.orders, p.order.value.id)
      case None => db
      case Some(k) => db.(orders := db.orders[k := db.orders[k].(status := "paid")])
  }

  /** `paymentHandler`. */
  function ApplyPayment(db: Db, p: Payload): (r: Db)
    ensures r.customers == db.customers && r.orders == db.orders && r.histories == db.histories
  {
    if p.payment.None? then db
    else db.(transactions := db.transactions + [ToTransaction(p.payment.value)])
  }

  /**
   * The handler the event selects, applied to the store: an unhandled event changes nothing, only
   * payment events touch the transactions, only order.paid touches the orders, and only the
   * subscription events touch the customers and their histories.
   */
  function Dispatch(db: Db, body: WebhookBody): (r: Db)
    ensures Route(body.event) == Unhandled ==> r == db
    ensures Route(body.event) != PaymentHandler ==> r.transactions == db.transactions
    ensures Route(body.event) != OrderPaid ==> r.orders == db.orders
    ensures Route(body.event) == PaymentHandler || Route(body.event) == OrderPaid ==>
              r.customers == db.customers && r.histories == db.histories
  {
    match Route(body.event)
    case PaymentHandler => ApplyPayment(db, body.payload)
    case OrderPaid => ApplyOrderPaid(db, body.payload)
    case SubscriptionCharged => ApplyCharged(db, body.payload)
    case SubscriptionStatus => ApplyStatus(db, body.payload)
    case Unhandled => db
  }

  /**
   * `paymentWebHook`, given the signature check's outcome: a throw answers 500; otherwise the answer
   * is 200 "webhook success" whether or not the signature was valid, and only a valid one dispatches.
   */
  function HandleWebhook(db: Db, body: WebhookBody, verdict: Option<bool>): (r: (Response, Db))
    ensures r.0 == (if verdict.None? then Response(500, "webhook failed") else Response(200, "webhook success"))
    ensures verdict != Some(true) ==> r.1 == db
  {
    match verdict
    case None => (Response(500, "webhook failed"), db)
    case Some(valid) => (Response(200, "webhook success"), if valid then Dispatch(db, body) else db)
  }

  // ---------------------------------------------------------------- properties

  /** Credits held by all customers. */
  function TotalCredits(customers: seq<Customer>): int
  {
    if |customers| == 0 then 0 else customers[0].subscription.credits + TotalCredits(customers[1..])
  }

  /** Replacing one customer changes the total by the difference in that customer's credits. */
  lemma {:induction false} TotalCreditsUpdate(customers: seq<Customer>, k: nat, c: Customer)
    requires k < |customers|
    ensures TotalCredits(customers[k := c])
            == TotalCredits(customers) + c.subscription.credits - customers[k].subscription.credits
    decreases |customers|
  {
    if k > 0 {
      assert customers[k := c][1..] == customers[1..][k - 1 := c];
      TotalCreditsUpdate(customers[1..], k - 1, c);
    } else {
      assert customers[k := c][1..] == customers[1..];
    }
  }

  /**
   * A charged event with notes: the first customer with the subscription id gets the event's status
   * and plan and `notes.credits` more credits, one history record is added, the total credits rise by
   * exactly `notes.credits`, and every other customer is unchanged. With no such customer nothing changes.
   */
  lemma ChargedUpdatesSubscriber(db: Db, e: SubscriptionEntity, credits: int)
    ensures var r := ApplyCharged(db, Payload(Some(e.(notes := Some(Notes(credits)))), None, None));
            match FirstSubscriber(db.customers, e.id)
            case None => r == db
            case Some(k) =>
              r.customers[k].subscription.status == e.status && r.customers[k].subscription.planId == e.planId
              && r.customers[k].subscription.credits == db.customers[k].subscription.credits + credits
              && (forall j :: 0 <= j < |db.customers| && j != k ==> r.customers[j] == db.customers[j])
              && r.histories == db.histories + [HistoryEntry(db.customers[k].id, e.planId, e.startAt, e.endAt, e.status)]
              && TotalCredits(r.customers) == TotalCredits(db.customers) + credits
  {
    var p := Payload(Some(e.(notes := Some(Notes(credits)))), None, None);
    match FirstSubscriber(db.customers, e.id)
    case None =>
    case Some(k) =>
      TotalCreditsUpdate(db.customers, k, Charge(db.customers[k], e, credits));
  }

  /** A subscription id that no stored customer holds: both subscription events leave the whole store unchanged. */
  lemma ChargedUnknownSubscription(db: Db, p: Payload)
    requires p.subscription.Some?
    requires forall j :: 0 <= j < |db.customers| ==> db.customers[j].subscription.subscriptionId != p.subscription.value.id
    ensures ApplyCharged(db, p) == db && ApplyStatus(db, p) == db
  {
  }

  /** A replayed charged event is applied again: the credits are added twice and two history records exist. */
  lemma ChargedReplayAddsTwice(db: Db, p: Payload)
    requires p.subscription.Some? && p.subscription.value.notes.Some?
    requires FirstSubscriber(db.customers, p.subscription.value.id).Some?
    ensures var twice := ApplyCharged(ApplyCharged(db, p), p);
            TotalCredits(twice.customers) == TotalCredits(db.customers) + 2 * p.subscription.value.notes.value.credits
            && |twice.histories| == |db.histories| + 2
  {
    var e := p.subscription.value;
    var once := ApplyCharged(db, p);
    ChargedUpdatesSubscriber(db, e.(notes := None), e.notes.value.credits);
    assert e.(notes := None).(notes := Some(Notes(e.notes.value.credits))) == e;
    var k := FirstSubscriber(db.customers, e.id).value;
    assert once.customers[k].subscription.subscriptionId == e.id;
    ChargedUpdatesSubscriber(once, e.(notes := None), e.notes.value.credits);
  }

  /**
   * The status event changes only the status of the first matching customer, keeps the credit
   * total, and appends one history record for that customer with the entity's plan, dates and status.
   */
  lemma StatusChangesOnlyStatus(db: Db, p: Payload)
    requires p.subscription.Some?
    ensures var r := ApplyStatus(db, p);
            match FirstSubscriber(db.customers, p.subscription.value.id)
            case None => r == db
            case Some(k) =>
              r.customers == db.customers[k := SetStatus(db.customers[k], p.subscription.value.status)]
              && TotalCredits(r.customers) == TotalCredits(db.customers)
              && r.histories == db.histories + [HistoryOf(db.customers[k].id, p.subscription.value)]
  {
    match FirstSubscriber(db.customers, p.subscription.value.id)
    case None =>
    case Some(k) =>
      TotalCreditsUpdate(db.customers, k, SetStatus(db.customers[k], p.subscription.value.status));
  }

  /** `orderPaid` marks only the first order with the gateway's order id, and a replay changes nothing more. */
  lemma OrderPaidIdempotent(db: Db, p: Payload)
    requires p.order.Some?
    ensures var r := ApplyOrderPaid(db, p);
            ApplyOrderPaid(r, p) == r
            && forall j :: 0 <= j < |db.orders| ==>
                 r.orders[j] == (if Some(j) == FirstOrder(db.orders, p.order.value.id)
                                 then db.orders[j].(status := "paid") else db.orders[j])
  {
    var r := ApplyOrderPaid(db, p);
    match FirstOrder(db.orders, p.order.value.id)
    case None =>
    case Some(k) =>
      SameFirstOrder(db.orders, k, db.orders[k].(status := "paid"), p.order.value.id);
  }

  /** Replacing the first match by a record with the same order id keeps it the first match. */
  lemma SameFirstOrder(orders: seq<Order>, k: nat, o: Order, id: string)
    requires FirstOrder(orders, id) == Some(k) && o.razorpayOrderId == id
    ensures FirstOrder(orders[k := o], id) == Some(k)
  {
    var r := FirstOrder(orders[k := o], id);
    assert orders[k := o][k].razorpayOrderId == id;
    assert forall j :: 0 <= j < k ==> orders[k := o][j] == orders[j];
  }

  /** Every payment event appends exactly one transaction, which gives back the payment entity. */
  lemma PaymentEventsRecordTransaction(db: Db, body: WebhookBody)
    requires Route(body.event) == PaymentHandler && body.payload.payment.Some?
    ensures var r := Dispatch(db, body);
            |r.transactions| == |db.transactions| + 1
            && PaymentOf(r.transactions[|db.transactions|]) == body.payload.payment.value
            && r.transactions[..|db.transactions|] == db.transactions
  {
  }

  /** With an invalid signature or an unhandled event the store is unchanged, and the answer is still 200. */
  lemma NothingDispatched(db: Db, body: WebhookBody, verdict: Option<bool>)
    requires verdict == Some(false) || (verdict == Some(true) && body.event !in HandledEvents)
    ensures HandleWebhook(db, body, verdict) == (Response(200, "webhook success"), db)
  {
  }

  // ---------------------------------------------------------------- the store

  /** The stored collections, changed in place by the handlers. */
  class WebhookStore {
    var customers: seq<Customer>
    var orders: seq<Order>
    var transactions: seq<Transaction>
    var histories: seq<HistoryEntry>

    function State(): Db
      reads this
    {
      Db(customers, orders, transactions, histories)
    }

    constructor (db: Db)
      ensures State() == db
    {
      customers, orders, transactions, histories := db.customers, db.orders, db.transactions, db.histories;
    }

    method SubscriptionChargedHandler(payload: Payload)
      modifies this
      ensures State() == ApplyCharged(old(State()), payload)
    {
      if payload.subscription.None? || payload.subscription.value.notes.None? {
        return;
      }
      var e := payload.subscription.value;
      var found := FirstSubscriber(customers, e.id);
      if found.None? {
        return;
      }
      var k := found.value;
      var user := Charge(customers[k], e, e.notes.value.credits);
      customers := customers[k := user];
      histories := histories + [HistoryOf(user.id, e)];
    }

    method SubscriptionStatusHandler(payload: Payload)
      modifies this
      ensures State() == ApplyStatus(old(State()), payload)
    {
      if payload.subscription.None? {
        return;
      }
      var e := payload.subscription.value;
      var found := FirstSubscriber(customers, e.id);
      if found.None? {
        return;
      }
      var k := found.value;
      var user := SetStatus(customers[k], e.status);
      customers := customers[k := user];
      histories := histories + [HistoryOf(user.id, e)];
    }

    method OrderPaidHandler(payload: Payload)
      modifies this
      ensures State() == ApplyOrderPaid(old(State()), payload)
    {
      if payload.order.None? {
        return;
      }
      var found := FirstOrder(orders, payload.order.value.id);
      if found.Some? {
        orders := orders[found.value := orders[found.value].(status := "paid")];
      }
    }

    method PaymentEventHandler(payload: Payload)
      modifies this
      ensures State() == ApplyPayment(old(State()), payload)
    {
      if payload.payment.Some? {
        transactions := transactions + [ToTransaction(payload.payment.value)];
      }
    }

    /**
     * `paymentWebHook`: `validate` is the signature check on the body, the `x-razorpay-signature`
     * header and the configured secret (`None` when it throws).
     */
    method PaymentWebHook(body: WebhookBody, signature: Option<string>, secret: Option<string>,
                          validate: (WebhookBody, Option<string>, Option<string>) -> Option<bool>)
      returns (response: Response)
      modifies this
      ensures (response, State()) == HandleWebhook(old(State()), body, validate(body, signature, secret))
    {
      var isValid := validate(body, signature, secret);
      if isValid.None? {
        return Response(500, "webhook failed");
      }
      if isValid.value {
        match Route(body.event)
        case PaymentHandler => PaymentEventHandler(body.payload);
        case OrderPaid => OrderPaidHandler(body.payload);
        case SubscriptionCharged => SubscriptionChargedHandler(body.payload);
        case SubscriptionStatus => SubscriptionStatusHandler(body.payload);
        case Unhandled =>
      }
      response := Response(200, "webhook success");
    }
  }
}
