/**
 * The payment provider's webhook: a header gate, a signature gate, a parse,
 * then a dispatch on the event type to one of six handlers, each of which
 * writes `user_subscriptions` or `payment_logs` and swallows its own errors.
 */
module WebhookRoute {
  import opened Common
  import opened SubscriptionStore
  import Creem

  /** The `data` object of an event, with the fields the handlers read. */
  datatype EventData = EventData(
    id: string,
    status: string,
    customerId: string,        // customer_id
    subscriptionId: string,    // subscription_id
    periodStart: int,          // current_period_start, epoch seconds
    periodEnd: int,            // current_period_end, epoch seconds
    amount: int,
    currency: string,
    failureReason: Option<string>,
    metadata: Option<map<string, string>>)

  datatype Event = Event(kind: string, data: EventData)

  /** The raw body and the `creem-signature` header. */
  datatype Request = Request(body: string, signature: Option<string>)

  datatype WebhookBody = Received | ErrorBody(error: string)

  /**
   * What the database did for a handler: `createClient()` threw (it runs
   * outside the handler's `try`, so the error escapes), or the client was
   * made and the write was rejected or accepted.
   */
  datatype StoreReply = ClientThrew | WriteRejected | WriteAccepted

  const CheckoutCompletedKind: string := "checkout.session.completed"
  const SubscriptionCreatedKind: string := "subscription.created"
  const SubscriptionUpdatedKind: string := "subscription.updated"
  const SubscriptionCancelledKind: string := "subscription.cancelled"
  const PaymentSucceededKind: string := "payment.succeeded"
  const PaymentFailedKind: string := "payment.failed"

  predicate IsHandledKind(kind: string)
  {
    kind in {CheckoutCompletedKind, SubscriptionCreatedKind, SubscriptionUpdatedKind,
             SubscriptionCancelledKind, PaymentSucceededKind, PaymentFailedKind}
  }

  /** `new Date(seconds * 1000)`, as epoch milliseconds. */
  function EpochMs(seconds: int): int
  {
    seconds * 1000
  }

  function Field(m: map<string, string>, key: string): Option<string>
  {
    if key in m then Some(m[key]) else None
  }

  // ---------------------------------------------------------------------------
  // The state change of each handler, as functions of the tables.
  // ---------------------------------------------------------------------------

  /** The columns `checkout.session.completed` upserts. */
  function CheckoutPatch(d: EventData, planId: Option<string>, now: int): Patch
  {
    Row(planId, Some(d.customerId), Some(d.subscriptionId), Some("active"),
        Some(EpochMs(d.periodStart)), Some(EpochMs(d.periodEnd)), None, Some(now))
  }

  /**
   * `checkout.session.completed` on the table. Without `metadata` the
   * destructuring throws inside the handler's `try`: no write. Without
   * `metadata.userId` the upsert has no key; the store is assumed to
   * reject it (user_id is the key).
   */
  function CheckoutCompleted(t: Table, d: EventData, now: int): (t': Table)
    ensures d.metadata.None? || "userId" !in d.metadata.value ==> t' == t
    ensures d.metadata.Some? && "userId" in d.metadata.value ==>
      var u := d.metadata.value["userId"];
      && t'.Keys == t.Keys + {u}
      && t'[u].status == Some("active")
      && t'[u].planId == (if "planId" in d.metadata.value then Some(d.metadata.value["planId"]) else Existing(t, u).planId)
      && t'[u].customerId == Some(d.customerId)
      && t'[u].subscriptionId == Some(d.subscriptionId)
      && t'[u].periodStartMs == Some(d.periodStart * 1000)
      && t'[u].periodEndMs == Some(d.periodEnd * 1000)
      && t'[u].cancelledAt == Existing(t, u).cancelledAt
      && (forall k :: k in t && k != u ==> t'[k] == t[k])
  {
    match d.metadata
    case None => t
    case Some(m) =>
      if "userId" in m then Upsert(t, m["userId"], CheckoutPatch(d, Field(m, "planId"), now)) else t
  }

  /** The columns `subscription.created` upserts: no plan, no customer. */
  function CreatedPatch(d: EventData, now: int): Patch
  {
    Row(None, None, Some(d.id), Some(d.status),
        Some(EpochMs(d.periodStart)), Some(EpochMs(d.periodEnd)), None, Some(now))
  }

  function SubscriptionCreated(t: Table, d: EventData, now: int): (t': Table)
    ensures d.metadata.None? || "userId" !in d.metadata.value ==> t' == t
    ensures d.metadata.Some? && "userId" in d.metadata.value ==>
      var u := d.metadata.value["userId"];
      && t'.Keys == t.Keys + {u}
      && t'[u].status == Some(d.status)
      && t'[u].subscriptionId == Some(d.id)
      && t'[u].periodStartMs == Some(d.periodStart * 1000)
      && t'[u].periodEndMs == Some(d.periodEnd * 1000)
      && t'[u].planId == Existing(t, u).planId
      && t'[u].customerId == Existing(t, u).customerId
      && (forall k :: k in t && k != u ==> t'[k] == t[k])
  {
    match d.metadata
    case None => t
    case Some(m) =>
      if "userId" in m then Upsert(t, m["userId"], CreatedPatch(d, now)) else t
  }

  function UpdatedPatch(d: EventData, now: int): Patch
  {
    Row(None, None, None, Some(d.status),
        Some(EpochMs(d.periodStart)), Some(EpochMs(d.periodEnd)), None, Some(now))
  }

  function SubscriptionUpdated(t: Table, d: EventData, now: int): (t': Table)
    ensures t'.Keys == t.Keys
    ensures forall k :: k in t && t[k].subscriptionId == Some(d.id) ==>
      && t'[k].status == Some(d.status)
      && t'[k].periodStartMs == Some(d.periodStart * 1000)
      && t'[k].periodEndMs == Some(d.periodEnd * 1000)
      && t'[k].planId == t[k].planId
      && t'[k].cancelledAt == t[k].cancelledAt
    ensures forall k :: k in t && t[k].subscriptionId != Some(d.id) ==> t'[k] == t[k]
  {
    UpdateBySubscription(t, d.id, UpdatedPatch(d, now))
  }

  function SubscriptionCancelled(t: Table, d: EventData, now: int): (t': Table)
    ensures t'.Keys == t.Keys
    ensures forall k :: k in t && t[k].subscriptionId == Some(d.id) ==>
      && t'[k].status == Some("cancelled")
      && t'[k].cancelledAt == Some(now)
      && t'[k].periodStartMs == t[k].periodStartMs
      && t'[k].periodEndMs == t[k].periodEndMs
      && t'[k].planId == t[k].planId
      && t'[k].subscriptionId == t[k].subscriptionId
    ensures forall k :: k in t && t[k].subscriptionId != Some(d.id) ==> t'[k] == t[k]
  {
    UpdateBySubscription(t, d.id, CancelledPatch(now))
  }

  function SucceededEntry(d: EventData, now: int): (e: PaymentLog)
    ensures e.status == "succeeded" && e.failureReason.None?
    ensures e.paymentId == d.id && e.amount == d.amount && e.currency == d.currency
  {
    PaymentLog(d.id, d.amount, d.currency, "succeeded", None, now)
  }

  function FailedEntry(d: EventData, now: int): (e: PaymentLog)
    ensures e.status == "failed" && e.failureReason == d.failureReason
    ensures e.paymentId == d.id && e.amount == d.amount && e.currency == d.currency
  {
    PaymentLog(d.id, d.amount, d.currency, "failed", d.failureReason, now)
  }

  /** Both stores, as one value. */
  datatype Stores = Stores(subscriptions: Table, paymentLogs: seq<PaymentLog>)

  /**
   * The stores after the handler for `e` ran with database reply `reply`.
   * A rejected write, a thrown client and an unknown type change nothing.
   */
  function ApplyEvent(s: Stores, e: Event, reply: StoreReply, now: int): (s': Stores)
    ensures reply != WriteAccepted || !IsHandledKind(e.kind) ==> s' == s
    ensures e.kind in {CheckoutCompletedKind, SubscriptionCreatedKind, SubscriptionUpdatedKind, SubscriptionCancelledKind}
      ==> s'.paymentLogs == s.paymentLogs
    ensures e.kind in {PaymentSucceededKind, PaymentFailedKind} ==> s'.subscriptions == s.subscriptions
    ensures reply == WriteAccepted && e.kind == PaymentSucceededKind ==>
      s'.paymentLogs == s.paymentLogs + [SucceededEntry(e.data, now)]
    ensures reply == WriteAccepted && e.kind == PaymentFailedKind ==>
      s'.paymentLogs == s.paymentLogs + [FailedEntry(e.data, now)]
  {
    if reply != WriteAccepted then s
    else if e.kind == CheckoutCompletedKind then s.(subscriptions := CheckoutCompleted(s.subscriptions, e.data, now))
    else if e.kind == SubscriptionCreatedKind then s.(subscriptions := SubscriptionCreated(s.subscriptions, e.data, now))
    else if e.kind == SubscriptionUpdatedKind then s.(subscriptions := SubscriptionUpdated(s.subscriptions, e.data, now))
    else if e.kind == SubscriptionCancelledKind then s.(subscriptions := SubscriptionCancelled(s.subscriptions, e.data, now))
    else if e.kind == PaymentSucceededKind then s.(paymentLogs := s.paymentLogs + [SucceededEntry(e.data, now)])
    else if e.kind == PaymentFailedKind then s.(paymentLogs := s.paymentLogs + [FailedEntry(e.data, now)])
    else s
  }

  /** `row` with `updated_at` blanked, to compare rows up to the time of the write. */
  function WithoutUpdatedAt(t: Table): Table
  {
    map k | k in t :: t[k].(updatedAt := None)
  }

  /**
   * Redelivering `checkout.session.completed` or `subscription.created` is
   * harmless: applying it twice equals applying it once at the later time,
   * and equals applying it once at the first time up to `updated_at`.
   */
  lemma {:induction false} UpsertEventsIdempotent(s: Stores, e: Event, now1: int, now2: int)
    requires e.kind == CheckoutCompletedKind || e.kind == SubscriptionCreatedKind
    ensures ApplyEvent(ApplyEvent(s, e, WriteAccepted, now1), e, WriteAccepted, now2)
            == ApplyEvent(s, e, WriteAccepted, now2)
    ensures WithoutUpdatedAt(ApplyEvent(ApplyEvent(s, e, WriteAccepted, now1), e, WriteAccepted, now2).subscriptions)
            == WithoutUpdatedAt(ApplyEvent(s, e, WriteAccepted, now1).subscriptions)
  {
    var t := s.subscriptions;
    var d := e.data;
    if d.metadata.Some? && "userId" in d.metadata.value {
      var m := d.metadata.value;
      var u := m["userId"];
      var p1 := if e.kind == CheckoutCompletedKind then CheckoutPatch(d, Field(m, "planId"), now1) else CreatedPatch(d, now1);
      var p2 := if e.kind == CheckoutCompletedKind then CheckoutPatch(d, Field(m, "planId"), now2) else CreatedPatch(d, now2);
      UpsertTwice(t, u, p1, p2);
      var twice := Upsert(Upsert(t, u, p1), u, p2);
      var once := Upsert(t, u, p1);
      assert WithoutUpdatedAt(twice) == WithoutUpdatedAt(once) by {
        assert twice.Keys == once.Keys;
        forall k | k in twice ensures twice[k].(updatedAt := None) == once[k].(updatedAt := None) {
          if k == u {
            assert twice[u] == Overlay(Existing(t, u), p2);
          }
        }
      }
    }
  }

  /** A subscription event never creates a row, matched or not. */
  lemma UpdateEventsNeverInsert(s: Stores, e: Event, reply: StoreReply, now: int)
    requires e.kind == SubscriptionUpdatedKind || e.kind == SubscriptionCancelledKind
    ensures ApplyEvent(s, e, reply, now).subscriptions.Keys == s.subscriptions.Keys
  {
  }

  /** A payment event adds exactly one log entry and no row. */
  lemma PaymentEventsAppendOne(s: Stores, e: Event, now: int)
    requires e.kind == PaymentSucceededKind || e.kind == PaymentFailedKind
    ensures |ApplyEvent(s, e, WriteAccepted, now).paymentLogs| == |s.paymentLogs| + 1
    ensures ApplyEvent(s, e, WriteAccepted, now).paymentLogs[..|s.paymentLogs|] == s.paymentLogs
    ensures ApplyEvent(s, e, WriteAccepted, now).subscriptions == s.subscriptions
  {
  }

  // ---------------------------------------------------------------------------
  // The gates in front of the dispatch.
  // ---------------------------------------------------------------------------

  /** Either the response the route returns before dispatching, or the event to dispatch. */
  datatype Gate = Reject(response: Response<WebhookBody>) | Dispatch(event: Event)

  function BadRequest(error: string): Response<WebhookBody>
  {
    Response(400, ErrorBody(error))
  }

  const ProcessingFailed: Response<WebhookBody> := Response(500, ErrorBody("Webhook processing failed"))

  /**
   * The checks of the route before the `switch`: the header, the signature
   * (whose throws — no secret, a byte-length mismatch — reach the outer
   * `catch`), and `JSON.parse` (`parse` answers `None` where it throws).
   */
  function CheckRequest(req: Request, secret: Option<string>,
                        hmacHex: (string, string) -> string,
                        parse: string -> Option<Event>): (g: Gate)
    ensures !Truthy(req.signature) ==> g == Reject(BadRequest("Missing signature"))
    ensures g.Dispatch? <==>
      && Truthy(req.signature) && secret.Some?
      && req.signature.value == hmacHex(secret.value, req.body)
      && parse(req.body).Some?
    ensures g.Dispatch? ==> g.event == parse(req.body).value
    ensures Truthy(req.signature) && secret.Some?
            && Creem.VerifyWebhookSignature(req.body, req.signature.value, secret.value, hmacHex) == Creem.Compared(false)
            ==> g == Reject(BadRequest("Invalid signature"))
    ensures Truthy(req.signature) && secret.None? ==> g == Reject(ProcessingFailed)
    ensures Truthy(req.signature) && secret.Some? && req.signature.value == hmacHex(secret.value, req.body)
            && parse(req.body).None?
            ==> g == Reject(ProcessingFailed)
    ensures g.Reject? ==> g.response.status in {400, 500}
  {
    if !Truthy(req.signature) then Reject(BadRequest("Missing signature"))
    else if secret.None? then Reject(ProcessingFailed)
    else
      match Creem.VerifyWebhookSignature(req.body, req.signature.value, secret.value, hmacHex)
      case LengthMismatch => Reject(ProcessingFailed)
      case Compared(false) => Reject(BadRequest("Invalid signature"))
      case Compared(true) =>
        match parse(req.body)
        case None => Reject(ProcessingFailed)
        case Some(e) => Dispatch(e)
  }

  /** A signature of the wrong length is answered 500, not 400: the comparison throws. */
  lemma WrongLengthSignatureIs500(req: Request, secret: string,
                                  hmacHex: (string, string) -> string, parse: string -> Option<Event>)
    requires Truthy(req.signature)
    requires Creem.Utf8Length(req.signature.value) != Creem.Utf8Length(hmacHex(secret, req.body))
    ensures CheckRequest(req, Some(secret), hmacHex, parse) == Reject(ProcessingFailed)
  {
  }

  /** The response once the gates let the event through. */
  function Acknowledge(reply: StoreReply, kind: string): (r: Response<WebhookBody>)
    ensures r == Response(200, Received) <==> reply != ClientThrew || !IsHandledKind(kind)
    ensures r != Response(200, Received) ==> r == ProcessingFailed
  {
    if reply == ClientThrew && IsHandledKind(kind) then ProcessingFailed else Response(200, Received)
  }

  /**
   * The webhook endpoint over the database. The HMAC digest and `JSON.parse`
   * are foreign functions, fixed for the handler's lifetime.
   */
  class WebhookHandler {
    const db: Database
    const secret: Option<string>
    const hmacHex: (string, string) -> string
    const parse: string -> Option<Event>

    constructor (db: Database, secret: Option<string>, hmacHex: (string, string) -> string, parse: string -> Option<Event>)
      ensures this.db == db && this.secret == secret && this.hmacHex == hmacHex && this.parse == parse
    {
      this.db := db;
      this.secret := secret;
      this.hmacHex := hmacHex;
      this.parse := parse;
    }

    ghost function State(): Stores
      reads db
    {
      Stores(db.subscriptions, db.paymentLogs)
    }

    method HandleCheckoutCompleted(data: EventData, reply: StoreReply, now: int) returns (escaped: bool)
      modifies db
      ensures escaped <==> reply == ClientThrew
      ensures db.subscriptions == if reply == WriteAccepted then CheckoutCompleted(old(db.subscriptions), data, now) else old(db.subscriptions)
      ensures db.paymentLogs == old(db.paymentLogs)
    {
      if reply == ClientThrew {
        return true;
      }
      escaped := false;
      if data.metadata.None? {
        return;  // destructuring `data.metadata` throws; caught and logged
      }
      var m := data.metadata.value;
      if "userId" !in m {
        return;  // the store refuses a row without its key
      }
      db.UpsertSubscription(m["userId"], CheckoutPatch(data, Field(m, "planId"), now), reply == WriteAccepted);
    }

    method HandleSubscriptionCreated(data: EventData, reply: StoreReply, now: int) returns (escaped: bool)
      modifies db
      ensures escaped <==> reply == ClientThrew
      ensures db.subscriptions == if reply == WriteAccepted then SubscriptionCreated(old(db.subscriptions), data, now) else old(db.subscriptions)
      ensures db.paymentLogs == old(db.paymentLogs)
    {
      if reply == ClientThrew {
        return true;
      }
      escaped := false;
      if data.metadata.None? || "userId" !in data.metadata.value {
        return;
      }
      db.UpsertSubscription(data.metadata.value["userId"], CreatedPatch(data, now), reply == WriteAccepted);
    }

    method HandleSubscriptionUpdated(data: EventData, reply: StoreReply, now: int) returns (escaped: bool)
      modifies db
      ensures escaped <==> reply == ClientThrew
      ensures db.subscriptions == if reply == WriteAccepted then SubscriptionUpdated(old(db.subscriptions), data, now) else old(db.subscriptions)
      ensures db.paymentLogs == old(db.paymentLogs)
    {
      if reply == ClientThrew {
        return true;
      }
      escaped := false;
      db.UpdateSubscriptions(data.id, UpdatedPatch(data, now), reply == WriteAccepted);
    }

    method HandleSubscriptionCancelled(data: EventData, reply: StoreReply, now: int) returns (escaped: bool)
      modifies db
      ensures escaped <==> reply == ClientThrew
      ensures db.subscriptions == if reply == WriteAccepted then SubscriptionCancelled(old(db.subscriptions), data, now) else old(db.subscriptions)
      ensures db.paymentLogs == old(db.paymentLogs)
    {
      if reply == ClientThrew {
        return true;
      }
      escaped := false;
      db.UpdateSubscriptions(data.id, CancelledPatch(now), reply == WriteAccepted);
    }

    method HandlePaymentSucceeded(data: EventData, reply: StoreReply, now: int) returns (escaped: bool)
      modifies db
      ensures escaped <==> reply == ClientThrew
      ensures db.paymentLogs == if reply == WriteAccepted then old(db.paymentLogs) + [SucceededEntry(data, now)] else old(db.paymentLogs)
      ensures db.subscriptions == old(db.subscriptions)
    {
      if reply == ClientThrew {
        return true;
      }
      escaped := false;
      db.InsertPaymentLog(SucceededEntry(data, now), reply == WriteAccepted);
    }

    method HandlePaymentFailed(data: EventData, reply: StoreReply, now: int) returns (escaped: bool)
      modifies db
      ensures escaped <==> reply == ClientThrew
      ensures db.paymentLogs == if reply == WriteAccepted then old(db.paymentLogs) + [FailedEntry(data, now)] else old(db.paymentLogs)
      ensures db.subscriptions == old(db.subscriptions)
    {
      if reply == ClientThrew {
        return true;
      }
      escaped := false;
      db.InsertPaymentLog(FailedEntry(data, now), reply == WriteAccepted);
    }

    /** `POST`: gate, dispatch on the event type, acknowledge. */
    method Handle(req: Request, reply: StoreReply, now: int) returns (resp: Response<WebhookBody>)
      modifies db
      ensures var g := CheckRequest(req, secret, hmacHex, parse);
        && (g.Reject? ==> resp == g.response && State() == old(State()))
        && (g.Dispatch? ==> resp == Acknowledge(reply, g.event.kind)
                            && State() == ApplyEvent(old(State()), g.event, reply, now))
    {
      var gate := CheckRequest(req, secret, hmacHex, parse);
      if gate.Reject? {
        return gate.response;
      }
      var e := gate.event;
      var escaped := false;
      if e.kind == CheckoutCompletedKind {
        escaped := HandleCheckoutCompleted(e.data, reply, now);
      } else if e.kind == SubscriptionCreatedKind {
        escaped := HandleSubscriptionCreated(e.data, reply, now);
      } else if e.kind == SubscriptionUpdatedKind {
        escaped := HandleSubscriptionUpdated(e.data, reply, now);
      } else if e.kind == SubscriptionCancelledKind {
        escaped := HandleSubscriptionCancelled(e.data, reply, now);
      } else if e.kind == PaymentSucceededKind {
        escaped := HandlePaymentSucceeded(e.data, reply, now);
      } else if e.kind == PaymentFailedKind {
        escaped := HandlePaymentFailed(e.data, reply, now);
      }
      resp := if escaped then ProcessingFailed else Response(200, Received);
    }
  }

  /**
   * End to end: an event built by the checkout route (metadata `userId`,
   * `planId`) leaves an active row for that user on that plan, with the
   * period bounds converted from seconds to milliseconds.
   */
  lemma CheckoutMetadataRoundTrip(s: Stores, d: EventData, userId: string, planId: string, email: string, now: int)
    requires d.metadata == Some(map["userId" := userId, "planId" := planId, "userEmail" := email])
    ensures var t' := ApplyEvent(s, Event(CheckoutCompletedKind, d), WriteAccepted, now).subscriptions;
      && userId in t'
      && t'[userId].planId == Some(planId)
      && t'[userId].status == Some("active")
      && t'[userId].periodStartMs == Some(d.periodStart * 1000)
      && t'[userId].periodEndMs == Some(d.periodEnd * 1000)
  {
  }
}
