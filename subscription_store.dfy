/**
 * The two tables the webhook and the cancel route write: `user_subscriptions`
 * (rows keyed by user_id) and the append-only `payment_logs`.
 *
 * A write sends only some columns. A `Row` whose column is `None` is read
 * two ways: as a stored row it is a SQL null, as a patch it is a column the
 * write does not send. An upsert overlays the patch on the existing row, or
 * on an all-null row when there is none (PostgREST merge-duplicates).
 */
module SubscriptionStore {
  import opened Common

  datatype Row = Row(
    planId: Option<string>,          // plan_id
    customerId: Option<string>,      // creem_customer_id
    subscriptionId: Option<string>,  // creem_subscription_id
    status: Option<string>,          // status
    periodStartMs: Option<int>,      // current_period_start, epoch milliseconds
    periodEndMs: Option<int>,        // current_period_end, epoch milliseconds
    cancelledAt: Option<int>,        // cancelled_at
    updatedAt: Option<int>)          // updated_at

  /** The columns of one write; `None` means "not sent". */
  type Patch = Row

  const NullRow: Row := Row(None, None, None, None, None, None, None, None)

  /** user_subscriptions, keyed by user_id. */
  type Table = map<string, Row>

  function Pick<T>(old_: Option<T>, sent: Option<T>): Option<T>
  {
    if sent.Some? then sent else old_
  }

  /** The row after a write of `patch` onto `base`: sent columns win, the rest are kept. */
  function Overlay(base: Row, patch: Patch): Row
  {
    Row(Pick(base.planId, patch.planId),
        Pick(base.customerId, patch.customerId),
        Pick(base.subscriptionId, patch.subscriptionId),
        Pick(base.status, patch.status),
        Pick(base.periodStartMs, patch.periodStartMs),
        Pick(base.periodEndMs, patch.periodEndMs),
        Pick(base.cancelledAt, patch.cancelledAt),
        Pick(base.updatedAt, patch.updatedAt))
  }

  /** `later` sends every column `earlier` sends. */
  predicate Covers(later: Patch, earlier: Patch)
  {
    && (earlier.planId.Some? ==> later.planId.Some?)
    && (earlier.customerId.Some? ==> later.customerId.Some?)
    && (earlier.subscriptionId.Some? ==> later.subscriptionId.Some?)
    && (earlier.status.Some? ==> later.status.Some?)
    && (earlier.periodStartMs.Some? ==> later.periodStartMs.Some?)
    && (earlier.periodEndMs.Some? ==> later.periodEndMs.Some?)
    && (earlier.cancelledAt.Some? ==> later.cancelledAt.Some?)
    && (earlier.updatedAt.Some? ==> later.updatedAt.Some?)
  }

  /** A later write that sends at least the same columns hides the earlier one entirely. */
  lemma OverlayAbsorbs(base: Row, earlier: Patch, later: Patch)
    requires Covers(later, earlier)
    ensures Overlay(Overlay(base, earlier), later) == Overlay(base, later)
  {
  }

  /** The stored row for `key`, or the all-null row an insert starts from. */
  function Existing(t: Table, key: string): Row
  {
    if key in t then t[key] else NullRow
  }

  /** `upsert` of `patch` for `userId`: insert if absent, else update the sent columns. */
  function Upsert(t: Table, userId: string, patch: Patch): (t': Table)
    ensures t'.Keys == t.Keys + {userId}
    ensures t'[userId] == Overlay(Existing(t, userId), patch)
    ensures forall k :: k in t && k != userId ==> t'[k] == t[k]
  {
    t[userId := Overlay(Existing(t, userId), patch)]
  }

  /** Upserting the same key twice leaves what the second upsert alone would leave, when it sends at least as much. */
  lemma UpsertTwice(t: Table, userId: string, earlier: Patch, later: Patch)
    requires Covers(later, earlier)
    ensures Upsert(Upsert(t, userId, earlier), userId, later) == Upsert(t, userId, later)
  {
    OverlayAbsorbs(Existing(t, userId), earlier, later);
  }

  /** `update(patch).eq('creem_subscription_id', subId)`: never inserts, touches only matching rows. */
  function UpdateBySubscription(t: Table, subId: string, patch: Patch): (t': Table)
    ensures t'.Keys == t.Keys
    ensures forall k :: k in t && t[k].subscriptionId == Some(subId) ==> t'[k] == Overlay(t[k], patch)
    ensures forall k :: k in t && t[k].subscriptionId != Some(subId) ==> t'[k] == t[k]
  {
    map k | k in t :: if t[k].subscriptionId == Some(subId) then Overlay(t[k], patch) else t[k]
  }

  /** `update(patch).eq('id', ...)` on the one row identified by `key`; no row, no change. */
  function UpdateRow(t: Table, key: string, patch: Patch): (t': Table)
    ensures t'.Keys == t.Keys
    ensures key in t ==> t'[key] == Overlay(t[key], patch)
    ensures forall k :: k in t && k != key ==> t'[k] == t[k]
  {
    if key in t then t[key := Overlay(t[key], patch)] else t
  }

  /** The columns both cancellation paths send: status, cancelled_at and updated_at. */
  function CancelledPatch(now: int): Patch
  {
    Row(None, None, None, Some("cancelled"), None, None, Some(now), Some(now))
  }

  /**
   * The answer of `.select('*').eq('user_id', u).eq('status', 'active').single()`:
   * the row, or an error code ("PGRST116" when no row matched).
   */
  datatype Lookup = Found(row: Row) | Failed(code: string)

  const NoRowsCode: string := "PGRST116"

  /** What the active-subscription query answers against table `t`. */
  function SelectActive(t: Table, userId: string): (r: Lookup)
    ensures r.Found? <==> userId in t && t[userId].status == Some("active")
    ensures r.Found? ==> r.row == t[userId] && r.row.status == Some("active")
    ensures r.Failed? ==> r.code == NoRowsCode
  {
    if userId in t && t[userId].status == Some("active") then Found(t[userId]) else Failed(NoRowsCode)
  }

  /** One entry of `payment_logs`. */
  datatype PaymentLog = PaymentLog(
    paymentId: string,               // creem_payment_id
    amount: int,
    currency: string,
    status: string,
    failureReason: Option<string>,
    createdAt: int)

  /**
   * The database as the routes see it. Each write takes the store's verdict
   * `accepted`: a rejected write (the `{ error }` of supabase-js) changes nothing.
   */
  class Database {
    var subscriptions: Table
    var paymentLogs: seq<PaymentLog>

    constructor (subscriptions: Table, paymentLogs: seq<PaymentLog>)
      ensures this.subscriptions == subscriptions && this.paymentLogs == paymentLogs
    {
      this.subscriptions := subscriptions;
      this.paymentLogs := paymentLogs;
    }

    method UpsertSubscription(userId: string, patch: Patch, accepted: bool)
      modifies this
      ensures subscriptions == if accepted then Upsert(old(subscriptions), userId, patch) else old(subscriptions)
      ensures paymentLogs == old(paymentLogs)
    {
      if accepted {
        subscriptions := Upsert(subscriptions, userId, patch);
      }
    }

    method UpdateSubscriptions(subId: string, patch: Patch, accepted: bool)
      modifies this
      ensures subscriptions == if accepted then UpdateBySubscription(old(subscriptions), subId, patch) else old(subscriptions)
      ensures paymentLogs == old(paymentLogs)
    {
      if accepted {
        subscriptions := UpdateBySubscription(subscriptions, subId, patch);
      }
    }

    method UpdateSubscriptionRow(key: string, patch: Patch, accepted: bool)
      modifies this
      ensures subscriptions == if accepted then UpdateRow(old(subscriptions), key, patch) else old(subscriptions)
      ensures paymentLogs == old(paymentLogs)
    {
      if accepted {
        subscriptions := UpdateRow(subscriptions, key, patch);
      }
    }

    method InsertPaymentLog(entry: PaymentLog, accepted: bool)
      modifies this
      ensures paymentLogs == if accepted then old(paymentLogs) + [entry] else old(paymentLogs)
      ensures subscriptions == old(subscriptions)
    {
      if accepted {
        paymentLogs := paymentLogs + [entry];
      }
    }
  }
}
