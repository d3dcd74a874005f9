/**
 * `POST /api/subscription/cancel`: look up the caller's active row, cancel
 * at the provider, then mark the row cancelled locally — in that order.
 */
module CancelRoute {
  import opened Common
  import opened SubscriptionStore

  datatype CancelBody = Success | ErrorBody(error: string)

  /** The provider call the route made: none, or a cancel of this subscription id. */
  datatype ProviderCall = NoCall | CancelCall(subscriptionId: Option<string>)

  /**
   * `lookupOk` is false when the query itself errs; `providerOk` is whether
   * the provider's cancel returned rather than threw; `updateAccepted` is
   * the store's verdict on the local update.
   */
  method CancelSubscription(db: Database, auth: Auth, lookupOk: bool, providerOk: bool,
                            updateAccepted: bool, now: int)
    returns (resp: Response<CancelBody>, call: ProviderCall)
    modifies db
    ensures db.paymentLogs == old(db.paymentLogs)
    ensures auth.None? ==>
      resp == Response(401, ErrorBody("Unauthorized")) && call == NoCall && db.subscriptions == old(db.subscriptions)
    ensures auth.Some? && (!lookupOk || SelectActive(old(db.subscriptions), auth.value.id).Failed?) ==>
      resp == Response(404, ErrorBody("No active subscription found")) && call == NoCall
      && db.subscriptions == old(db.subscriptions)
    ensures call.CancelCall? <==> auth.Some? && lookupOk && SelectActive(old(db.subscriptions), auth.value.id).Found?
    ensures call.CancelCall? ==> call.subscriptionId == old(db.subscriptions)[auth.value.id].subscriptionId
    ensures call.CancelCall? && !providerOk ==>
      resp == Response(500, ErrorBody("Failed to cancel subscription")) && db.subscriptions == old(db.subscriptions)
    ensures call.CancelCall? && providerOk && !updateAccepted ==>
      resp == Response(500, ErrorBody("Failed to update subscription status")) && db.subscriptions == old(db.subscriptions)
    ensures resp.body == Success <==> call.CancelCall? && providerOk && updateAccepted
    ensures resp.body == Success ==>
      resp.status == 200 && db.subscriptions == UpdateRow(old(db.subscriptions), auth.value.id, CancelledPatch(now))
  {
    if auth.None? {
      return Response(401, ErrorBody("Unauthorized")), NoCall;
    }
    var user := auth.value;
    var lookup := if lookupOk then SelectActive(db.subscriptions, user.id) else Failed("query failed");
    if lookup.Failed? {
      return Response(404, ErrorBody("No active subscription found")), NoCall;
    }
    call := CancelCall(lookup.row.subscriptionId);
    if !providerOk {
      return Response(500, ErrorBody("Failed to cancel subscription")), call;
    }
    db.UpdateSubscriptionRow(user.id, CancelledPatch(now), updateAccepted);
    if !updateAccepted {
      return Response(500, ErrorBody("Failed to update subscription status")), call;
    }
    resp := Response(200, Success);
  }

  /** After a successful cancel the caller has no active row: the status route then shows the free tier. */
  lemma CancelledRowIsNotActive(t: Table, userId: string, now: int)
    requires SelectActive(t, userId).Found?
    ensures SelectActive(UpdateRow(t, userId, CancelledPatch(now)), userId).Failed?
    ensures UpdateRow(t, userId, CancelledPatch(now))[userId].cancelledAt == Some(now)
    ensures UpdateRow(t, userId, CancelledPatch(now))[userId].subscriptionId == t[userId].subscriptionId
  {
  }
}
