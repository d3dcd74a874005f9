/**
 * `POST /api/create-checkout-session`: validate the body, authenticate,
 * then ask the payment client for a checkout session carrying the user and
 * plan as metadata. No local state is written on this path.
 */
module CheckoutSessionRoute {
  import opened Common
  import Creem

  /** The parsed JSON body; `None` fields are absent. */
  datatype SessionBody = SessionBody(priceId: Option<string>, planId: Option<string>)

  datatype CheckoutBody = UrlBody(url: Option<string>) | ErrorBody(error: string)

  /** The response, and the parameters handed to the payment client (if it was called). */
  datatype SessionOutcome = SessionOutcome(response: Response<CheckoutBody>, clientCall: Option<Creem.CheckoutParams>)

  function SuccessUrl(baseUrl: string): string
  {
    baseUrl + "/checkout/success?session_id={CHECKOUT_SESSION_ID}"
  }

  function CancelUrl(baseUrl: string): string
  {
    baseUrl + "/checkout/cancel"
  }

  /**
   * The metadata the webhook reads back. An absent e-mail is dropped by
   * the JSON encoding, so the key is then missing.
   */
  function SessionMetadata(user: User, planId: string): (m: map<string, string>)
    ensures "userId" in m && m["userId"] == user.id
    ensures "planId" in m && m["planId"] == planId
    ensures "userEmail" in m <==> user.email.Some?
    ensures user.email.Some? ==> m["userEmail"] == user.email.value
    ensures m.Keys <= {"userId", "planId", "userEmail"}
  {
    var m := map["userId" := user.id, "planId" := planId];
    if user.email.Some? then m["userEmail" := user.email.value] else m
  }

  function SessionParams(env: Env, user: User, priceId: string, planId: string): (p: Creem.CheckoutParams)
    ensures p.priceId == priceId && p.customerEmail == user.email
    ensures p.successUrl == SiteUrl(env) + "/checkout/success?session_id={CHECKOUT_SESSION_ID}"
    ensures p.cancelUrl == SiteUrl(env) + "/checkout/cancel"
    ensures p.metadata == Some(SessionMetadata(user, planId))
  {
    var base := SiteUrl(env);
    Creem.CheckoutParams(priceId, SuccessUrl(base), CancelUrl(base), user.email, Some(SessionMetadata(user, planId)))
  }

  /**
   * The route. `body` is `None` when `req.json()` throws. `client` is the
   * payment client, `mockSessionId` the id a mock session would get and
   * `reply` what the provider would answer in real mode.
   */
  function CreateCheckoutSession(env: Env, client: Creem.CreemClient, body: Option<SessionBody>, auth: Auth,
                                 mockSessionId: string, reply: Creem.Remote<Creem.Session>): (o: SessionOutcome)
    ensures body.None? ==> o == SessionOutcome(Response(500, ErrorBody("Failed to create checkout session")), None)
    ensures body.Some? && (!Truthy(body.value.priceId) || !Truthy(body.value.planId)) ==>
      o == SessionOutcome(Response(400, ErrorBody("Missing priceId or planId")), None)
    ensures body.Some? && Truthy(body.value.priceId) && Truthy(body.value.planId) && auth.None? ==>
      o == SessionOutcome(Response(401, ErrorBody("Authentication required")), None)
    ensures o.clientCall.Some? <==>
      body.Some? && Truthy(body.value.priceId) && Truthy(body.value.planId) && auth.Some?
    ensures o.clientCall.Some? ==>
      o.clientCall.value == SessionParams(env, auth.value, body.value.priceId.value, body.value.planId.value)
    ensures o.clientCall.Some? ==>
      var call := client.CreateCheckoutSession(env, o.clientCall.value, mockSessionId, reply);
      && (call.result.Ok? ==> o.response == Response(200, UrlBody(call.result.value.url)))
      && (call.result.Err? ==> o.response == Response(500, ErrorBody("Failed to create checkout session")))
  {
    if body.None? then SessionOutcome(Response(500, ErrorBody("Failed to create checkout session")), None)
    else if !Truthy(body.value.priceId) || !Truthy(body.value.planId) then
      SessionOutcome(Response(400, ErrorBody("Missing priceId or planId")), None)
    else if auth.None? then SessionOutcome(Response(401, ErrorBody("Authentication required")), None)
    else
      var params := SessionParams(env, auth.value, body.value.priceId.value, body.value.planId.value);
      var call := client.CreateCheckoutSession(env, params, mockSessionId, reply);
      match call.result
      case Ok(session) => SessionOutcome(Response(200, UrlBody(session.url)), Some(params))
      case Err(_) => SessionOutcome(Response(500, ErrorBody("Failed to create checkout session")), Some(params))
  }

  /**
   * In mock mode the URL handed back is the local mock checkout page for
   * the plan read off the price id, and nothing is sent to the provider.
   */
  lemma MockModeUrl(env: Env, client: Creem.CreemClient, user: User, priceId: string, planId: string,
                    mockSessionId: string, reply: Creem.Remote<Creem.Session>)
    requires Creem.IsMockMode(env) && priceId != "" && planId != ""
    ensures var o := CreateCheckoutSession(env, client, Some(SessionBody(Some(priceId), Some(planId))), Some(user), mockSessionId, reply);
      && o.response.status == 200
      && o.response.body.url == Some(SiteUrl(env) + Creem.MockQuery(Creem.MockPlanId(priceId), mockSessionId))
  {
  }
}
