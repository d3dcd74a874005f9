/**
 * The payment provider client: webhook signature verification, checkout
 * session creation (mock and real mode) and the remote calls, each of which
 * throws its failure on to the caller.
 */
module Creem {
  import opened Common

  const ApiBase: string := "https://test-api.creem.io"

  /** What one remote call (an HTTP request) produced. */
  datatype Remote<T> = Replied(data: T) | Threw(error: string)

  /** What a client method gives its caller: the data, or the error thrown on. */
  datatype Result<T> = Ok(value: T) | Err(error: string)

  /** The catch-log-rethrow of every remote call: nothing is swallowed, nothing invented. */
  function Rethrow<T>(r: Remote<T>): (res: Result<T>)
    ensures res.Err? <==> r.Threw?
    ensures r.Threw? ==> res.error == r.error
    ensures r.Replied? ==> res.value == r.data
  {
    match r
    case Replied(d) => Ok(d)
    case Threw(e) => Err(e)
  }

  datatype Verb = Get | Post

  /** A request to the provider: method, URL and the `x-api-key` header. */
  datatype ApiRequest = ApiRequest(verb: Verb, url: string, apiKey: string)

  /** A remote call: the request sent, and what the caller receives. */
  datatype Call<T> = Call(request: ApiRequest, result: Result<T>)

  function CancelUrl(subscriptionId: string): string
  {
    ApiBase + "/subscriptions/" + subscriptionId + "/cancel"
  }

  /** Distinct subscriptions are cancelled through distinct URLs. */
  lemma CancelUrlInjective(a: string, b: string)
    requires CancelUrl(a) == CancelUrl(b)
    ensures a == b
  {
    var prefix := ApiBase + "/subscriptions/";
    var ua, ub := CancelUrl(a), CancelUrl(b);
    assert |a| == |b|;
    assert ua[|prefix|..|prefix| + |a|] == a;
    assert ub[|prefix|..|prefix| + |b|] == b;
  }

  /** The payment provider client; its API key is fixed at construction. */
  datatype CreemClient = CreemClient(apiKey: string)
  {
    function GetCustomer<T>(customerId: string, reply: Remote<T>): (c: Call<T>)
      ensures c.request == ApiRequest(Get, ApiBase + "/customers/" + customerId, apiKey)
      ensures c.result == Rethrow(reply)
    {
      Call(ApiRequest(Get, ApiBase + "/customers/" + customerId, apiKey), Rethrow(reply))
    }

    function GetSubscription<T>(subscriptionId: string, reply: Remote<T>): (c: Call<T>)
      ensures c.request == ApiRequest(Get, ApiBase + "/subscriptions/" + subscriptionId, apiKey)
      ensures c.result == Rethrow(reply)
    {
      Call(ApiRequest(Get, ApiBase + "/subscriptions/" + subscriptionId, apiKey), Rethrow(reply))
    }

    function CancelSubscription<T>(subscriptionId: string, reply: Remote<T>): (c: Call<T>)
      ensures c.request.verb == Post && c.request.apiKey == apiKey
      ensures c.request.url == CancelUrl(subscriptionId)
      ensures c.result == Rethrow(reply)
      ensures c.result.Err? <==> reply.Threw?
    {
      Call(ApiRequest(Post, CancelUrl(subscriptionId), apiKey), Rethrow(reply))
    }

    /** `createCheckoutSession`: a local mock session in mock mode, otherwise one POST to the provider. */
    function CreateCheckoutSession(env: Env, params: CheckoutParams, mockSessionId: string, reply: Remote<Session>): (c: CheckoutCall)
      ensures IsMockMode(env) ==> c.sent.None? && c.result == Ok(MockSession(env, params, mockSessionId))
      ensures !IsMockMode(env) ==> c.sent == Some(SessionRequestFor(params, apiKey))
      ensures !IsMockMode(env) ==> c.result == Rethrow(reply)
    {
      if IsMockMode(env) then CheckoutCall(None, Ok(MockSession(env, params, mockSessionId)))
      else CheckoutCall(Some(SessionRequestFor(params, apiKey)), Rethrow(reply))
    }
  }

  datatype CheckoutParams = CheckoutParams(
    priceId: string,
    successUrl: string,
    cancelUrl: string,
    customerEmail: Option<string>,
    metadata: Option<map<string, string>>)

  datatype LineItem = LineItem(price: string, quantity: nat)

  /** The body (and key) of the POST to `/checkout/sessions`. */
  datatype SessionRequest = SessionRequest(
    url: string,
    apiKey: string,
    successUrl: string,
    cancelUrl: string,
    lineItems: seq<LineItem>,
    customerEmail: Option<string>,
    metadata: Option<map<string, string>>)

  /** A checkout session as the client returns it. */
  datatype Session = Session(
    id: string,
    url: Option<string>,
    status: Option<string>,
    customerEmail: Option<string>,
    metadata: Option<map<string, string>>)

  /** The request sent to the provider (none in mock mode) and the session or error. */
  datatype CheckoutCall = CheckoutCall(sent: Option<SessionRequest>, result: Result<Session>)

  /** `NODE_ENV === 'development' || CREEM_MOCK_MODE === 'true'` */
  predicate IsMockMode(env: Env)
    ensures env.nodeEnv == Some("development") ==> IsMockMode(env)
    ensures env.nodeEnv != Some("development") ==> (IsMockMode(env) <==> env.creemMockMode == Some("true"))
  {
    env.nodeEnv == Some("development") || env.creemMockMode == Some("true")
  }

  /** The plan a mock session claims, read off the price id. */
  function MockPlanId(priceId: string): (planId: string)
    ensures planId == "enterprise" || planId == "pro"
    ensures planId == "enterprise" <==> exists i: nat :: OccursAt(priceId, "enterprise", i)
  {
    IncludesIffOccurs(priceId, "enterprise");
    if Includes(priceId, "enterprise") then "enterprise" else "pro"
  }

  predicate EndsWith(s: string, suffix: string)
  {
    |suffix| <= |s| && s[|s| - |suffix|..] == suffix
  }

  function MockQuery(planId: string, sessionId: string): string
  {
    "/checkout?plan=" + planId + "&session_id=" + sessionId
  }

  function MockSession(env: Env, params: CheckoutParams, sessionId: string): (s: Session)
    ensures s.id == sessionId && s.status == Some("open")
    ensures s.customerEmail == params.customerEmail && s.metadata == params.metadata
    ensures s.url.Some? && EndsWith(s.url.value, MockQuery(MockPlanId(params.priceId), sessionId))
    ensures s.url.Some? && SiteUrl(env) <= s.url.value
    ensures s.url.Some? && |s.url.value| == |SiteUrl(env)| + |MockQuery(MockPlanId(params.priceId), sessionId)|
  {
    var url := SiteUrl(env) + MockQuery(MockPlanId(params.priceId), sessionId);
    assert url[|url| - |MockQuery(MockPlanId(params.priceId), sessionId)|..] == MockQuery(MockPlanId(params.priceId), sessionId);
    Session(sessionId, Some(url), Some("open"), params.customerEmail, params.metadata)
  }

  function SessionRequestFor(params: CheckoutParams, apiKey: string): (r: SessionRequest)
    ensures r.url == ApiBase + "/checkout/sessions" && r.apiKey == apiKey
    ensures r.lineItems == [LineItem(params.priceId, 1)]
    ensures r.successUrl == params.successUrl && r.cancelUrl == params.cancelUrl
    ensures r.customerEmail == params.customerEmail && r.metadata == params.metadata
  {
    SessionRequest(ApiBase + "/checkout/sessions", apiKey, params.successUrl, params.cancelUrl,
                   [LineItem(params.priceId, 1)], params.customerEmail, params.metadata)
  }

  /** Bytes of one character in UTF-8, the encoding of `Buffer.from(string)`. */
  function Utf8Width(c: char): nat
  {
    if c as int < 0x80 then 1
    else if c as int < 0x800 then 2
    else if c as int < 0x10000 then 3
    else 4
  }

  function Utf8Length(s: string): nat
  {
    if s == [] then 0 else Utf8Width(s[0]) + Utf8Length(s[1..])
  }

  predicate IsAscii(s: string)
  {
    forall i :: 0 <= i < |s| ==> s[i] as int < 0x80
  }

  /** An ASCII string (a hex digest, say) takes one byte per character. */
  lemma {:induction false} AsciiUtf8Length(s: string)
    requires IsAscii(s)
    ensures Utf8Length(s) == |s|
  {
    if s != [] {
      assert IsAscii(s[1..]) by {
        forall i | 0 <= i < |s[1..]| ensures s[1..][i] as int < 0x80 {
          assert s[1..][i] == s[i + 1];
        }
      }
      AsciiUtf8Length(s[1..]);
    }
  }

  /**
   * The outcome of `timingSafeEqual(Buffer.from(signature), Buffer.from(expected))`:
   * a comparison, or the error it throws when the byte lengths differ.
   */
  datatype Verdict = Compared(equal: bool) | LengthMismatch

  /**
   * `verifyWebhookSignature`: compare the signature with the hex HMAC-SHA256
   * of the payload under the secret. `hmacHex(key, message)` stands for that
   * digest, which is not modelled. Equal UTF-8 bytes means equal strings.
   */
  function VerifyWebhookSignature(payload: string, signature: string, secret: string,
                                  hmacHex: (string, string) -> string): (v: Verdict)
    ensures v == Compared(true) <==> signature == hmacHex(secret, payload)
    ensures v == LengthMismatch <==> Utf8Length(signature) != Utf8Length(hmacHex(secret, payload))
  {
    var expected := hmacHex(secret, payload);
    if Utf8Length(signature) != Utf8Length(expected) then LengthMismatch
    else Compared(signature == expected)
  }

  /** An ASCII signature as long as an ASCII digest is compared, never thrown on. */
  lemma SameLengthAsciiIsCompared(payload: string, signature: string, secret: string,
                                  hmacHex: (string, string) -> string)
    requires IsAscii(signature) && IsAscii(hmacHex(secret, payload))
    requires |signature| == |hmacHex(secret, payload)|
    ensures VerifyWebhookSignature(payload, signature, secret, hmacHex).Compared?
  {
    AsciiUtf8Length(signature);
    AsciiUtf8Length(hmacHex(secret, payload));
  }
}
