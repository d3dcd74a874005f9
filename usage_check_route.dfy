/**
 * `POST /api/usage/check`: the quota gate in front of a generation. The
 * check-and-increment itself is the database function `increment_user_usage`,
 * whose answer is an input here.
 */
module UsageCheckRoute {
  import opened Common

  /** The RPC's answer: an error, or its data (`None` for null). */
  datatype IncrementReply = RpcError | RpcData(canUse: Option<bool>)

  datatype UsageBody = Success | ErrorBody(error: string, message: Option<string>)

  /** The response, and the user id the RPC was called with (if it was called). */
  datatype UsageOutcome = UsageOutcome(response: Response<UsageBody>, rpcCall: Option<string>)

  const LimitMessage: string :=
    "You have reached your monthly generation limit. Please upgrade your plan to continue."

  function CheckUsage(auth: Auth, reply: IncrementReply): (o: UsageOutcome)
    ensures auth.None? <==> o.rpcCall.None?
    ensures auth.None? ==> o.response == Response(401, ErrorBody("Authentication required", None))
    ensures auth.Some? ==> o.rpcCall == Some(auth.value.id)
    ensures auth.Some? && reply.RpcError? ==> o.response == Response(500, ErrorBody("Failed to check usage", None))
    ensures auth.Some? && reply.RpcData? && reply.canUse != Some(true)
            ==> o.response == Response(429, ErrorBody("Usage limit exceeded", Some(LimitMessage)))
    ensures o.response.body == Success <==> auth.Some? && reply == RpcData(Some(true))
    ensures o.response.body == Success <==> o.response.status == 200
  {
    if auth.None? then UsageOutcome(Response(401, ErrorBody("Authentication required", None)), None)
    else
      var call := Some(auth.value.id);
      match reply
      case RpcError => UsageOutcome(Response(500, ErrorBody("Failed to check usage", None)), call)
      case RpcData(canUse) =>
        if canUse != Some(true) then UsageOutcome(Response(429, ErrorBody("Usage limit exceeded", Some(LimitMessage))), call)
        else UsageOutcome(Response(200, Success), call)
  }

  /** Fail closed: whatever the RPC answers, only an explicit `true` lets the generation through. */
  lemma FailsClosed(user: User, reply: IncrementReply)
    requires reply != RpcData(Some(true))
    ensures CheckUsage(Some(user), reply).response.status in {429, 500}
  {
  }
}
