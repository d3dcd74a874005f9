/**
 * `GET /api/subscription/status`: the caller's active subscription and usage
 * counters, with the free-tier defaults when there is no subscription.
 */
module StatusRoute {
  import opened Common
  import opened SubscriptionStore

  /** One row of the `get_or_create_user_usage` answer. */
  datatype UsageRow = UsageRow(generationsUsed: Option<int>, generationsLimit: Option<int>)

  /** The usage RPC: an error, or its rows (an empty answer stands for `null` too). */
  datatype UsageReply = UsageError | UsageRows(rows: seq<UsageRow>)

  /** The status view the client renders. */
  datatype StatusView = StatusView(
    plan: string,
    status: string,
    isActive: bool,
    currentPeriodEnd: Option<int>,
    used: int,
    limit: int)

  datatype StatusBody = View(view: StatusView) | ErrorBody(error: string)

  const FreePlan: string := "free"
  const DefaultLimit: int := 5

  /** `x || fallback` on a number: absent and 0 are falsy. */
  function NumberOr(x: Option<int>, fallback: int): int
  {
    if x.Some? && x.value != 0 then x.value else fallback
  }

  /** `usage?.[0]?.generations_used || 0` and `usage?.[0]?.generations_limit || 5`. */
  function Counters(rows: seq<UsageRow>): (c: (int, int))
    ensures rows == [] ==> c == (0, DefaultLimit)
    ensures c.1 != 0
    ensures rows != [] && rows[0].generationsLimit.Some? && rows[0].generationsLimit.value != 0
            ==> c.1 == rows[0].generationsLimit.value
    ensures rows != [] && rows[0].generationsUsed.Some? ==> c.0 == rows[0].generationsUsed.value
    ensures rows != [] && (rows[0].generationsLimit.None? || rows[0].generationsLimit == Some(0)) ==> c.1 == DefaultLimit
    ensures rows != [] && rows[0].generationsUsed.None? ==> c.0 == 0
  {
    if rows == [] then (0, DefaultLimit)
    else (NumberOr(rows[0].generationsUsed, 0), NumberOr(rows[0].generationsLimit, DefaultLimit))
  }

  /** The view built from the looked-up row (if any) and the usage rows. */
  function ViewOf(sub: Option<Row>, rows: seq<UsageRow>): (v: StatusView)
    ensures sub.None? ==> v.plan == FreePlan && v.status == "inactive" && !v.isActive && v.currentPeriodEnd.None?
    ensures sub.Some? ==> v.isActive == (sub.value.status == Some("active"))
    ensures sub.Some? ==> v.currentPeriodEnd == sub.value.periodEndMs
    ensures sub.Some? && Truthy(sub.value.planId) ==> v.plan == sub.value.planId.value
    ensures sub.Some? && !Truthy(sub.value.planId) ==> v.plan == FreePlan
    ensures sub.Some? && Truthy(sub.value.status) ==> v.status == sub.value.status.value
    ensures sub.Some? && !Truthy(sub.value.status) ==> v.status == "inactive"
    ensures v.plan != "" && v.status != ""
    ensures (v.used, v.limit) == Counters(rows)
  {
    var (used, limit) := Counters(rows);
    match sub
    case None => StatusView(FreePlan, "inactive", false, None, used, limit)
    case Some(r) =>
      StatusView(OrElse(r.planId, FreePlan), OrElse(r.status, "inactive"),
                 r.status == Some("active"), r.periodEndMs, used, limit)
  }

  /**
   * The route: 401 without a user (no table read), 500 on a lookup error
   * other than "no row", 500 on a usage error, otherwise 200 and the view.
   */
  function GetStatus(auth: Auth, lookup: Lookup, usage: UsageReply): (r: Response<StatusBody>)
    ensures auth.None? ==> r == Response(401, ErrorBody("Authentication required"))
    ensures auth.Some? && lookup.Failed? && lookup.code != NoRowsCode
            ==> r == Response(500, ErrorBody("Failed to fetch subscription"))
    ensures auth.Some? && (lookup.Found? || lookup.code == NoRowsCode) && usage.UsageError?
            ==> r == Response(500, ErrorBody("Failed to fetch usage"))
    ensures r.status == 200 <==> r.body.View?
    ensures r.status == 200 <==>
      auth.Some? && (lookup.Found? || lookup.code == NoRowsCode) && usage.UsageRows?
    ensures r.status == 200 ==>
      r.body.view == ViewOf(if lookup.Found? then Some(lookup.row) else None, usage.rows)
  {
    if auth.None? then Response(401, ErrorBody("Authentication required"))
    else if lookup.Failed? && lookup.code != NoRowsCode then Response(500, ErrorBody("Failed to fetch subscription"))
    else if usage.UsageError? then Response(500, ErrorBody("Failed to fetch usage"))
    else Response(200, View(ViewOf(if lookup.Found? then Some(lookup.row) else None, usage.rows)))
  }

  /**
   * Against the table itself: the lookup filters on `status = 'active'`, so
   * the view is active exactly when the caller's row is active; otherwise
   * the caller gets the free-tier view.
   */
  lemma StatusFromTable(t: Table, user: User, rows: seq<UsageRow>)
    ensures var r := GetStatus(Some(user), SelectActive(t, user.id), UsageRows(rows));
      && r.status == 200
      && (r.body.view.isActive <==> user.id in t && t[user.id].status == Some("active"))
      && (!r.body.view.isActive ==> r.body.view.plan == FreePlan && r.body.view.status == "inactive")
  {
  }

  /** A new user, with no row and no usage yet, sees the free plan with 0 of 5 used. */
  lemma NewUserSeesFreeTier(t: Table, user: User)
    requires user.id !in t
    ensures GetStatus(Some(user), SelectActive(t, user.id), UsageRows([]))
            == Response(200, View(StatusView(FreePlan, "inactive", false, None, 0, 5)))
  {
  }
}
