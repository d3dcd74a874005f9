/**
 * The subscription status card: plan icon and colour, the usage line with
 * its "unlimited" sentinel and near-limit warning, which buttons show, and
 * the fetch/cancel handlers that update the card's state.
 */
module SubscriptionStatusWidget {
  import opened Common
  import opened SubscriptionStore
  import StatusRoute
  import CancelRoute

  type StatusView = StatusRoute.StatusView

  datatype Icon = Crown | Rocket | Zap

  /** `getPlanIcon` */
  function IconFor(plan: string): (icon: Icon)
    ensures icon == Crown <==> plan == "pro"
    ensures icon == Rocket <==> plan == "enterprise"
  {
    match plan
    case "pro" => Crown
    case "enterprise" => Rocket
    case _ => Zap
  }

  /** `getPlanColor` */
  function ColorFor(plan: string): (color: string)
    ensures color == "bg-yellow-500" <==> plan == "pro"
    ensures color == "bg-purple-500" <==> plan == "enterprise"
    ensures color == "bg-yellow-500" || color == "bg-purple-500" || color == "bg-blue-500"
  {
    match plan
    case "pro" => "bg-yellow-500"
    case "enterprise" => "bg-purple-500"
    case _ => "bg-blue-500"
  }

  /** Icon and colour always come as one of three pairs. */
  lemma IconMatchesColor(plan: string)
    ensures IconFor(plan) == Crown <==> ColorFor(plan) == "bg-yellow-500"
    ensures IconFor(plan) == Rocket <==> ColorFor(plan) == "bg-purple-500"
    ensures IconFor(plan) == Zap <==> ColorFor(plan) == "bg-blue-500"
  {
  }

  /** The limit the usage counters use for "unlimited". */
  const Unlimited: int := 999999

  /**
   * `usagePercentage > 80` with `usagePercentage = used / limit * 100`, in
   * exact arithmetic: a zero limit gives +Infinity for a positive count and
   * NaN (never above 80) for 0, and a negative limit flips the comparison.
   */
  predicate AboveEightyPercent(used: int, limit: int)
    ensures limit > 0 && used >= limit ==> AboveEightyPercent(used, limit)
    ensures limit > 0 && 5 * used <= 4 * limit ==> !AboveEightyPercent(used, limit)
    ensures limit == 0 ==> (AboveEightyPercent(used, limit) <==> used > 0)
  {
    if limit > 0 then 5 * used > 4 * limit
    else if limit == 0 then used > 0
    else 5 * used < 4 * limit
  }

  /** Multiplying both sides by a positive number keeps a strict inequality; by a negative one flips it. */
  lemma ScaleInequality(a: real, b: real, c: real)
    requires c != 0.0
    ensures c > 0.0 ==> (a > b <==> a * c > b * c)
    ensures c < 0.0 ==> (a > b <==> a * c < b * c)
  {
    if c > 0.0 {
      if a > b { assert (a - b) * c > 0.0; } else { assert (b - a) * c >= 0.0; }
    } else {
      if a > b { assert (a - b) * c < 0.0; } else { assert (b - a) * c <= 0.0; }
    }
  }

  /** The ratio test over the reals, with the division cleared. */
  lemma RatioAboveEighty(u: real, l: real)
    requires l != 0.0
    ensures l > 0.0 ==> (u / l * 100.0 > 80.0 <==> 5.0 * u > 4.0 * l)
    ensures l < 0.0 ==> (u / l * 100.0 > 80.0 <==> 5.0 * u < 4.0 * l)
  {
    var x := u / l;
    assert x * l == u;
    ScaleInequality(x, 0.8, l);
    assert x * 100.0 > 80.0 <==> x > 0.8;
  }

  /** For a non-zero limit the integer test agrees with the ratio it stands for. */
  lemma AboveEightyPercentIsRatio(used: int, limit: int)
    requires limit != 0
    ensures AboveEightyPercent(used, limit) <==> (used as real) / (limit as real) * 100.0 > 80.0
  {
    RatioAboveEighty(used as real, limit as real);
    assert (5 * used > 4 * limit) == (5.0 * (used as real) > 4.0 * (limit as real));
    assert (5 * used < 4 * limit) == (5.0 * (used as real) < 4.0 * (limit as real));
  }

  datatype LimitLabel = Infinite | Count(limit: int)

  /** The progress bar: empty, or filled to `used / limit * 100`. */
  datatype ProgressBar = Empty | Fraction(used: int, limit: int)

  datatype UsageLine = UsageLine(limitShown: LimitLabel, progress: ProgressBar, warning: bool)

  /** The "Monthly Usage" block. */
  function UsageLineOf(used: int, limit: int): (u: UsageLine)
    ensures limit == Unlimited ==> u == UsageLine(Infinite, Empty, false)
    ensures limit != Unlimited ==> u.limitShown == Count(limit) && u.progress == Fraction(used, limit)
    ensures u.warning <==> limit != Unlimited && AboveEightyPercent(used, limit)
  {
    if limit == Unlimited then UsageLine(Infinite, Empty, false)
    else UsageLine(Count(limit), Fraction(used, limit), AboveEightyPercent(used, limit))
  }

  /** The action buttons: "Upgrade Plan", and the "Manage"/"Cancel" pair. */
  datatype Buttons = Buttons(upgrade: bool, manageAndCancel: bool)

  function ButtonsFor(v: StatusView): (b: Buttons)
    ensures b.upgrade <==> v.plan == "free"
    ensures b.manageAndCancel <==> v.isActive && v.plan != "free"
    ensures !(b.upgrade && b.manageAndCancel)
  {
    Buttons(v.plan == "free", v.isActive && v.plan != "free")
  }

  /** What the card renders. */
  datatype Screen = Skeleton | Nothing | Card(view: StatusView)

  /** What `fetch('/api/subscription/status')` gives: it threw, a non-OK status, or an OK body. */
  datatype StatusReply = FetchThrew | NotOk | Ok(view: StatusView)

  /** What `fetch('/api/subscription/cancel')` gives: it threw, or a status that is OK or not. */
  datatype CancelReply = CancelThrew | Answered(ok: bool)

  const CancelledAlert: string := "Your subscription has been cancelled successfully."
  const CancelFailedAlert: string := "Failed to cancel subscription. Please contact support."

  class SubscriptionCard {
    var subscription: Option<StatusView>
    var loading: bool
    var cancelling: bool

    constructor ()
      ensures subscription.None? && loading && !cancelling
    {
      subscription, loading, cancelling := None, true, false;
    }

    /** The cancel button's `disabled={cancelling}`. */
    predicate CancelDisabled()
      reads this
    {
      cancelling
    }

    /** The component's render: a skeleton while loading, nothing without data, else the card. */
    function Render(): (s: Screen)
      reads this
      ensures loading ==> s == Skeleton
      ensures !loading && subscription.None? ==> s == Nothing
      ensures s.Card? <==> !loading && subscription.Some?
      ensures s.Card? ==> s.view == subscription.value
    {
      if loading then Skeleton
      else match subscription
        case None => Nothing
        case Some(v) => Card(v)
    }

    /** `fetchSubscriptionStatus` once its fetch settles: keep an OK body, then stop loading. */
    method FinishFetch(reply: StatusReply)
      modifies this`subscription, this`loading
      ensures !loading
      ensures subscription == if reply.Ok? then Some(reply.view) else old(subscription)
    {
      if reply.Ok? {
        subscription := Some(reply.view);
      }
      loading := false;
    }

    /**
     * `handleCancelSubscription` up to the fetch, on a click of the enabled
     * button: a declined confirm dialog sends nothing and changes nothing.
     */
    method BeginCancel(confirmed: bool) returns (posts: bool)
      requires !CancelDisabled()
      modifies this`cancelling
      ensures posts == confirmed
      ensures confirmed ==> cancelling && CancelDisabled()
      ensures !confirmed ==> cancelling == old(cancelling)
    {
      if !confirmed {
        return false;
      }
      cancelling := true;
      posts := true;
    }

    /** The rest of `handleCancelSubscription`: alert, refetch on success, stop cancelling. */
    method FinishCancel(reply: CancelReply) returns (alert: string, refetch: bool)
      modifies this`cancelling
      ensures !cancelling && !CancelDisabled()
      ensures refetch <==> reply == Answered(true)
      ensures alert == if refetch then CancelledAlert else CancelFailedAlert
    {
      if reply == Answered(true) {
        alert, refetch := CancelledAlert, true;
      } else {
        alert, refetch := CancelFailedAlert, false;
      }
      cancelling := false;
    }
  }

  /**
   * After a successful cancel the refetched status offers the upgrade
   * button and no longer the manage/cancel pair.
   */
  lemma CancelThenRefetchOffersUpgrade(t: Table, user: User, now: int, rows: seq<StatusRoute.UsageRow>)
    requires SelectActive(t, user.id).Found?
    ensures var t' := UpdateRow(t, user.id, CancelledPatch(now));
      var r := StatusRoute.GetStatus(Some(user), SelectActive(t', user.id), StatusRoute.UsageRows(rows));
      && r.status == 200
      && ButtonsFor(r.body.view) == Buttons(true, false)
  {
    CancelRoute.CancelledRowIsNotActive(t, user.id, now);
    var t' := UpdateRow(t, user.id, CancelledPatch(now));
    StatusRoute.StatusFromTable(t', user, rows);
  }
}
