/**
 * The analytics slice: one flat state record with eight data fields, a
 * single `loading` flag shared by every fetch, and `error`.
 */
module AnalyticsSlice {
  import opened Wrappers
  import Js

  /** A payload from the analytics endpoints, opaque apart from `null` and arrays. */
  datatype Json = Null | Array(items: seq<Json>) | Other(text: string)

  /** The eight fetches, one per data field. */
  datatype Fetch =
    | Overview | UserGrowth | AppUsage | ActivityStats
    | RoleDistribution | OfficeDistribution | RecentActivity | TopActions

  /** The field's value in `initialState` and after `clearAnalytics`. */
  function InitialValue(f: Fetch): (v: Json)
    ensures v == Null <==> f in {Overview, UserGrowth, ActivityStats}
    ensures v != Null ==> v == Array([])
  {
    match f
    case Overview => Null
    case UserGrowth => Null
    case ActivityStats => Null
    case _ => Array([])
  }

  /** Each action's failure text when the response carries no `msg`. */
  function Fallback(f: Fetch): string {
    match f
    case Overview => "Failed to fetch overview statistics"
    case UserGrowth => "Failed to fetch user growth data"
    case AppUsage => "Failed to fetch app usage data"
    case ActivityStats => "Failed to fetch activity statistics"
    case RoleDistribution => "Failed to fetch role distribution"
    case OfficeDistribution => "Failed to fetch office distribution"
    case RecentActivity => "Failed to fetch recent activity"
    case TopActions => "Failed to fetch top actions"
  }

  /** What the request gave: a body `{data, msg}`, or a failure with the response's `msg`, if any. */
  datatype Response = Answered(data: Json, msg: Option<string>) | Failed(msg: Option<string>)

  /** What the action does: resolve with `data`, or reject with a message; plus the notification shown. */
  datatype Outcome = Resolved(payload: Json, success: Option<string>) | Rejected(message: string)

  /**
   * An analytics action's result: `response.data.data`, with a success
   * notification exactly when `msg` is truthy; on failure the response's `msg`
   * or the action's own fallback, shown as an error notification.
   */
  function ThunkOutcome(f: Fetch, r: Response): (o: Outcome)
    ensures r.Answered? ==> o.Resolved? && o.payload == r.data
    ensures r.Answered? ==> (o.success.Some? <==> r.msg.Some? && r.msg.value != "")
    ensures o.Resolved? && o.success.Some? ==> o.success == r.msg
    ensures r.Failed? ==> o.Rejected? && o.message != ""
    ensures r.Failed? && r.msg.Some? && r.msg.value != "" ==> o == Rejected(r.msg.value)
    ensures r.Failed? && (r.msg.None? || r.msg.value == "") ==> o == Rejected(Fallback(f))
  {
    match r
    case Answered(data, msg) => Resolved(data, if msg.Some? && msg.value != "" then msg else None)
    case Failed(msg) => Rejected(Js.StrOr(msg, Fallback(f)))
  }

  /** The slice state; each method is one reducer case. */
  class AnalyticsState {
    var overview: Json
    var userGrowth: Json
    var appUsage: Json
    var activityStats: Json
    var roleDistribution: Json
    var officeDistribution: Json
    var recentActivity: Json
    var topActions: Json
    var loading: bool
    var error: Option<string>

    /** The data field a fetch fills. */
    function Get(f: Fetch): Json
      reads this
    {
      match f
      case Overview => overview
      case UserGrowth => userGrowth
      case AppUsage => appUsage
      case ActivityStats => activityStats
      case RoleDistribution => roleDistribution
      case OfficeDistribution => officeDistribution
      case RecentActivity => recentActivity
      case TopActions => topActions
    }

    /** `initialState`. */
    constructor ()
      ensures forall f :: Get(f) == InitialValue(f)
      ensures !loading && error.None?
    {
      overview, userGrowth, activityStats := Null, Null, Null;
      appUsage, roleDistribution, officeDistribution := Array([]), Array([]), Array([]);
      recentActivity, topActions := Array([]), Array([]);
      loading := false;
      error := None;
    }

    /** `clearAnalytics`: the eight fields and `error` reset; `loading` is left as it is. */
    method ClearAnalytics()
      modifies this
      ensures forall f :: Get(f) == InitialValue(f)
      ensures error.None? && loading == old(loading)
    {
      overview := Null;
      userGrowth := Null;
      appUsage := Array([]);
      activityStats := Null;
      roleDistribution := Array([]);
      officeDistribution := Array([]);
      recentActivity := Array([]);
      topActions := Array([]);
      error := None;
    }

    /** Any of the eight `pending` cases: `loading` set, `error` cleared, the data kept. */
    method Pending()
      modifies this
      ensures loading && error.None?
      ensures forall f :: Get(f) == old(Get(f))
    {
      loading := true;
      error := None;
    }

    /**
     * The `fulfilled` case of fetch `f`: `loading` cleared and exactly the
     * field of `f` set to the payload; `error` and the other fields kept.
     */
    method Fulfilled(f: Fetch, payload: Json)
      modifies this
      ensures !loading && error == old(error)
      ensures Get(f) == payload
      ensures forall g :: g != f ==> Get(g) == old(Get(g))
    {
      loading := false;
      match f
      case Overview => overview := payload;
      case UserGrowth => userGrowth := payload;
      case AppUsage => appUsage := payload;
      case ActivityStats => activityStats := payload;
      case RoleDistribution => roleDistribution := payload;
      case OfficeDistribution => officeDistribution := payload;
      case RecentActivity => recentActivity := payload;
      case TopActions => topActions := payload;
    }

    /**
     * Any of the eight `rejected` cases, for the fetch `f` whose request
     * failed with `r`: `loading` cleared, `error` set to the message the
     * action rejected with (never empty), the data kept.
     */
    method Rejected(f: Fetch, r: Response)
      requires r.Failed?
      modifies this
      ensures !loading && error == Some(ThunkOutcome(f, r).message)
      ensures error.value != ""
      ensures forall g :: Get(g) == old(Get(g))
    {
      loading := false;
      error := Some(ThunkOutcome(f, r).message);
    }
  }

  /**
   * The flag is shared: with the overview and the growth fetches both
   * pending, the overview finishing first clears `loading` while the growth
   * data is still the initial `null`.
   */
  method SharedLoadingFlag(data: Json) returns (loading: bool, growth: Json)
    ensures !loading && growth == Null
  {
    var s := new AnalyticsState();
    s.Pending();
    s.Pending();
    s.Fulfilled(Overview, data);
    loading := s.loading;
    growth := s.Get(UserGrowth);
  }
}
