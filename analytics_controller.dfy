/**
 * The post-processing the analytics endpoints apply to what the database
 * returns: the derived overview counters, the period and limit rules of the
 * time series, the running total of user growth, and the row mappings of the
 * app-usage, office and recent-activity lists. The queries themselves are
 * inputs.
 */
module AnalyticsController {
  import opened Wrappers
  import Js

  /** The ten counts the overview asks for. */
  datatype Counts = Counts(
    totalUsers: nat, activeUsers: nat, totalApps: nat, activeApps: nat,
    totalRoles: nat, totalUserTypes: nat, activeSessions: nat,
    totalAdmins: nat, totalGoogleUsers: nat, totalMqttUsers: nat)

  /** The overview's `data`: the counts and three derived counters. */
  datatype Overview = Overview(
    totalUsers: int, activeUsers: int, inactiveUsers: int,
    totalApps: int, activeApps: int, inactiveApps: int,
    totalRoles: int, totalUserTypes: int, activeSessions: int,
    totalAdmins: int, regularUsers: int, totalGoogleUsers: int, totalMqttUsers: int)

  /**
   * The overview: every count is passed through; users and apps split into
   * active and inactive, and active users into admins and regular users.
   */
  function GetOverview(c: Counts): (o: Overview)
    ensures o.totalUsers == c.totalUsers && o.activeUsers == c.activeUsers
    ensures o.totalApps == c.totalApps && o.activeApps == c.activeApps
    ensures o.totalRoles == c.totalRoles && o.totalUserTypes == c.totalUserTypes
    ensures o.activeSessions == c.activeSessions && o.totalAdmins == c.totalAdmins
    ensures o.totalGoogleUsers == c.totalGoogleUsers && o.totalMqttUsers == c.totalMqttUsers
    ensures o.activeUsers + o.inactiveUsers == o.totalUsers
    ensures o.activeApps + o.inactiveApps == o.totalApps
    ensures o.totalAdmins + o.regularUsers == o.activeUsers
  {
    Overview(
      c.totalUsers, c.activeUsers, c.totalUsers - c.activeUsers,
      c.totalApps, c.activeApps, c.totalApps - c.activeApps,
      c.totalRoles, c.totalUserTypes, c.activeSessions,
      c.totalAdmins, c.activeUsers - c.totalAdmins, c.totalGoogleUsers, c.totalMqttUsers)
  }

  /**
   * When the counts are of nested sets, as the queries intend (active users
   * among all users, active admins among active users, active apps among all
   * apps), the derived counters are non-negative and admins, regular and
   * inactive users partition all users. The ten counts are taken by
   * independent queries, so nothing in the code itself guarantees this.
   */
  lemma OverviewPartitions(c: Counts)
    requires c.activeUsers <= c.totalUsers && c.totalAdmins <= c.activeUsers && c.activeApps <= c.totalApps
    ensures var o := GetOverview(c);
      && o.inactiveUsers >= 0 && o.inactiveApps >= 0 && o.regularUsers >= 0
      && o.totalAdmins + o.regularUsers + o.inactiveUsers == o.totalUsers
      && o.regularUsers <= o.activeUsers <= o.totalUsers
  {
  }

  /** How a time series is grouped: the `DATE_FORMAT` pattern and the unit reported. */
  datatype Grouping = Grouping(dateFormat: string, groupBy: string)

  const Daily := Grouping("%Y-%m-%d", "day")
  const Weekly := Grouping("%Y-%u", "week")
  const Monthly := Grouping("%Y-%m", "month")

  /** The query of a time series: its grouping and how many periods to return. */
  datatype SeriesQuery = SeriesQuery(grouping: Grouping, limit: int)

  /**
   * `period = req.query.period || 'monthly'` and `limit = parseInt(limit) ||
   * 12`, then the switch: "daily" and "weekly" select their own grouping and
   * every other value, a missing or empty one included, the monthly one.
   * User growth and activity statistics use the same rule.
   */
  function SeriesQueryOf(periodArg: Option<string>, limitArg: Option<int>): (q: SeriesQuery)
    ensures periodArg == Some("daily") ==> q.grouping == Daily
    ensures periodArg == Some("weekly") ==> q.grouping == Weekly
    ensures periodArg != Some("daily") && periodArg != Some("weekly") ==> q.grouping == Monthly
    ensures q.limit == Js.IntOr(limitArg, 12) && q.limit != 0
  {
    Js.IntOrNonZero(limitArg, 12);
    var period := Js.StrOr(periodArg, "monthly");
    var grouping :=
      if period == "daily" then Daily
      else if period == "weekly" then Weekly
      else Monthly;
    SeriesQuery(grouping, Js.IntOr(limitArg, 12))
  }

  /** The three groupings are told apart by the unit alone. */
  lemma GroupingsDistinct(a: Option<string>, b: Option<string>, la: Option<int>, lb: Option<int>)
    ensures SeriesQueryOf(a, la).grouping.groupBy == SeriesQueryOf(b, lb).grouping.groupBy <==>
              SeriesQueryOf(a, la).grouping == SeriesQueryOf(b, lb).grouping
  {
  }

  /** `parseInt(req.query.limit) || 10`, the limit of recent activity and top actions. */
  function ListLimit(limitArg: Option<int>): (l: int)
    ensures l != 0
    ensures limitArg.None? ==> l == 10
    ensures limitArg.Some? && limitArg.value != 0 ==> l == limitArg.value
    ensures limitArg.Some? && limitArg.value == 0 ==> l == 10
  {
    Js.IntOrNonZero(limitArg, 10);
    Js.IntOr(limitArg, 10)
  }

  /** One row of the grouped registrations: the period label and its count. */
  datatype PeriodCount = PeriodCount(period: string, count: nat)

  /** One point of the growth series: new users in the period and the total so far. */
  datatype GrowthPoint = GrowthPoint(period: string, newUsers: nat, totalUsers: nat)

  /** The number of users registered in the first `n` periods. */
  function Total(rows: seq<PeriodCount>, n: nat): (t: nat)
    requires n <= |rows|
    ensures n > 0 ==> t >= rows[n - 1].count
  {
    if n == 0 then 0 else Total(rows, n - 1) + rows[n - 1].count
  }

  /**
   * The running total: one point per period, in order, carrying its label,
   * its count and the sum of the counts up to and including it.
   */
  method Growth(rows: seq<PeriodCount>) returns (points: seq<GrowthPoint>)
    ensures |points| == |rows|
    ensures forall i :: 0 <= i < |rows| ==>
              points[i] == GrowthPoint(rows[i].period, rows[i].count, Total(rows, i + 1))
  {
    var cumulative: nat := 0;
    points := [];
    for i := 0 to |rows|
      invariant |points| == i
      invariant cumulative == Total(rows, i)
      invariant forall k :: 0 <= k < i ==>
                  points[k] == GrowthPoint(rows[k].period, rows[k].count, Total(rows, k + 1))
    {
      cumulative := cumulative + rows[i].count;
      points := points + [GrowthPoint(rows[i].period, rows[i].count, cumulative)];
    }
  }

  /** The total so far never decreases along the periods. */
  lemma {:induction false} TotalMonotone(rows: seq<PeriodCount>, m: nat, n: nat)
    requires m <= n <= |rows|
    ensures Total(rows, m) <= Total(rows, n)
    decreases n - m
  {
    if m < n {
      TotalMonotone(rows, m, n - 1);
    }
  }

  /**
   * The series the endpoint answers: the running totals never decrease, each
   * is at least its own period's count, and the last one is the number of
   * users in all the periods returned.
   */
  lemma GrowthSeries(rows: seq<PeriodCount>, points: seq<GrowthPoint>)
    requires |points| == |rows|
    requires forall i :: 0 <= i < |rows| ==>
               points[i] == GrowthPoint(rows[i].period, rows[i].count, Total(rows, i + 1))
    ensures forall i, j :: 0 <= i <= j < |points| ==> points[i].totalUsers <= points[j].totalUsers
    ensures forall i :: 0 <= i < |points| ==> points[i].newUsers <= points[i].totalUsers
    ensures |points| > 0 ==> points[|points| - 1].totalUsers == Total(rows, |rows|)
    ensures |points| > 0 ==> points[0].totalUsers == points[0].newUsers
  {
    forall m, n | 0 <= m <= n <= |rows| ensures Total(rows, m) <= Total(rows, n) {
      TotalMonotone(rows, m, n);
    }
  }

  /** An app as the usage query returns it; `userCount` is `None` when the count is null. */
  datatype AppRow = AppRow(id: int, name: string, ownerOffice: Option<string>, isActive: bool, userCount: Option<nat>)

  /** An app in the usage answer. */
  datatype AppUsage = AppUsage(id: int, name: string, ownerOffice: Option<string>, isActive: bool, userCount: nat)

  /** `parseInt(userCount || 0)` per app, the other fields passed through. */
  function AppUsageOf(apps: seq<AppRow>): (r: seq<AppUsage>)
    ensures |r| == |apps|
    ensures forall i :: 0 <= i < |apps| ==>
              && r[i].id == apps[i].id && r[i].name == apps[i].name
              && r[i].ownerOffice == apps[i].ownerOffice && r[i].isActive == apps[i].isActive
              && (apps[i].userCount.None? ==> r[i].userCount == 0)
              && (apps[i].userCount.Some? ==> r[i].userCount == apps[i].userCount.value)
  {
    seq(|apps|, i requires 0 <= i < |apps| =>
      AppUsage(apps[i].id, apps[i].name, apps[i].ownerOffice, apps[i].isActive, apps[i].userCount.GetOr(0)))
  }

  /** One row of the office distribution. */
  datatype OfficeRow = OfficeRow(office: Option<string>, count: nat)

  /** An entry of the office answer. */
  datatype OfficeCount = OfficeCount(office: string, count: nat)

  /**
   * `office || 'Unassigned'` per row: a named office keeps its name and a
   * missing or empty one is labelled "Unassigned"; counts and order kept.
   */
  function OfficesOf(rows: seq<OfficeRow>): (r: seq<OfficeCount>)
    ensures |r| == |rows|
    ensures forall i :: 0 <= i < |rows| ==>
              && r[i].count == rows[i].count
              && r[i].office != ""
              && (rows[i].office.Some? && rows[i].office.value != "" ==> r[i].office == rows[i].office.value)
              && (rows[i].office.None? || rows[i].office.value == "" ==> r[i].office == "Unassigned")
  {
    seq(|rows|, i requires 0 <= i < |rows| =>
      OfficeCount(Js.StrOr(rows[i].office, "Unassigned"), rows[i].count))
  }

  /** The user attached to a log entry; the name columns may be null. */
  datatype LogUser = LogUser(id: int, email: string, firstName: Option<string>, lastName: Option<string>)

  /** An action log entry with its optional user. */
  datatype LogRow = LogRow(id: int, action: string, details: string, targetType: string,
                           ipAddress: string, createdAt: string, user: Option<LogUser>)

  /** The user as the recent-activity answer shows it. */
  datatype UserView = UserView(id: int, email: string, name: string)

  /** An entry of the recent-activity answer. */
  datatype Activity = Activity(id: int, action: string, details: string, targetType: string,
                               ipAddress: string, createdAt: string, user: Option<UserView>)

  /** A name part as a template literal shows it: a null column reads "null". */
  function Shown(s: Option<string>): (r: string)
    ensures s.Some? ==> r == s.value
    ensures s.None? ==> r == "null"
  {
    s.GetOr("null")
  }

  /** The full name: first name, one space, last name. */
  function FullName(u: LogUser): (name: string)
    ensures |name| == |Shown(u.firstName)| + 1 + |Shown(u.lastName)|
    ensures name[..|Shown(u.firstName)|] == Shown(u.firstName)
    ensures name[|Shown(u.firstName)|] == ' '
    ensures name[|Shown(u.firstName)| + 1..] == Shown(u.lastName)
  {
    Shown(u.firstName) + " " + Shown(u.lastName)
  }

  /**
   * A first name without spaces can be read back off the full name: the
   * space after it is the name's first space.
   */
  lemma FullNameSplits(u: LogUser)
    requires forall k :: 0 <= k < |Shown(u.firstName)| ==> Shown(u.firstName)[k] != ' '
    ensures var name, first := FullName(u), Shown(u.firstName);
      && name[|first|] == ' '
      && (forall k :: 0 <= k < |first| ==> name[k] != ' ')
  {
    var name, first := FullName(u), Shown(u.firstName);
    assert forall k :: 0 <= k < |first| ==> name[k] == name[..|first|][k];
  }

  /** One log entry as the answer shows it. */
  function ActivityOf(l: LogRow): Activity {
    Activity(l.id, l.action, l.details, l.targetType, l.ipAddress, l.createdAt,
             if l.user.Some? then Some(UserView(l.user.value.id, l.user.value.email, FullName(l.user.value))) else None)
  }

  /** The recent-activity mapping: log fields passed through, the user shown with a full name or null. */
  function RecentActivityOf(logs: seq<LogRow>): (r: seq<Activity>)
    ensures |r| == |logs|
    ensures forall i :: 0 <= i < |logs| ==>
              && r[i].id == logs[i].id && r[i].action == logs[i].action && r[i].details == logs[i].details
              && r[i].targetType == logs[i].targetType && r[i].ipAddress == logs[i].ipAddress
              && r[i].createdAt == logs[i].createdAt
              && (r[i].user.None? <==> logs[i].user.None?)
              && (logs[i].user.Some? ==>
                    r[i].user.value.id == logs[i].user.value.id
                    && r[i].user.value.email == logs[i].user.value.email
                    && r[i].user.value.name == FullName(logs[i].user.value))
  {
    seq(|logs|, i requires 0 <= i < |logs| => ActivityOf(logs[i]))
  }
}
