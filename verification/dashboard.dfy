/**
 * The Dashboard's derivations from the profile the `me` endpoint returns:
 * the plan's limit, name and colour, the count shown for today (by the
 * browser's local calendar), the next reset time, the usage percentage and
 * its bar, and the queries remaining. The local time zone is a fixed
 * offset from UTC.
 */
module Dashboard {
  import opened Wrappers
  import opened Clock
  import opened UserModel
  import opened AuthController

  datatype PlanInfo = PlanInfo(limit: Limit, name: string, color: string)

  /** `getPlanLimits`; an absent or unknown plan gets the free entry. */
  function GetPlanLimits(plan: Option<string>): (info: PlanInfo)
    ensures plan.Some? && ParsePlan(plan.value).Some? ==> info.limit == PlanLimit(ParsePlan(plan.value).value)
    ensures !(plan.Some? && ParsePlan(plan.value).Some?) ==> info == PlanInfo(Bounded(10), "Free", "gray")
    ensures plan == Some("free") ==> info.name == "Free" && info.color == "gray"
    ensures plan == Some("premium") ==> info.name == "Premium" && info.color == "blue"
    ensures plan == Some("premiumPlus") ==> info.name == "Premium Plus" && info.color == "purple"
  {
    if plan == Some("free") then PlanInfo(Bounded(10), "Free", "gray")
    else if plan == Some("premium") then PlanInfo(Bounded(50), "Premium", "blue")
    else if plan == Some("premiumPlus") then PlanInfo(Unbounded, "Premium Plus", "purple")
    else PlanInfo(Bounded(10), "Free", "gray")
  }

  /** `new Date(lastResetDate)`: a null date is the epoch. */
  function ResetInstant(lastResetDate: Option<Instant>): Instant {
    lastResetDate.GetOr(0)
  }

  /** `today.toDateString() !== lastReset.toDateString()`. */
  predicate IsNewDay(now: Instant, lastResetDate: Option<Instant>, offset: int) {
    LocalDay(now, offset) != LocalDay(ResetInstant(lastResetDate), offset)
  }

  /** The count shown for today. */
  function QueriesUsed(p: Profile, now: Instant, offset: int): (n: nat)
    ensures IsNewDay(now, p.lastResetDate, offset) ==> n == 0
    ensures !IsNewDay(now, p.lastResetDate, offset) ==> n == p.dailyCount
  {
    if IsNewDay(now, p.lastResetDate, offset) then 0 else p.dailyCount
  }

  /** `calculateResetTime`: local midnight at the start of the day after
      the last reset. */
  function CalculateResetTime(lastResetDate: Option<Instant>, offset: int): (r: Instant)
    ensures var t := ResetInstant(lastResetDate);
      && LocalDay(r, offset) == LocalDay(t, offset) + 1
      && (r + offset) % MsPerDay == 0
      && t < r <= t + MsPerDay
  {
    var t := ResetInstant(lastResetDate);
    (LocalDay(t, offset) + 1) * MsPerDay - offset
  }

  datatype DailyUsage = DailyUsage(queriesUsed: nat, queriesLimit: Limit, resetTime: Option<Instant>)

  const InitialUsage: DailyUsage := DailyUsage(0, Bounded(0), None)

  /** What the request to `me` produced: the profile, or a failure with the
      server's message and the error's own message, if any. */
  datatype MeFetch = MeOk(profile: Profile) | MeFailed(serverMessage: Option<string>, errorMessage: Option<string>)

  datatype DashboardState = DashboardState(user: Option<Profile>, error: string, usage: DailyUsage)

  /** `fetchUserData`, run once on mount. */
  function Load(token: Option<string>, fetch: MeFetch, now: Instant, offset: int): (s: DashboardState)
    ensures !Present(token) ==> s == DashboardState(None, "No authentication token found", InitialUsage)
    ensures Present(token) && fetch.MeOk? ==>
      && s.user == Some(fetch.profile) && s.error == ""
      && s.usage.queriesUsed == QueriesUsed(fetch.profile, now, offset)
      && s.usage.queriesLimit == GetPlanLimits(fetch.profile.plan).limit
      && s.usage.resetTime == Some(CalculateResetTime(fetch.profile.lastResetDate, offset))
    ensures Present(token) && fetch.MeFailed? ==> s.user.None? && s.error != "" && s.usage == InitialUsage
  {
    if !Present(token) then DashboardState(None, "No authentication token found", InitialUsage)
    else match fetch
      case MeOk(p) =>
        DashboardState(Some(p), "",
          DailyUsage(QueriesUsed(p, now, offset), GetPlanLimits(p.plan).limit,
                     Some(CalculateResetTime(p.lastResetDate, offset))))
      case MeFailed(server, own) =>
        var message :=
          if Present(server) then server.value
          else if Present(own) then own.value
          else "Failed to fetch user information";
        DashboardState(None, message, InitialUsage)
  }

  /** The plan shown: the user's, or the placeholder before a user is
      loaded. */
  function ShownPlan(user: Option<Profile>): PlanInfo {
    if user.Some? then GetPlanLimits(user.value.plan) else PlanInfo(Bounded(0), "Unknown", "gray")
  }

  /** A non-negative rational `num / den`. */
  datatype Ratio = Ratio(num: nat, den: nat)

  /** The usage percentage: 0 on an unbounded plan, used / limit · 100
      otherwise. */
  function UsagePercentage(used: nat, limit: Limit): (r: Ratio)
    requires limit.Bounded? ==> limit.n > 0
    ensures r.den > 0
    ensures limit.Unbounded? ==> r.num == 0
    ensures limit.Bounded? ==> r.num * limit.n == 100 * used * r.den
  {
    match limit
    case Unbounded => Ratio(0, 1)
    case Bounded(n) => Ratio(100 * used, n)
  }

  /** `x >= k` for a ratio. */
  predicate AtLeast(x: Ratio, k: nat) {
    x.num >= k * x.den
  }

  /** The bar's colour class. */
  function BarColour(pct: Ratio): string {
    if AtLeast(pct, 90) then "bg-red-500" else if AtLeast(pct, 70) then "bg-yellow-500" else "bg-green-500"
  }

  /** The bar is red from nine tenths of the limit and yellow from seven
      tenths. */
  lemma BarColourThresholds(used: nat, n: nat)
    requires n > 0
    ensures BarColour(UsagePercentage(used, Bounded(n))) == "bg-red-500" <==> 10 * used >= 9 * n
    ensures BarColour(UsagePercentage(used, Bounded(n))) == "bg-yellow-500" <==> 7 * n <= 10 * used < 9 * n
    ensures BarColour(UsagePercentage(used, Bounded(n))) == "bg-green-500" <==> 10 * used < 7 * n
  {
  }

  /** `Math.min(usagePercentage, 100)`. */
  function BarWidth(pct: Ratio): (w: Ratio)
    requires pct.den > 0
    ensures w.den > 0 && w.num <= 100 * w.den
    ensures AtLeast(pct, 100) ==> w == Ratio(100, 1)
    ensures !AtLeast(pct, 100) ==> w == pct
  {
    if AtLeast(pct, 100) then Ratio(100, 1) else pct
  }

  /** `Math.round` of a non-negative ratio: the nearest whole number, halves
      rounded up. */
  function Round(x: Ratio): (k: nat)
    requires x.den > 0
    ensures 2 * k * x.den <= 2 * x.num + x.den < 2 * (k + 1) * x.den
  {
    RoundFacts(2 * x.num + x.den, 2 * x.den);
    (2 * x.num + x.den) / (2 * x.den)
  }

  lemma RoundFacts(a: nat, b: nat)
    requires b > 0
    ensures (a / b) * b <= a < (a / b + 1) * b
  {
  }

  /** The queries remaining: the limit less the count, which may be
      negative, or infinity. */
  datatype Shown = Infinite | Count(n: int)

  function QueriesRemaining(limit: Limit, used: nat): (r: Shown)
    ensures limit.Unbounded? <==> r == Infinite
    ensures limit.Bounded? ==> r.Count? && r.n + used == limit.n
  {
    match limit
    case Unbounded => Infinite
    case Bounded(n) => Count(n - used)
  }
}
