/**
 * How the question page's own limit check compares with the server's
 * decision. The page copies the plan table faithfully, but it reads the
 * plan from the `me` profile, which does not carry one, and it compares
 * calendar dates in the browser's time zone where the server uses UTC.
 * The corrected check (the profile with the plan, dates compared in UTC)
 * agrees with the server on every input.
 */
module Agreement {
  import opened Wrappers
  import opened Strings
  import opened Clock
  import opened UserModel
  import opened AuthController
  import opened Quota
  import Dashboard
  import DocQuery

  /** Both copies of the plan table give every plan name the server's
      limit, and an absent plan the free limit. */
  lemma PlanTablesAgree(plan: string)
    ensures Dashboard.GetPlanLimits(Some(plan)).limit == DailyLimit(plan)
    ensures DocQuery.GetPlanLimits(Some(plan)).limit == DailyLimit(plan)
    ensures Dashboard.GetPlanLimits(None).limit == DocQuery.GetPlanLimits(None).limit == PlanLimit(Free)
  {
  }

  /** With the profile `me` returns, the page applies the free limit to
      every user, whatever the stored plan. */
  lemma MeProfileUsesFreeLimit(u: User, token: Option<string>, now: Instant, offset: int)
    requires Present(token)
    ensures var sameDay := LocalDay(now, offset) == LocalDay(u.lastResetDate.GetOr(0), offset);
      DocQuery.CheckDailyLimit(token, DocQuery.Fetched(Me(u)), now, offset) <==> sameDay && u.dailyCount >= 10
  {
  }

  /** With a profile that carries the plan, the Dashboard shows the limit
      the server enforces and, for a browser on UTC and a recorded reset,
      the count the server would start today's request from. */
  lemma DashboardMatchesServer(u: User, token: Option<string>, now: Instant, offset: int)
    requires Present(token)
    ensures var s := Dashboard.Load(token, Dashboard.MeOk(MeWithPlan(u)), now, offset);
      && s.usage.queriesLimit == DailyLimit(u.plan)
      && (offset == 0 && u.lastResetDate.Some? ==> s.usage.queriesUsed == UsedToday(u, now))
  {
    PlanTablesAgree(u.plan);
  }

  const Noon: Instant := 1704110400000      // 2024-01-01T12:00:00Z
  const Evening: Instant := 1704139200000   // 2024-01-01T20:00:00Z
  const NextMorning: Instant := 1704157200000 // 2024-01-02T01:00:00Z
  const Ist: int := 19800000                // UTC+05:30 in milliseconds

  function Member(plan: string, count: nat, lastReset: Instant): User {
    User("65a000000000000000000001", "reader@example.com", "hash", count, Some(lastReset), plan, None)
  }

  const Ask: QueryRequest := QueryRequest(Some("document text"), Some("question"))

  /** A premium user who has asked ten questions today is stopped by the
      page's check, although the server would answer: the page sees no
      plan and applies the free limit. */
  lemma PremiumUserBlockedByPage()
    ensures var u := Member("premium", 10, Noon);
      && DocQuery.CheckDailyLimit(Some("token"), DocQuery.Fetched(Me(u)), Noon, 0)
      && AskQuestion(u, Ask, Noon, Reply(Some("answer"))).reply.Answered?
  {
    var u := Member("premium", 10, Noon);
    assert UtcDay(Noon) == 19723;
    assert !OverQuota(u, Noon);
  }

  /** Even with the plan in the profile, a user in India who used up the
      free allowance late on 1 January (UTC) is stopped by the page early
      on 2 January (UTC), when the server has started a new day: both
      instants fall on 2 January in India. */
  lemma LocalDateBlocksAfterUtcReset()
    ensures var u := Member("free", 10, Evening);
      && UtcDay(Evening) == 19723 && UtcDay(NextMorning) == 19724
      && LocalDay(Evening, Ist) == LocalDay(NextMorning, Ist) == 19724
      && DocQuery.CheckDailyLimit(Some("token"), DocQuery.Fetched(MeWithPlan(u)), NextMorning, Ist)
      && AskQuestion(u, Ask, NextMorning, Reply(Some("answer"))).reply.Answered?
  {
    EveningDays();
    var u := Member("free", 10, Evening);
    assert UsedToday(u, NextMorning) == 0;
    assert !OverQuota(u, NextMorning);
  }

  /** The calendar days of the two instants, in UTC and in India. */
  lemma EveningDays()
    ensures UtcDay(Evening) == 19723 && UtcDay(NextMorning) == 19724
    ensures LocalDay(Evening, Ist) == 19724 && LocalDay(NextMorning, Ist) == 19724
  {
  }

  /** The corrected check, on the profile with the plan and by UTC date,
      is the server's quota decision. A record without a reset date counts
      as reset at the epoch, which only matters on the epoch's own day. */
  lemma CorrectedCheckAgrees(u: User, token: Option<string>, req: QueryRequest, now: Instant, upstream: Upstream)
    requires Present(token)
    requires u.lastResetDate.Some? || UtcDay(now) != 0
    ensures DocQuery.CheckDailyLimitUtc(token, DocQuery.Fetched(MeWithPlan(u)), now) == OverQuota(u, now)
    ensures Present(req.pdfText) && Present(req.question) ==>
      var check := DocQuery.CheckDailyLimitUtc(token, DocQuery.Fetched(MeWithPlan(u)), now);
      check <==> AskQuestion(u, req, now, upstream).reply.LimitReached?
  {
    PlanTablesAgree(u.plan);
    assert UtcDay(0) == 0;
  }

  /** The server's 403 message mentions the limit, so the page shows the
      limit dialog and takes the question back out of the history. */
  lemma LimitReplyRestoresHistory(s: DocQuery.ChatState, remaining: nat, dailyLimit: nat, plan: string)
    ensures Contains(LimitReached(remaining, dailyLimit, plan).Message(), "limit")
    ensures DocQuery.Asked(s, DocQuery.NotOk(Some(LimitReached(remaining, dailyLimit, plan).Message())))
      == s.(question := "", showLimitModal := true)
  {
    var m := LimitReachedMessage;
    assert m[6..11] == "limit";
    assert OccursAt(m, "limit", 6);
  }
}
