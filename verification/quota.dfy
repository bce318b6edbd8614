/**
 * The question-answering endpoint `askQuestion`: the per-plan daily limit,
 * the reset of the counter on a new UTC calendar day, admission, the prompt
 * built from the document text, the call to the generative-AI service (here
 * an input: what the service would answer) and the usage report.
 *
 * `AskQuestion` returns the reply together with the record as it is
 * persisted afterwards: the in-memory reset of a rejected or failed request
 * is never saved.
 */
module Quota {
  import opened Wrappers
  import opened Strings
  import opened Clock
  import opened UserModel

  /** `user.plan || "free"`: the plan name the endpoint reports. */
  function PlanOrFree(plan: string): string {
    if plan == "" then "free" else plan
  }

  /** `DAILY_LIMITS[plan] ?? DAILY_LIMITS["free"]` for the reported plan
      name. */
  function DailyLimit(plan: string): (l: Limit)
    ensures ParsePlan(plan).Some? ==> l == PlanLimit(ParsePlan(plan).value)
    ensures ParsePlan(plan).None? ==> l == Bounded(10)
  {
    match ParsePlan(PlanOrFree(plan))
    case Some(p) => PlanLimit(p)
    case None => PlanLimit(Free)
  }

  /** The count that stands for today: the stored count while the last reset
      fell on today's UTC date, and 0 otherwise. */
  function UsedToday(u: User, now: Instant): nat {
    if u.lastResetDate.Some? && UtcDay(u.lastResetDate.value) == UtcDay(now) then u.dailyCount else 0
  }

  /** The day reset of `askQuestion`: when the stored reset date is absent or on
      another UTC date the counter restarts at 0 from `now`. */
  function ResetIfNewDay(u: User, now: Instant): (r: User)
    ensures r.lastResetDate.Some? && UtcDay(r.lastResetDate.value) == UtcDay(now)
    ensures r.dailyCount == UsedToday(u, now)
    ensures r.(dailyCount := u.dailyCount, lastResetDate := u.lastResetDate) == u
    ensures u.lastResetDate.Some? && UtcDay(u.lastResetDate.value) == UtcDay(now) ==> r == u
    ensures r != u ==> r.dailyCount == 0 && r.lastResetDate == Some(now)
  {
    var lastReset := if u.lastResetDate.Some? then Some(UtcDay(u.lastResetDate.value)) else None;
    if lastReset != Some(UtcDay(now)) then u.(dailyCount := 0, lastResetDate := Some(now)) else u
  }

  /** A finite plan whose count for today has reached its limit. */
  predicate OverQuota(u: User, now: Instant) {
    var limit := DailyLimit(u.plan);
    limit.Bounded? && UsedToday(u, now) >= limit.n
  }

  /** Number of characters of the document text that enter the prompt. */
  const MaxDocumentChars: nat := 10000

  /** `pdfText.slice(0, 10000)`. */
  function Truncate(text: string): (r: string)
    ensures |r| <= MaxDocumentChars && |r| <= |text|
    ensures |r| == if |text| <= MaxDocumentChars then |text| else MaxDocumentChars
    ensures r == text[..|r|]
    ensures |text| <= MaxDocumentChars ==> r == text
  {
    if |text| <= MaxDocumentChars then text else text[..MaxDocumentChars]
  }

  /** The fixed text of the prompt around the document and the question. */
  const PromptHead: string :=
    "You are an assistant " + "answering questions about a PDF document. \n"
    + "Here is the document content:\n" + "\"\"\" \n"
  const PromptMiddle: string := " \n\"\"\" \nQuestion: "
  const PromptTail: string := "\nAnswer:"

  /** The prompt's text between its surrounding whitespace. */
  function PromptCore(pdfText: string, question: string): string {
    PromptHead + Truncate(pdfText) + PromptMiddle + question + PromptTail
  }

  /** The prompt template literal of `askQuestion`, before `.trim()`: the prompt text
      opens with a line break and closes with a line break and the
      indentation of the closing backtick. */
  function PromptTemplate(pdfText: string, question: string): string {
    "\n" + PromptCore(pdfText, question) + "\n    "
  }

  /** The prompt sent upstream: the trimmed template, which is the fixed
      text around the first 10,000 characters of the document and the whole
      question. */
  function Prompt(pdfText: string, question: string): (r: string)
    ensures r == Trim(PromptTemplate(pdfText, question))
  {
    PromptTrim(pdfText, question);
    PromptCore(pdfText, question)
  }

  lemma PromptTrim(pdfText: string, question: string)
    ensures Trim(PromptTemplate(pdfText, question)) == PromptCore(pdfText, question)
  {
    PromptCoreEnds(pdfText, question);
    assert IsWhitespace('\n') && IsWhitespace(' ');
    assert AllWhitespace("\n");
    assert AllWhitespace("\n    ");
    TrimPadded("\n", PromptCore(pdfText, question), "\n    ");
  }

  /** The prompt's text starts with the letter `Y` and ends with a colon. */
  lemma PromptCoreEnds(pdfText: string, question: string)
    ensures var core := PromptCore(pdfText, question);
      core != [] && !IsWhitespace(core[0]) && !IsWhitespace(core[|core| - 1])
  {
    var rest := Truncate(pdfText) + PromptMiddle + question;
    var core := PromptCore(pdfText, question);
    assert core == PromptHead + rest + PromptTail;
    assert PromptHead[0] == 'Y';
    assert core[0] == 'Y';
    assert PromptTail[|PromptTail| - 1] == ':';
    assert core[|core| - 1] == ':';
    assert !IsWhitespace('Y') && !IsWhitespace(':');
  }

  /** What the generative-AI service does with the prompt: it answers with an
      optional text part, or it responds with a non-OK status. */
  datatype Upstream = Reply(text: Option<string>) | Unavailable(details: string)

  const NoResponse: string := "No response from AI"

  /** `text?.trim() || "No response from AI"`. */
  function AnswerText(text: Option<string>): (a: string)
    ensures a != ""
    ensures a == NoResponse <==> text.None? || AllWhitespace(text.value) || Trim(text.value) == NoResponse
    ensures text.Some? && !AllWhitespace(text.value) ==> a == Trim(text.value)
  {
    if text.Some? && Trim(text.value) != "" then Trim(text.value) else NoResponse
  }

  /** The `remaining` field: a count, or the string "Unlimited". */
  datatype Remaining = Left(n: nat) | Unlimited

  datatype Usage = Usage(usedToday: nat, remaining: Remaining, dailyLimit: Limit, resetAt: Option<Instant>, plan: string)

  datatype QueryRequest = QueryRequest(pdfText: Option<string>, question: Option<string>)

  /** The 403 message, written in pieces so that proofs can see the word
      "limit" in it. */
  const LimitReachedMessage: string := "Daily " + "limit" + " reached. Please upgrade your plan."

  datatype QueryReply =
    | MissingFields
    | LimitReached(remaining: nat, dailyLimit: nat, plan: string)
    | UpstreamError(details: string)
    | Answered(answer: string, usage: Usage)
  {
    function Status(): nat {
      match this
      case MissingFields => 400
      case LimitReached(_, _, _) => 403
      case UpstreamError(_) => 502
      case Answered(_, _) => 200
    }

    function Message(): string {
      match this
      case MissingFields => "PDF text and question are required"
      case LimitReached(_, _, _) => LimitReachedMessage
      case UpstreamError(_) => "Error contacting Gemini AI service"
      case Answered(_, _) => ""
    }
  }

  /** The reply, the prompt if one was sent upstream, and the record as
      persisted after the request. */
  datatype QueryResult = QueryResult(reply: QueryReply, prompt: Option<string>, stored: User)

  function AskQuestion(u: User, req: QueryRequest, now: Instant, upstream: Upstream): (r: QueryResult)
    // Missing fields: 400, nothing sent, nothing saved.
    ensures r.reply.MissingFields? <==> !Present(req.pdfText) || !Present(req.question)
    // Quota: rejected exactly when a finite plan has used up today's allowance.
    ensures r.reply.LimitReached? <==> Present(req.pdfText) && Present(req.question) && OverQuota(u, now)
    ensures r.reply.LimitReached? ==>
      (&& r.reply.remaining == 0 && r.reply.plan == PlanOrFree(u.plan)
       && Bounded(r.reply.dailyLimit) == DailyLimit(u.plan))
    ensures r.reply.MissingFields? || r.reply.LimitReached? ==> r.prompt.None? && r.stored == u
    // Admitted: the prompt goes upstream, and the rest is `Admitted`.
    ensures Present(req.pdfText) && Present(req.question) && !OverQuota(u, now) ==>
      r == Admitted(u, Prompt(req.pdfText.value, req.question.value), now, upstream)
  {
    if !Present(req.pdfText) || !Present(req.question) then
      QueryResult(MissingFields, None, u)
    else
      var current := ResetIfNewDay(u, now);
      var plan := PlanOrFree(u.plan);
      var limit := DailyLimit(u.plan);
      if limit.Bounded? && current.dailyCount >= limit.n then
        QueryResult(LimitReached(0, limit.n, plan), None, u)
      else
        Admitted(u, Prompt(req.pdfText.value, req.question.value), now, upstream)
  }

  /** `askQuestion` for an admitted request: the prompt is sent, a non-OK
      response is reported as 502, and an answer is counted, saved (finite
      plans only) and reported with the usage. */
  function Admitted(u: User, prompt: string, now: Instant, upstream: Upstream): (r: QueryResult)
    requires !OverQuota(u, now)
    ensures r.prompt == Some(prompt)
    ensures r.reply.UpstreamError? || r.reply.Answered?
    ensures r.reply.UpstreamError? <==> upstream.Unavailable?
    // Only an answered request on a finite plan is persisted.
    ensures !(r.reply.Answered? && DailyLimit(u.plan).Bounded?) ==> r.stored == u
    ensures r.reply.Answered? && DailyLimit(u.plan).Bounded? ==>
      && r.stored.dailyCount == UsedToday(u, now) + 1 <= DailyLimit(u.plan).n
      && r.stored.lastResetDate == ResetIfNewDay(u, now).lastResetDate
      && r.stored.lastResetDate.Some? && UtcDay(r.stored.lastResetDate.value) == UtcDay(now)
      && r.stored.(dailyCount := u.dailyCount, lastResetDate := u.lastResetDate) == u
    // The usage report.
    ensures r.reply.Answered? ==>
      && r.reply.answer == AnswerText(upstream.text)
      && r.reply.usage.plan == PlanOrFree(u.plan)
      && r.reply.usage.dailyLimit == DailyLimit(u.plan)
      && r.reply.usage.resetAt == ResetIfNewDay(u, now).lastResetDate
      && r.reply.usage.resetAt.Some? && UtcDay(r.reply.usage.resetAt.value) == UtcDay(now)
      && (DailyLimit(u.plan).Unbounded? ==>
            r.reply.usage.remaining == Unlimited && r.reply.usage.usedToday == UsedToday(u, now))
      && (DailyLimit(u.plan).Bounded? ==>
            && r.reply.usage.usedToday == r.stored.dailyCount
            && r.reply.usage.remaining == Left(DailyLimit(u.plan).n - r.stored.dailyCount))
  {
    var current := ResetIfNewDay(u, now);
    var limit := DailyLimit(u.plan);
    match upstream
    case Unavailable(details) => QueryResult(UpstreamError(details), Some(prompt), u)
    case Reply(text) =>
      var after := if limit.Bounded? then current.(dailyCount := current.dailyCount + 1) else current;
      var remaining := if limit.Bounded? then Left(Max0(limit.n - after.dailyCount)) else Unlimited;
      var usage := Usage(after.dailyCount, remaining, limit, after.lastResetDate, PlanOrFree(u.plan));
      QueryResult(Answered(AnswerText(text), usage), Some(prompt), if limit.Bounded? then after else u)
  }

  /** The first request of a new UTC day is never rejected for quota: the
      count restarts at 0, below every finite limit. */
  lemma NewDayNeverRejected(u: User, req: QueryRequest, now: Instant, upstream: Upstream)
    requires !(u.lastResetDate.Some? && UtcDay(u.lastResetDate.value) == UtcDay(now))
    ensures !AskQuestion(u, req, now, upstream).reply.LimitReached?
  {
    assert UsedToday(u, now) == 0;
  }

  /** An unbounded plan is never rejected for quota and its record is never
      saved by the endpoint. */
  lemma UnboundedNeverCounted(u: User, req: QueryRequest, now: Instant, upstream: Upstream)
    requires DailyLimit(u.plan).Unbounded?
    ensures !AskQuestion(u, req, now, upstream).reply.LimitReached?
    ensures AskQuestion(u, req, now, upstream).stored == u
  {
  }

  /** `Math.max(0, x)`. */
  function Max0(x: int): nat {
    if x < 0 then 0 else x
  }

  /** One request of a day: its body, its instant and what the service would
      answer. */
  datatype Attempt = Attempt(request: QueryRequest, now: Instant, upstream: Upstream)

  /** The stored record after a sequence of requests, one at a time. */
  function RecordAfter(u: User, attempts: seq<Attempt>): User
    decreases |attempts|
  {
    if |attempts| == 0 then u
    else
      var a := attempts[0];
      RecordAfter(AskQuestion(u, a.request, a.now, a.upstream).stored, attempts[1..])
  }

  /** Number of requests among `attempts` that were answered. */
  function Admissions(u: User, attempts: seq<Attempt>): nat
    decreases |attempts|
  {
    if |attempts| == 0 then 0
    else
      var a := attempts[0];
      var r := AskQuestion(u, a.request, a.now, a.upstream);
      (if r.reply.Answered? then 1 else 0) + Admissions(r.stored, attempts[1..])
  }

  /** The count a record stands for on UTC day `day`. */
  function UsedOnDay(u: User, day: int): nat {
    if u.lastResetDate.Some? && UtcDay(u.lastResetDate.value) == day then u.dailyCount else 0
  }

  /** One request on day `day` by a user on a finite plan: an answer uses
      one unit of what is left of the allowance, anything else leaves the
      record as it was. */
  lemma StepOnDay(u: User, a: Attempt, day: int)
    requires UtcDay(a.now) == day && DailyLimit(u.plan).Bounded?
    ensures var r := AskQuestion(u, a.request, a.now, a.upstream);
      && r.stored.plan == u.plan
      && (r.reply.Answered? ==>
            UsedOnDay(u, day) < DailyLimit(u.plan).n && UsedOnDay(r.stored, day) == UsedOnDay(u, day) + 1)
      && (!r.reply.Answered? ==> r.stored == u)
  {
    assert UsedToday(u, a.now) == UsedOnDay(u, day);
  }

  /** At most N admissions per day: within one UTC day a user on a finite
      plan is answered at most as often as the allowance that is left. */
  lemma {:induction false} AtMostLimitPerDay(u: User, attempts: seq<Attempt>, day: int)
    requires forall i :: 0 <= i < |attempts| ==> UtcDay(attempts[i].now) == day
    requires DailyLimit(u.plan).Bounded?
    ensures var n := DailyLimit(u.plan).n;
      Admissions(u, attempts) <= if UsedOnDay(u, day) <= n then n - UsedOnDay(u, day) else 0
    decreases |attempts|
  {
    if |attempts| > 0 {
      var a := attempts[0];
      var r := AskQuestion(u, a.request, a.now, a.upstream);
      StepOnDay(u, a, day);
      AtMostLimitPerDay(r.stored, attempts[1..], day);
    }
  }
}
