/**
 * The question page: its copy of the plan table, the limit check it makes
 * against the `me` profile before asking (by the browser's local calendar),
 * and the chat history that asking, clearing and loading a document
 * update.
 */
module DocQuery {
  import opened Wrappers
  import opened Strings
  import opened Clock
  import opened UserModel
  import opened AuthController
  import opened Quota

  datatype PlanInfo = PlanInfo(limit: Limit, name: string)

  /** `getPlanLimits`; an absent or unknown plan gets the free entry. */
  function GetPlanLimits(plan: Option<string>): (info: PlanInfo)
    ensures plan.Some? && ParsePlan(plan.value).Some? ==> info.limit == PlanLimit(ParsePlan(plan.value).value)
    ensures !(plan.Some? && ParsePlan(plan.value).Some?) ==> info == PlanInfo(Bounded(10), "Free")
    ensures plan == Some("free") ==> info.name == "Free"
    ensures plan == Some("premium") ==> info.name == "Premium"
    ensures plan == Some("premiumPlus") ==> info.name == "Premium Plus"
  {
    if plan == Some("free") then PlanInfo(Bounded(10), "Free")
    else if plan == Some("premium") then PlanInfo(Bounded(50), "Premium")
    else if plan == Some("premiumPlus") then PlanInfo(Unbounded, "Premium Plus")
    else PlanInfo(Bounded(10), "Free")
  }

  /** What the request to `me` produced. */
  datatype ProfileFetch = FetchThrew | FetchNotOk | Fetched(profile: Profile)

  /** The count of a profile for the day that `sameDay` says the last reset
      fell on. */
  function EffectiveUsage(p: Profile, sameDay: bool): nat {
    if sameDay then p.dailyCount else 0
  }

  /** `checkDailyLimit` as written: the last reset and now are compared by
      local calendar date (`toDateString`), a null date being the epoch.
      Any failure counts as not reached. */
  function CheckDailyLimit(token: Option<string>, fetch: ProfileFetch, now: Instant, offset: int): (reached: bool)
    ensures reached <==>
      && Present(token) && fetch.Fetched?
      && var limit := GetPlanLimits(fetch.profile.plan).limit;
      && var sameDay := LocalDay(now, offset) == LocalDay(fetch.profile.lastResetDate.GetOr(0), offset);
      && limit.Bounded? && EffectiveUsage(fetch.profile, sameDay) >= limit.n
  {
    if !Present(token) then false
    else match fetch
      case Fetched(p) =>
        var planInfo := GetPlanLimits(p.plan);
        var isNewDay := LocalDay(now, offset) != LocalDay(p.lastResetDate.GetOr(0), offset);
        var currentUsage := if isNewDay then 0 else p.dailyCount;
        planInfo.limit.Bounded? && currentUsage >= planInfo.limit.n
      case _ => false
  }

  /** The same check by UTC calendar date, the day the server counts by. */
  function CheckDailyLimitUtc(token: Option<string>, fetch: ProfileFetch, now: Instant): (reached: bool)
    ensures reached <==>
      && Present(token) && fetch.Fetched?
      && var limit := GetPlanLimits(fetch.profile.plan).limit;
      && var sameDay := UtcDay(now) == UtcDay(fetch.profile.lastResetDate.GetOr(0));
      && limit.Bounded? && EffectiveUsage(fetch.profile, sameDay) >= limit.n
  {
    if !Present(token) then false
    else match fetch
      case Fetched(p) =>
        var planInfo := GetPlanLimits(p.plan);
        var isNewDay := UtcDay(now) != UtcDay(p.lastResetDate.GetOr(0));
        var currentUsage := if isNewDay then 0 else p.dailyCount;
        planInfo.limit.Bounded? && currentUsage >= planInfo.limit.n
      case _ => false
  }

  datatype Entry = UserEntry(content: string) | AiEntry(content: string) | ErrorEntry(content: string)

  datatype ChatState = ChatState(
    pdfText: string,
    question: string,
    response: string,
    usage: Option<Usage>,
    fileName: string,
    history: seq<Entry>,
    showLimitModal: bool)

  /** What the query request produced: a thrown error, a non-OK reply with
      its message (if any), or an answer with the usage. */
  datatype QueryOutcome = Threw(error: string) | NotOk(message: Option<string>) | Ok(answer: string, usage: Usage)

  const LoginRequired: string := "You must be logged in to ask questions."

  /** `handleAsk`, with the result of the limit check and what the request
      would produce. */
  function HandleAsk(s: ChatState, token: Option<string>, limitReached: bool, outcome: QueryOutcome): (r: ChatState)
    // Nothing to ask: nothing happens.
    ensures s.pdfText == "" || AllWhitespace(s.question) ==> r == s
    // The old history is always kept, and at most two entries are added.
    ensures s.history <= r.history && |r.history| <= |s.history| + 2
    ensures s.pdfText != "" && !AllWhitespace(s.question) && !Present(token) ==>
      r == s.(response := LoginRequired, history := s.history + [ErrorEntry(LoginRequired)])
    ensures s.pdfText != "" && !AllWhitespace(s.question) && Present(token) && limitReached ==>
      r == s.(showLimitModal := true)
    ensures s.pdfText != "" && !AllWhitespace(s.question) && Present(token) && !limitReached ==>
      r == Asked(s, outcome)
  {
    if s.pdfText == "" || Trim(s.question) == "" then s
    else if !Present(token) then
      s.(response := LoginRequired, history := s.history + [ErrorEntry(LoginRequired)])
    else if limitReached then s.(showLimitModal := true)
    else Asked(s, outcome)
  }

  /** The question is sent: it is cleared from the input and added to the
      history, and the reply is added after it, except that a limit error
      takes the question back out. */
  function Asked(s: ChatState, outcome: QueryOutcome): (r: ChatState)
    ensures s.history <= r.history && |r.history| <= |s.history| + 2
    ensures r.question == ""
    ensures outcome.NotOk? && Present(outcome.message) && Contains(outcome.message.value, "limit") ==>
      r == s.(question := "", showLimitModal := true)
    ensures outcome.NotOk? && !(Present(outcome.message) && Contains(outcome.message.value, "limit")) ==>
      var e := if Present(outcome.message) then outcome.message.value else "Error from server.";
      r == s.(question := "", response := e, history := s.history + [UserEntry(s.question), ErrorEntry(e)])
    ensures outcome.Ok? ==>
      r == s.(question := "", response := outcome.answer, usage := Some(outcome.usage),
              history := s.history + [UserEntry(s.question), AiEntry(outcome.answer)])
    ensures outcome.Threw? ==>
      var e := "Error: " + outcome.error;
      r == s.(question := "", response := e, history := s.history + [UserEntry(s.question), ErrorEntry(e)])
  {
    var asked := s.(question := "", history := s.history + [UserEntry(s.question)]);
    assert asked.history[..|asked.history| - 1] == s.history;
    match outcome
    case NotOk(m) =>
      if Present(m) && Contains(m.value, "limit") then
        asked.(showLimitModal := true, history := asked.history[..|asked.history| - 1])
      else
        var e := if Present(m) then m.value else "Error from server.";
        asked.(response := e, history := asked.history + [ErrorEntry(e)])
    case Ok(answer, usage) =>
      asked.(response := answer, usage := Some(usage), history := asked.history + [AiEntry(answer)])
    case Threw(error) =>
      asked.(response := "Error: " + error, history := asked.history + [ErrorEntry("Error: " + error)])
  }

  /** `clearChat`. */
  function ClearChat(s: ChatState): (r: ChatState)
    ensures r.history == [] && r.response == "" && r.usage.None?
    ensures r.(history := s.history, response := s.response, usage := s.usage) == s
  {
    s.(history := [], response := "", usage := None)
  }

  /** A document was read: its text replaces the old one and the chat starts
      over. */
  function PdfLoaded(s: ChatState, fileName: string, text: string): (r: ChatState)
    ensures r.pdfText == text && r.fileName == fileName
    ensures r.history == [] && r.response == "" && r.usage.None?
    ensures r.(pdfText := s.pdfText, fileName := s.fileName, history := s.history,
               response := s.response, usage := s.usage) == s
  {
    s.(fileName := fileName, pdfText := text, response := "", usage := None, history := [])
  }

  const PdfError: string := "Failed to process PDF file. Please try again."

  /** A document could not be read: the chat shows only the error, the file
      name is cleared and the previous text stays. */
  function PdfFailed(s: ChatState): (r: ChatState)
    ensures r.history == [ErrorEntry(PdfError)] && r.fileName == "" && r.pdfText == s.pdfText
    ensures r.(fileName := s.fileName, history := s.history) == s
  {
    s.(fileName := "", history := [ErrorEntry(PdfError)])
  }

  /** The shape of a chat history: every answer directly follows a question,
      every question is directly followed by its reply (an answer or an
      error), and no question is blank. */
  predicate WellFormedHistory(h: seq<Entry>) {
    && (forall i :: 0 <= i < |h| && h[i].AiEntry? ==> 0 < i && h[i - 1].UserEntry?)
    && (forall i :: 0 <= i < |h| && h[i].UserEntry? ==>
          i + 1 < |h| && !h[i + 1].UserEntry? && !AllWhitespace(h[i].content))
  }

  /** A question and its reply appended to a well-formed history. */
  lemma AppendExchange(h: seq<Entry>, question: string, reply: Entry)
    requires WellFormedHistory(h)
    requires !AllWhitespace(question) && !reply.UserEntry?
    ensures WellFormedHistory(h + [UserEntry(question), reply])
  {
    var g := h + [UserEntry(question), reply];
    forall i | 0 <= i < |g| && g[i].AiEntry?
      ensures 0 < i && g[i - 1].UserEntry?
    {
      if i < |h| { assert g[i] == h[i]; assert g[i - 1] == h[i - 1]; }
      else { assert i == |h| + 1; }
    }
    forall i | 0 <= i < |g| && g[i].UserEntry?
      ensures i + 1 < |g| && !g[i + 1].UserEntry? && !AllWhitespace(g[i].content)
    {
      if i < |h| {
        assert g[i] == h[i];
        if i + 1 < |h| { assert g[i + 1] == h[i + 1]; }
      }
    }
  }

  /** An error appended to a well-formed history. */
  lemma AppendError(h: seq<Entry>, e: string)
    requires WellFormedHistory(h)
    ensures WellFormedHistory(h + [ErrorEntry(e)])
  {
    var g := h + [ErrorEntry(e)];
    forall i | 0 <= i < |g| && g[i].AiEntry?
      ensures 0 < i && g[i - 1].UserEntry?
    {
      assert g[i] == h[i] && g[i - 1] == h[i - 1];
    }
    forall i | 0 <= i < |g| && g[i].UserEntry?
      ensures i + 1 < |g| && !g[i + 1].UserEntry? && !AllWhitespace(g[i].content)
    {
      assert g[i] == h[i];
      if i + 1 < |h| { assert g[i + 1] == h[i + 1]; }
    }
  }

  /** What the page can do to the chat. */
  datatype ChatAction =
    | Ask(token: Option<string>, limitReached: bool, outcome: QueryOutcome)
    | Clear
    | Load(fileName: string, text: string)
    | LoadFailed

  function Apply(s: ChatState, a: ChatAction): ChatState {
    match a
    case Ask(token, limitReached, outcome) => HandleAsk(s, token, limitReached, outcome)
    case Clear => ClearChat(s)
    case Load(fileName, text) => PdfLoaded(s, fileName, text)
    case LoadFailed => PdfFailed(s)
  }

  /** Asking, clearing and loading a document keep the history well formed,
      each ask running to its reply before the next action. */
  lemma ApplyKeepsHistory(s: ChatState, a: ChatAction)
    requires WellFormedHistory(s.history)
    ensures WellFormedHistory(Apply(s, a).history)
  {
    match a
    case Ask(token, limitReached, outcome) =>
      if s.pdfText != "" && !AllWhitespace(s.question) {
        if !Present(token) {
          AppendError(s.history, LoginRequired);
        } else if !limitReached {
          match outcome
          case NotOk(m) =>
            if !(Present(m) && Contains(m.value, "limit")) {
              var e := if Present(m) then m.value else "Error from server.";
              AppendExchange(s.history, s.question, ErrorEntry(e));
            }
          case Ok(answer, _) => AppendExchange(s.history, s.question, AiEntry(answer));
          case Threw(error) => AppendExchange(s.history, s.question, ErrorEntry("Error: " + error));
        }
      }
    case Clear =>
    case Load(_, _) =>
    case LoadFailed =>
  }

  function RunChat(s: ChatState, actions: seq<ChatAction>): ChatState
    decreases |actions|
  {
    if actions == [] then s else RunChat(Apply(s, actions[0]), actions[1..])
  }

  /** Any sequence of actions from a well-formed history, the empty one of a
      fresh page in particular, keeps it well formed. */
  lemma {:induction false} RunChatKeepsHistory(s: ChatState, actions: seq<ChatAction>)
    requires WellFormedHistory(s.history)
    ensures WellFormedHistory(RunChat(s, actions).history)
    decreases |actions|
  {
    if actions != [] {
      ApplyKeepsHistory(s, actions[0]);
      RunChatKeepsHistory(Apply(s, actions[0]), actions[1..]);
    }
  }
}
