/**
 * `AsyncSearchEngine` (api/search_engine_manager.py): the cancellable controller. Its
 * overrides wrap each step of the base controller with status messages, its loop reads a
 * stop flag after every step, and every message goes through a `send_message` that reads
 * the flag too and drops everything once it is set.
 *
 * A stop requested from outside lands at one read of the flag: `stopAt` numbers that read
 * (reads are counted in `checks`), and `stopped` is the flag itself, which may also have
 * been set before the search began.
 */
module SearchEngineManager {
  import opened Wrappers
  import opened Strings
  import opened ResponseParsing
  import opened Ports
  import opened SearchSteps
  import opened MessageHandling
  import opened SelfImprovingSearch

  /** `SearchSettings` (api/models.py) */
  datatype SearchSettings = SearchSettings(maxAttempts: int, maxResults: int, timeRange: string, searchMode: string)

  const DefaultSettings: SearchSettings := SearchSettings(5, 10, "none", "research")

  const StopNotice: string := "Search stopped by user"

  datatype Env = Env(world: World, stopAt: Option<nat>)

  datatype EngineState = EngineState(calls: Calls, checks: nat, stopped: bool, handler: HandlerState,
                                     searched: set<string>, lastQuery: string, lastTimeRange: string)

  /** The outside stop request lands at the read of the flag numbered `st.checks`, or earlier. */
  predicate Arrives(env: Env, st: EngineState) {
    env.stopAt.Some? && env.stopAt.value <= st.checks
  }

  /** What the next read of the stop flag returns. */
  predicate StopSeen(env: Env, st: EngineState) {
    st.stopped || Arrives(env, st)
  }

  /** `should_stop`: one more read of the flag. A stop request landing here runs `stop`,
      which sets the flag and stops the message handler. */
  function Checked(env: Env, st: EngineState): EngineState {
    if Arrives(env, st) then st.(checks := st.checks + 1, stopped := true, handler := st.handler.(stopped := true))
    else st.(checks := st.checks + 1)
  }

  /** `send_message`: reads the flag; a set flag drops the message. The text is stripped and a
      blank one dropped before it is handed over; `Handle` does both again, so the message is
      handed over as it is (`SendStripsFirst` shows the two agree). */
  function Send(env: Env, st: EngineState, m: Message): (r: EngineState)
    ensures r.calls == st.calls && r.checks == st.checks + 1 && r.stopped == StopSeen(env, st)
    ensures r.searched == st.searched && r.lastQuery == st.lastQuery && r.lastTimeRange == st.lastTimeRange
    ensures StopSeen(env, st) ==> r.handler.queue == st.handler.queue && r.handler.last == st.handler.last
  {
    var after := Checked(env, st);
    if StopSeen(env, st) then after else after.(handler := Handle(after.handler, m))
  }

  /** Stripping the text and dropping a blank message before `Handle`, as `send_message` does,
      changes nothing: `Handle` drops blank messages and strips the rest itself. */
  lemma SendStripsFirst(env: Env, st: EngineState, m: Message)
    requires !StopSeen(env, st)
    ensures var after := Checked(env, st);
      var text := Strip(m.text);
      Send(env, st, m) == if text == [] then after else after.(handler := Handle(after.handler, Message(m.kind, text)))
  {
    StripTwice(m.text);
  }

  /** The messages a base step sent, forwarded in order. */
  function SendAll(env: Env, st: EngineState, ms: seq<Message>): (r: EngineState)
    ensures r.calls == st.calls && r.checks == st.checks + |ms|
    ensures r.searched == st.searched && r.lastQuery == st.lastQuery && r.lastTimeRange == st.lastTimeRange
    ensures st.stopped ==> r.stopped
    ensures env.stopAt.None? ==> r.stopped == st.stopped
    ensures StopSeen(env, st) ==> r.handler.queue == st.handler.queue && r.handler.last == st.handler.last
    decreases |ms|
  {
    if ms == [] then st else Send(env, SendAll(env, st, ms[..|ms| - 1]), ms[|ms| - 1])
  }

  lemma SendAllSnoc(env: Env, st: EngineState, ms: seq<Message>, i: nat)
    requires i < |ms|
    ensures SendAll(env, st, ms[..i + 1]) == Send(env, SendAll(env, st, ms[..i]), ms[i])
  {
    assert ms[..i + 1][..i] == ms[..i];
  }

  /** How the engine's flags move from `st` to `st'`: the count of reads only grows; the flag,
      once set, stays set; with no stop requested it is never set; and once the flag reads as
      set, nothing more reaches the handler's queue. */
  predicate Follows(env: Env, st: EngineState, st': EngineState) {
    st.checks <= st'.checks && (st.stopped ==> st'.stopped) && (env.stopAt.None? ==> st'.stopped == st.stopped) &&
    (StopSeen(env, st) ==> StopSeen(env, st') && st'.handler.queue == st.handler.queue)
  }

  // ------------------------------------------------------------ the overridden steps

  /** What an overridden step returns, and the engine's state after it. */
  datatype Done<+T> = Done(result: T, st: EngineState)

  /** `formulate_query` of the engine: reports, then re-raises the base step's exception. */
  function AsyncFormulateQuery(env: Env, st: EngineState, userQuery: string, attempt: nat): (r: Done<Outcome<QueryPlan>>)
    ensures var f := FormulateQuery(env.world, st.calls, userQuery);
      r.result == f.result && r.st.calls == f.calls
    ensures Follows(env, st, r.st) && r.st.searched == st.searched
  {
    var s1 := Send(env, st, Info("Formulating query (attempt " + NatToString(attempt + 1) + ")..."));
    var f := FormulateQuery(env.world, s1.calls, userQuery);
    var s2 := s1.(calls := f.calls);
    match f.result
    case Threw(e) => Done(Threw(e), Send(env, s2, Error("Error formulating query: " + e)))
    case Returned(plan) =>
      Done(Returned(plan), Send(env, Send(env, s2, Info("Formulated query: " + plan.query)), Info("Time range: " + plan.timeRange)))
  }

  /** `perform_search` of the engine: records the query and window first. */
  function AsyncPerformSearch(env: Env, st: EngineState, query: string, timeRange: string): (r: Done<seq<SearchResult>>)
    ensures var p := PerformSearch(env.world, st.calls, query, timeRange);
      r.result == p.result && r.st.calls == p.calls && r.st.lastQuery == query && r.st.lastTimeRange == timeRange
    ensures Follows(env, st, r.st) && r.st.searched == st.searched
  {
    var s1 := Send(env, st.(lastQuery := query, lastTimeRange := timeRange), Info("Searching with query: " + query));
    var p := PerformSearch(env.world, s1.calls, query, timeRange);
    var s2 := SendAll(env, s1.(calls := p.calls), p.sent);
    Done(p.result, Send(env, s2, Info("Found " + NatToString(|p.result|) + " results")))
  }

  function AsyncSelectRelevantPages(env: Env, st: EngineState, results: seq<SearchResult>, userQuery: string)
    : (r: Done<Outcome<seq<string>>>)
    ensures var p := SelectRelevantPages(env.world, st.calls, results, userQuery);
      r.result == p.result && r.st.calls == p.calls
    ensures Follows(env, st, r.st) && r.st.searched == st.searched
  {
    var s1 := Send(env, st, Info("Selecting relevant pages..."));
    var p := SelectRelevantPages(env.world, s1.calls, results, userQuery);
    var s2 := SendAll(env, s1.(calls := p.calls), p.sent);
    Done(p.result, Send(env, s2, SelectionReport(p.result)))
  }

  /** What `select_relevant_pages` reports once the base step is over. */
  function SelectionReport(r: Outcome<seq<string>>): Message {
    match r
    case Threw(e) => Error("Error selecting pages: " + e)
    case Returned(urls) => Info("Selected " + NatToString(|urls|) + " pages")
  }

  function SetOf(urls: seq<string>): set<string> {
    set u | u in urls
  }

  /** `scrape_content` of the engine: every URL asked for joins `searched_urls`. */
  function AsyncScrapeContent(env: Env, st: EngineState, urls: seq<string>): (r: Done<seq<Page>>)
    ensures var c := ScrapeContent(env.world, st.calls, urls);
      r.result == c.result && r.st.calls == c.calls && r.st.searched == st.searched + SetOf(urls)
    ensures Follows(env, st, r.st)
  {
    var s1 := Send(env, st, Info("Scraping " + NatToString(|urls|) + " pages..."));
    var c := ScrapeContent(env.world, s1.calls, urls);
    var s2 := SendAll(env, s1.(calls := c.calls), c.sent);
    Done(c.result, Send(env, s2.(searched := s2.searched + SetOf(urls)),
                        Info("Successfully scraped " + NatToString(|c.result|) + " pages")))
  }

  function AsyncEvaluateScrapedContent(env: Env, st: EngineState, userQuery: string, pages: seq<Page>): (r: Done<Evaluation>)
    ensures var v := EvaluateScrapedContent(env.world, st.calls, userQuery, pages);
      r.result == v.result && r.st.calls == v.calls
    ensures Follows(env, st, r.st) && r.st.searched == st.searched
  {
    var s1 := Send(env, st, Info("Evaluating content..."));
    var v := EvaluateScrapedContent(env.world, s1.calls, userQuery, pages);
    var s2 := Send(env, s1.(calls := v.calls), Info("Evaluation: " + v.result.evaluation));
    Done(v.result, Send(env, s2, DecisionReport(v.result.decision)))
  }

  function AsyncGenerateFinalAnswer(env: Env, st: EngineState, userQuery: string, pages: seq<Page>): (r: Done<Outcome<string>>)
    ensures var a := GenerateFinalAnswer(env.world, st.calls, userQuery, pages);
      r.result == a.result && r.st.calls == a.calls
    ensures Follows(env, st, r.st) && r.st.searched == st.searched
  {
    var s1 := Send(env, st, Info("Generating final answer..."));
    var a := GenerateFinalAnswer(env.world, s1.calls, userQuery, pages);
    var s2 := s1.(calls := a.calls);
    match a.result
    case Threw(e) => Done(Threw(e), Send(env, s2, Error("Error generating answer: " + e)))
    case Returned(answer) => Done(Returned(answer), Send(env, s2, Message("result", answer)))
  }

  function AsyncSynthesizeFinalAnswer(env: Env, synthesis: Calls -> Step<string>, st: EngineState): (r: Done<string>)
    ensures r.result == synthesis(st.calls).result && r.st.calls == synthesis(st.calls).calls
    ensures Follows(env, st, r.st) && r.st.searched == st.searched
  {
    var s1 := Send(env, st, Info("Synthesizing final answer..."));
    var s := synthesis(s1.calls);
    Done(s.result, Send(env, s1.(calls := s.calls), Message("result", s.result)))
  }

  // ------------------------------------------------------------ one pass of the loop

  /** How a pass ended: retry with the next attempt, return the stop notice, or return an answer. */
  datatype PassEnd = Retry(cause: AttemptEnd) | UserStop | Answer(answer: string)

  datatype Pass = Pass(end: PassEnd, st: EngineState)

  /** The loop's `except` clause. */
  function Caught(env: Env, st: EngineState, error: string): Pass {
    Pass(Retry(Failed(error)), Send(env, st, Error("Error during search: " + error)))
  }

  /** The body of the loop of `search_and_improve`. */
  function AsyncAttempt(env: Env, st: EngineState, userQuery: string, attempt: nat): Pass {
    var s1 := Send(env, st, AttemptHeading(attempt));
    if StopSeen(env, s1) then Pass(UserStop, Send(env, Checked(env, s1), Info(StopNotice)))
    else
      var f := AsyncFormulateQuery(env, Checked(env, s1), userQuery, attempt);
      match f.result
      case Threw(e) => Caught(env, f.st, e)
      case Returned(plan) =>
        if StopSeen(env, f.st) then Pass(UserStop, Checked(env, f.st))
        else AsyncSearchStage(env, Checked(env, f.st), userQuery, plan)
  }

  function AsyncSearchStage(env: Env, st: EngineState, userQuery: string, plan: QueryPlan): Pass {
    var s := AsyncPerformSearch(env, st, plan.query, plan.timeRange);
    if StopSeen(env, s.st) then Pass(UserStop, Checked(env, s.st))
    else if s.result == [] then Pass(Retry(NoResults), Send(env, Checked(env, s.st), Info("No results found, retrying...")))
    else AsyncSelectStage(env, Checked(env, s.st), userQuery, s.result)
  }

  function AsyncSelectStage(env: Env, st: EngineState, userQuery: string, results: seq<SearchResult>): Pass {
    var p := AsyncSelectRelevantPages(env, st, results, userQuery);
    match p.result
    case Threw(e) => Caught(env, p.st, e)
    case Returned(urls) =>
      if StopSeen(env, p.st) then Pass(UserStop, Checked(env, p.st))
      else if urls == [] then Pass(Retry(NoUrls), Send(env, Checked(env, p.st), Info("No relevant URLs found, retrying...")))
      else AsyncScrapeStage(env, Checked(env, p.st), userQuery, urls)
  }

  function AsyncScrapeStage(env: Env, st: EngineState, userQuery: string, urls: seq<string>): Pass {
    var c := AsyncScrapeContent(env, st, urls);
    if StopSeen(env, c.st) then Pass(UserStop, Checked(env, c.st))
    else if c.result == [] then
      Pass(Retry(NothingScraped), Send(env, Checked(env, c.st), Info("Failed to scrape content, retrying...")))
    else AsyncEvaluateStage(env, Checked(env, c.st), userQuery, c.result)
  }

  /** Any decision but "answer" refines. */
  function AsyncEvaluateStage(env: Env, st: EngineState, userQuery: string, pages: seq<Page>): Pass {
    var v := AsyncEvaluateScrapedContent(env, st, userQuery, pages);
    if StopSeen(env, v.st) then Pass(UserStop, Checked(env, v.st))
    else if v.result.decision == "answer" then AsyncAnswerStage(env, Checked(env, v.st), userQuery, pages)
    else Pass(Retry(Refined), Send(env, Checked(env, v.st), Info("Need more information, refining search...")))
  }

  function AsyncAnswerStage(env: Env, st: EngineState, userQuery: string, pages: seq<Page>): Pass {
    var a := AsyncGenerateFinalAnswer(env, st, userQuery, pages);
    match a.result
    case Threw(e) => Caught(env, a.st, e)
    case Returned(answer) => Pass(Answer(answer), a.st)
  }

  // ------------------------------------------------------------ the loop and the whole search

  datatype LoopExit = LoopExit(ends: seq<PassEnd>, st: EngineState)

  /** Whether a pass returned from `search_and_improve`. */
  predicate Left(l: LoopExit) {
    l.ends != [] && !l.ends[|l.ends| - 1].Retry?
  }

  /** Two runs of the loop end alike: in the same state, and with the same pass, if any,
      returning from the search. */
  ghost predicate SameExit(a: LoopExit, b: LoopExit) {
    a.st == b.st && Left(a) == Left(b) && (Left(a) ==> a.ends[|a.ends| - 1] == b.ends[|b.ends| - 1])
  }

  /** The loop's control flow for any pass function: it runs while attempts remain and the
      flag reads clear; the flag is not read once the attempts are used up. */
  function AsyncLoopWith(pass: (EngineState, nat) -> Pass, env: Env, st: EngineState, attempt: nat, maxAttempts: int): LoopExit
    decreases maxAttempts - attempt
  {
    if attempt >= maxAttempts then LoopExit([], st)
    else if StopSeen(env, st) then LoopExit([], Checked(env, st))
    else
      var p := pass(Checked(env, st), attempt);
      if !p.end.Retry? then LoopExit([p.end], p.st)
      else
        var rest := AsyncLoopWith(pass, env, p.st, attempt + 1, maxAttempts);
        LoopExit([p.end] + rest.ends, rest.st)
  }

  function AsyncPass(env: Env, userQuery: string): (EngineState, nat) -> Pass {
    (st: EngineState, k: nat) => AsyncAttempt(env, st, userQuery, k)
  }

  /** `pass` is the loop body of the search for `userQuery`. The equation is used only where a
      term of `AsyncAttempt` is already at hand, so proofs about the loop's shape alone treat
      the pass as any function of the state and the attempt number. */
  ghost predicate IsAsyncPass(pass: (EngineState, nat) -> Pass, env: Env, userQuery: string) {
    forall st: EngineState, k: nat {:trigger AsyncAttempt(env, st, userQuery, k)} ::
      pass(st, k) == AsyncAttempt(env, st, userQuery, k)
  }

  lemma AsyncPassIs(env: Env, userQuery: string)
    ensures IsAsyncPass(AsyncPass(env, userQuery), env, userQuery)
  {
  }

  /** The `finally` clause: a final status message, through the same gate as every other. */
  function Finally(env: Env, st: EngineState): EngineState {
    var after := Checked(env, st);
    if StopSeen(env, st) then Send(env, after, Message("status", "Search stopped"))
    else Send(env, after, Message("status", "Search completed"))
  }

  datatype Research = Research(result: string, ends: seq<PassEnd>, st: EngineState)

  /** The opening status message, then the loop. */
  function StartedLoop(pass: (EngineState, nat) -> Pass, env: Env, st: EngineState, maxAttempts: int): LoopExit {
    AsyncLoopWith(pass, env, Send(env, st, Message("status", "Starting research process...")), 0, maxAttempts)
  }

  /** The control flow of `search_and_improve` for any pass and synthesis functions. */
  function AsyncRunWith(pass: (EngineState, nat) -> Pass, synthesis: Calls -> Step<string>, env: Env, st: EngineState,
                        maxAttempts: int): Research
  {
    var l := StartedLoop(pass, env, st, maxAttempts);
    if Left(l) then
      var last := l.ends[|l.ends| - 1];
      Research(if last.UserStop? then StopNotice else last.answer, l.ends, Finally(env, l.st))
    else if StopSeen(env, l.st) then Research(StopNotice, l.ends, Finally(env, Checked(env, l.st)))
    else
      var s := AsyncSynthesizeFinalAnswer(env, synthesis, Checked(env, l.st));
      Research(s.result, l.ends, Finally(env, s.st))
  }

  /** `search_and_improve` of the engine. */
  function AsyncSearch(env: Env, st: EngineState, config: LlmConfig, userQuery: string, maxAttempts: int): Research {
    AsyncRunWith(AsyncPass(env, userQuery), SynthesisPass(env.world, config, userQuery), env, st, maxAttempts)
  }

  // ------------------------------------------------------------ what a pass does to the engine

  /** `st'` follows `st` with at most `llm` more model calls and `search` more searches, and
      every URL it added to `searched_urls` passes `can_fetch`. */
  predicate Grows(env: Env, st: EngineState, st': EngineState, llm: nat, search: nat) {
    CallsGrowBy(st.calls, st'.calls, llm, search) && Follows(env, st, st') && st.searched <= st'.searched &&
    (forall u :: u in st'.searched && u !in st.searched ==> CanFetch(env.world, u))
  }

  lemma GrowsTrans(env: Env, a: EngineState, b: EngineState, c: EngineState, l1: nat, s1: nat, l2: nat, s2: nat)
    requires Grows(env, a, b, l1, s1) && Grows(env, b, c, l2, s2)
    ensures Grows(env, a, c, l1 + l2, s1 + s2)
  {
    CallsGrowTrans(a.calls, b.calls, c.calls, l1, s1, l2, s2);
  }

  lemma AsyncAnswerStageGrows(env: Env, st: EngineState, userQuery: string, pages: seq<Page>)
    ensures Grows(env, st, AsyncAnswerStage(env, st, userQuery, pages).st, 3, 0)
  {
    var a := GenerateFinalAnswer(env.world, st.calls, userQuery, pages);
    GenerateFinalAnswerFacts(env.world, st.calls, userQuery, pages);
    AddsLlmCallsGrow(st.calls, a.calls, AnswerCall(userQuery, pages), 1, MaxRetries);
  }

  lemma AsyncEvaluateStepGrows(env: Env, st: EngineState, userQuery: string, pages: seq<Page>)
    ensures Grows(env, st, AsyncEvaluateScrapedContent(env, st, userQuery, pages).st, 3, 0)
  {
    var v := AsyncEvaluateScrapedContent(env, st, userQuery, pages);
    EvaluateScrapedContentFacts(env.world, st.calls, userQuery, pages);
    AddsLlmCallsGrow(st.calls, v.st.calls, EvaluationCall(userQuery, pages), 1, MaxRetries);
  }

  lemma AsyncEvaluateStageGrows(env: Env, st: EngineState, userQuery: string, pages: seq<Page>)
    ensures Grows(env, st, AsyncEvaluateStage(env, st, userQuery, pages).st, 6, 0)
  {
    var v := AsyncEvaluateScrapedContent(env, st, userQuery, pages);
    AsyncEvaluateStepGrows(env, st, userQuery, pages);
    if !StopSeen(env, v.st) && v.result.decision == "answer" {
      AsyncAnswerStageGrows(env, Checked(env, v.st), userQuery, pages);
      GrowsTrans(env, st, Checked(env, v.st), AsyncAnswerStage(env, Checked(env, v.st), userQuery, pages).st, 3, 0, 3, 0);
    }
  }

  lemma AsyncScrapeStepGrows(env: Env, st: EngineState, urls: seq<string>)
    requires forall u :: u in urls ==> CanFetch(env.world, u)
    ensures Grows(env, st, AsyncScrapeContent(env, st, urls).st, 0, 0)
  {
    ScrapeContentFacts(env.world, st.calls, urls);
  }

  lemma AsyncScrapeStageGrows(env: Env, st: EngineState, userQuery: string, urls: seq<string>)
    requires forall u :: u in urls ==> CanFetch(env.world, u)
    ensures Grows(env, st, AsyncScrapeStage(env, st, userQuery, urls).st, 6, 0)
  {
    var c := AsyncScrapeContent(env, st, urls);
    AsyncScrapeStepGrows(env, st, urls);
    if !StopSeen(env, c.st) && c.result != [] {
      AsyncEvaluateStageGrows(env, Checked(env, c.st), userQuery, c.result);
      GrowsTrans(env, st, Checked(env, c.st), AsyncEvaluateStage(env, Checked(env, c.st), userQuery, c.result).st, 0, 0, 6, 0);
    }
  }

  lemma AsyncSelectStepGrows(env: Env, st: EngineState, results: seq<SearchResult>, userQuery: string)
    ensures var p := AsyncSelectRelevantPages(env, st, results, userQuery);
      Grows(env, st, p.st, 3, 0) &&
      (p.result.Returned? ==> forall u :: u in p.result.value ==> CanFetch(env.world, u))
  {
    var p := AsyncSelectRelevantPages(env, st, results, userQuery);
    SelectRelevantPagesFacts(env.world, st.calls, results, userQuery);
    AddsLlmCallsGrow(st.calls, p.st.calls, SelectionCall(results, userQuery), 1, MaxRetries);
    if p.result.Returned? {
      var urls := p.result.value;
      assert GoodSelection(env.world, results, urls);
      forall u | u in urls
        ensures CanFetch(env.world, u)
      {
        var k :| 0 <= k < |urls| && urls[k] == u;
      }
    }
  }

  /** A read of the flag, and a message sent, make no call and add no URL. */
  lemma CheckGrows(env: Env, st: EngineState, m: Message)
    ensures Grows(env, st, Checked(env, st), 0, 0)
    ensures Grows(env, st, Send(env, st, m), 0, 0)
    ensures Grows(env, st, Send(env, Checked(env, st), m), 0, 0)
  {
  }

  lemma AsyncSelectStageGrows(env: Env, st: EngineState, userQuery: string, results: seq<SearchResult>)
    ensures Grows(env, st, AsyncSelectStage(env, st, userQuery, results).st, 9, 0)
  {
    var p := AsyncSelectRelevantPages(env, st, results, userQuery);
    var r := AsyncSelectStage(env, st, userQuery, results);
    AsyncSelectStepGrows(env, st, results, userQuery);
    match p.result
    case Threw(e) =>
      var m := Error("Error during search: " + e);
      assert r.st == Send(env, p.st, m);
      CheckGrows(env, p.st, m);
      GrowsTrans(env, st, p.st, r.st, 3, 0, 0, 0);
    case Returned(urls) =>
      var m := Info("No relevant URLs found, retrying...");
      CheckGrows(env, p.st, m);
      if StopSeen(env, p.st) {
        assert r.st == Checked(env, p.st);
        GrowsTrans(env, st, p.st, r.st, 3, 0, 0, 0);
      } else if urls == [] {
        assert r.st == Send(env, Checked(env, p.st), m);
        GrowsTrans(env, st, p.st, r.st, 3, 0, 0, 0);
      } else {
        assert r == AsyncScrapeStage(env, Checked(env, p.st), userQuery, urls);
        AsyncScrapeStageGrows(env, Checked(env, p.st), userQuery, urls);
        GrowsTrans(env, st, p.st, Checked(env, p.st), 3, 0, 0, 0);
        GrowsTrans(env, st, Checked(env, p.st), r.st, 3, 0, 6, 0);
      }
  }

  lemma AsyncSearchStepGrows(env: Env, st: EngineState, query: string, timeRange: string)
    ensures Grows(env, st, AsyncPerformSearch(env, st, query, timeRange).st, 0, 1)
  {
    PerformSearchFacts(env.world, st.calls, query, timeRange);
  }

  lemma AsyncSearchStageGrows(env: Env, st: EngineState, userQuery: string, plan: QueryPlan)
    ensures Grows(env, st, AsyncSearchStage(env, st, userQuery, plan).st, 9, 1)
  {
    var s := AsyncPerformSearch(env, st, plan.query, plan.timeRange);
    AsyncSearchStepGrows(env, st, plan.query, plan.timeRange);
    if !StopSeen(env, s.st) && s.result != [] {
      AsyncSelectStageGrows(env, Checked(env, s.st), userQuery, s.result);
      GrowsTrans(env, st, Checked(env, s.st), AsyncSelectStage(env, Checked(env, s.st), userQuery, s.result).st, 0, 1, 9, 0);
    }
  }

  /** One pass makes at most twelve model calls and one search, adds only fetchable URLs to
      `searched_urls`, and, when it begins with the flag set, ends with the stop notice at
      once: no call, nothing delivered. */
  lemma AsyncAttemptFacts(env: Env, st: EngineState, userQuery: string, attempt: nat)
    ensures var p := AsyncAttempt(env, st, userQuery, attempt);
      Grows(env, st, p.st, 12, 1) &&
      (StopSeen(env, st) ==> p.end.UserStop? && p.st.calls == st.calls && p.st.searched == st.searched)
  {
    var s1 := Send(env, st, AttemptHeading(attempt));
    var p := AsyncAttempt(env, st, userQuery, attempt);
    CheckGrows(env, st, AttemptHeading(attempt));
    CheckGrows(env, s1, Info(StopNotice));
    if StopSeen(env, s1) {
      assert p.st == Send(env, Checked(env, s1), Info(StopNotice));
      GrowsTrans(env, st, s1, p.st, 0, 0, 0, 0);
    } else {
      var f := AsyncFormulateQuery(env, Checked(env, s1), userQuery, attempt);
      AsyncFormulateStepGrows(env, Checked(env, s1), userQuery, attempt);
      GrowsTrans(env, st, s1, Checked(env, s1), 0, 0, 0, 0);
      GrowsTrans(env, st, Checked(env, s1), f.st, 0, 0, 3, 0);
      match f.result
      case Threw(e) =>
        CheckGrows(env, f.st, Error("Error during search: " + e));
        GrowsTrans(env, st, f.st, p.st, 3, 0, 0, 0);
      case Returned(plan) =>
        CheckGrows(env, f.st, AttemptHeading(attempt));
        if StopSeen(env, f.st) {
          GrowsTrans(env, st, f.st, p.st, 3, 0, 0, 0);
        } else {
          assert p == AsyncSearchStage(env, Checked(env, f.st), userQuery, plan);
          AsyncSearchStageGrows(env, Checked(env, f.st), userQuery, plan);
          GrowsTrans(env, st, f.st, Checked(env, f.st), 3, 0, 0, 0);
          GrowsTrans(env, st, Checked(env, f.st), p.st, 3, 0, 9, 1);
        }
    }
  }

  lemma AsyncFormulateStepGrows(env: Env, st: EngineState, userQuery: string, attempt: nat)
    ensures Grows(env, st, AsyncFormulateQuery(env, st, userQuery, attempt).st, 3, 0)
  {
    FormulateQueryFacts(env.world, st.calls, userQuery);
    AddsLlmCallsGrow(st.calls, AsyncFormulateQuery(env, st, userQuery, attempt).st.calls, QueryCall(userQuery), 1, MaxRetries);
  }

  // ------------------------------------------------------------ properties of the loop and the search

  ghost predicate AsyncWellBehaved(env: Env, pass: (EngineState, nat) -> Pass) {
    forall st: EngineState, k: nat :: Grows(env, st, pass(st, k).st, 12, 1)
  }

  lemma AsyncPassWellBehaved(env: Env, userQuery: string)
    ensures AsyncWellBehaved(env, AsyncPass(env, userQuery))
  {
    forall st: EngineState, k: nat
      ensures Grows(env, st, AsyncPass(env, userQuery)(st, k).st, 12, 1)
    {
      AsyncAttemptFacts(env, st, userQuery, k);
    }
  }

  lemma {:induction false} AsyncLoopWithFacts(pass: (EngineState, nat) -> Pass, env: Env, st: EngineState, attempt: nat,
                                              maxAttempts: int)
    requires AsyncWellBehaved(env, pass)
    ensures var l := AsyncLoopWith(pass, env, st, attempt, maxAttempts);
      var budget := if maxAttempts - attempt < 0 then 0 else maxAttempts - attempt;
      |l.ends| <= budget &&
      (forall i :: 0 <= i < |l.ends| - 1 ==> l.ends[i].Retry?) &&
      (!Left(l) && |l.ends| < budget ==> l.st.stopped) &&
      Grows(env, st, l.st, 12 * |l.ends|, |l.ends|)
    decreases maxAttempts - attempt
  {
    if attempt < maxAttempts && !StopSeen(env, st) {
      var p := pass(Checked(env, st), attempt);
      assert Grows(env, st, Checked(env, st), 0, 0);
      GrowsTrans(env, st, Checked(env, st), p.st, 0, 0, 12, 1);
      if p.end.Retry? {
        var rest := AsyncLoopWith(pass, env, p.st, attempt + 1, maxAttempts);
        AsyncLoopWithFacts(pass, env, p.st, attempt + 1, maxAttempts);
        GrowsTrans(env, st, p.st, rest.st, 12, 1, 12 * |rest.ends|, |rest.ends|);
        var l := AsyncLoopWith(pass, env, st, attempt, maxAttempts);
        assert l.ends == [p.end] + rest.ends;
        assert forall i :: 1 <= i < |l.ends| ==> l.ends[i] == rest.ends[i - 1];
        if rest.ends != [] {
          assert l.ends[|l.ends| - 1] == rest.ends[|rest.ends| - 1];
        }
      }
    }
  }

  /** The `finally` clause makes no call and touches nothing but the flag and the queue. */
  lemma FinallyGrows(env: Env, st: EngineState)
    ensures Grows(env, st, Finally(env, st), 0, 0) && Finally(env, st).calls == st.calls
  {
  }

  /** The whole search ends with the passes of the loop, whatever comes after it. */
  lemma AsyncRunWithEnds(pass: (EngineState, nat) -> Pass, synthesis: Calls -> Step<string>, env: Env, st: EngineState,
                         maxAttempts: int)
    requires AsyncWellBehaved(env, pass)
    ensures var r := AsyncRunWith(pass, synthesis, env, st, maxAttempts);
      var l := StartedLoop(pass, env, st, maxAttempts);
      var budget := if maxAttempts < 0 then 0 else maxAttempts;
      r.ends == l.ends && |r.ends| <= budget &&
      (forall i :: 0 <= i < |r.ends| - 1 ==> r.ends[i].Retry?) &&
      (r.result == StopNotice || (Left(l) && r.ends[|r.ends| - 1] == Answer(r.result)) ||
       (!Left(l) && |r.ends| == budget && r.result == synthesis(l.st.calls).result))
  {
    var started := Send(env, st, Message("status", "Starting research process..."));
    var l := StartedLoop(pass, env, st, maxAttempts);
    AsyncLoopWithFacts(pass, env, started, 0, maxAttempts);
    var r := AsyncRunWith(pass, synthesis, env, st, maxAttempts);
    assert r.ends == l.ends;
    if !Left(l) && !StopSeen(env, l.st) {
      var s := AsyncSynthesizeFinalAnswer(env, synthesis, Checked(env, l.st));
      assert r.result == s.result;
      assert Checked(env, l.st).calls == l.st.calls;
    }
  }

  lemma AsyncRunWithGrows(pass: (EngineState, nat) -> Pass, synthesis: Calls -> Step<string>, env: Env, st: EngineState,
                          maxAttempts: int)
    requires AsyncWellBehaved(env, pass)
    requires forall c: Calls :: CallsGrowBy(c, synthesis(c).calls, 1, 0)
    ensures var budget := if maxAttempts < 0 then 0 else maxAttempts;
      Grows(env, st, AsyncRunWith(pass, synthesis, env, st, maxAttempts).st, 12 * budget + 1, budget)
  {
    var started := Send(env, st, Message("status", "Starting research process..."));
    var l := StartedLoop(pass, env, st, maxAttempts);
    var r := AsyncRunWith(pass, synthesis, env, st, maxAttempts);
    AsyncLoopWithFacts(pass, env, started, 0, maxAttempts);
    assert Grows(env, st, started, 0, 0);
    GrowsTrans(env, st, started, l.st, 0, 0, 12 * |l.ends|, |l.ends|);
    AfterLoopGrows(pass, synthesis, env, st, maxAttempts);
    GrowsTrans(env, st, l.st, r.st, 12 * |l.ends|, |l.ends|, 1, 0);
  }

  /** What follows the loop (the synthesis call, if any, and the `finally` clause) adds at most
      one model call. */
  lemma AfterLoopGrows(pass: (EngineState, nat) -> Pass, synthesis: Calls -> Step<string>, env: Env, st: EngineState,
                       maxAttempts: int)
    requires forall c: Calls :: CallsGrowBy(c, synthesis(c).calls, 1, 0)
    ensures Grows(env, StartedLoop(pass, env, st, maxAttempts).st, AsyncRunWith(pass, synthesis, env, st, maxAttempts).st, 1, 0)
  {
    var l := StartedLoop(pass, env, st, maxAttempts);
    var r := AsyncRunWith(pass, synthesis, env, st, maxAttempts);
    if Left(l) {
      FinallyGrows(env, l.st);
      assert r.st == Finally(env, l.st);
    } else if StopSeen(env, l.st) {
      FinallyGrows(env, Checked(env, l.st));
      assert r.st == Finally(env, Checked(env, l.st));
      assert Grows(env, l.st, Checked(env, l.st), 0, 0);
      GrowsTrans(env, l.st, Checked(env, l.st), r.st, 0, 0, 0, 0);
    } else {
      var s := AsyncSynthesizeFinalAnswer(env, synthesis, Checked(env, l.st));
      assert r.st == Finally(env, s.st);
      assert Grows(env, l.st, s.st, 1, 0);
      FinallyGrows(env, s.st);
      GrowsTrans(env, l.st, s.st, r.st, 1, 0, 0, 0);
    }
  }

  /** `search_and_improve` of the engine runs at most `max_attempts` passes, every one but the
      last retrying; it makes at most twelve model calls and one search per pass plus one
      synthesis call; every URL it adds to `searched_urls` passes `can_fetch`; and it returns the
      stop notice, a pass's generated answer, or, after all `max_attempts` passes, the
      synthesized answer. */
  lemma AsyncSearchFacts(env: Env, st: EngineState, config: LlmConfig, userQuery: string, maxAttempts: int)
    ensures var r := AsyncSearch(env, st, config, userQuery, maxAttempts);
      var l := StartedLoop(AsyncPass(env, userQuery), env, st, maxAttempts);
      var budget := if maxAttempts < 0 then 0 else maxAttempts;
      |r.ends| <= budget &&
      (forall i :: 0 <= i < |r.ends| - 1 ==> r.ends[i].Retry?) &&
      Grows(env, st, r.st, 12 * budget + 1, budget) &&
      (r.result == StopNotice || (Left(l) && r.ends[|r.ends| - 1] == Answer(r.result)) ||
       (!Left(l) && |r.ends| == budget &&
        r.result == SynthesizeFinalAnswer(env.world, l.st.calls, config, userQuery).result))
  {
    AsyncPassWellBehaved(env, userQuery);
    SynthesisPassMakesOneCall(env.world, config, userQuery);
    AsyncRunWithEnds(AsyncPass(env, userQuery), SynthesisPass(env.world, config, userQuery), env, st, maxAttempts);
    AsyncRunWithGrows(AsyncPass(env, userQuery), SynthesisPass(env.world, config, userQuery), env, st, maxAttempts);
  }

  /** A stop set before `search_and_improve` is called: it returns the stop notice with no
      model call and no search, delivers nothing, and leaves `searched_urls` and the last
      query as they were. */
  lemma StopBeforeSearch(env: Env, st: EngineState, config: LlmConfig, userQuery: string, maxAttempts: int)
    requires StopSeen(env, st)
    ensures var r := AsyncSearch(env, st, config, userQuery, maxAttempts);
      r.result == StopNotice && r.ends == [] && r.st.calls == st.calls && r.st.handler.queue == st.handler.queue &&
      r.st.searched == st.searched && r.st.lastQuery == st.lastQuery && r.st.lastTimeRange == st.lastTimeRange
  {
    var started := Send(env, st, Message("status", "Starting research process..."));
    var l := StartedLoop(AsyncPass(env, userQuery), env, st, maxAttempts);
    assert l.ends == [] && l.st.stopped && l.st.calls == st.calls && l.st.handler.queue == st.handler.queue;
  }

  /** The `finally` clause never delivers "Search stopped": it sends that status only after
      reading the flag as set, and its own send then reads it as set again. */
  lemma FinallyNeverReportsStop(env: Env, st: EngineState)
    ensures var q := Finally(env, st).handler.queue;
      q == st.handler.queue || q == st.handler.queue + [Message("status", "Search completed")]
  {
    if !StopSeen(env, st) && !StopSeen(env, Checked(env, st)) {
      StripTrimmed("Search completed");
    }
  }

  // ------------------------------------------------------------ the stop notice and the flag

  /** A pass that ends with the stop notice has set the flag. */
  ghost predicate StopsOnFlag(pass: (EngineState, nat) -> Pass) {
    forall st: EngineState, k: nat :: pass(st, k).end.UserStop? ==> pass(st, k).st.stopped
  }

  lemma AsyncEvaluateStageStops(env: Env, st: EngineState, userQuery: string, pages: seq<Page>)
    ensures var p := AsyncEvaluateStage(env, st, userQuery, pages); p.end.UserStop? ==> p.st.stopped
  {
    var v := AsyncEvaluateScrapedContent(env, st, userQuery, pages);
    if !StopSeen(env, v.st) && v.result.decision == "answer" {
      assert !AsyncAnswerStage(env, Checked(env, v.st), userQuery, pages).end.UserStop?;
    }
  }

  lemma AsyncScrapeStageStops(env: Env, st: EngineState, userQuery: string, urls: seq<string>)
    ensures var p := AsyncScrapeStage(env, st, userQuery, urls); p.end.UserStop? ==> p.st.stopped
  {
    var c := AsyncScrapeContent(env, st, urls);
    if !StopSeen(env, c.st) && c.result != [] {
      AsyncEvaluateStageStops(env, Checked(env, c.st), userQuery, c.result);
    }
  }

  lemma AsyncSelectStageStops(env: Env, st: EngineState, userQuery: string, results: seq<SearchResult>)
    ensures var p := AsyncSelectStage(env, st, userQuery, results); p.end.UserStop? ==> p.st.stopped
  {
    var p := AsyncSelectRelevantPages(env, st, results, userQuery);
    if p.result.Returned? && !StopSeen(env, p.st) && p.result.value != [] {
      AsyncScrapeStageStops(env, Checked(env, p.st), userQuery, p.result.value);
    }
  }

  lemma AsyncSearchStageStops(env: Env, st: EngineState, userQuery: string, plan: QueryPlan)
    ensures var p := AsyncSearchStage(env, st, userQuery, plan); p.end.UserStop? ==> p.st.stopped
  {
    var s := AsyncPerformSearch(env, st, plan.query, plan.timeRange);
    if !StopSeen(env, s.st) && s.result != [] {
      AsyncSelectStageStops(env, Checked(env, s.st), userQuery, s.result);
    }
  }

  /** A pass ends with the stop notice only after reading the flag as set, which leaves it set. */
  lemma AsyncAttemptStops(env: Env, st: EngineState, userQuery: string, attempt: nat)
    ensures var p := AsyncAttempt(env, st, userQuery, attempt); p.end.UserStop? ==> p.st.stopped
  {
    var s1 := Send(env, st, AttemptHeading(attempt));
    if !StopSeen(env, s1) {
      var f := AsyncFormulateQuery(env, Checked(env, s1), userQuery, attempt);
      if f.result.Returned? && !StopSeen(env, f.st) {
        AsyncSearchStageStops(env, Checked(env, f.st), userQuery, f.result.value);
      }
    }
  }

  lemma AsyncPassStops(env: Env, userQuery: string)
    ensures StopsOnFlag(AsyncPass(env, userQuery))
  {
    forall st: EngineState, k: nat
      ensures AsyncPass(env, userQuery)(st, k).end.UserStop? ==> AsyncPass(env, userQuery)(st, k).st.stopped
    {
      AsyncAttemptStops(env, st, userQuery, k);
    }
  }

  /** A loop that returns the stop notice leaves the flag set. */
  lemma {:induction false} AsyncLoopWithStops(pass: (EngineState, nat) -> Pass, env: Env, st: EngineState, attempt: nat,
                                              maxAttempts: int)
    requires StopsOnFlag(pass)
    ensures var l := AsyncLoopWith(pass, env, st, attempt, maxAttempts);
      Left(l) && l.ends[|l.ends| - 1].UserStop? ==> l.st.stopped
    decreases maxAttempts - attempt
  {
    if attempt < maxAttempts && !StopSeen(env, st) {
      var p := pass(Checked(env, st), attempt);
      if p.end.Retry? {
        var rest := AsyncLoopWith(pass, env, p.st, attempt + 1, maxAttempts);
        AsyncLoopWithStops(pass, env, p.st, attempt + 1, maxAttempts);
        var l := AsyncLoopWith(pass, env, st, attempt, maxAttempts);
        assert l.ends == [p.end] + rest.ends && l.st == rest.st;
        if rest.ends != [] {
          assert l.ends[|l.ends| - 1] == rest.ends[|rest.ends| - 1];
        }
      }
    }
  }

  /** `search_and_improve` of the engine returns the stop notice whenever the flag is set by the
      end of its loop, unless a pass has already returned an answer; and when the flag is never
      set, the result is a pass's answer or the synthesized answer, never the stop notice. */
  lemma StopMeansStopNotice(env: Env, st: EngineState, config: LlmConfig, userQuery: string, maxAttempts: int)
    ensures var r := AsyncSearch(env, st, config, userQuery, maxAttempts);
      var l := StartedLoop(AsyncPass(env, userQuery), env, st, maxAttempts);
      var answered := Left(l) && l.ends[|l.ends| - 1].Answer?;
      (StopSeen(env, l.st) && !answered ==> r.result == StopNotice) &&
      (!r.st.stopped ==>
         (answered && r.result == l.ends[|l.ends| - 1].answer) ||
         (!Left(l) && r.result == SynthesizeFinalAnswer(env.world, l.st.calls, config, userQuery).result))
  {
    var pass := AsyncPass(env, userQuery);
    var started := Send(env, st, Message("status", "Starting research process..."));
    var l := StartedLoop(pass, env, st, maxAttempts);
    var r := AsyncSearch(env, st, config, userQuery, maxAttempts);
    AsyncPassStops(env, userQuery);
    AsyncLoopWithStops(pass, env, started, 0, maxAttempts);
    if Left(l) {
      assert r.st == Finally(env, l.st);
    } else if StopSeen(env, l.st) {
      assert r.st == Finally(env, Checked(env, l.st));
    } else {
      var synthesis := SynthesisPass(env.world, config, userQuery);
      var s := AsyncSynthesizeFinalAnswer(env, synthesis, Checked(env, l.st));
      assert r.result == s.result && r.st == Finally(env, s.st);
      assert synthesis(l.st.calls) == SynthesizeFinalAnswer(env.world, l.st.calls, config, userQuery);
    }
  }

  // ------------------------------------------------------------ with no stop, the base controller

  predicate NoStop(env: Env, st: EngineState) {
    env.stopAt.None? && !st.stopped
  }

  /** A pass of the engine that makes the same calls as a pass of the base controller and
      returns the same answer, if any, without reading the flag as set. */
  predicate Mirrors(p: Pass, a: Attempt) {
    p.st.calls == a.calls && !p.st.stopped && !p.end.UserStop? &&
    (p.end.Answer? <==> Answers(a.end)) && (p.end.Answer? ==> p.end.answer == a.end.answer)
  }

  lemma AsyncAnswerStageMirrors(env: Env, st: EngineState, userQuery: string, pages: seq<Page>, log: seq<Message>)
    requires NoStop(env, st)
    ensures Mirrors(AsyncAnswerStage(env, st, userQuery, pages), AnswerStage(env.world, st.calls, userQuery, pages, log, false))
  {
  }

  lemma AsyncEvaluateStageMirrors(env: Env, st: EngineState, userQuery: string, pages: seq<Page>, log: seq<Message>)
    requires NoStop(env, st)
    ensures Mirrors(AsyncEvaluateStage(env, st, userQuery, pages), EvaluateStage(env.world, st.calls, userQuery, pages, log))
  {
    var v := EvaluateScrapedContent(env.world, st.calls, userQuery, pages);
    EvaluateScrapedContentFacts(env.world, st.calls, userQuery, pages);
    var a := AsyncEvaluateScrapedContent(env, st, userQuery, pages);
    assert a.result == v.result && a.st.calls == v.calls && NoStop(env, a.st);
    if v.result.decision == "answer" {
      var reported := log + [Info("Evaluation: " + v.result.evaluation)] + [DecisionReport(v.result.decision)];
      AsyncAnswerStageMirrors(env, Checked(env, a.st), userQuery, pages, reported);
    }
  }

  lemma AsyncScrapeStageMirrors(env: Env, st: EngineState, userQuery: string, urls: seq<string>, log: seq<Message>)
    requires NoStop(env, st)
    ensures Mirrors(AsyncScrapeStage(env, st, userQuery, urls), ScrapeStage(env.world, st.calls, userQuery, urls, log))
  {
    var c := ScrapeContent(env.world, st.calls, urls);
    var a := AsyncScrapeContent(env, st, urls);
    assert a.result == c.result && a.st.calls == c.calls && NoStop(env, a.st);
    var r := AsyncScrapeStage(env, st, userQuery, urls);
    var scraped := log + c.sent;
    if c.result == [] {
      assert r == Pass(Retry(NothingScraped), Send(env, Checked(env, a.st), Info("Failed to scrape content, retrying...")));
    } else {
      var reported := scraped + DisplayScrapedContent(c.result) + [Info("🧠 Thinking...")];
      assert r == AsyncEvaluateStage(env, Checked(env, a.st), userQuery, c.result);
      assert ScrapeStage(env.world, st.calls, userQuery, urls, log) == EvaluateStage(env.world, c.calls, userQuery, c.result, reported);
      AsyncEvaluateStageMirrors(env, Checked(env, a.st), userQuery, c.result, reported);
    }
  }

  lemma AsyncSelectStageMirrors(env: Env, st: EngineState, userQuery: string, results: seq<SearchResult>, log: seq<Message>)
    requires NoStop(env, st)
    ensures Mirrors(AsyncSelectStage(env, st, userQuery, results), SelectStage(env.world, st.calls, userQuery, results, log))
  {
    var p := SelectRelevantPages(env.world, st.calls, results, userQuery);
    var a := AsyncSelectRelevantPages(env, st, results, userQuery);
    assert a.result == p.result && a.st.calls == p.calls && NoStop(env, a.st);
    if p.result.Returned? && p.result.value != [] {
      var urls := p.result.value;
      AsyncScrapeStageMirrors(env, Checked(env, a.st), userQuery, urls, log + p.sent + [Info("⚙️ Scraping selected pages...")]);
    }
  }

  lemma AsyncSearchStageMirrors(env: Env, st: EngineState, userQuery: string, plan: QueryPlan, log: seq<Message>)
    requires NoStop(env, st)
    ensures Mirrors(AsyncSearchStage(env, st, userQuery, plan), SearchStage(env.world, st.calls, userQuery, plan, log))
  {
    var s := PerformSearch(env.world, st.calls, plan.query, plan.timeRange);
    var a := AsyncPerformSearch(env, st, plan.query, plan.timeRange);
    assert a.result == s.result && a.st.calls == s.calls && NoStop(env, a.st);
    var r := AsyncSearchStage(env, st, userQuery, plan);
    if s.result == [] {
      assert r == Pass(Retry(NoResults), Send(env, Checked(env, a.st), Info("No results found, retrying...")));
    } else {
      assert r == AsyncSelectStage(env, Checked(env, a.st), userQuery, s.result);
      assert SearchStage(env.world, st.calls, userQuery, plan, log) == SelectStage(env.world, s.calls, userQuery, s.result, log + s.sent);
      AsyncSelectStageMirrors(env, Checked(env, a.st), userQuery, s.result, log + s.sent);
    }
  }

  /** An empty query, which the base controller rejects before searching, reaches the engine's
      search step, which searches nothing, so the engine retries as well, with no call made. */
  lemma AsyncEmptyQueryRetries(env: Env, st: EngineState, userQuery: string, plan: QueryPlan)
    requires NoStop(env, st) && plan.query == []
    ensures var p := AsyncSearchStage(env, st, userQuery, plan);
      p.end == Retry(NoResults) && p.st.calls == st.calls && !p.st.stopped
  {
    PerformSearchFacts(env.world, st.calls, plan.query, plan.timeRange);
  }

  /** With no stop, a pass of the engine makes the same model calls and searches as a pass
      of the base controller and answers exactly when it does, with the same answer. An empty
      formulated query, which the base controller rejects, reaches the engine's search step,
      which searches nothing and so retries as well. */
  lemma AsyncAttemptMirrors(env: Env, st: EngineState, userQuery: string, attempt: nat, log: seq<Message>)
    requires NoStop(env, st)
    ensures Mirrors(AsyncAttempt(env, st, userQuery, attempt), RunAttempt(env.world, st.calls, userQuery, attempt, log))
  {
    var f := FormulateQuery(env.world, st.calls, userQuery);
    if f.result.Threw? {
      AsyncAttemptThrewMirrors(env, st, userQuery, attempt, log);
    } else {
      var plan := f.result.value;
      var searching := Checked(env, AsyncFormulateQuery(env, Checked(env, Send(env, st, AttemptHeading(attempt))), userQuery, attempt).st);
      AsyncAttemptPlanned(env, st, userQuery, attempt);
      RunAttemptPlanned(env.world, st.calls, userQuery, attempt, log);
      var reported := log + [AttemptHeading(attempt)] + [Info("📝 Searching...")] + [Info("Original query: " + userQuery)] +
                      [Info("Formulated query: " + plan.query)] + [Info("Time range: " + plan.timeRange)];
      AsyncAttemptPlannedMirrors(env, searching, userQuery, plan, reported);
    }
  }

  lemma AsyncAttemptThrewMirrors(env: Env, st: EngineState, userQuery: string, attempt: nat, log: seq<Message>)
    requires NoStop(env, st) && FormulateQuery(env.world, st.calls, userQuery).result.Threw?
    ensures Mirrors(AsyncAttempt(env, st, userQuery, attempt), RunAttempt(env.world, st.calls, userQuery, attempt, log))
  {
    var heading := Checked(env, Send(env, st, AttemptHeading(attempt)));
    assert heading.calls == st.calls && NoStop(env, heading);
    var f := FormulateQuery(env.world, st.calls, userQuery);
    var a := AsyncFormulateQuery(env, heading, userQuery, attempt);
    assert a.result == f.result && a.st.calls == f.calls && NoStop(env, a.st);
    assert AsyncAttempt(env, st, userQuery, attempt) == Caught(env, a.st, f.result.error);
  }

  /** The engine's pass once a plan is formulated: its search stage, in the state after the
      heading, the formulation and one more read of the flag. */
  lemma AsyncAttemptPlanned(env: Env, st: EngineState, userQuery: string, attempt: nat)
    requires NoStop(env, st) && FormulateQuery(env.world, st.calls, userQuery).result.Returned?
    ensures var f := FormulateQuery(env.world, st.calls, userQuery);
      var searching := Checked(env, AsyncFormulateQuery(env, Checked(env, Send(env, st, AttemptHeading(attempt))), userQuery, attempt).st);
      searching.calls == f.calls && NoStop(env, searching) &&
      AsyncAttempt(env, st, userQuery, attempt) == AsyncSearchStage(env, searching, userQuery, f.result.value)
  {
    var heading := Checked(env, Send(env, st, AttemptHeading(attempt)));
    assert heading.calls == st.calls && NoStop(env, heading);
    var f := FormulateQuery(env.world, st.calls, userQuery);
    var a := AsyncFormulateQuery(env, heading, userQuery, attempt);
    assert a.result == f.result && a.st.calls == f.calls && NoStop(env, a.st);
  }

  /** The base controller's pass once a plan is formulated. */
  lemma RunAttemptPlanned(w: World, calls: Calls, userQuery: string, attempt: nat, log: seq<Message>)
    requires FormulateQuery(w, calls, userQuery).result.Returned?
    ensures var f := FormulateQuery(w, calls, userQuery);
      var plan := f.result.value;
      var reported := log + [AttemptHeading(attempt)] + [Info("📝 Searching...")] + [Info("Original query: " + userQuery)] +
                      [Info("Formulated query: " + plan.query)] + [Info("Time range: " + plan.timeRange)];
      RunAttempt(w, calls, userQuery, attempt, log) ==
        if plan.query == [] then Attempt(EmptyQuery, f.calls, reported + [Error("Error: Empty search query. Retrying...")])
        else SearchStage(w, f.calls, userQuery, plan, reported)
  {
  }

  /** The formulated plan, then the search stage; `reported` is what the base controller has
      sent by then. */
  lemma AsyncAttemptPlannedMirrors(env: Env, searching: EngineState, userQuery: string, plan: QueryPlan, reported: seq<Message>)
    requires NoStop(env, searching)
    ensures Mirrors(AsyncSearchStage(env, searching, userQuery, plan),
                    if plan.query == [] then Attempt(EmptyQuery, searching.calls, reported + [Error("Error: Empty search query. Retrying...")])
                    else SearchStage(env.world, searching.calls, userQuery, plan, reported))
  {
    if plan.query == [] {
      AsyncEmptyQueryRetries(env, searching, userQuery, plan);
    } else {
      AsyncSearchStageMirrors(env, searching, userQuery, plan, reported);
    }
  }

  ghost predicate PassesMirror(env: Env, apass: (EngineState, nat) -> Pass, bpass: (Calls, nat, seq<Message>) -> Attempt) {
    forall st: EngineState, k: nat, log: seq<Message> :: NoStop(env, st) ==> Mirrors(apass(st, k), bpass(st.calls, k, log))
  }

  lemma AsyncPassMirrors(env: Env, userQuery: string)
    ensures PassesMirror(env, AsyncPass(env, userQuery), AttemptPass(env.world, userQuery))
  {
    forall st: EngineState, k: nat, log: seq<Message> | NoStop(env, st)
      ensures Mirrors(AsyncPass(env, userQuery)(st, k), AttemptPass(env.world, userQuery)(st.calls, k, log))
    {
      AsyncAttemptMirrors(env, st, userQuery, k, log);
    }
  }

  lemma {:induction false} AsyncLoopMirrors(env: Env, apass: (EngineState, nat) -> Pass,
                                            bpass: (Calls, nat, seq<Message>) -> Attempt, st: EngineState, attempt: nat,
                                            maxAttempts: int, log: seq<Message>)
    requires PassesMirror(env, apass, bpass) && NoStop(env, st)
    ensures var l := AsyncLoopWith(apass, env, st, attempt, maxAttempts);
      var b := LoopWith(bpass, st.calls, attempt, maxAttempts, log);
      l.st.calls == b.calls && !l.st.stopped && |l.ends| == |b.ends| && (Left(l) <==> LoopAnswered(b)) &&
      (Left(l) ==> l.ends[|l.ends| - 1] == Answer(b.ends[|b.ends| - 1].answer))
    decreases maxAttempts - attempt
  {
    if attempt < maxAttempts {
      var p := apass(Checked(env, st), attempt);
      var a := bpass(st.calls, attempt, log);
      assert Mirrors(p, a);
      if p.end.Retry? {
        AsyncLoopMirrors(env, apass, bpass, p.st, attempt + 1, maxAttempts, a.log);
        var rest := AsyncLoopWith(apass, env, p.st, attempt + 1, maxAttempts);
        var brest := LoopWith(bpass, a.calls, attempt + 1, maxAttempts, a.log);
        var l := AsyncLoopWith(apass, env, st, attempt, maxAttempts);
        var b := LoopWith(bpass, st.calls, attempt, maxAttempts, log);
        assert l.ends == [p.end] + rest.ends && b.ends == [a.end] + brest.ends;
        if rest.ends != [] {
          assert l.ends[|l.ends| - 1] == rest.ends[|rest.ends| - 1];
          assert b.ends[|b.ends| - 1] == brest.ends[|brest.ends| - 1];
        }
      }
    }
  }

  /** With no stop on its way, what the whole search returns and the calls it makes, in terms of
      its loop. */
  lemma AsyncRunWithShape(env: Env, pass: (EngineState, nat) -> Pass, synthesis: Calls -> Step<string>,
                          st: EngineState, maxAttempts: int)
    requires env.stopAt.None?
    ensures var l := StartedLoop(pass, env, st, maxAttempts);
      var r := AsyncRunWith(pass, synthesis, env, st, maxAttempts);
      r.ends == l.ends && r.st.stopped == l.st.stopped &&
      (Left(l) ==> r.st.calls == l.st.calls &&
                   r.result == if l.ends[|l.ends| - 1].UserStop? then StopNotice else l.ends[|l.ends| - 1].answer) &&
      (!Left(l) && !l.st.stopped ==>
         r.result == synthesis(l.st.calls).result && r.st.calls == synthesis(l.st.calls).calls)
  {
    var l := StartedLoop(pass, env, st, maxAttempts);
    if Left(l) {
      FinallyGrows(env, l.st);
    } else if !l.st.stopped {
      var s := AsyncSynthesizeFinalAnswer(env, synthesis, Checked(env, l.st));
      FinallyGrows(env, s.st);
    }
  }

  lemma AsyncRunWithMirrors(env: Env, apass: (EngineState, nat) -> Pass, bpass: (Calls, nat, seq<Message>) -> Attempt,
                            synthesis: Calls -> Step<string>, st: EngineState, maxAttempts: int, log: seq<Message>)
    requires PassesMirror(env, apass, bpass) && NoStop(env, st)
    ensures var r := AsyncRunWith(apass, synthesis, env, st, maxAttempts);
      var b := RunWith(bpass, synthesis, st.calls, maxAttempts, log);
      r.result == b.answer && r.st.calls == b.calls && |r.ends| == |b.ends| && !r.st.stopped
  {
    var started := Send(env, st, Message("status", "Starting research process..."));
    AsyncLoopMirrors(env, apass, bpass, started, 0, maxAttempts, log);
    AsyncRunWithShape(env, apass, synthesis, st, maxAttempts);
  }

  /** With no stop requested, `search_and_improve` of the engine makes exactly the model calls
      and searches of the base controller's `search_and_improve`, runs as many passes, and
      returns the same answer. */
  lemma AsyncSearchMirrors(env: Env, st: EngineState, config: LlmConfig, userQuery: string, maxAttempts: int,
                           log: seq<Message>)
    requires NoStop(env, st)
    ensures var r := AsyncSearch(env, st, config, userQuery, maxAttempts);
      var b := RunSearch(env.world, st.calls, config, userQuery, maxAttempts, log);
      r.result == b.answer && r.st.calls == b.calls && |r.ends| == |b.ends| && !r.st.stopped
  {
    AsyncPassMirrors(env, userQuery);
    AsyncRunWithMirrors(env, AsyncPass(env, userQuery), AttemptPass(env.world, userQuery),
                        SynthesisPass(env.world, config, userQuery), st, maxAttempts, log);
  }

  // ------------------------------------------------------------ the engine object

  /** `AsyncSearchEngine`. The base controller is held, not inherited: its step methods make
      the calls, and the messages they would send come back to be forwarded through this
      engine's `send_message`. A stop requested from another thread is applied at the read
      of the flag numbered `stopAt`, as `Checked` says. */
  class AsyncSearchEngine {
    const sessionId: string
    const handler: AsyncMessageHandler
    const base: EnhancedSelfImprovingSearch
    const settings: SearchSettings
    const stopAt: Option<nat>
    var checks: nat
    var stopped: bool
    var searchedUrls: set<string>
    var lastQuery: string
    var lastTimeRange: string

    predicate Valid() {
      handler.Valid()
    }

    function Environment(): Env {
      Env(base.backend.world, stopAt)
    }

    function State(): EngineState
      reads this, base.backend, handler, handler.queue
    {
      EngineState(base.backend.calls, checks, stopped, handler.View(), searchedUrls, lastQuery, lastTimeRange)
    }

    /** The shared dictionaries keep their queues; at most this session's processing flag is cleared. */
    twostate predicate TablesKept()
      reads handler.tables
    {
      handler.tables.queues == old(handler.tables.queues) &&
      ProcessingReset(old(handler.tables.processing), handler.tables.processing, handler.sessionId)
    }

    /** The handler registers the session's queue; `max_attempts` comes from the settings when
        there are any, and the settings default to those of `SearchSettings`. */
    constructor(backend: Backend, config: LlmConfig, sessionId: string, tables: SessionTables,
                settings: Option<SearchSettings>, stopAt: Option<nat>)
      modifies tables
      ensures Valid() && fresh(handler) && fresh(handler.queue) && fresh(base)
      ensures this.sessionId == sessionId && handler.sessionId == sessionId && handler.tables == tables
      ensures base.backend == backend && base.config == config && this.stopAt == stopAt
      ensures base.maxAttempts == if settings.Some? then settings.value.maxAttempts else DefaultMaxAttempts
      ensures this.settings == settings.GetOr(DefaultSettings)
      ensures State() == EngineState(backend.calls, 0, false, FreshHandler, {}, "", "")
      ensures tables.queues == old(tables.queues)[sessionId := handler.queue]
      ensures tables.processing == old(tables.processing)[sessionId := false]
    {
      this.sessionId := sessionId;
      var h := new AsyncMessageHandler(sessionId, tables);
      handler := h;
      var maxAttempts := if settings.Some? then settings.value.maxAttempts else DefaultMaxAttempts;
      base := new EnhancedSelfImprovingSearch(backend, config, maxAttempts);
      this.settings := settings.GetOr(DefaultSettings);
      this.stopAt := stopAt;
      checks := 0;
      stopped := false;
      searchedUrls := {};
      lastQuery := "";
      lastTimeRange := "";
    }

    /** `stop`: sets the flag and stops the handler. */
    method Stop()
      modifies this, handler, handler.tables
      ensures State() == old(State()).(stopped := true, handler := old(State()).handler.(stopped := true))
      ensures handler.tables.processing ==
              if handler.sessionId in old(handler.tables.processing)
              then old(handler.tables.processing)[handler.sessionId := false]
              else old(handler.tables.processing)
      ensures TablesKept()
    {
      stopped := true;
      handler.Stop();
    }

    /** `should_stop`, with the outside request applied when it lands at this read. */
    method ShouldStop() returns (b: bool)
      modifies this, handler, handler.tables
      ensures b == StopSeen(Environment(), old(State())) && State() == Checked(Environment(), old(State()))
      ensures TablesKept()
    {
      if stopAt.Some? && stopAt.value <= checks {
        Stop();
      }
      checks := checks + 1;
      b := stopped;
    }

    /** `send_message` */
    method SendMessage(m: Message)
      requires Valid()
      modifies this, handler, handler.queue, handler.tables
      ensures State() == Send(Environment(), old(State()), m) && TablesKept()
    {
      ghost var st := State();
      var stop := ShouldStop();
      if !stop {
        SendStripsFirst(Environment(), st, m);
        var text := Strip(m.text);
        if text != [] {
          handler.HandleMessage(Message(m.kind, text));
        }
      }
    }

    /** The messages of a base step, forwarded one by one. */
    method ForwardAll(ms: seq<Message>)
      requires Valid()
      modifies this, handler, handler.queue, handler.tables
      ensures State() == SendAll(Environment(), old(State()), ms) && TablesKept()
    {
      ghost var env, st := Environment(), State();
      for i := 0 to |ms|
        invariant State() == SendAll(env, st, ms[..i]) && TablesKept()
      {
        ghost var processing := handler.tables.processing;
        SendMessage(ms[i]);
        SendAllSnoc(env, st, ms, i);
        ProcessingResetTrans(old(handler.tables.processing), processing, handler.tables.processing, handler.sessionId);
      }
      assert ms[..|ms|] == ms;
    }
 
    // ---------------------------------------------------------- the overridden steps

    method FormulateQuery(userQuery: string, attempt: nat) returns (r: Outcome<QueryPlan>)
      requires Valid()
      modifies this, base.backend, handler, handler.queue, handler.tables
      ensures var d := AsyncFormulateQuery(Environment(), old(State()), userQuery, attempt);
              r == d.result && State() == d.st
      ensures TablesKept()
    {
      SendMessage(Info("Formulating query (attempt " + NatToString(attempt + 1) + ")..."));
      r := base.FormulateQuery(userQuery, attempt);
      match r
      case Threw(e) =>
        SendMessage(Error("Error formulating query: " + e));
      case Returned(plan) =>
        SendMessage(Info("Formulated query: " + plan.query));
        SendMessage(Info("Time range: " + plan.timeRange));
    }

    method PerformSearch(query: string, timeRange: string) returns (results: seq<SearchResult>)
      requires Valid()
      modifies this, base.backend, handler, handler.queue, handler.tables
      ensures var d := AsyncPerformSearch(Environment(), old(State()), query, timeRange);
              results == d.result && State() == d.st
      ensures TablesKept()
    {
      lastQuery := query;
      lastTimeRange := timeRange;
      SendMessage(Info("Searching with query: " + query));
      var msgs;
      results, msgs := base.PerformSearch(query, timeRange);
      ForwardAll(msgs);
      SendMessage(Info("Found " + NatToString(|results|) + " results"));
    }

    method SelectRelevantPages(results: seq<SearchResult>, userQuery: string) returns (r: Outcome<seq<string>>)
      requires Valid()
      modifies this, base.backend, handler, handler.queue, handler.tables
      ensures var d := AsyncSelectRelevantPages(Environment(), old(State()), results, userQuery);
              r == d.result && State() == d.st
      ensures TablesKept()
    {
      SendMessage(Info("Selecting relevant pages..."));
      ghost var s1 := State();
      var msgs;
      r, msgs := base.SelectRelevantPages(results, userQuery);
      assert State() == s1.(calls := base.backend.calls);
      ForwardAll(msgs);
      SendMessage(SelectionReport(r));
    }

    method ScrapeContent(urls: seq<string>) returns (pages: seq<Page>)
      requires Valid()
      modifies this, base.backend, handler, handler.queue, handler.tables
      ensures var d := AsyncScrapeContent(Environment(), old(State()), urls);
              pages == d.result && State() == d.st
      ensures TablesKept()
    {
      SendMessage(Info("Scraping " + NatToString(|urls|) + " pages..."));
      var msgs;
      pages, msgs := base.ScrapeContent(urls);
      ForwardAll(msgs);
      searchedUrls := searchedUrls + SetOf(urls);
      SendMessage(Info("Successfully scraped " + NatToString(|pages|) + " pages"));
    }

    method EvaluateScrapedContent(userQuery: string, pages: seq<Page>) returns (e: Evaluation)
      requires Valid()
      modifies this, base.backend, handler, handler.queue, handler.tables
      ensures var d := AsyncEvaluateScrapedContent(Environment(), old(State()), userQuery, pages);
              e == d.result && State() == d.st
      ensures TablesKept()
    {
      SendMessage(Info("Evaluating content..."));
      ghost var s1 := State();
      e := base.EvaluateScrapedContent(userQuery, pages);
      assert State() == s1.(calls := base.backend.calls);
      SendMessage(Info("Evaluation: " + e.evaluation));
      SendMessage(DecisionReport(e.decision));
    }

    method GenerateFinalAnswer(userQuery: string, pages: seq<Page>) returns (r: Outcome<string>)
      requires Valid()
      modifies this, base.backend, handler, handler.queue, handler.tables
      ensures var d := AsyncGenerateFinalAnswer(Environment(), old(State()), userQuery, pages);
              r == d.result && State() == d.st
      ensures TablesKept()
    {
      SendMessage(Info("Generating final answer..."));
      ghost var s1 := State();
      r := base.GenerateFinalAnswer(userQuery, pages);
      assert State() == s1.(calls := base.backend.calls);
      match r
      case Threw(e) =>
        SendMessage(Error("Error generating answer: " + e));
      case Returned(answer) =>
        SendMessage(Message("result", answer));
    }

    method SynthesizeFinalAnswer(userQuery: string) returns (answer: string)
      requires Valid()
      modifies this, base.backend, handler, handler.queue, handler.tables
      ensures var d := AsyncSynthesizeFinalAnswer(Environment(), SynthesisPass(base.backend.world, base.config, userQuery),
                                                  old(State()));
              answer == d.result && State() == d.st
      ensures TablesKept()
    {
      SendMessage(Info("Synthesizing final answer..."));
      answer := base.SynthesizeFinalAnswer(userQuery);
      SendMessage(Message("result", answer));
    }

    // ---------------------------------------------------------- the loop body, phase by phase

    /** The loop body up to the search: the heading, the first stop check, the query. */
    method AttemptPhase(userQuery: string, attempt: nat, ghost pass: (EngineState, nat) -> Pass) returns (end: PassEnd)
      requires Valid() && IsAsyncPass(pass, Environment(), userQuery)
      modifies this, base.backend, handler, handler.queue, handler.tables
      ensures end == pass(old(State()), attempt).end && State() == pass(old(State()), attempt).st
      ensures TablesKept()
    {
      assert pass(State(), attempt) == AsyncAttempt(Environment(), State(), userQuery, attempt);
      SendMessage(AttemptHeading(attempt));
      var stop := ShouldStop();
      if stop {
        SendMessage(Info(StopNotice));
        return UserStop;
      }
      var formulated := FormulateQuery(userQuery, attempt);
      if formulated.Threw? {
        SendMessage(Error("Error during search: " + formulated.error));
        return Retry(Failed(formulated.error));
      }
      stop := ShouldStop();
      if stop {
        return UserStop;
      }
      end := SearchPhase(userQuery, formulated.value);
    }

    method SearchPhase(userQuery: string, plan: QueryPlan) returns (end: PassEnd)
      requires Valid()
      modifies this, base.backend, handler, handler.queue, handler.tables
      ensures var p := AsyncSearchStage(Environment(), old(State()), userQuery, plan);
              end == p.end && State() == p.st
      ensures TablesKept()
    {
      var results := PerformSearch(plan.query, plan.timeRange);
      var stop := ShouldStop();
      if stop {
        return UserStop;
      }
      if results == [] {
        SendMessage(Info("No results found, retrying..."));
        return Retry(NoResults);
      }
      end := SelectPhase(userQuery, results);
    }

    method SelectPhase(userQuery: string, results: seq<SearchResult>) returns (end: PassEnd)
      requires Valid()
      modifies this, base.backend, handler, handler.queue, handler.tables
      ensures var p := AsyncSelectStage(Environment(), old(State()), userQuery, results);
              end == p.end && State() == p.st
      ensures TablesKept()
    {
      var selected := SelectRelevantPages(results, userQuery);
      if selected.Threw? {
        SendMessage(Error("Error during search: " + selected.error));
        return Retry(Failed(selected.error));
      }
      var stop := ShouldStop();
      if stop {
        return UserStop;
      }
      if selected.value == [] {
        SendMessage(Info("No relevant URLs found, retrying..."));
        return Retry(NoUrls);
      }
      end := ScrapePhase(userQuery, selected.value);
    }

    method ScrapePhase(userQuery: string, urls: seq<string>) returns (end: PassEnd)
      requires Valid()
      modifies this, base.backend, handler, handler.queue, handler.tables
      ensures var p := AsyncScrapeStage(Environment(), old(State()), userQuery, urls);
              end == p.end && State() == p.st
      ensures TablesKept()
    {
      var pages := ScrapeContent(urls);
      var stop := ShouldStop();
      if stop {
        return UserStop;
      }
      if pages == [] {
        SendMessage(Info("Failed to scrape content, retrying..."));
        return Retry(NothingScraped);
      }
      end := EvaluatePhase(userQuery, pages);
    }

    method EvaluatePhase(userQuery: string, pages: seq<Page>) returns (end: PassEnd)
      requires Valid()
      modifies this, base.backend, handler, handler.queue, handler.tables
      ensures var p := AsyncEvaluateStage(Environment(), old(State()), userQuery, pages);
              end == p.end && State() == p.st
      ensures TablesKept()
    {
      var evaluation := EvaluateScrapedContent(userQuery, pages);
      var stop := ShouldStop();
      if stop {
        return UserStop;
      }
      if evaluation.decision == "answer" {
        end := AnswerPhase(userQuery, pages);
        return;
      }
      SendMessage(Info("Need more information, refining search..."));
      end := Retry(Refined);
    }

    method AnswerPhase(userQuery: string, pages: seq<Page>) returns (end: PassEnd)
      requires Valid()
      modifies this, base.backend, handler, handler.queue, handler.tables
      ensures var p := AsyncAnswerStage(Environment(), old(State()), userQuery, pages);
              end == p.end && State() == p.st
      ensures TablesKept()
    {
      var answer := GenerateFinalAnswer(userQuery, pages);
      if answer.Threw? {
        SendMessage(Error("Error during search: " + answer.error));
        return Retry(Failed(answer.error));
      }
      end := Answer(answer.value);
    }
 
    // ---------------------------------------------------------- the loop and the whole search

    /** The `while` loop of `search_and_improve`: `Some(end)` when a pass returned from it. */
    method AttemptLoop(userQuery: string, ghost pass: (EngineState, nat) -> Pass) returns (left: Option<PassEnd>)
      requires Valid() && IsAsyncPass(pass, Environment(), userQuery)
      modifies this, base.backend, handler, handler.queue, handler.tables
      ensures var l := AsyncLoopWith(pass, Environment(), old(State()), 0, base.maxAttempts);
              State() == l.st && left.Some? == Left(l) && (left.Some? ==> left.value == l.ends[|l.ends| - 1])
      ensures TablesKept()
    {
      ghost var env := Environment();
      ghost var whole := AsyncLoopWith(pass, env, State(), 0, base.maxAttempts);
      var attempt: nat := 0;
      while true
        invariant SameExit(whole, AsyncLoopWith(pass, env, State(), attempt, base.maxAttempts))
        invariant TablesKept()
        decreases base.maxAttempts - attempt
      {
        if attempt >= base.maxAttempts {
          return None;
        }
        ghost var before := handler.tables.processing;
        var stop := ShouldStop();
        ProcessingResetTrans(old(handler.tables.processing), before, handler.tables.processing, handler.sessionId);
        if stop {
          return None;
        }
        ghost var checked := handler.tables.processing;
        var end := AttemptPhase(userQuery, attempt, pass);
        ProcessingResetTrans(old(handler.tables.processing), checked, handler.tables.processing, handler.sessionId);
        if !end.Retry? {
          return Some(end);
        }
        attempt := attempt + 1;
      }
    }

    /** The `finally` clause. */
    method Finish()
      requires Valid()
      modifies this, base.backend, handler, handler.queue, handler.tables
      ensures State() == Finally(Environment(), old(State())) && TablesKept()
    {
      var stop := ShouldStop();
      if stop {
        SendMessage(Message("status", "Search stopped"));
      } else {
        SendMessage(Message("status", "Search completed"));
      }
    }

    /** `search_and_improve` */
    method SearchAndImprove(userQuery: string) returns (result: string)
      requires Valid()
      modifies this, base.backend, handler, handler.queue, handler.tables
      ensures var r := AsyncSearch(Environment(), old(State()), base.config, userQuery, base.maxAttempts);
              result == r.result && State() == r.st
      ensures TablesKept()
    {
      ghost var env := Environment();
      ghost var st := State();
      ghost var r := AsyncSearch(env, st, base.config, userQuery, base.maxAttempts);
      ghost var l := StartedLoop(AsyncPass(env, userQuery), env, st, base.maxAttempts);
      SendMessage(Message("status", "Starting research process..."));
      AsyncPassIs(env, userQuery);
      var left := AttemptLoop(userQuery, AsyncPass(env, userQuery));
      assert State() == l.st;
      if left.Some? {
        result := if left.value.UserStop? then StopNotice else left.value.answer;
        assert r.st == Finally(env, l.st);
      } else {
        var stop := ShouldStop();
        if stop {
          result := StopNotice;
          assert r.st == Finally(env, State());
        } else {
          result := SynthesizeFinalAnswer(userQuery);
          assert r.st == Finally(env, State());
        }
      }
      Finish();
    }
  }
}
