/**
 * `EnhancedSelfImprovingSearch.search_and_improve` (Self_Improving_Search.py): the
 * bounded attempt loop formulate → search → select → scrape → evaluate → answer or
 * refine, as a specification over the oracles' scripts and as the class whose methods
 * are proved to follow it. The specification threads `log`, every message handed to the
 * message handler so far, the way the object's `sent` field grows.
 */
module SelfImprovingSearch {
  import opened Wrappers
  import opened Strings
  import opened ResponseParsing
  import opened Ports
  import opened SearchSteps

  /** How one pass of the loop body ended. */
  datatype AttemptEnd =
    | EmptyQuery
    | NoResults
    | NoUrls
    | NothingScraped
    | Refined
    | Failed(error: string)
    | Answered(answer: string)
    | AnsweredUnexpected(answer: string)

  /** The passes that return from the loop with a generated answer. */
  predicate Answers(e: AttemptEnd) {
    e.Answered? || e.AnsweredUnexpected?
  }

  datatype Attempt = Attempt(end: AttemptEnd, calls: Calls, log: seq<Message>)

  const DefaultMaxAttempts: int := 5

  function AttemptHeading(attempt: nat): Message {
    Info("\nSearch attempt " + NatToString(attempt + 1) + ":")
  }

  function DecisionReport(decision: string): Message {
    Info("Decision: " + decision)
  }

  /** The `except` clause of the loop body. */
  function Failure(error: string, calls: Calls, log: seq<Message>): Attempt {
    Attempt(Failed(error), calls, log + [Error("An error occurred during search attempt: " + error)])
  }

  /** One pass of the loop body with attempt number `attempt`. The base class's
      `display_search_results` sends nothing: it reads `last_query`, which only the
      cancellable subclass defines, and swallows the resulting error. Formulating,
      evaluating and answering send no message of their own. */
  function RunAttempt(w: World, calls: Calls, userQuery: string, attempt: nat, log: seq<Message>): Attempt {
    var opening := log + [AttemptHeading(attempt)] + [Info("📝 Searching...")];
    var f := FormulateQuery(w, calls, userQuery);
    match f.result
    case Threw(e) => Failure(e, f.calls, opening)
    case Returned(plan) =>
      var reported := opening + [Info("Original query: " + userQuery)] + [Info("Formulated query: " + plan.query)] +
                      [Info("Time range: " + plan.timeRange)];
      if plan.query == [] then Attempt(EmptyQuery, f.calls, reported + [Error("Error: Empty search query. Retrying...")])
      else SearchStage(w, f.calls, userQuery, plan, reported)
  }

  function SearchStage(w: World, calls: Calls, userQuery: string, plan: QueryPlan, log: seq<Message>): Attempt {
    var s := PerformSearch(w, calls, plan.query, plan.timeRange);
    var searched := log + s.sent;
    if s.result == [] then
      Attempt(NoResults, s.calls, searched + [Error("No results found. Retrying with a different query...")])
    else SelectStage(w, s.calls, userQuery, s.result, searched)
  }

  function SelectStage(w: World, calls: Calls, userQuery: string, results: seq<SearchResult>, log: seq<Message>): Attempt {
    var p := SelectRelevantPages(w, calls, results, userQuery);
    var selected := log + p.sent;
    match p.result
    case Threw(e) => Failure(e, p.calls, selected)
    case Returned(urls) =>
      if urls == [] then Attempt(NoUrls, p.calls, selected + [Error("No relevant URLs found. Retrying...")])
      else ScrapeStage(w, p.calls, userQuery, urls, selected + [Info("⚙️ Scraping selected pages...")])
  }

  function ScrapeStage(w: World, calls: Calls, userQuery: string, urls: seq<string>, log: seq<Message>): Attempt {
    var c := ScrapeContent(w, calls, urls);
    var scraped := log + c.sent;
    if c.result == [] then
      Attempt(NothingScraped, c.calls, scraped + [Error("Failed to scrape content. Retrying...")])
    else
      EvaluateStage(w, c.calls, userQuery, c.result,
                    scraped + DisplayScrapedContent(c.result) + [Info("🧠 Thinking...")])
  }

  function EvaluateStage(w: World, calls: Calls, userQuery: string, pages: seq<Page>, log: seq<Message>): Attempt {
    var v := EvaluateScrapedContent(w, calls, userQuery, pages);
    var reported := log + [Info("Evaluation: " + v.result.evaluation)] + [DecisionReport(v.result.decision)];
    if v.result.decision == "answer" then AnswerStage(w, v.calls, userQuery, pages, reported, false)
    else if v.result.decision == "refine" then Attempt(Refined, v.calls, reported + [Info("Refining search...")])
    else AnswerStage(w, v.calls, userQuery, pages, reported + [Info("Unexpected decision. Proceeding to answer.")], true)
  }

  function AnswerStage(w: World, calls: Calls, userQuery: string, pages: seq<Page>, log: seq<Message>, unexpected: bool): Attempt {
    var a := GenerateFinalAnswer(w, calls, userQuery, pages);
    match a.result
    case Threw(e) => Failure(e, a.calls, log)
    case Returned(answer) =>
      Attempt(if unexpected then AnsweredUnexpected(answer) else Answered(answer), a.calls,
              log + [Message("result", answer)])
  }

  /** The passes of the loop from attempt number `attempt` on, up to the one that answers. */
  datatype LoopEnd = LoopEnd(ends: seq<AttemptEnd>, calls: Calls, log: seq<Message>)

  /** The loop's control flow, for any pass function: stop after the first pass that
      answers, or once `attempt` reaches `maxAttempts`. */
  function LoopWith(pass: (Calls, nat, seq<Message>) -> Attempt, calls: Calls, attempt: nat, maxAttempts: int,
                    log: seq<Message>): LoopEnd
    decreases maxAttempts - attempt
  {
    if attempt >= maxAttempts then LoopEnd([], calls, log)
    else
      var a := pass(calls, attempt, log);
      if Answers(a.end) then LoopEnd([a.end], a.calls, a.log)
      else
        var rest := LoopWith(pass, a.calls, attempt + 1, maxAttempts, a.log);
        LoopEnd([a.end] + rest.ends, rest.calls, rest.log)
  }

  function AttemptPass(w: World, userQuery: string): (Calls, nat, seq<Message>) -> Attempt {
    (c: Calls, k: nat, log: seq<Message>) => RunAttempt(w, c, userQuery, k, log)
  }

  /** `pass` is the loop body for `userQuery`. The equation is used only where a term of
      `RunAttempt` is already at hand, so proofs about the loop's shape alone treat the pass as
      any function of the calls, the attempt number and the log. */
  ghost predicate IsAttemptPass(pass: (Calls, nat, seq<Message>) -> Attempt, w: World, userQuery: string) {
    forall c: Calls, k: nat, log: seq<Message> {:trigger RunAttempt(w, c, userQuery, k, log)} ::
      pass(c, k, log) == RunAttempt(w, c, userQuery, k, log)
  }

  lemma AttemptPassIs(w: World, userQuery: string)
    ensures IsAttemptPass(AttemptPass(w, userQuery), w, userQuery)
  {
  }

  /** The attempt loop of `search_and_improve`, bounded by `max_attempts`. */
  function Loop(w: World, calls: Calls, userQuery: string, attempt: nat, maxAttempts: int, log: seq<Message>): LoopEnd {
    LoopWith(AttemptPass(w, userQuery), calls, attempt, maxAttempts, log)
  }

  /** Whether the loop returned from its body with a generated answer. */
  predicate LoopAnswered(l: LoopEnd) {
    l.ends != [] && Answers(l.ends[|l.ends| - 1])
  }

  datatype Run = Run(answer: string, ends: seq<AttemptEnd>, calls: Calls, log: seq<Message>)

  /** The control flow of `search_and_improve` for any pass and synthesis functions: the loop,
      then, if no pass answered, the synthesized answer, sent as the result. */
  function RunWith(pass: (Calls, nat, seq<Message>) -> Attempt, synthesis: Calls -> Step<string>,
                   calls: Calls, maxAttempts: int, log: seq<Message>): Run {
    var l := LoopWith(pass, calls, 0, maxAttempts, log);
    if LoopAnswered(l) then Run(l.ends[|l.ends| - 1].answer, l.ends, l.calls, l.log)
    else
      var s := synthesis(l.calls);
      Run(s.result, l.ends, s.calls, l.log + [Message("result", s.result)])
  }

  function SynthesisPass(w: World, config: LlmConfig, userQuery: string): Calls -> Step<string> {
    (c: Calls) => SynthesizeFinalAnswer(w, c, config, userQuery)
  }

  /** `search_and_improve` */
  function RunSearch(w: World, calls: Calls, config: LlmConfig, userQuery: string, maxAttempts: int, log: seq<Message>): Run {
    RunWith(AttemptPass(w, userQuery), SynthesisPass(w, config, userQuery), calls, maxAttempts, log)
  }

  // ------------------------------------------------------------ properties of one pass

  /** `calls` is a prefix of `after`, which adds at most `llm` model calls and `search` searches. */
  predicate CallsGrowBy(before: Calls, after: Calls, llm: nat, search: nat) {
    |before.llm| <= |after.llm| <= |before.llm| + llm && after.llm[..|before.llm|] == before.llm &&
    |before.search| <= |after.search| <= |before.search| + search && after.search[..|before.search|] == before.search
  }

  lemma CallsGrowTrans(a: Calls, b: Calls, c: Calls, l1: nat, s1: nat, l2: nat, s2: nat)
    requires CallsGrowBy(a, b, l1, s1) && CallsGrowBy(b, c, l2, s2)
    ensures CallsGrowBy(a, c, l1 + l2, s1 + s2)
  {
    assert c.llm[..|a.llm|] == c.llm[..|b.llm|][..|a.llm|];
    assert c.search[..|a.search|] == c.search[..|b.search|][..|a.search|];
  }

  lemma AddsLlmCallsGrow(before: Calls, after: Calls, call: LlmCall, lo: nat, hi: nat)
    requires AddsLlmCalls(before, after, call, lo, hi)
    ensures CallsGrowBy(before, after, hi, 0)
  {
  }

  /** A pass that answers sends its decision "answer" and then its non-empty answer, last. */
  predicate AnswerReported(a: Attempt) {
    a.end.Answered? ==>
      (a.end.answer != [] && |a.log| >= 2 &&
       a.log[|a.log| - 2] == DecisionReport("answer") && a.log[|a.log| - 1] == Message("result", a.end.answer))
  }

  lemma AnswerStageFacts(w: World, calls: Calls, userQuery: string, pages: seq<Page>, log: seq<Message>, unexpected: bool)
    ensures var a := AnswerStage(w, calls, userQuery, pages, log, unexpected);
      CallsGrowBy(calls, a.calls, 3, 0) &&
      (a.end.Answered? || a.end.AnsweredUnexpected? || a.end.Failed?) &&
      (Answers(a.end) ==> a.end.answer != [] && a.end.AnsweredUnexpected? == unexpected &&
                          a.log == log + [Message("result", a.end.answer)])
  {
    GenerateFinalAnswerFacts(w, calls, userQuery, pages);
    AddsLlmCallsGrow(calls, GenerateFinalAnswer(w, calls, userQuery, pages).calls, AnswerCall(userQuery, pages), 1, MaxRetries);
  }

  lemma EvaluateStageCalls(w: World, calls: Calls, userQuery: string, pages: seq<Page>, log: seq<Message>)
    ensures CallsGrowBy(calls, EvaluateStage(w, calls, userQuery, pages, log).calls, 6, 0)
  {
    var v := EvaluateScrapedContent(w, calls, userQuery, pages);
    EvaluateScrapedContentFacts(w, calls, userQuery, pages);
    AddsLlmCallsGrow(calls, v.calls, EvaluationCall(userQuery, pages), 1, MaxRetries);
    var reported := log + [Info("Evaluation: " + v.result.evaluation)] + [DecisionReport(v.result.decision)];
    if v.result.decision == "answer" {
      AnswerStageFacts(w, v.calls, userQuery, pages, reported, false);
      CallsGrowTrans(calls, v.calls, AnswerStage(w, v.calls, userQuery, pages, reported, false).calls, 3, 0, 3, 0);
    }
  }

  lemma EvaluateStageFacts(w: World, calls: Calls, userQuery: string, pages: seq<Page>, log: seq<Message>)
    ensures var a := EvaluateStage(w, calls, userQuery, pages, log);
      CallsGrowBy(calls, a.calls, 6, 0) && !a.end.AnsweredUnexpected? && AnswerReported(a)
  {
    EvaluateStageCalls(w, calls, userQuery, pages, log);
    var v := EvaluateScrapedContent(w, calls, userQuery, pages);
    EvaluateScrapedContentFacts(w, calls, userQuery, pages);
    var reported := log + [Info("Evaluation: " + v.result.evaluation)] + [DecisionReport(v.result.decision)];
    if v.result.decision == "answer" {
      var a := AnswerStage(w, v.calls, userQuery, pages, reported, false);
      AnswerStageFacts(w, v.calls, userQuery, pages, reported, false);
      assert reported[|reported| - 1] == DecisionReport("answer");
      assert EvaluateStage(w, calls, userQuery, pages, log) == a;
    } else {
      assert v.result.decision == "refine";
      assert EvaluateStage(w, calls, userQuery, pages, log).end == Refined;
    }
  }

  lemma ScrapeStageFacts(w: World, calls: Calls, userQuery: string, urls: seq<string>, log: seq<Message>)
    ensures var a := ScrapeStage(w, calls, userQuery, urls, log);
      CallsGrowBy(calls, a.calls, 6, 0) && !a.end.AnsweredUnexpected? && AnswerReported(a)
  {
    var c := ScrapeContent(w, calls, urls);
    ScrapeContentFacts(w, calls, urls);
    if c.result != [] {
      EvaluateStageFacts(w, c.calls, userQuery, c.result, log + c.sent + DisplayScrapedContent(c.result) + [Info("🧠 Thinking...")]);
    }
  }

  lemma SelectStageFacts(w: World, calls: Calls, userQuery: string, results: seq<SearchResult>, log: seq<Message>)
    ensures var a := SelectStage(w, calls, userQuery, results, log);
      CallsGrowBy(calls, a.calls, 9, 0) && !a.end.AnsweredUnexpected? && AnswerReported(a)
  {
    var p := SelectRelevantPages(w, calls, results, userQuery);
    SelectRelevantPagesFacts(w, calls, results, userQuery);
    AddsLlmCallsGrow(calls, p.calls, SelectionCall(results, userQuery), 1, MaxRetries);
    match p.result
    case Threw(e) =>
    case Returned(urls) =>
      if urls != [] {
        var rest := log + p.sent + [Info("⚙️ Scraping selected pages...")];
        ScrapeStageFacts(w, p.calls, userQuery, urls, rest);
        CallsGrowTrans(calls, p.calls, ScrapeStage(w, p.calls, userQuery, urls, rest).calls, 3, 0, 6, 0);
      }
  }

  lemma SearchStageFacts(w: World, calls: Calls, userQuery: string, plan: QueryPlan, log: seq<Message>)
    ensures var a := SearchStage(w, calls, userQuery, plan, log);
      CallsGrowBy(calls, a.calls, 9, 1) && !a.end.AnsweredUnexpected? && AnswerReported(a) &&
      (Answers(a.end) ==> NextSearchReply(w, calls).Hits? && NextSearchReply(w, calls).hits != [])
  {
    var s := PerformSearch(w, calls, plan.query, plan.timeRange);
    PerformSearchFacts(w, calls, plan.query, plan.timeRange);
    assert CallsGrowBy(calls, s.calls, 0, 1);
    if s.result != [] {
      SelectStageFacts(w, s.calls, userQuery, s.result, log + s.sent);
      CallsGrowTrans(calls, s.calls, SelectStage(w, s.calls, userQuery, s.result, log + s.sent).calls, 0, 1, 9, 0);
    }
  }

  /** One pass makes at most twelve model calls and one search; it never takes the
      "unexpected decision" branch; it answers only after the model decided "answer", with a
      non-empty answer sent as its last message, and only when its search found something. */
  lemma RunAttemptFacts(w: World, calls: Calls, userQuery: string, attempt: nat, log: seq<Message>)
    ensures var a := RunAttempt(w, calls, userQuery, attempt, log);
      CallsGrowBy(calls, a.calls, 12, 1) && !a.end.AnsweredUnexpected? && AnswerReported(a) &&
      (Answers(a.end) ==> NextSearchReply(w, calls).Hits? && NextSearchReply(w, calls).hits != [])
  {
    var f := FormulateQuery(w, calls, userQuery);
    FormulateQueryFacts(w, calls, userQuery);
    AddsLlmCallsGrow(calls, f.calls, QueryCall(userQuery), 1, MaxRetries);
    match f.result
    case Threw(e) =>
    case Returned(plan) =>
      if plan.query != [] {
        var reported := log + [AttemptHeading(attempt)] + [Info("📝 Searching...")] + [Info("Original query: " + userQuery)] +
                        [Info("Formulated query: " + plan.query)] + [Info("Time range: " + plan.timeRange)];
        SearchStageFacts(w, f.calls, userQuery, plan, reported);
        CallsGrowTrans(calls, f.calls, SearchStage(w, f.calls, userQuery, plan, reported).calls, 3, 0, 9, 1);
      }
  }

  /** A pass answers only after an "answer" decision, with a non-empty answer sent last. */
  lemma AnsweredPassFacts(w: World, calls: Calls, userQuery: string, attempt: nat, log: seq<Message>)
    requires Answers(RunAttempt(w, calls, userQuery, attempt, log).end)
    ensures var a := RunAttempt(w, calls, userQuery, attempt, log);
      a.end.Answered? && a.end.answer != [] && |a.log| >= 2 &&
      a.log[|a.log| - 2] == DecisionReport("answer") && a.log[|a.log| - 1] == Message("result", a.end.answer)
  {
    RunAttemptFacts(w, calls, userQuery, attempt, log);
  }

  // ------------------------------------------------------------ properties of the loop

  /** What the loop needs to know about a pass: it makes at most twelve model calls and one
      search, never ends in the "unexpected decision" branch, and sends its answer last. */
  ghost predicate WellBehaved(pass: (Calls, nat, seq<Message>) -> Attempt) {
    forall c: Calls, k: nat, log: seq<Message> ::
      CallsGrowBy(c, pass(c, k, log).calls, 12, 1) && !pass(c, k, log).end.AnsweredUnexpected? &&
      (Answers(pass(c, k, log).end) ==> PassEndsWithAnswer(pass(c, k, log)))
  }

  predicate PassEndsWithAnswer(a: Attempt)
    requires Answers(a.end)
  {
    a.log != [] && a.log[|a.log| - 1] == Message("result", a.end.answer)
  }

  lemma RunAttemptWellBehaved(w: World, c: Calls, userQuery: string, k: nat, log: seq<Message>)
    ensures var a := RunAttempt(w, c, userQuery, k, log);
      CallsGrowBy(c, a.calls, 12, 1) && !a.end.AnsweredUnexpected? && (Answers(a.end) ==> PassEndsWithAnswer(a))
  {
    RunAttemptFacts(w, c, userQuery, k, log);
  }

  lemma AttemptPassWellBehaved(pass: (Calls, nat, seq<Message>) -> Attempt, w: World, userQuery: string)
    requires IsAttemptPass(pass, w, userQuery)
    ensures WellBehaved(pass)
  {
    forall c: Calls, k: nat, log: seq<Message>
      ensures var a := pass(c, k, log);
        CallsGrowBy(c, a.calls, 12, 1) && !a.end.AnsweredUnexpected? && (Answers(a.end) ==> PassEndsWithAnswer(a))
    {
      RunAttemptWellBehaved(w, c, userQuery, k, log);
    }
  }

  lemma {:induction false} LoopWithFacts(pass: (Calls, nat, seq<Message>) -> Attempt, calls: Calls, attempt: nat,
                                         maxAttempts: int, log: seq<Message>)
    requires WellBehaved(pass)
    ensures var l := LoopWith(pass, calls, attempt, maxAttempts, log);
      var budget := if maxAttempts - attempt < 0 then 0 else maxAttempts - attempt;
      |l.ends| <= budget &&
      (forall i :: 0 <= i < |l.ends| - 1 ==> !Answers(l.ends[i])) &&
      (!LoopAnswered(l) ==> |l.ends| == budget) &&
      (forall i :: 0 <= i < |l.ends| ==> !l.ends[i].AnsweredUnexpected?) &&
      CallsGrowBy(calls, l.calls, 12 * |l.ends|, |l.ends|) &&
      (LoopAnswered(l) ==> l.log != [] && l.log[|l.log| - 1] == Message("result", l.ends[|l.ends| - 1].answer))
    decreases maxAttempts - attempt
  {
    if attempt < maxAttempts {
      var a := pass(calls, attempt, log);
      if !Answers(a.end) {
        var rest := LoopWith(pass, a.calls, attempt + 1, maxAttempts, a.log);
        LoopWithFacts(pass, a.calls, attempt + 1, maxAttempts, a.log);
        CallsGrowTrans(calls, a.calls, rest.calls, 12, 1, 12 * |rest.ends|, |rest.ends|);
        var l := LoopWith(pass, calls, attempt, maxAttempts, log);
        assert l.ends == [a.end] + rest.ends;
        assert forall i :: 1 <= i < |l.ends| ==> l.ends[i] == rest.ends[i - 1];
        if LoopAnswered(l) {
          assert l.ends[|l.ends| - 1] == rest.ends[|rest.ends| - 1];
        }
      }
    }
  }

  lemma {:induction false} LoopWithNeverAnswers(pass: (Calls, nat, seq<Message>) -> Attempt, calls: Calls, attempt: nat,
                                                 maxAttempts: int, log: seq<Message>)
    requires forall c: Calls, k: nat, log': seq<Message> :: !Answers(pass(c, k, log').end)
    ensures !LoopAnswered(LoopWith(pass, calls, attempt, maxAttempts, log))
    decreases maxAttempts - attempt
  {
    if attempt < maxAttempts {
      var a := pass(calls, attempt, log);
      var rest := LoopWith(pass, a.calls, attempt + 1, maxAttempts, a.log);
      LoopWithNeverAnswers(pass, a.calls, attempt + 1, maxAttempts, a.log);
      if rest.ends != [] {
        assert LoopWith(pass, calls, attempt, maxAttempts, log).ends[|rest.ends|] == rest.ends[|rest.ends| - 1];
      }
    }
  }

  lemma RunWithFacts(pass: (Calls, nat, seq<Message>) -> Attempt, synthesis: Calls -> Step<string>,
                     calls: Calls, maxAttempts: int, log: seq<Message>)
    requires WellBehaved(pass)
    requires forall c: Calls :: CallsGrowBy(c, synthesis(c).calls, 1, 0)
    ensures var r := RunWith(pass, synthesis, calls, maxAttempts, log);
      var l := LoopWith(pass, calls, 0, maxAttempts, log);
      var budget := if maxAttempts < 0 then 0 else maxAttempts;
      |r.ends| <= budget &&
      (forall i :: 0 <= i < |r.ends| - 1 ==> !Answers(r.ends[i])) &&
      (forall i :: 0 <= i < |r.ends| ==> !r.ends[i].AnsweredUnexpected?) &&
      (LoopAnswered(l) ==> r.ends[|r.ends| - 1] == Answered(r.answer)) &&
      (!LoopAnswered(l) ==> |r.ends| == budget && r.answer == synthesis(l.calls).result) &&
      CallsGrowBy(calls, r.calls, 12 * budget + 1, budget) &&
      r.log != [] && r.log[|r.log| - 1] == Message("result", r.answer)
  {
    var l := LoopWith(pass, calls, 0, maxAttempts, log);
    LoopWithFacts(pass, calls, 0, maxAttempts, log);
    if !LoopAnswered(l) {
      CallsGrowTrans(calls, l.calls, synthesis(l.calls).calls, 12 * |l.ends|, |l.ends|, 1, 0);
    }
  }

  lemma SynthesisPassMakesOneCall(w: World, config: LlmConfig, userQuery: string)
    ensures forall c: Calls :: CallsGrowBy(c, SynthesisPass(w, config, userQuery)(c).calls, 1, 0)
  {
    forall c: Calls
      ensures CallsGrowBy(c, SynthesizeFinalAnswer(w, c, config, userQuery).calls, 1, 0)
    {
      SynthesizeFinalAnswerFacts(w, c, config, userQuery);
      AddsLlmCallsGrow(c, SynthesizeFinalAnswer(w, c, config, userQuery).calls, SynthesisCall(config, userQuery), 1, 1);
    }
  }

  /** `search_and_improve` runs at most `max_attempts` passes, with at most twelve model calls
      and one search each plus one synthesis call; every pass but the last retried; the answer is
      a pass's generated answer, and otherwise, after exactly `max_attempts` passes, the
      synthesized one; the last message sent is the answer. */
  lemma SearchAndImproveFacts(w: World, calls: Calls, config: LlmConfig, userQuery: string, maxAttempts: int, log: seq<Message>)
    ensures var r := RunSearch(w, calls, config, userQuery, maxAttempts, log);
      var l := Loop(w, calls, userQuery, 0, maxAttempts, log);
      var budget := if maxAttempts < 0 then 0 else maxAttempts;
      |r.ends| <= budget &&
      (forall i :: 0 <= i < |r.ends| - 1 ==> !Answers(r.ends[i])) &&
      (forall i :: 0 <= i < |r.ends| ==> !r.ends[i].AnsweredUnexpected?) &&
      (LoopAnswered(l) ==> r.ends[|r.ends| - 1] == Answered(r.answer)) &&
      (!LoopAnswered(l) ==> |r.ends| == budget && r.answer == SynthesizeFinalAnswer(w, l.calls, config, userQuery).result) &&
      CallsGrowBy(calls, r.calls, 12 * budget + 1, budget) &&
      r.log != [] && r.log[|r.log| - 1] == Message("result", r.answer)
  {
    AttemptPassIs(w, userQuery);
    RunSearchUnfolds(w, calls, config, userQuery, maxAttempts, log);
    SearchWithFacts(AttemptPass(w, userQuery), w, calls, config, userQuery, maxAttempts, log);
  }

  /** `RunSearch` and `Loop` are the general control flow applied to this controller's pass. */
  lemma RunSearchUnfolds(w: World, calls: Calls, config: LlmConfig, userQuery: string, maxAttempts: int, log: seq<Message>)
    ensures RunSearch(w, calls, config, userQuery, maxAttempts, log) ==
            RunWith(AttemptPass(w, userQuery), SynthesisPass(w, config, userQuery), calls, maxAttempts, log)
    ensures Loop(w, calls, userQuery, 0, maxAttempts, log) == LoopWith(AttemptPass(w, userQuery), calls, 0, maxAttempts, log)
  {
  }

  /** `SearchAndImproveFacts` for any function equal to the loop body. */
  lemma SearchWithFacts(pass: (Calls, nat, seq<Message>) -> Attempt, w: World, calls: Calls, config: LlmConfig,
                        userQuery: string, maxAttempts: int, log: seq<Message>)
    requires IsAttemptPass(pass, w, userQuery)
    ensures var r := RunWith(pass, SynthesisPass(w, config, userQuery), calls, maxAttempts, log);
      var l := LoopWith(pass, calls, 0, maxAttempts, log);
      var budget := if maxAttempts < 0 then 0 else maxAttempts;
      |r.ends| <= budget &&
      (forall i :: 0 <= i < |r.ends| - 1 ==> !Answers(r.ends[i])) &&
      (forall i :: 0 <= i < |r.ends| ==> !r.ends[i].AnsweredUnexpected?) &&
      (LoopAnswered(l) ==> r.ends[|r.ends| - 1] == Answered(r.answer)) &&
      (!LoopAnswered(l) ==> |r.ends| == budget && r.answer == SynthesizeFinalAnswer(w, l.calls, config, userQuery).result) &&
      CallsGrowBy(calls, r.calls, 12 * budget + 1, budget) &&
      r.log != [] && r.log[|r.log| - 1] == Message("result", r.answer)
  {
    var synthesis := SynthesisPass(w, config, userQuery);
    AttemptPassWellBehaved(pass, w, userQuery);
    SynthesisPassMakesOneCall(w, config, userQuery);
    RunWithFacts(pass, synthesis, calls, maxAttempts, log);
    var l := LoopWith(pass, calls, 0, maxAttempts, log);
    assert synthesis(l.calls) == SynthesizeFinalAnswer(w, l.calls, config, userQuery);
  }

  /** When no search ever finds anything, every pass retries and the answer is synthesized
      after exactly `max_attempts` passes. */
  lemma NoHitsMeansSynthesis(w: World, calls: Calls, config: LlmConfig, userQuery: string, maxAttempts: int, log: seq<Message>)
    requires forall i :: SearchReplyAt(w, i).SearchFailed? || SearchReplyAt(w, i).hits == []
    ensures var l := Loop(w, calls, userQuery, 0, maxAttempts, log);
      !LoopAnswered(l) && |l.ends| == (if maxAttempts < 0 then 0 else maxAttempts) &&
      RunSearch(w, calls, config, userQuery, maxAttempts, log).answer ==
        SynthesizeFinalAnswer(w, l.calls, config, userQuery).result
  {
    var pass := AttemptPass(w, userQuery);
    forall c: Calls, k: nat, log': seq<Message>
      ensures !Answers(pass(c, k, log').end)
    {
      RunAttemptFacts(w, c, userQuery, k, log');
    }
    LoopWithNeverAnswers(pass, calls, 0, maxAttempts, log);
    AttemptPassIs(w, userQuery);
    AttemptPassWellBehaved(pass, w, userQuery);
    LoopWithFacts(pass, calls, 0, maxAttempts, log);
  }

  // ------------------------------------------------------------ the controller object

  class EnhancedSelfImprovingSearch {
    const backend: Backend
    const config: LlmConfig
    const maxAttempts: int
    /** The messages handed to the message handler so far. */
    var sent: seq<Message>

    constructor(backend: Backend, config: LlmConfig, maxAttempts: int)
      ensures this.backend == backend && this.config == config && this.maxAttempts == maxAttempts
      ensures sent == []
    {
      this.backend := backend;
      this.config := config;
      this.maxAttempts := maxAttempts;
      sent := [];
    }

    method SendMessage(m: Message)
      modifies this
      ensures sent == old(sent) + [m]
    {
      sent := sent + [m];
    }

    method SendAll(ms: seq<Message>)
      modifies this
      ensures sent == old(sent) + ms
    {
      for i := 0 to |ms|
        invariant sent == old(sent) + ms[..i]
      {
        SendMessage(ms[i]);
        assert ms[..i + 1] == ms[..i] + [ms[i]];
      }
    }

    /** `formulate_query`; `attempt` only labels the call. */
    method FormulateQuery(userQuery: string, attempt: int) returns (r: Outcome<QueryPlan>)
      modifies backend
      ensures Step(r, backend.calls, []) == SearchSteps.FormulateQuery(backend.world, old(backend.calls), userQuery)
    {
      var retry := 0;
      assert MaxRetries - retry == MaxRetries;
      while retry < MaxRetries
        invariant 0 <= retry <= MaxRetries
        invariant SearchSteps.FormulateQuery(backend.world, old(backend.calls), userQuery) ==
                  FormulateTries(backend.world, backend.calls, userQuery, MaxRetries - retry)
      {
        ghost var before := backend.calls;
        var reply := backend.Generate(QueryCall(userQuery));
        if reply.Raised? {
          return Threw(reply.error);
        }
        FormulateTriesOnText(backend.world, before, userQuery, MaxRetries - retry, reply.text);
        var plan := ParseQueryResponse(reply.text);
        if plan.query != [] && plan.timeRange != [] {
          return Returned(plan);
        }
        retry := retry + 1;
      }
      return Returned(QueryPlan(FallbackQuery(userQuery), "none"));
    }

    /** `perform_search`: returns the results and the messages it sends. */
    method PerformSearch(query: string, timeRange: string) returns (results: seq<SearchResult>, msgs: seq<Message>)
      modifies backend
      ensures Step(results, backend.calls, msgs) == SearchSteps.PerformSearch(backend.world, old(backend.calls), query, timeRange)
    {
      if query == [] {
        return [], [];
      }
      var reply := backend.Search(SearchCallFor(query, timeRange));
      match reply
      case Hits(hits) =>
        results, msgs := Numbered(hits), [];
      case SearchFailed(e) =>
        results, msgs := [], [Error("Search error: " + e)];
    }

    /** The checks `select_relevant_pages` makes of one reply: it must parse, pass validation
        and leave at least one URL that robots.txt allows. The verdict decides how the rest of
        the loop goes: picked URLs end it, a rejection sends its warning and leaves one try fewer. */
    method JudgeReply(results: seq<SearchResult>, userQuery: string, reply: string,
                      ghost calls: Calls, ghost tries: nat, ghost warned: seq<Message>) returns (j: SelectionTry)
      requires tries > 0 && NextReply(backend.world, calls) == Text(reply)
      ensures var after := AfterLlm(calls, SelectionCall(results, userQuery));
        var r := SelectTries(backend.world, calls, results, userQuery, tries, warned);
        match j
        case Picked(urls) => r == Step(Returned(urls), after, warned)
        case AllDisallowed => r == SelectTries(backend.world, after, results, userQuery, tries - 1, warned + [Info(DisallowedWarning)])
        case InvalidSelection => r == SelectTries(backend.world, after, results, userQuery, tries - 1, warned + [Info(InvalidSelectionWarning)])
    {
      SelectTriesOnText(backend.world, calls, results, userQuery, tries, warned, reply);
      var parsed := ParsePageSelectionResponse(reply);
      if parsed.Some? && ValidatePageSelectionResponse(parsed.value, |results|) {
        var allowedUrls := AllowedUrls(backend.world, SelectedHrefs(results, parsed.value.selectedResults));
        if allowedUrls != [] {
          return Picked(allowedUrls);
        }
        return AllDisallowed;
      }
      return InvalidSelection;
    }

    /** `select_relevant_pages`: returns the URLs and the messages it sends. */
    method SelectRelevantPages(results: seq<SearchResult>, userQuery: string)
      returns (r: Outcome<seq<string>>, msgs: seq<Message>)
      modifies backend
      ensures Step(r, backend.calls, msgs) == SearchSteps.SelectRelevantPages(backend.world, old(backend.calls), results, userQuery)
    {
      msgs := [];
      var retry := 0;
      assert MaxRetries - retry == MaxRetries;
      while retry < MaxRetries
        invariant 0 <= retry <= MaxRetries
        invariant SearchSteps.SelectRelevantPages(backend.world, old(backend.calls), results, userQuery) ==
                  SelectTries(backend.world, backend.calls, results, userQuery, MaxRetries - retry, msgs)
      {
        ghost var before := backend.calls;
        var reply := backend.Generate(SelectionCall(results, userQuery));
        if reply.Raised? {
          return Threw(reply.error), msgs;
        }
        var judged := JudgeReply(results, userQuery, reply.text, before, MaxRetries - retry, msgs);
        match judged {
          case Picked(urls) =>
            return Returned(urls), msgs;
          case AllDisallowed =>
            msgs := msgs + [Info(DisallowedWarning)];
          case InvalidSelection =>
            msgs := msgs + [Info(InvalidSelectionWarning)];
        }
        retry := retry + 1;
      }
      msgs := msgs + [Info(SelectionFallbackWarning)];
      r := Returned(Take(AllowedUrls(backend.world, ResultHrefs(results)), 2));
    }

    /** `scrape_content`: fills the insertion-ordered page dictionary and the blocked list. */
    method ScrapeContent(urls: seq<string>) returns (pages: seq<Page>, msgs: seq<Message>)
      ensures Step(pages, backend.calls, msgs) == SearchSteps.ScrapeContent(backend.world, backend.calls, urls)
    {
      pages, msgs := [], [];
      var blocked: seq<string> := [];
      for i := 0 to |urls|
        invariant Scrape(pages, blocked, msgs) == ScrapeUrls(backend.world, urls[..i])
      {
        var url := urls[i];
        assert urls[..i + 1][..i] == urls[..i];
        if CanFetch(backend.world, url) {
          var content := WebContent(backend.world, url);
          if content.Some? {
            pages := Put(pages, url, content.value);
            msgs := msgs + [Info("Successfully scraped: " + url)];
          } else {
            msgs := msgs + [Error("Robots.txt disallows scraping of " + url)];
          }
        } else {
          blocked := blocked + [url];
          msgs := msgs + [Error("Warning: Robots.txt disallows scraping of " + url)];
        }
      }
      assert urls[..|urls|] == urls;
      msgs := msgs + [Info("Scraped content received for " + NatToString(|pages|) + " URLs")];
      if blocked != [] {
        msgs := msgs + [Error("Warning: " + NatToString(|blocked|) + " URL(s) were not scraped due to robots.txt restrictions.")];
      }
    }

    /** `display_scraped_content` */
    method DisplayScrapedContent(pages: seq<Page>)
      modifies this
      ensures sent == old(sent) + SearchSteps.DisplayScrapedContent(pages)
    {
      SendMessage(Info("\nScraped Content:"));
      for i := 0 to |pages|
        invariant sent == old(sent) + SearchSteps.DisplayScrapedContent(pages[..i])
      {
        assert pages[..i + 1][..i] == pages[..i];
        SendMessage(Info("URL: " + pages[i].url));
        SendMessage(Info("Content: " + Take(pages[i].content, DisplayedContentLength) + "...\n"));
      }
      assert pages[..|pages|] == pages;
    }

    /** `evaluate_scraped_content`: the model's exceptions are swallowed. */
    method EvaluateScrapedContent(userQuery: string, pages: seq<Page>) returns (e: Evaluation)
      modifies backend
      ensures Step(e, backend.calls, []) == SearchSteps.EvaluateScrapedContent(backend.world, old(backend.calls), userQuery, pages)
    {
      var retry := 0;
      assert MaxRetries - retry == MaxRetries;
      while retry < MaxRetries
        invariant 0 <= retry <= MaxRetries
        invariant SearchSteps.EvaluateScrapedContent(backend.world, old(backend.calls), userQuery, pages) ==
                  EvaluateTries(backend.world, backend.calls, userQuery, pages, MaxRetries - retry)
      {
        ghost var before := backend.calls;
        var reply := backend.Generate(EvaluationCall(userQuery, pages));
        if reply.Text? {
          EvaluateTriesOnText(backend.world, before, userQuery, pages, MaxRetries - retry, reply.text);
          var parsed := ParseEvaluationResponse(reply.text);
          if parsed.decision in Decisions {
            return parsed;
          }
        }
        retry := retry + 1;
      }
      return Evaluation(EvaluationFailed, "refine");
    }

    /** `generate_final_answer` */
    method GenerateFinalAnswer(userQuery: string, pages: seq<Page>) returns (r: Outcome<string>)
      modifies backend
      ensures Step(r, backend.calls, []) == SearchSteps.GenerateFinalAnswer(backend.world, old(backend.calls), userQuery, pages)
    {
      var retry := 0;
      assert MaxRetries - retry == MaxRetries;
      while retry < MaxRetries
        invariant 0 <= retry <= MaxRetries
        invariant SearchSteps.GenerateFinalAnswer(backend.world, old(backend.calls), userQuery, pages) ==
                  AnswerTries(backend.world, backend.calls, userQuery, pages, MaxRetries - retry)
      {
        var reply := backend.Generate(AnswerCall(userQuery, pages));
        if reply.Raised? {
          return Threw(reply.error);
        }
        if reply.text != [] {
          return Returned(reply.text);
        }
        retry := retry + 1;
      }
      return Returned(AnswerApology);
    }

    /** `synthesize_final_answer` */
    method SynthesizeFinalAnswer(userQuery: string) returns (answer: string)
      modifies backend
      ensures Step(answer, backend.calls, []) == SearchSteps.SynthesizeFinalAnswer(backend.world, old(backend.calls), config, userQuery)
    {
      var reply := backend.Generate(SynthesisCall(config, userQuery));
      if reply.Text? && reply.text != [] {
        return Strip(reply.text);
      }
      return SynthesisFallback;
    }

    /** The body of the loop of `search_and_improve`, with its `except` clause. */
    method SearchAttempt(userQuery: string, attempt: nat, ghost pass: (Calls, nat, seq<Message>) -> Attempt)
      returns (end: AttemptEnd)
      requires IsAttemptPass(pass, backend.world, userQuery)
      modifies this, backend
      ensures var a := pass(old(backend.calls), attempt, old(sent));
              end == a.end && backend.calls == a.calls && sent == a.log
    {
      assert pass(backend.calls, attempt, sent) == RunAttempt(backend.world, backend.calls, userQuery, attempt, sent);
      SendMessage(AttemptHeading(attempt));
      SendMessage(Info("📝 Searching..."));
      var formulated := FormulateQuery(userQuery, attempt);
      if formulated.Threw? {
        SendMessage(Error("An error occurred during search attempt: " + formulated.error));
        return Failed(formulated.error);
      }
      var plan := formulated.value;
      SendMessage(Info("Original query: " + userQuery));
      SendMessage(Info("Formulated query: " + plan.query));
      SendMessage(Info("Time range: " + plan.timeRange));
      if plan.query == [] {
        SendMessage(Error("Error: Empty search query. Retrying..."));
        return EmptyQuery;
      }
      var results, searchMsgs := PerformSearch(plan.query, plan.timeRange);
      SendAll(searchMsgs);
      if results == [] {
        SendMessage(Error("No results found. Retrying with a different query..."));
        return NoResults;
      }
      end := SelectAndScrape(userQuery, results);
    }

    /** The loop body from page selection on. */
    method SelectAndScrape(userQuery: string, results: seq<SearchResult>) returns (end: AttemptEnd)
      modifies this, backend
      ensures var a := SelectStage(backend.world, old(backend.calls), userQuery, results, old(sent));
              end == a.end && backend.calls == a.calls && sent == a.log
    {
      var selected, selectMsgs := SelectRelevantPages(results, userQuery);
      SendAll(selectMsgs);
      if selected.Threw? {
        SendMessage(Error("An error occurred during search attempt: " + selected.error));
        return Failed(selected.error);
      }
      var urls := selected.value;
      if urls == [] {
        SendMessage(Error("No relevant URLs found. Retrying..."));
        return NoUrls;
      }
      SendMessage(Info("⚙️ Scraping selected pages..."));
      var pages, scrapeMsgs := ScrapeContent(urls);
      SendAll(scrapeMsgs);
      if pages == [] {
        SendMessage(Error("Failed to scrape content. Retrying..."));
        return NothingScraped;
      }
      DisplayScrapedContent(pages);
      SendMessage(Info("🧠 Thinking..."));
      end := EvaluateAndAnswer(userQuery, pages);
    }

    /** The loop body from the evaluation on. */
    method EvaluateAndAnswer(userQuery: string, pages: seq<Page>) returns (end: AttemptEnd)
      modifies this, backend
      ensures var a := EvaluateStage(backend.world, old(backend.calls), userQuery, pages, old(sent));
              end == a.end && backend.calls == a.calls && sent == a.log
    {
      var evaluation := EvaluateScrapedContent(userQuery, pages);
      SendMessage(Info("Evaluation: " + evaluation.evaluation));
      SendMessage(DecisionReport(evaluation.decision));
      var unexpected := false;
      if evaluation.decision == "answer" {
      } else if evaluation.decision == "refine" {
        SendMessage(Info("Refining search..."));
        return Refined;
      } else {
        SendMessage(Info("Unexpected decision. Proceeding to answer."));
        unexpected := true;
      }
      var answer := GenerateFinalAnswer(userQuery, pages);
      if answer.Threw? {
        SendMessage(Error("An error occurred during search attempt: " + answer.error));
        return Failed(answer.error);
      }
      SendMessage(Message("result", answer.value));
      end := if unexpected then AnsweredUnexpected(answer.value) else Answered(answer.value);
    }

    /** The `while` loop of `search_and_improve`: `Some(answer)` when a pass returned from it. */
    method AttemptLoop(userQuery: string, ghost pass: (Calls, nat, seq<Message>) -> Attempt) returns (answered: Option<string>)
      requires IsAttemptPass(pass, backend.world, userQuery)
      modifies this, backend
      ensures var l := LoopWith(pass, old(backend.calls), 0, maxAttempts, old(sent));
              backend.calls == l.calls && sent == l.log && answered.Some? == LoopAnswered(l) &&
              (answered.Some? ==> answered.value == l.ends[|l.ends| - 1].answer)
    {
      ghost var whole := LoopWith(pass, old(backend.calls), 0, maxAttempts, old(sent));
      ghost var ends: seq<AttemptEnd> := [];
      var attempt: nat := 0;
      while attempt < maxAttempts
        invariant attempt == |ends|
        invariant forall i :: 0 <= i < |ends| ==> !Answers(ends[i])
        invariant var rest := LoopWith(pass, backend.calls, attempt, maxAttempts, sent);
                  whole == LoopEnd(ends + rest.ends, rest.calls, rest.log)
        decreases maxAttempts - attempt
      {
        ghost var rest := LoopWith(pass, backend.calls, attempt, maxAttempts, sent);
        var end := SearchAttempt(userQuery, attempt, pass);
        if Answers(end) {
          assert rest.ends == [end];
          return Some(end.answer);
        }
        assert ends + rest.ends == ends + [end] + LoopWith(pass, backend.calls, attempt + 1, maxAttempts, sent).ends;
        ends := ends + [end];
        attempt := attempt + 1;
      }
      assert whole.ends == ends;
      return None;
    }

    /** `search_and_improve` */
    method SearchAndImprove(userQuery: string) returns (answer: string)
      modifies this, backend
      ensures var r := RunSearch(backend.world, old(backend.calls), config, userQuery, maxAttempts, old(sent));
              answer == r.answer && backend.calls == r.calls && sent == r.log
    {
      AttemptPassIs(backend.world, userQuery);
      var answered := AttemptLoop(userQuery, AttemptPass(backend.world, userQuery));
      if answered.Some? {
        return answered.value;
      }
      answer := SynthesizeFinalAnswer(userQuery);
      SendMessage(Message("result", answer));
    }
  }
}
