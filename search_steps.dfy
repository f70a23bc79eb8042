/**
 * The steps of `EnhancedSelfImprovingSearch` (Self_Improving_Search.py) as functions of
 * the oracles' scripts (`World`) and of the calls made so far (`Calls`): each returns
 * what the step returns, the calls made by its end and the messages it sent. The retry
 * loops of `formulate_query`, `select_relevant_pages`, `evaluate_scraped_content` and
 * `generate_final_answer` become recursion on the tries left; the imperative methods in
 * module SelfImprovingSearch are proved equal to these functions.
 */
module SearchSteps {
  import opened Wrappers
  import opened Strings
  import opened ResponseParsing
  import opened Ports

  /** Every retry loop of the controller tries the model this many times. */
  const MaxRetries: nat := 3
  /** The question is cut to this many characters in the query, evaluation and answer prompts. */
  const PromptQuestionLength: nat := 200
  const QueryTokens: int := 50
  const SelectionTokens: int := 200
  const EvaluationTokens: int := 200
  const AnswerTokens: int := 1024
  const SearchMaxResults: nat := 10
  /** The pages shown by `display_scraped_content` are cut to this many characters. */
  const DisplayedContentLength: nat := 4000

  /** A `SearchMessage` without its timestamp and data payload. */
  datatype Message = Message(kind: string, text: string)

  function Info(text: string): Message { Message("info", text) }
  function Error(text: string): Message { Message("error", text) }

  /** What a step returns, the calls made by its end, and the messages it sent, in order. */
  datatype Step<T> = Step(result: T, calls: Calls, sent: seq<Message>)

  /** `n` copies of `call`. */
  function Repeat(call: LlmCall, n: nat): (r: seq<LlmCall>)
    ensures |r| == n && forall i :: 0 <= i < n ==> r[i] == call
  {
    if n == 0 then [] else [call] + Repeat(call, n - 1)
  }

  /** `after` is `before` with between `lo` and `hi` more calls of `call` to the model and no search. */
  predicate AddsLlmCalls(before: Calls, after: Calls, call: LlmCall, lo: nat, hi: nat) {
    after.search == before.search &&
    |before.llm| + lo <= |after.llm| <= |before.llm| + hi &&
    after.llm == before.llm + Repeat(call, |after.llm| - |before.llm|)
  }

  lemma AddsLlmCallsCons(before: Calls, after: Calls, call: LlmCall, lo: nat, hi: nat)
    requires AddsLlmCalls(AfterLlm(before, call), after, call, lo, hi)
    ensures AddsLlmCalls(before, after, call, lo + 1, hi + 1)
  {
    var n := |after.llm| - |before.llm|;
    assert Repeat(call, n) == [call] + Repeat(call, n - 1);
    assert after.llm == before.llm + [call] + Repeat(call, n - 1);
  }

  /** A single call is between one and `hi` calls, for any `hi` of at least one. */
  lemma AddsLlmCallsOne(before: Calls, call: LlmCall, hi: nat)
    requires hi > 0
    ensures AddsLlmCalls(before, AfterLlm(before, call), call, 1, hi)
  {
    assert Repeat(call, 1) == [call];
  }

  lemma AddsLlmCallsWeaken(before: Calls, after: Calls, call: LlmCall, lo: nat, hi: nat, lo': nat)
    requires AddsLlmCalls(before, after, call, lo, hi) && lo' <= lo
    ensures AddsLlmCalls(before, after, call, lo', hi)
  {
  }

  // ------------------------------------------------------------ formulate_query

  function QueryCall(userQuery: string): LlmCall {
    LlmCall(QueryPrompt(Take(userQuery, PromptQuestionLength)), QueryTokens, None)
  }

  /** A parsed plan the controller accepts: both the query and the time range are non-empty. */
  predicate UsablePlan(plan: QueryPlan) {
    plan.query != [] && plan.timeRange != []
  }

  /** The remaining `tries` of the loop of `formulate_query`: a raised reply ends it. */
  function FormulateTries(w: World, calls: Calls, userQuery: string, tries: nat): Step<Outcome<QueryPlan>>
    decreases tries, 1
  {
    if tries == 0 then Step(Returned(QueryPlan(FallbackQuery(userQuery), "none")), calls, [])
    else
      match NextReply(w, calls)
      case Raised(e) => Step(Threw(e), AfterLlm(calls, QueryCall(userQuery)), [])
      case Text(t) => FormulateTry(w, calls, userQuery, tries, t)
  }

  /** A reply to one try: a usable plan is returned, anything else leaves one try fewer. */
  function FormulateTry(w: World, calls: Calls, userQuery: string, tries: nat, reply: string): Step<Outcome<QueryPlan>>
    requires tries > 0
    decreases tries, 0
  {
    var after := AfterLlm(calls, QueryCall(userQuery));
    var plan := ParseQueryResponse(reply);
    if UsablePlan(plan) then Step(Returned(plan), after, [])
    else FormulateTries(w, after, userQuery, tries - 1)
  }

  /** `formulate_query`: up to three model calls; an exception from the model propagates. */
  function FormulateQuery(w: World, calls: Calls, userQuery: string): Step<Outcome<QueryPlan>> {
    FormulateTries(w, calls, userQuery, MaxRetries)
  }

  lemma {:induction false} FormulateTriesCalls(w: World, calls: Calls, userQuery: string, tries: nat)
    requires tries > 0
    ensures var r := FormulateTries(w, calls, userQuery, tries);
      AddsLlmCalls(calls, r.calls, QueryCall(userQuery), 1, tries) && r.sent == []
    decreases tries
  {
    var after := AfterLlm(calls, QueryCall(userQuery));
    var r := FormulateTries(w, calls, userQuery, tries);
    if NextReply(w, calls).Text? {
      var t := NextReply(w, calls).text;
      assert r == FormulateTry(w, calls, userQuery, tries, t);
      if !UsablePlan(ParseQueryResponse(t)) {
        assert r == FormulateTries(w, after, userQuery, tries - 1);
        if tries > 1 {
          FormulateTriesCalls(w, after, userQuery, tries - 1);
          AddsLlmCallsCons(calls, r.calls, QueryCall(userQuery), 1, tries - 1);
        } else {
          assert r.calls == after;
        }
      }
    }
  }

  /** A try whose reply is text returns a usable parse or leaves one try fewer. */
  lemma FormulateTriesOnText(w: World, calls: Calls, userQuery: string, tries: nat, t: string)
    requires tries > 0 && NextReply(w, calls) == Text(t)
    ensures var plan := ParseQueryResponse(t);
      var after := AfterLlm(calls, QueryCall(userQuery));
      FormulateTries(w, calls, userQuery, tries) ==
        if UsablePlan(plan) then Step(Returned(plan), after, []) else FormulateTries(w, after, userQuery, tries - 1)
  {
    assert FormulateTries(w, calls, userQuery, tries) == FormulateTry(w, calls, userQuery, tries, t);
  }

  lemma {:induction false} FormulateTriesResult(w: World, calls: Calls, userQuery: string, tries: nat)
    requires tries > 0
    ensures var r := FormulateTries(w, calls, userQuery, tries);
      (r.result.Returned? ==> (r.result.value.timeRange in TimeRanges &&
         (UsablePlan(r.result.value) || r.result.value == QueryPlan(FallbackQuery(userQuery), "none"))))
    decreases tries
  {
    var after := AfterLlm(calls, QueryCall(userQuery));
    var r := FormulateTries(w, calls, userQuery, tries);
    match NextReply(w, calls)
    case Raised(e) =>
      assert r == Step(Threw(e), after, []);
    case Text(t) =>
      var plan := ParseQueryResponse(t);
      assert r == FormulateTry(w, calls, userQuery, tries, t);
      if UsablePlan(plan) {
        assert r.result == Returned(plan);
      } else if tries > 1 {
        assert r == FormulateTries(w, after, userQuery, tries - 1);
        FormulateTriesResult(w, after, userQuery, tries - 1);
      } else {
        assert r == FormulateTries(w, after, userQuery, 0);
      }
  }

  /** `formulate_query` makes one to three model calls and sends nothing; a returned plan has a known window and is either the first usable parse or
      the fallback built from the question's first five words. */
  lemma FormulateQueryFacts(w: World, calls: Calls, userQuery: string)
    ensures var r := FormulateQuery(w, calls, userQuery);
      AddsLlmCalls(calls, r.calls, QueryCall(userQuery), 1, MaxRetries) && r.sent == [] &&
      (r.result.Returned? ==> (r.result.value.timeRange in TimeRanges &&
         (UsablePlan(r.result.value) || r.result.value == QueryPlan(FallbackQuery(userQuery), "none"))))
  {
    FormulateTriesCalls(w, calls, userQuery, MaxRetries);
    FormulateTriesResult(w, calls, userQuery, MaxRetries);
  }

  /** The formulated query is empty only when the user's question is blank. */
  lemma FormulatedQueryEmptyOnlyForBlankQuestion(w: World, calls: Calls, userQuery: string)
    requires FormulateQuery(w, calls, userQuery).result.Returned?
    requires FormulateQuery(w, calls, userQuery).result.value.query == []
    ensures IsBlank(userQuery)
  {
    FormulateQueryFacts(w, calls, userQuery);
  }

  /** Three replies with no usable query line lead to the fallback after exactly three calls. */
  lemma FormulateQueryFallsBack(w: World, calls: Calls, userQuery: string)
    requires forall i :: |calls.llm| <= i < |calls.llm| + MaxRetries ==>
      ReplyAt(w, i).Text? && !UsablePlan(ParseQueryResponse(ReplyAt(w, i).text))
    ensures FormulateQuery(w, calls, userQuery).result == Returned(QueryPlan(FallbackQuery(userQuery), "none"))
    ensures |FormulateQuery(w, calls, userQuery).calls.llm| == |calls.llm| + MaxRetries
  {
    var c1 := AfterLlm(calls, QueryCall(userQuery));
    var c2 := AfterLlm(c1, QueryCall(userQuery));
    assert NextReply(w, calls).Text? && NextReply(w, c1).Text? && NextReply(w, c2).Text?;
    assert FormulateQuery(w, calls, userQuery) == FormulateTries(w, c1, userQuery, 2);
    assert FormulateTries(w, c1, userQuery, 2) == FormulateTries(w, c2, userQuery, 1);
  }

  // ------------------------------------------------------------ perform_search

  /** `timelimit` is passed only for a window other than "" and "none". */
  function SearchCallFor(query: string, timeRange: string): SearchCall {
    SearchCall(query, if timeRange != [] && timeRange != "none" then Some(timeRange) else None, SearchMaxResults)
  }

  /** Each search hit tagged with its 1-based position. */
  function Numbered(hits: seq<Hit>): seq<SearchResult> {
    seq(|hits|, i requires 0 <= i < |hits| => SearchResult(i + 1, hits[i].title, hits[i].body, hits[i].href))
  }

  /** `perform_search`: no search for an empty query; a failed search reports the error and
      yields no results. */
  function PerformSearch(w: World, calls: Calls, query: string, timeRange: string): Step<seq<SearchResult>> {
    if query == [] then Step([], calls, [])
    else
      var after := AfterSearch(calls, SearchCallFor(query, timeRange));
      match NextSearchReply(w, calls)
      case Hits(hits) => Step(Numbered(hits), after, [])
      case SearchFailed(e) => Step([], after, [Error("Search error: " + e)])
  }

  /** Results are the hits of one search, ranked 1, 2, …; an empty query searches nothing. */
  lemma PerformSearchFacts(w: World, calls: Calls, query: string, timeRange: string)
    ensures var r := PerformSearch(w, calls, query, timeRange);
      r.calls.llm == calls.llm &&
      (query == [] ==> r == Step([], calls, [])) &&
      (query != [] ==> r.calls.search == calls.search + [SearchCallFor(query, timeRange)]) &&
      (forall i :: 0 <= i < |r.result| ==> r.result[i].number == i + 1) &&
      (query != [] && NextSearchReply(w, calls).Hits? ==>
         |r.result| == |NextSearchReply(w, calls).hits| &&
         forall i :: 0 <= i < |r.result| ==> r.result[i].href == NextSearchReply(w, calls).hits[i].href) &&
      (r.sent != [] ==> r.result == [] && NextSearchReply(w, calls).SearchFailed?)
  {
  }

  // ------------------------------------------------------------ select_relevant_pages

  const DisallowedWarning: string := "Warning: All selected URLs are disallowed by robots.txt. Retrying selection."
  const InvalidSelectionWarning: string := "Warning: Invalid page selection. Retrying."
  const SelectionFallbackWarning: string :=
    "Warning: All attempts to select relevant pages failed. Falling back to top allowed results."

  function SelectionCall(results: seq<SearchResult>, userQuery: string): LlmCall {
    LlmCall(SelectionPrompt(userQuery, FormatResults(results)), SelectionTokens, None)
  }

  function ResultHrefs(results: seq<SearchResult>): seq<string>
    decreases |results|
  {
    if results == [] then [] else [results[0].href] + ResultHrefs(results[1..])
  }

  /** The links of the results whose numbers were selected, in result order. */
  function SelectedHrefs(results: seq<SearchResult>, numbers: seq<nat>): seq<string>
    decreases |results|
  {
    if results == [] then []
    else if results[0].number in numbers then [results[0].href] + SelectedHrefs(results[1..], numbers)
    else SelectedHrefs(results[1..], numbers)
  }

  /** The URLs robots.txt lets the fetcher read, in order. */
  function AllowedUrls(w: World, urls: seq<string>): seq<string>
    decreases |urls|
  {
    if urls == [] then []
    else if CanFetch(w, urls[0]) then [urls[0]] + AllowedUrls(w, urls[1..])
    else AllowedUrls(w, urls[1..])
  }

  /** How one reply to the selection prompt is judged. */
  datatype SelectionTry = Picked(urls: seq<string>) | AllDisallowed | InvalidSelection

  /** A valid selection keeps the fetchable URLs of the chosen results; none left means retry. */
  function JudgeSelection(w: World, results: seq<SearchResult>, reply: string): SelectionTry {
    var parsed := ParsePageSelectionResponse(reply);
    if parsed.Some? && ValidatePageSelectionResponse(parsed.value, |results|) then
      var urls := AllowedUrls(w, SelectedHrefs(results, parsed.value.selectedResults));
      if urls != [] then Picked(urls) else AllDisallowed
    else InvalidSelection
  }

  /** The remaining `tries` of the selection loop; `warned` holds the warnings sent so far. */
  function SelectTries(w: World, calls: Calls, results: seq<SearchResult>, userQuery: string, tries: nat,
                       warned: seq<Message>): Step<Outcome<seq<string>>>
    decreases tries, 2
  {
    if tries == 0 then
      Step(Returned(Take(AllowedUrls(w, ResultHrefs(results)), 2)), calls, warned + [Info(SelectionFallbackWarning)])
    else SelectCall(w, calls, results, userQuery, tries, warned)
  }

  /** One call to the model: an exception ends the loop, a reply is judged. */
  function SelectCall(w: World, calls: Calls, results: seq<SearchResult>, userQuery: string, tries: nat,
                      warned: seq<Message>): Step<Outcome<seq<string>>>
    requires tries > 0
    decreases tries, 1
  {
    match NextReply(w, calls)
    case Raised(e) => Step(Threw(e), AfterLlm(calls, SelectionCall(results, userQuery)), warned)
    case Text(t) => SelectTry(w, calls, results, userQuery, tries, warned, t)
  }

  /** A reply to one try: picked URLs are returned; a rejected reply sends its warning and
      leaves one try fewer. */
  function SelectTry(w: World, calls: Calls, results: seq<SearchResult>, userQuery: string, tries: nat,
                     warned: seq<Message>, reply: string): Step<Outcome<seq<string>>>
    requires tries > 0
    decreases tries, 0
  {
    var after := AfterLlm(calls, SelectionCall(results, userQuery));
    match JudgeSelection(w, results, reply)
    case Picked(urls) => Step(Returned(urls), after, warned)
    case AllDisallowed => SelectTries(w, after, results, userQuery, tries - 1, warned + [Info(DisallowedWarning)])
    case InvalidSelection => SelectTries(w, after, results, userQuery, tries - 1, warned + [Info(InvalidSelectionWarning)])
  }

  /** A try whose reply is text returns the fetchable picks of a valid selection, or leaves one
      try fewer with the matching warning sent. */
  lemma SelectTriesOnText(w: World, calls: Calls, results: seq<SearchResult>, userQuery: string, tries: nat,
                          warned: seq<Message>, t: string)
    requires tries > 0 && NextReply(w, calls) == Text(t)
    ensures var after := AfterLlm(calls, SelectionCall(results, userQuery));
      var judged := JudgeSelection(w, results, t);
      var r := SelectTries(w, calls, results, userQuery, tries, warned);
      if judged.Picked? then r == Step(Returned(judged.urls), after, warned)
      else r == SelectTries(w, after, results, userQuery, tries - 1,
                            warned + [Info(if judged.AllDisallowed? then DisallowedWarning else InvalidSelectionWarning)])
  {
    assert SelectTries(w, calls, results, userQuery, tries, warned) == SelectCall(w, calls, results, userQuery, tries, warned);
    assert SelectCall(w, calls, results, userQuery, tries, warned) == SelectTry(w, calls, results, userQuery, tries, warned, t);
  }

  /** `select_relevant_pages`: up to three model calls, then the first two fetchable results. */
  function SelectRelevantPages(w: World, calls: Calls, results: seq<SearchResult>, userQuery: string)
    : Step<Outcome<seq<string>>>
  {
    SelectTries(w, calls, results, userQuery, MaxRetries, [])
  }

  /** `xs` can be obtained from `ys` by deleting elements: its elements come in `ys`'s order. */
  predicate IsSubsequence<T(==)>(xs: seq<T>, ys: seq<T>)
    decreases |ys|
  {
    xs == [] ||
    (ys != [] && ((xs[0] == ys[0] && IsSubsequence(xs[1..], ys[1..])) || IsSubsequence(xs, ys[1..])))
  }

  lemma {:induction false} SubsequencePrefix<T>(xs: seq<T>, ys: seq<T>, n: nat)
    requires IsSubsequence(xs, ys) && n <= |xs|
    ensures IsSubsequence(xs[..n], ys)
    decreases |ys|
  {
    if n > 0 {
      if xs[0] == ys[0] && IsSubsequence(xs[1..], ys[1..]) {
        SubsequencePrefix(xs[1..], ys[1..], n - 1);
        assert xs[..n][1..] == xs[1..][..n - 1];
      } else {
        SubsequencePrefix(xs, ys[1..], n);
      }
    }
  }

  lemma {:induction false} AllowedUrlsFacts(w: World, urls: seq<string>)
    ensures IsSubsequence(AllowedUrls(w, urls), urls)
    ensures forall k :: 0 <= k < |AllowedUrls(w, urls)| ==> CanFetch(w, AllowedUrls(w, urls)[k])
    ensures AllowedUrls(w, urls) == [] <==> forall k :: 0 <= k < |urls| ==> !CanFetch(w, urls[k])
    ensures |AllowedUrls(w, urls)| <= |urls|
    decreases |urls|
  {
    if urls != [] {
      AllowedUrlsFacts(w, urls[1..]);
      if !CanFetch(w, urls[0]) {
        assert forall k :: 1 <= k < |urls| ==> urls[k] == urls[1..][k - 1];
      }
    }
  }

  /** The URLs a validated selection picks, filtered by `can_fetch`, keep the results' order. */
  lemma {:induction false} AllowedSelectedFacts(w: World, results: seq<SearchResult>, numbers: seq<nat>)
    ensures IsSubsequence(AllowedUrls(w, SelectedHrefs(results, numbers)), ResultHrefs(results))
    ensures (forall k :: 0 <= k < |results| ==> !CanFetch(w, results[k].href)) ==>
            AllowedUrls(w, SelectedHrefs(results, numbers)) == []
    decreases |results|
  {
    if results != [] {
      AllowedSelectedFacts(w, results[1..], numbers);
      assert forall k :: 1 <= k < |results| ==> results[k] == results[1..][k - 1];
    }
  }

  lemma {:induction false} ResultHrefsFacts(results: seq<SearchResult>)
    ensures |ResultHrefs(results)| == |results|
    ensures forall k :: 0 <= k < |results| ==> ResultHrefs(results)[k] == results[k].href
    decreases |results|
  {
    if results != [] {
      ResultHrefsFacts(results[1..]);
    }
  }

  /** How many of `numbers` are at least `lo`. */
  function CountAtLeast(numbers: seq<nat>, lo: nat): nat
    decreases |numbers|
  {
    if numbers == [] then 0 else (if numbers[0] >= lo then 1 else 0) + CountAtLeast(numbers[1..], lo)
  }

  lemma {:induction false} CountAtLeastStep(numbers: seq<nat>, lo: nat)
    ensures CountAtLeast(numbers, lo + 1) <= CountAtLeast(numbers, lo)
    ensures lo in numbers ==> CountAtLeast(numbers, lo + 1) + 1 <= CountAtLeast(numbers, lo)
    ensures CountAtLeast(numbers, lo) <= |numbers|
    decreases |numbers|
  {
    if numbers != [] {
      CountAtLeastStep(numbers[1..], lo);
      if lo in numbers && numbers[0] != lo {
        assert lo in numbers[1..];
      }
    }
  }

  /** Results ranked `lo`, `lo + 1`, … match at most as many entries of `numbers` as are at least `lo`. */
  lemma {:induction false} SelectedCount(results: seq<SearchResult>, numbers: seq<nat>, lo: nat)
    requires forall k :: 0 <= k < |results| ==> results[k].number == lo + k
    ensures |SelectedHrefs(results, numbers)| <= CountAtLeast(numbers, lo)
    decreases |results|
  {
    CountAtLeastStep(numbers, lo);
    if results != [] {
      assert forall k :: 0 <= k < |results| - 1 ==> results[1..][k].number == (lo + 1) + k;
      SelectedCount(results[1..], numbers, lo + 1);
    }
  }

  lemma {:induction false} SelectTriesCalls(w: World, calls: Calls, results: seq<SearchResult>, userQuery: string, tries: nat,
                                            warned: seq<Message>)
    ensures var r := SelectTries(w, calls, results, userQuery, tries, warned);
      AddsLlmCalls(calls, r.calls, SelectionCall(results, userQuery), if tries == 0 then 0 else 1, tries)
    decreases tries
  {
    if tries > 0 {
      var retried, more := SelectTriesShape(w, calls, results, userQuery, tries, warned);
      if retried {
        SelectTriesCalls(w, AfterLlm(calls, SelectionCall(results, userQuery)), results, userQuery, tries - 1, more);
        SelectRetryCalls(w, calls, results, userQuery, tries, warned, more);
      } else {
        AddsLlmCallsOne(calls, SelectionCall(results, userQuery), tries);
      }
    }
  }

  /** One try either ends the loop after its call or leads to the next try with more warnings. */
  lemma SelectTriesShape(w: World, calls: Calls, results: seq<SearchResult>, userQuery: string, tries: nat,
                         warned: seq<Message>) returns (retried: bool, more: seq<Message>)
    requires tries > 0
    ensures var after := AfterLlm(calls, SelectionCall(results, userQuery));
      var r := SelectTries(w, calls, results, userQuery, tries, warned);
      if retried then r == SelectTries(w, after, results, userQuery, tries - 1, more)
      else r.calls == after
  {
    var r := SelectTries(w, calls, results, userQuery, tries, warned);
    assert r == SelectCall(w, calls, results, userQuery, tries, warned);
    retried, more := false, warned;
    if NextReply(w, calls).Text? {
      var t := NextReply(w, calls).text;
      assert r == SelectTry(w, calls, results, userQuery, tries, warned, t);
      var judged := JudgeSelection(w, results, t);
      if !judged.Picked? {
        retried := true;
        more := warned + [Info(if judged.AllDisallowed? then DisallowedWarning else InvalidSelectionWarning)];
      }
    }
  }

  /** A try that leads to the next one adds its call to those of the remaining tries. */
  lemma SelectRetryCalls(w: World, calls: Calls, results: seq<SearchResult>, userQuery: string, tries: nat,
                         warned: seq<Message>, more: seq<Message>)
    requires tries > 0
    requires var call := SelectionCall(results, userQuery);
      var rest := SelectTries(w, AfterLlm(calls, call), results, userQuery, tries - 1, more);
      SelectTries(w, calls, results, userQuery, tries, warned) == rest &&
      AddsLlmCalls(AfterLlm(calls, call), rest.calls, call, if tries - 1 == 0 then 0 else 1, tries - 1)
    ensures var r := SelectTries(w, calls, results, userQuery, tries, warned);
      AddsLlmCalls(calls, r.calls, SelectionCall(results, userQuery), 1, tries)
  {
    var call := SelectionCall(results, userQuery);
    var rest := SelectTries(w, AfterLlm(calls, call), results, userQuery, tries - 1, more);
    AddsLlmCallsWeaken(AfterLlm(calls, call), rest.calls, call, if tries - 1 == 0 then 0 else 1, tries - 1, 0);
    AddsLlmCallsCons(calls, rest.calls, call, 0, tries - 1);
  }

  /** The URLs returned by one try, or by the fallback, have all the promised properties. */
  predicate GoodSelection(w: World, results: seq<SearchResult>, urls: seq<string>) {
    (forall k :: 0 <= k < |urls| ==> CanFetch(w, urls[k])) &&
    IsSubsequence(urls, ResultHrefs(results)) &&
    (urls == [] <==> forall k :: 0 <= k < |results| ==> !CanFetch(w, results[k].href)) &&
    ((forall k :: 0 <= k < |results| ==> results[k].number == k + 1) ==> |urls| <= 2)
  }

  lemma SelectionFallbackIsGood(w: World, results: seq<SearchResult>)
    ensures GoodSelection(w, results, Take(AllowedUrls(w, ResultHrefs(results)), 2))
  {
    var hrefs := ResultHrefs(results);
    ResultHrefsFacts(results);
    var all := AllowedUrls(w, hrefs);
    AllowedUrlsFacts(w, hrefs);
    SubsequencePrefix(all, hrefs, |Take(all, 2)|);
    assert (forall k :: 0 <= k < |hrefs| ==> !CanFetch(w, hrefs[k])) <==>
           (forall k :: 0 <= k < |results| ==> !CanFetch(w, results[k].href));
  }

  lemma PickedSelectionIsGood(w: World, results: seq<SearchResult>, reply: string)
    requires JudgeSelection(w, results, reply).Picked?
    ensures GoodSelection(w, results, JudgeSelection(w, results, reply).urls)
  {
    var numbers := ParsePageSelectionResponse(reply).value.selectedResults;
    AllowedUrlsFacts(w, SelectedHrefs(results, numbers));
    AllowedSelectedFacts(w, results, numbers);
    if forall k :: 0 <= k < |results| ==> results[k].number == k + 1 {
      SelectedCount(results, numbers, 1);
      CountAtLeastStep(numbers, 1);
    }
  }

  lemma {:induction false} SelectTriesResult(w: World, calls: Calls, results: seq<SearchResult>, userQuery: string, tries: nat,
                                             warned: seq<Message>)
    ensures var r := SelectTries(w, calls, results, userQuery, tries, warned);
      r.result.Returned? ==> GoodSelection(w, results, r.result.value)
    decreases tries
  {
    if tries == 0 {
      SelectionFallbackIsGood(w, results);
    } else if NextReply(w, calls).Text? {
      var t := NextReply(w, calls).text;
      if JudgeSelection(w, results, t).Picked? {
        SelectTriesPicked(w, calls, results, userQuery, tries, warned, t);
      } else {
        var after := AfterLlm(calls, SelectionCall(results, userQuery));
        var warned' := warned + [Info(if JudgeSelection(w, results, t).AllDisallowed? then DisallowedWarning else InvalidSelectionWarning)];
        SelectTriesOnText(w, calls, results, userQuery, tries, warned, t);
        SelectTriesResult(w, after, results, userQuery, tries - 1, warned');
      }
    }
  }

  lemma SelectTriesPicked(w: World, calls: Calls, results: seq<SearchResult>, userQuery: string, tries: nat,
                          warned: seq<Message>, t: string)
    requires tries > 0 && NextReply(w, calls) == Text(t) && JudgeSelection(w, results, t).Picked?
    ensures var r := SelectTries(w, calls, results, userQuery, tries, warned);
      r.result.Returned? && GoodSelection(w, results, r.result.value)
  {
    SelectTriesOnText(w, calls, results, userQuery, tries, warned, t);
    PickedSelectionIsGood(w, results, t);
  }

  /** `select_relevant_pages` makes one to three model calls; every URL it returns passes
      `can_fetch`; the URLs keep the results' order; with results ranked 1..n at most two come
      back; and it returns none only when no result can be fetched at all. */
  lemma SelectRelevantPagesFacts(w: World, calls: Calls, results: seq<SearchResult>, userQuery: string)
    ensures var r := SelectRelevantPages(w, calls, results, userQuery);
      AddsLlmCalls(calls, r.calls, SelectionCall(results, userQuery), 1, MaxRetries) &&
      (r.result.Returned? ==> GoodSelection(w, results, r.result.value))
  {
    SelectTriesCalls(w, calls, results, userQuery, MaxRetries, []);
    SelectTriesResult(w, calls, results, userQuery, MaxRetries, []);
  }

  // ------------------------------------------------------------ scrape_content

  /** The position of `url` in an insertion-ordered dictionary of pages, if present. */
  function Lookup(pages: seq<Page>, url: string): Option<string>
    decreases |pages|
  {
    if pages == [] then None
    else if pages[0].url == url then Some(pages[0].content)
    else Lookup(pages[1..], url)
  }

  predicate DistinctUrls(pages: seq<Page>) {
    forall i, j :: 0 <= i < j < |pages| ==> pages[i].url != pages[j].url
  }

  /** `d[url] = content` on an insertion-ordered dictionary: replaces in place, else appends. */
  function Put(pages: seq<Page>, url: string, content: string): (r: seq<Page>)
    ensures Lookup(r, url) == Some(content)
    ensures forall u :: u != url ==> Lookup(r, u) == Lookup(pages, u)
    ensures DistinctUrls(pages) ==> DistinctUrls(r)
    ensures r != []
    decreases |pages|
  {
    if pages == [] then [Page(url, content)]
    else if pages[0].url == url then [Page(url, content)] + pages[1..]
    else
      var rest := Put(pages[1..], url, content);
      assert DistinctUrls(pages) ==> forall j :: 0 <= j < |rest| ==> pages[0].url != rest[j].url by {
        if DistinctUrls(pages) {
          forall j | 0 <= j < |rest| ensures pages[0].url != rest[j].url {
            LookupPresent(rest, rest[j].url, j);
            if rest[j].url != url {
              LookupFound(pages[1..], rest[j].url);
            }
          }
        }
      }
      [pages[0]] + rest
  }

  lemma {:induction false} LookupPresent(pages: seq<Page>, url: string, j: nat)
    requires j < |pages| && pages[j].url == url
    ensures Lookup(pages, url).Some?
    decreases |pages|
  {
    if pages[0].url != url {
      LookupPresent(pages[1..], url, j - 1);
    }
  }

  lemma {:induction false} LookupFound(pages: seq<Page>, url: string)
    requires Lookup(pages, url).Some?
    ensures exists j :: 0 <= j < |pages| && pages[j].url == url
    decreases |pages|
  {
    if pages[0].url != url {
      LookupFound(pages[1..], url);
      var j :| 0 <= j < |pages[1..]| && pages[1..][j].url == url;
      assert pages[j + 1].url == url;
    }
  }

  datatype Scrape = Scrape(pages: seq<Page>, blocked: seq<string>, sent: seq<Message>)

  /** One turn of the loop of `scrape_content`. A page the fetcher cannot read is reported with
      the same robots.txt wording as a blocked one. */
  function ScrapeUrl(w: World, s: Scrape, url: string): Scrape {
    if CanFetch(w, url) then
      match WebContent(w, url)
      case Some(content) => s.(pages := Put(s.pages, url, content), sent := s.sent + [Info("Successfully scraped: " + url)])
      case None => s.(sent := s.sent + [Error("Robots.txt disallows scraping of " + url)])
    else
      s.(blocked := s.blocked + [url], sent := s.sent + [Error("Warning: Robots.txt disallows scraping of " + url)])
  }

  /** The loop of `scrape_content` over `urls`, in order. */
  function ScrapeUrls(w: World, urls: seq<string>): Scrape
    decreases |urls|
  {
    if urls == [] then Scrape([], [], [])
    else ScrapeUrl(w, ScrapeUrls(w, urls[..|urls| - 1]), urls[|urls| - 1])
  }

  /** The report `scrape_content` sends after its loop. */
  function ScrapeSummary(s: Scrape): seq<Message> {
    [Info("Scraped content received for " + NatToString(|s.pages|) + " URLs")] +
    (if s.blocked != [] then
       [Error("Warning: " + NatToString(|s.blocked|) + " URL(s) were not scraped due to robots.txt restrictions.")]
     else [])
  }

  /** `scrape_content`: no model or search call. */
  function ScrapeContent(w: World, calls: Calls, urls: seq<string>): Step<seq<Page>> {
    var s := ScrapeUrls(w, urls);
    Step(s.pages, calls, s.sent + ScrapeSummary(s))
  }

  lemma {:induction false} ScrapeUrlsFacts(w: World, urls: seq<string>)
    ensures var s := ScrapeUrls(w, urls);
      DistinctUrls(s.pages) &&
      (forall u :: Lookup(s.pages, u) == if u in urls && CanFetch(w, u) then WebContent(w, u) else None) &&
      (forall k :: 0 <= k < |s.blocked| ==> !CanFetch(w, s.blocked[k]))
    decreases |urls|
  {
    if urls != [] {
      var init := urls[..|urls| - 1];
      ScrapeUrlsFacts(w, init);
      assert forall u :: u in urls <==> u in init || u == urls[|urls| - 1] by {
        assert urls == init + [urls[|urls| - 1]];
      }
    }
  }

  /** The scraped dictionary holds, once each, exactly the requested URLs that are fetchable and
      have content, each with its page text; it is empty exactly when no requested URL qualifies. */
  lemma ScrapeContentFacts(w: World, calls: Calls, urls: seq<string>)
    ensures var r := ScrapeContent(w, calls, urls);
      r.calls == calls && DistinctUrls(r.result) &&
      (forall u :: Lookup(r.result, u) == if u in urls && CanFetch(w, u) then WebContent(w, u) else None) &&
      (r.result == [] <==> forall u :: u in urls ==> !CanFetch(w, u) || WebContent(w, u).None?)
  {
    ScrapeUrlsFacts(w, urls);
    var pages := ScrapeUrls(w, urls).pages;
    if pages != [] {
      var u := pages[0].url;
      LookupPresent(pages, u, 0);
    } else {
      forall u | u in urls && CanFetch(w, u) ensures WebContent(w, u).None? {
        assert Lookup(pages, u) == None;
      }
    }
  }

  /** `display_scraped_content`: a heading, then each page's URL and its first 4000 characters. */
  function DisplayScrapedContent(pages: seq<Page>): seq<Message>
    decreases |pages|
  {
    if pages == [] then [Info("\nScraped Content:")]
    else
      DisplayScrapedContent(pages[..|pages| - 1]) +
      [Info("URL: " + pages[|pages| - 1].url),
       Info("Content: " + Take(pages[|pages| - 1].content, DisplayedContentLength) + "...\n")]
  }

  // ------------------------------------------------------------ evaluate_scraped_content

  const EvaluationFailed: string := "Failed to evaluate content."
  const Decisions: seq<string> := ["answer", "refine"]

  function EvaluationCall(userQuery: string, pages: seq<Page>): LlmCall {
    LlmCall(EvaluationPrompt(Take(userQuery, PromptQuestionLength), FormatScrapedContent(pages)), EvaluationTokens, None)
  }

  /** The remaining `tries` of the loop of `evaluate_scraped_content`: a raised reply leaves one
      try fewer. */
  function EvaluateTries(w: World, calls: Calls, userQuery: string, pages: seq<Page>, tries: nat): Step<Evaluation>
    decreases tries, 1
  {
    if tries == 0 then Step(Evaluation(EvaluationFailed, "refine"), calls, [])
    else
      match NextReply(w, calls)
      case Raised(_) => EvaluateTries(w, AfterLlm(calls, EvaluationCall(userQuery, pages)), userQuery, pages, tries - 1)
      case Text(t) => EvaluateTry(w, calls, userQuery, pages, tries, t)
  }

  /** A reply to one try: one naming a known decision is returned, any other leaves one try fewer. */
  function EvaluateTry(w: World, calls: Calls, userQuery: string, pages: seq<Page>, tries: nat, reply: string): Step<Evaluation>
    requires tries > 0
    decreases tries, 0
  {
    var after := AfterLlm(calls, EvaluationCall(userQuery, pages));
    var e := ParseEvaluationResponse(reply);
    if e.decision in Decisions then Step(e, after, [])
    else EvaluateTries(w, after, userQuery, pages, tries - 1)
  }

  /** A try whose reply is text returns its parse when that names a known decision, and
      otherwise leaves one try fewer. */
  lemma EvaluateTriesOnText(w: World, calls: Calls, userQuery: string, pages: seq<Page>, tries: nat, t: string)
    requires tries > 0 && NextReply(w, calls) == Text(t)
    ensures var after := AfterLlm(calls, EvaluationCall(userQuery, pages));
      var e := ParseEvaluationResponse(t);
      EvaluateTries(w, calls, userQuery, pages, tries) ==
        if e.decision in Decisions then Step(e, after, []) else EvaluateTries(w, after, userQuery, pages, tries - 1)
  {
    assert EvaluateTries(w, calls, userQuery, pages, tries) == EvaluateTry(w, calls, userQuery, pages, tries, t);
  }

  /** `evaluate_scraped_content`: up to three model calls whose exceptions are swallowed. */
  function EvaluateScrapedContent(w: World, calls: Calls, userQuery: string, pages: seq<Page>): Step<Evaluation> {
    EvaluateTries(w, calls, userQuery, pages, MaxRetries)
  }

  lemma {:induction false} EvaluateTriesFacts(w: World, calls: Calls, userQuery: string, pages: seq<Page>, tries: nat)
    requires tries > 0
    ensures var r := EvaluateTries(w, calls, userQuery, pages, tries);
      AddsLlmCalls(calls, r.calls, EvaluationCall(userQuery, pages), 1, tries) && r.sent == [] &&
      r.result.decision in Decisions
    decreases tries
  {
    var call := EvaluationCall(userQuery, pages);
    var after := AfterLlm(calls, call);
    var r := EvaluateTries(w, calls, userQuery, pages, tries);
    if NextReply(w, calls).Text? && ParseEvaluationResponse(NextReply(w, calls).text).decision in Decisions {
      EvaluateTriesOnText(w, calls, userQuery, pages, tries, NextReply(w, calls).text);
      AddsLlmCallsOne(calls, call, tries);
    } else {
      if NextReply(w, calls).Text? {
        EvaluateTriesOnText(w, calls, userQuery, pages, tries, NextReply(w, calls).text);
      }
      assert r == EvaluateTries(w, after, userQuery, pages, tries - 1);
      if tries > 1 {
        EvaluateTriesFacts(w, after, userQuery, pages, tries - 1);
        AddsLlmCallsCons(calls, r.calls, call, 1, tries - 1);
      } else {
        AddsLlmCallsOne(calls, call, tries);
      }
    }
  }

  /** The decision is always "answer" or "refine", after one to three model calls. */
  lemma EvaluateScrapedContentFacts(w: World, calls: Calls, userQuery: string, pages: seq<Page>)
    ensures var r := EvaluateScrapedContent(w, calls, userQuery, pages);
      AddsLlmCalls(calls, r.calls, EvaluationCall(userQuery, pages), 1, MaxRetries) && r.sent == [] &&
      r.result.decision in Decisions
  {
    EvaluateTriesFacts(w, calls, userQuery, pages, MaxRetries);
  }

  /** Three replies that raise or name no known decision give the default "refine". */
  lemma EvaluateDefaultsToRefine(w: World, calls: Calls, userQuery: string, pages: seq<Page>)
    requires forall i :: |calls.llm| <= i < |calls.llm| + MaxRetries ==>
      ReplyAt(w, i).Raised? || ParseEvaluationResponse(ReplyAt(w, i).text).decision !in Decisions
    ensures EvaluateScrapedContent(w, calls, userQuery, pages).result == Evaluation(EvaluationFailed, "refine")
  {
    var c1 := AfterLlm(calls, EvaluationCall(userQuery, pages));
    var c2 := AfterLlm(c1, EvaluationCall(userQuery, pages));
    var c3 := AfterLlm(c2, EvaluationCall(userQuery, pages));
    assert NextReply(w, calls).Raised? || ParseEvaluationResponse(NextReply(w, calls).text).decision !in Decisions;
    assert NextReply(w, c1).Raised? || ParseEvaluationResponse(NextReply(w, c1).text).decision !in Decisions;
    assert NextReply(w, c2).Raised? || ParseEvaluationResponse(NextReply(w, c2).text).decision !in Decisions;
    assert EvaluateScrapedContent(w, calls, userQuery, pages) == EvaluateTries(w, c1, userQuery, pages, 2);
    assert EvaluateTries(w, c1, userQuery, pages, 2) == EvaluateTries(w, c2, userQuery, pages, 1);
    assert EvaluateTries(w, c2, userQuery, pages, 1) == EvaluateTries(w, c3, userQuery, pages, 0);
  }

  // ------------------------------------------------------------ generate_final_answer

  const AnswerApology: string :=
    "I apologize, but I couldn't generate a satisfactory answer based on the available information."

  function AnswerCall(userQuery: string, pages: seq<Page>): LlmCall {
    LlmCall(AnswerPrompt(Take(userQuery, PromptQuestionLength), FormatScrapedContent(pages)), AnswerTokens, None)
  }

  function AnswerTries(w: World, calls: Calls, userQuery: string, pages: seq<Page>, tries: nat): Step<Outcome<string>>
    decreases tries
  {
    if tries == 0 then Step(Returned(AnswerApology), calls, [])
    else
      var after := AfterLlm(calls, AnswerCall(userQuery, pages));
      match NextReply(w, calls)
      case Raised(e) => Step(Threw(e), after, [])
      case Text(t) => if t != [] then Step(Returned(t), after, []) else AnswerTries(w, after, userQuery, pages, tries - 1)
  }

  /** `generate_final_answer`: up to three model calls; an exception from the model propagates. */
  function GenerateFinalAnswer(w: World, calls: Calls, userQuery: string, pages: seq<Page>): Step<Outcome<string>> {
    AnswerTries(w, calls, userQuery, pages, MaxRetries)
  }

  lemma {:induction false} AnswerTriesFacts(w: World, calls: Calls, userQuery: string, pages: seq<Page>, tries: nat)
    requires tries > 0
    ensures var r := AnswerTries(w, calls, userQuery, pages, tries);
      AddsLlmCalls(calls, r.calls, AnswerCall(userQuery, pages), 1, tries) && r.sent == [] &&
      (r.result.Returned? ==> (r.result.value != [] &&
         (r.result.value == AnswerApology || ReplyAt(w, |r.calls.llm| - 1) == Text(r.result.value))))
    decreases tries
  {
    var after := AfterLlm(calls, AnswerCall(userQuery, pages));
    if tries > 1 {
      AnswerTriesFacts(w, after, userQuery, pages, tries - 1);
      AddsLlmCallsCons(calls, AnswerTries(w, after, userQuery, pages, tries - 1).calls,
                       AnswerCall(userQuery, pages), 1, tries - 1);
    }
  }

  /** The final answer is never empty: it is the last reply's text or the apology, after one to
      three model calls. */
  lemma GenerateFinalAnswerFacts(w: World, calls: Calls, userQuery: string, pages: seq<Page>)
    ensures var r := GenerateFinalAnswer(w, calls, userQuery, pages);
      AddsLlmCalls(calls, r.calls, AnswerCall(userQuery, pages), 1, MaxRetries) && r.sent == [] &&
      (r.result.Returned? ==> (r.result.value != [] &&
         (r.result.value == AnswerApology || ReplyAt(w, |r.calls.llm| - 1) == Text(r.result.value))))
  {
    AnswerTriesFacts(w, calls, userQuery, pages, MaxRetries);
  }

  // ------------------------------------------------------------ synthesize_final_answer

  /** The `stop` entry of the model configuration. */
  datatype StopSetting = NoStop | StopList(sequences: seq<string>) | StopNotList

  /** The entries of the model configuration `synthesize_final_answer` reads. */
  datatype LlmConfig = LlmConfig(llmType: string, maxTokens: Option<int>, stop: StopSetting)

  const DefaultMaxTokens: int := 1024
  const OpenAiTokenCap: int := 4096
  const SynthesisFallback: string :=
    "I apologize, but after multiple attempts, I wasn't able to find a satisfactory answer to your question. " +
    "Please try rephrasing your question or breaking it down into smaller, more specific queries."

  /** `max_tokens` defaults to 1024 and is capped at 4096 for an "openai" configuration. */
  function SynthesisTokens(config: LlmConfig): (n: int)
    ensures config.llmType == "openai" ==> n <= OpenAiTokenCap
    ensures n <= config.maxTokens.GetOr(DefaultMaxTokens)
    ensures n != config.maxTokens.GetOr(DefaultMaxTokens) ==> config.llmType == "openai" && n == OpenAiTokenCap
  {
    var n := config.maxTokens.GetOr(DefaultMaxTokens);
    if config.llmType == "openai" && n > OpenAiTokenCap then OpenAiTokenCap else n
  }

  /** A stop setting that is present but not a list is dropped. */
  function SynthesisStop(config: LlmConfig): Option<seq<string>> {
    match config.stop
    case StopList(s) => Some(s)
    case _ => None
  }

  function SynthesisCall(config: LlmConfig, userQuery: string): LlmCall {
    LlmCall(SynthesisPrompt(userQuery), SynthesisTokens(config), SynthesisStop(config))
  }

  /** `synthesize_final_answer`: one model call; its exceptions and an empty reply give the fallback. */
  function SynthesizeFinalAnswer(w: World, calls: Calls, config: LlmConfig, userQuery: string): Step<string> {
    var after := AfterLlm(calls, SynthesisCall(config, userQuery));
    match NextReply(w, calls)
    case Text(t) => Step(if t != [] then Strip(t) else SynthesisFallback, after, [])
    case Raised(_) => Step(SynthesisFallback, after, [])
  }

  /** Exactly one model call; the answer is the stripped reply, or the fallback when the model
      raised or replied with nothing. */
  lemma SynthesizeFinalAnswerFacts(w: World, calls: Calls, config: LlmConfig, userQuery: string)
    ensures var r := SynthesizeFinalAnswer(w, calls, config, userQuery);
      AddsLlmCalls(calls, r.calls, SynthesisCall(config, userQuery), 1, 1) && r.sent == [] &&
      (r.result == SynthesisFallback <== NextReply(w, calls).Raised? || NextReply(w, calls) == Text([])) &&
      (NextReply(w, calls).Text? && NextReply(w, calls).text != [] ==> r.result == Strip(NextReply(w, calls).text))
  {
  }
}
