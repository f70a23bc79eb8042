/**
 * The response parsers and prompt formatters of `EnhancedSelfImprovingSearch`:
 * pure string functions that read the line-oriented "Key: value" replies of a
 * text-generation model, normalise search queries, and lay out search results
 * and scraped pages for the next prompt.
 */
module ResponseParsing {
  import opened Wrappers
  import opened Strings

  /** `clean_query` keeps at most this many characters. */
  const MaxQueryLength: nat := 100
  /** The characters `clean_query` deletes: double quote, single quote and square brackets. */
  const QueryStripChars: set<char> := {'"', '\'', '[', ']'}
  /** The recency windows the search provider accepts. */
  const TimeRanges: seq<string> := ["d", "w", "m", "y", "none"]
  /** `fallback_query` keeps at most this many words of the user's question. */
  const FallbackWords: nat := 5
  /** Result snippets are cut to this many characters in the selection prompt. */
  const SnippetLength: nat := 200

  // ------------------------------------------------------------ query helpers

  /** `clean_query`: drop quotes and brackets, collapse whitespace runs, strip, keep 100 characters. */
  function CleanQuery(query: string): string {
    var stripped := Strip(CollapseSpaces(RemoveAll(query, QueryStripChars)));
    StrippedQueryIsClean(query);
    Take(stripped, MaxQueryLength)
  }

  /** A cleaned query is at most 100 characters long, holds no quote or bracket, does not start
      with whitespace and has no run of whitespace. */
  lemma CleanQueryFacts(query: string)
    ensures var r := CleanQuery(query);
      |r| <= MaxQueryLength &&
      (forall i :: 0 <= i < |r| ==> r[i] !in QueryStripChars) &&
      (r == [] || !IsSpace(r[0])) &&
      NoDoubleSpace(r)
  {
    StrippedQueryIsClean(query);
  }

  /** The text `clean_query` cuts to length has no quote, bracket or whitespace run left in it. */
  lemma StrippedQueryIsClean(query: string)
    ensures var stripped := Strip(CollapseSpaces(RemoveAll(query, QueryStripChars)));
      (forall i :: 0 <= i < |stripped| ==> stripped[i] !in QueryStripChars) && NoDoubleSpace(stripped)
  {
    var kept := RemoveAll(query, QueryStripChars);
    var collapsed := CollapseSpaces(kept);
    assert forall i :: 0 <= i < |collapsed| ==> collapsed[i] !in QueryStripChars;
    StripAvoids(collapsed, QueryStripChars);
    StripNoDoubleSpace(collapsed);
  }

  /** The cleaned query is empty exactly when the text held only whitespace, quotes and brackets. */
  lemma CleanQueryEmpty(query: string)
    ensures CleanQuery(query) == [] <==>
            forall i :: 0 <= i < |query| ==> IsSpace(query[i]) || query[i] in QueryStripChars
  {
    RemoveAllBlank(query, QueryStripChars);
  }

  /** `validate_time_range`: the lower-cased value when it is a known window, else "none". */
  function ValidateTimeRange(timeRange: string): (r: string)
    ensures r in TimeRanges
    ensures r == Lower(timeRange) || r == "none"
    ensures r == Lower(timeRange) <==> Lower(timeRange) in TimeRanges
  {
    var t := Lower(timeRange);
    if t in TimeRanges then t else "none"
  }

  /** The window check ignores case, and a checked window passes it unchanged. */
  lemma ValidateTimeRangeIgnoresCase(timeRange: string)
    ensures ValidateTimeRange(timeRange) == ValidateTimeRange(Lower(timeRange))
    ensures ValidateTimeRange(ValidateTimeRange(timeRange)) == ValidateTimeRange(timeRange)
  {
    LowerIdempotent(timeRange);
    var r := ValidateTimeRange(timeRange);
    assert Lower(r) == r by {
      if r == Lower(timeRange) { LowerIdempotent(timeRange); }
      else { assert Lower("none") == "none"; }
    }
  }

  /** `fallback_query`: the first five whitespace-separated words, joined by single spaces. */
  function FallbackQuery(userQuery: string): (r: string)
    ensures Words(r) == Take(Words(userQuery), FallbackWords)
    ensures r == [] <==> IsBlank(userQuery)
  {
    var words := Take(Words(userQuery), FallbackWords);
    WordsOfJoin(words);
    JoinWith(words, " ")
  }

  /** A question of at most five words, already written with single spaces, is its own fallback. */
  lemma FallbackQueryKeepsShortQuery(userQuery: string)
    requires |Words(userQuery)| <= FallbackWords
    requires userQuery == JoinWith(Words(userQuery), " ")
    ensures FallbackQuery(userQuery) == userQuery
  {
  }

  // ------------------------------------------------------------ query response

  datatype QueryPlan = QueryPlan(query: string, timeRange: string)

  /** How `parse_query_response` reads one line of the reply. */
  datatype QueryLine = QueryValue(value: string) | RangeValue(value: string) | OtherLine

  /** A "key: value" line whose lower-cased key mentions "query" sets the query; otherwise one
      that mentions "time" or "range" sets the window; a line without a colon is skipped. */
  function ReadQueryLine(line: string): QueryLine {
    if ':' !in line then OtherLine
    else
      var key := Lower(Strip(BeforeColon(line)));
      var value := Strip(AfterColon(line));
      if Contains(key, "query") then QueryValue(value)
      else if Contains(key, "time") || Contains(key, "range") then RangeValue(value)
      else OtherLine
  }

  function ApplyQueryLine(plan: QueryPlan, line: string): QueryPlan {
    match ReadQueryLine(line)
    case QueryValue(v) => plan.(query := CleanQuery(v))
    case RangeValue(v) => plan.(timeRange := ValidateTimeRange(v))
    case OtherLine => plan
  }

  /** The loop of `parse_query_response`, one line at a time from the top. */
  function ParseQueryLines(plan: QueryPlan, lines: seq<string>): (r: QueryPlan)
    ensures plan.timeRange in TimeRanges ==> r.timeRange in TimeRanges
    decreases |lines|
  {
    if lines == [] then plan else ParseQueryLines(ApplyQueryLine(plan, lines[0]), lines[1..])
  }

  /** `parse_query_response`: defaults to an empty query and the window "none". */
  function ParseQueryResponse(response: string): (r: QueryPlan)
    ensures r.timeRange in TimeRanges
  {
    ParseQueryLines(QueryPlan("", "none"), Lines(response))
  }

  /** The value of the last line read as a query line, searching from the bottom. */
  function LastQueryValue(lines: seq<string>): Option<string>
    decreases |lines|
  {
    if lines == [] then None
    else match ReadQueryLine(lines[|lines| - 1])
      case QueryValue(v) => Some(v)
      case _ => LastQueryValue(lines[..|lines| - 1])
  }

  /** The value of the last line read as a window line, searching from the bottom. */
  function LastRangeValue(lines: seq<string>): Option<string>
    decreases |lines|
  {
    if lines == [] then None
    else match ReadQueryLine(lines[|lines| - 1])
      case RangeValue(v) => Some(v)
      case _ => LastRangeValue(lines[..|lines| - 1])
  }

  lemma {:induction false} ParseQueryLinesSnoc(plan: QueryPlan, lines: seq<string>, line: string)
    ensures ParseQueryLines(plan, lines + [line]) == ApplyQueryLine(ParseQueryLines(plan, lines), line)
    decreases |lines|
  {
    if lines == [] {
      assert (lines + [line])[1..] == [];
    } else {
      assert (lines + [line])[1..] == lines[1..] + [line];
      ParseQueryLinesSnoc(ApplyQueryLine(plan, lines[0]), lines[1..], line);
    }
  }

  lemma {:induction false} ParseQueryLinesLastWins(plan: QueryPlan, lines: seq<string>)
    ensures ParseQueryLines(plan, lines) ==
      QueryPlan(match LastQueryValue(lines) case Some(v) => CleanQuery(v) case None => plan.query,
                match LastRangeValue(lines) case Some(v) => ValidateTimeRange(v) case None => plan.timeRange)
    decreases |lines|
  {
    if lines != [] {
      var init := lines[..|lines| - 1];
      assert lines == init + [lines[|lines| - 1]];
      ParseQueryLinesSnoc(plan, init, lines[|lines| - 1]);
      ParseQueryLinesLastWins(plan, init);
    }
  }

  /** The last query line and the last window line of the reply decide the plan; each part
      keeps its default when no line sets it. */
  lemma ParseQueryResponseLastLineWins(response: string)
    ensures ParseQueryResponse(response).query ==
      match LastQueryValue(Lines(response)) case Some(v) => CleanQuery(v) case None => ""
    ensures ParseQueryResponse(response).timeRange ==
      match LastRangeValue(Lines(response)) case Some(v) => ValidateTimeRange(v) case None => "none"
  {
    ParseQueryLinesLastWins(QueryPlan("", "none"), Lines(response));
  }

  // ------------------------------------------------------------ marker lines

  /** For two line markers, the last line seen that starts with each. */
  datatype MarkedLines = MarkedLines(first: Option<string>, second: Option<string>)

  /** One step of the line-by-line loops that look for two labelled fields. */
  function ApplyMarkers(found: MarkedLines, line: string, first: string, second: string): MarkedLines {
    if StartsWith(line, first) then found.(first := Some(line))
    else if StartsWith(line, second) then found.(second := Some(line))
    else found
  }

  function ScanMarkers(found: MarkedLines, lines: seq<string>, first: string, second: string): (r: MarkedLines)
    ensures (found.first.Some? ==> StartsWith(found.first.value, first)) ==>
            (r.first.Some? ==> StartsWith(r.first.value, first))
    ensures (found.second.Some? ==> StartsWith(found.second.value, second)) ==>
            (r.second.Some? ==> StartsWith(r.second.value, second))
    decreases |lines|
  {
    if lines == [] then found
    else ScanMarkers(ApplyMarkers(found, lines[0], first, second), lines[1..], first, second)
  }

  /** The last of `lines` that starts with `marker`, searching from the bottom. */
  function LastStartingWith(lines: seq<string>, marker: string): (r: Option<string>)
    ensures r.None? <==> forall k :: 0 <= k < |lines| ==> !StartsWith(lines[k], marker)
    ensures r.Some? ==> StartsWith(r.value, marker)
    decreases |lines|
  {
    if lines == [] then None
    else if StartsWith(lines[|lines| - 1], marker) then Some(lines[|lines| - 1])
    else
      var r := LastStartingWith(lines[..|lines| - 1], marker);
      assert forall k :: 0 <= k < |lines| - 1 ==> lines[..|lines| - 1][k] == lines[k];
      r
  }

  lemma {:induction false} ScanMarkersSnoc(found: MarkedLines, lines: seq<string>, line: string, first: string, second: string)
    ensures ScanMarkers(found, lines + [line], first, second) ==
            ApplyMarkers(ScanMarkers(found, lines, first, second), line, first, second)
    decreases |lines|
  {
    if lines == [] {
      assert (lines + [line])[1..] == [];
    } else {
      assert (lines + [line])[1..] == lines[1..] + [line];
      ScanMarkersSnoc(ApplyMarkers(found, lines[0], first, second), lines[1..], line, first, second);
    }
  }

  /** With markers that no line can both start with, the scan keeps the last line for each. */
  lemma {:induction false} ScanMarkersFindsLast(found: MarkedLines, lines: seq<string>, first: string, second: string)
    requires first != [] && second != [] && first[0] != second[0]
    ensures ScanMarkers(found, lines, first, second) ==
      MarkedLines(match LastStartingWith(lines, first) case Some(l) => Some(l) case None => found.first,
                  match LastStartingWith(lines, second) case Some(l) => Some(l) case None => found.second)
    decreases |lines|
  {
    if lines != [] {
      var init := lines[..|lines| - 1];
      var line := lines[|lines| - 1];
      assert lines == init + [line];
      assert init == lines[..|lines| - 1];
      ScanMarkersSnoc(found, init, line, first, second);
      ScanMarkersFindsLast(found, init, first, second);
    }
  }

  function MarkerLineValue(line: string, marker: string): string
    requires StartsWith(line, marker) && ':' in marker
  {
    assert forall c :: c in marker ==> c in line;
    Strip(AfterColon(line))
  }

  // ------------------------------------------------------------ page selection

  const SelectedMarker: string := "Selected Results:"
  const ReasoningMarker: string := "Reasoning:"

  datatype PageSelection = PageSelection(selectedResults: seq<nat>, reasoning: string)

  /** `parse_page_selection_response`: every number on the last "Selected Results:" line and the
      text after the last "Reasoning:" line; absent unless both kinds of line are there. */
  function ParsePageSelectionResponse(response: string): Option<PageSelection> {
    var found := ScanMarkers(MarkedLines(None, None), Lines(response), SelectedMarker, ReasoningMarker);
    if found.first.Some? && found.second.Some? then
      assert ReasoningMarker[9] == ':';
      Some(PageSelection(DigitRuns(found.first.value), MarkerLineValue(found.second.value, ReasoningMarker)))
    else None
  }

  /** The selection is absent exactly when a marker line is missing; otherwise it holds the
      numbers of the last "Selected Results:" line, which may be none at all. */
  lemma ParsePageSelectionResponseSpec(response: string)
    ensures ParsePageSelectionResponse(response).None? <==>
      (forall k :: 0 <= k < |Lines(response)| ==> !StartsWith(Lines(response)[k], SelectedMarker)) ||
      (forall k :: 0 <= k < |Lines(response)| ==> !StartsWith(Lines(response)[k], ReasoningMarker))
    ensures ParsePageSelectionResponse(response).Some? ==>
      ParsePageSelectionResponse(response).value.selectedResults ==
        DigitRuns(LastStartingWith(Lines(response), SelectedMarker).value)
  {
    ScanMarkersFindsLast(MarkedLines(None, None), Lines(response), SelectedMarker, ReasoningMarker);
  }

  /** `validate_page_selection_response`: exactly two numbers, each a rank in 1..numResults
      (the two may be equal). */
  function ValidatePageSelectionResponse(selection: PageSelection, numResults: int): (ok: bool)
    ensures ok <==> |selection.selectedResults| == 2 &&
                    1 <= selection.selectedResults[0] <= numResults &&
                    1 <= selection.selectedResults[1] <= numResults
  {
    |selection.selectedResults| == 2 &&
    forall k :: 0 <= k < |selection.selectedResults| ==> 1 <= selection.selectedResults[k] <= numResults
  }

  // ------------------------------------------------------------ evaluation

  const EvaluationMarker: string := "Evaluation:"
  const DecisionMarker: string := "Decision:"

  datatype Evaluation = Evaluation(evaluation: string, decision: string)

  /** `parse_evaluation_response`: the text of the last "Evaluation:" line and the lower-cased text
      of the last "Decision:" line, each "" when there is no such line. */
  function ParseEvaluationResponse(response: string): (r: Evaluation)
    ensures Lower(r.decision) == r.decision
  {
    var found := ScanMarkers(MarkedLines(None, None), Lines(response), EvaluationMarker, DecisionMarker);
    assert EvaluationMarker[10] == ':' && DecisionMarker[8] == ':';
    var evaluation := if found.first.Some? then MarkerLineValue(found.first.value, EvaluationMarker) else "";
    var decision := if found.second.Some? then Lower(MarkerLineValue(found.second.value, DecisionMarker)) else "";
    LowerIdempotent(if found.second.Some? then MarkerLineValue(found.second.value, DecisionMarker) else "");
    Evaluation(evaluation, decision)
  }

  /** The decision comes from the last "Decision:" line alone, and is empty without one. */
  lemma ParseEvaluationResponseSpec(response: string)
    ensures var last := LastStartingWith(Lines(response), DecisionMarker);
      ParseEvaluationResponse(response).decision ==
        if last.None? then "" else Lower(MarkerLineValue(last.value, DecisionMarker))
    ensures var last := LastStartingWith(Lines(response), EvaluationMarker);
      ParseEvaluationResponse(response).evaluation ==
        if last.None? then "" else MarkerLineValue(last.value, EvaluationMarker)
  {
    assert EvaluationMarker[10] == ':' && DecisionMarker[8] == ':';
    ScanMarkersFindsLast(MarkedLines(None, None), Lines(response), EvaluationMarker, DecisionMarker);
  }

  // ------------------------------------------------------------ prompt formatters

  /** A search hit as the controller numbers it: 1-based rank, title, snippet and URL. */
  datatype SearchResult = SearchResult(number: nat, title: string, body: string, href: string)

  /** One scraped page: the URL and the text extracted from it. */
  datatype Page = Page(url: string, content: string)

  /** One entry of `format_results`. */
  function FormatResult(result: SearchResult): string {
    NatToString(result.number) + ". Title: " + result.title + "\n" +
    "   Snippet: " + Take(result.body, SnippetLength) + "...\n" +
    "   URL: " + result.href + "\n"
  }

  /** `format_results`: the entries joined by blank lines. */
  function FormatResults(results: seq<SearchResult>): string {
    JoinWith(seq(|results|, i requires 0 <= i < |results| => FormatResult(results[i])), "\n")
  }

  /** One entry of `format_scraped_content`, its text's whitespace runs collapsed to single spaces. */
  function FormatPage(page: Page): string {
    "Content from " + page.url + ":\n" + CollapseSpaces(page.content) + "\n"
  }

  /** `format_scraped_content`: the entries joined by blank lines. */
  function FormatScrapedContent(pages: seq<Page>): string {
    JoinWith(seq(|pages|, i requires 0 <= i < |pages| => FormatPage(pages[i])), "\n")
  }

  lemma {:induction false} JoinedContainsEach(parts: seq<string>, sep: string, i: nat)
    requires i < |parts|
    ensures Contains(JoinWith(parts, sep), parts[i])
    decreases |parts|
  {
    if |parts| == 1 {
      ContainsInfix("", parts[0], "");
      assert "" + parts[0] + "" == parts[0];
    } else if i == 0 {
      ContainsInfix("", parts[0], sep + JoinWith(parts[1..], sep));
      assert "" + parts[0] + (sep + JoinWith(parts[1..], sep)) == JoinWith(parts, sep);
    } else {
      JoinedContainsEach(parts[1..], sep, i - 1);
      var rest := JoinWith(parts[1..], sep);
      assert JoinWith(parts, sep) == (parts[0] + sep) + rest;
      ContainsSuffix(parts[0] + sep, rest, parts[i]);
    }
  }

  lemma {:induction false} ContainsSuffix(prefix: string, s: string, sub: string)
    requires Contains(s, sub)
    ensures Contains(prefix + s, sub)
    decreases |prefix|
  {
    if prefix != [] {
      assert (prefix + s)[1..] == prefix[1..] + s;
      ContainsSuffix(prefix[1..], s, sub);
    } else {
      assert prefix + s == s;
    }
  }

  /** The selection prompt lists every result, each entry opening with its rank and closing with
      its URL line, the snippet cut to 200 characters. */
  lemma FormatResultsListsEveryResult(results: seq<SearchResult>, i: nat)
    requires i < |results|
    ensures Contains(FormatResults(results), FormatResult(results[i]))
    ensures StartsWith(FormatResult(results[i]), NatToString(results[i].number) + ". Title: ")
    ensures Contains(FormatResult(results[i]), "   URL: " + results[i].href + "\n")
  {
    var parts := seq(|results|, k requires 0 <= k < |results| => FormatResult(results[k]));
    JoinedContainsEach(parts, "\n", i);
    FormatResultOpens(results[i]);
    FormatResultCloses(results[i]);
  }

  lemma FormatResultOpens(r: SearchResult)
    ensures StartsWith(FormatResult(r), NatToString(r.number) + ". Title: ")
  {
    var head := NatToString(r.number) + ". Title: ";
    var entry := FormatResult(r);
    assert entry == head + (r.title + "\n" + "   Snippet: " + Take(r.body, SnippetLength) + "...\n" + "   URL: " + r.href + "\n");
    assert entry[..|head|] == head;
  }

  lemma FormatResultCloses(r: SearchResult)
    ensures Contains(FormatResult(r), "   URL: " + r.href + "\n")
  {
    var before := NatToString(r.number) + ". Title: " + r.title + "\n" + "   Snippet: " + Take(r.body, SnippetLength) + "...\n";
    ContainsInfix(before, "   URL: " + r.href + "\n", "");
    assert before + ("   URL: " + r.href + "\n") + "" == FormatResult(r);
  }

  /** The evaluation and answer prompts hold every scraped page, its text on a single line. */
  lemma FormatScrapedContentListsEveryPage(pages: seq<Page>, i: nat)
    requires i < |pages|
    ensures Contains(FormatScrapedContent(pages), FormatPage(pages[i]))
    ensures '\n' !in CollapseSpaces(pages[i].content)
  {
    var parts := seq(|pages|, k requires 0 <= k < |pages| => FormatPage(pages[k]));
    JoinedContainsEach(parts, "\n", i);
    var c := CollapseSpaces(pages[i].content);
    assert forall k :: 0 <= k < |c| ==> c[k] != '\n' by {
      forall k | 0 <= k < |c| ensures c[k] != '\n' {
        if IsSpace(c[k]) { assert c[k] == ' '; }
      }
    }
  }

  /** A reply made of two lines without a newline in them is read as those two lines. */
  lemma LinesOfTwo(first: string, second: string)
    requires first != [] && !IsSpace(first[0])
    requires second != [] && !IsSpace(second[|second| - 1])
    requires '\n' !in first && '\n' !in second
    ensures Lines(first + "\n" + second) == [first, second]
  {
    var response := first + "\n" + second;
    StripTrimmed(response);
    assert response[|first|] == '\n';
    assert response[..|first|] == first;
    assert response[|first| + 1..] == second;
    assert Split(response, '\n') == [first] + Split(second, '\n');
  }

  /** The line a model writes to choose results `a` and `b`. */
  function SelectedLine(a: nat, b: nat): string {
    SelectedMarker + " " + NatToString(a) + ", " + NatToString(b)
  }

  /** The line a model writes to explain its choice. */
  function ReasoningLine(reasoning: string): string {
    ReasoningMarker + " " + reasoning
  }

  /** The numbers of "Selected Results: a, b" are a and b. */
  lemma SelectedLineNumbers(a: nat, b: nat)
    ensures DigitRuns(SelectedLine(a, b)) == [a, b]
  {
    var na, nb := NatToString(a), NatToString(b);
    var tail := ", " + nb;
    assert DigitRuns(tail) == [b] by {
      NumberIsFoundAgain(b, "");
      assert nb + "" == nb;
      DigitRunsSkip(", ", nb);
    }
    assert DigitRuns(na + tail) == [a, b] by {
      NumberIsFoundAgain(a, tail);
    }
    var marker := SelectedMarker + " ";
    assert forall i :: 0 <= i < |marker| ==> !IsDigit(marker[i]);
    DigitRunsSkip(marker, na + tail);
    assert SelectedLine(a, b) == marker + (na + tail);
  }

  /** The selection line opens with its marker and holds no newline. */
  lemma SelectedLineShape(a: nat, b: nat)
    ensures StartsWith(SelectedLine(a, b), SelectedMarker)
    ensures '\n' !in SelectedLine(a, b)
  {
    var line := SelectedLine(a, b);
    assert line[..|SelectedMarker|] == SelectedMarker;
    var na, nb := NatToString(a), NatToString(b);
    assert line == SelectedMarker + " " + na + ", " + nb;
    forall k | 0 <= k < |line| ensures line[k] != '\n' {
      if k >= |line| - |nb| {
        assert line[k] == nb[k - (|line| - |nb|)];
      } else if k >= |SelectedMarker| + 1 && k < |SelectedMarker| + 1 + |na| {
        assert line[k] == na[k - |SelectedMarker| - 1];
      }
    }
  }

  /** After the first colon of a line whose first colon follows `head`. */
  lemma AfterFirstColon(head: string, tail: string)
    requires ':' !in head
    ensures ':' in head + [':'] + tail && AfterColon(head + [':'] + tail) == tail
  {
    var line := head + [':'] + tail;
    assert line[|head|] == ':';
    assert line[|head| + 1..] == tail;
  }

  /** The value of "Reasoning: text" is the text, when it has no whitespace at either end. */
  lemma ReasoningLineValue(reasoning: string)
    requires reasoning != [] && !IsSpace(reasoning[0]) && !IsSpace(reasoning[|reasoning| - 1])
    ensures StartsWith(ReasoningLine(reasoning), ReasoningMarker)
    ensures MarkerLineValue(ReasoningLine(reasoning), ReasoningMarker) == reasoning
  {
    var line := ReasoningLine(reasoning);
    var head := "Reasoning";
    assert ReasoningMarker == head + [':'];
    assert line == head + [':'] + ([' '] + reasoning);
    assert line[..|ReasoningMarker|] == ReasoningMarker;
    assert ':' !in head;
    AfterFirstColon(head, [' '] + reasoning);
    StripAfterSpace(reasoning);
    assert MarkerLineValue(line, ReasoningMarker) == Strip([' '] + reasoning);
  }

  /** The reasoning line ends where its text ends, and holds a newline only if the text does. */
  lemma ReasoningLineShape(reasoning: string)
    requires reasoning != [] && !IsSpace(reasoning[|reasoning| - 1])
    ensures '\n' !in reasoning ==> '\n' !in ReasoningLine(reasoning)
    ensures !IsSpace(ReasoningLine(reasoning)[|ReasoningLine(reasoning)| - 1])
  {
    var line := ReasoningLine(reasoning);
    assert line[|line| - 1] == reasoning[|reasoning| - 1];
    if '\n' !in reasoning {
      forall k | 0 <= k < |line| ensures line[k] != '\n' {
        if k >= |ReasoningMarker| + 1 {
          assert line[k] == reasoning[k - |ReasoningMarker| - 1];
        }
      }
    }
  }

  /** Of two lines, the one starting with each marker is the last line starting with it. */
  lemma LastOfTwoLines(first: string, second: string)
    requires StartsWith(first, SelectedMarker) && StartsWith(second, ReasoningMarker)
    ensures LastStartingWith([first, second], SelectedMarker) == Some(first)
    ensures LastStartingWith([first, second], ReasoningMarker) == Some(second)
  {
    assert first[0] == 'S' && second[0] == 'R';
    assert !StartsWith(second, SelectedMarker);
    assert !StartsWith(first, ReasoningMarker);
    assert [first, second][..1] == [first];
  }

  /** A two-line reply whose lines carry the two markers is read from those lines. */
  lemma SelectionOfTwoLines(first: string, second: string)
    requires StartsWith(first, SelectedMarker) && StartsWith(second, ReasoningMarker)
    requires '\n' !in first && '\n' !in second
    requires !IsSpace(second[|second| - 1])
    ensures ParsePageSelectionResponse(first + "\n" + second) ==
            Some(PageSelection(DigitRuns(first), MarkerLineValue(second, ReasoningMarker)))
  {
    assert first[0] == 'S';
    LinesOfTwo(first, second);
    LastOfTwoLines(first, second);
    ScanMarkersFindsLast(MarkedLines(None, None), [first, second], SelectedMarker, ReasoningMarker);
  }

  /** A well-formed selection reply naming two ranks is read back as exactly those two ranks. */
  lemma SelectionReplyRoundTrip(a: nat, b: nat, reasoning: string)
    requires reasoning != [] && !IsSpace(reasoning[0]) && !IsSpace(reasoning[|reasoning| - 1])
    requires '\n' !in reasoning
    ensures ParsePageSelectionResponse(SelectedLine(a, b) +
                                       "\n" + ReasoningLine(reasoning))
            == Some(PageSelection([a, b], reasoning))
  {
    SelectedLineShape(a, b);
    ReasoningLineValue(reasoning);
    ReasoningLineShape(reasoning);
    SelectionOfTwoLines(SelectedLine(a, b), ReasoningLine(reasoning));
    SelectedLineNumbers(a, b);
  }

  /** A well-formed reply naming two ranks of the list, the same rank twice included, is read
      back and accepted; a reply naming a rank past the end of the list is read back and refused. */
  lemma SelectionReplyValidates(a: nat, b: nat, reasoning: string, numResults: int)
    requires reasoning != [] && !IsSpace(reasoning[0]) && !IsSpace(reasoning[|reasoning| - 1])
    requires '\n' !in reasoning
    ensures var p := ParsePageSelectionResponse(SelectedLine(a, b) + "\n" + ReasoningLine(reasoning));
            p.Some? &&
            (ValidatePageSelectionResponse(p.value, numResults) <==>
               1 <= a <= numResults && 1 <= b <= numResults)
  {
    SelectionReplyRoundTrip(a, b, reasoning);
  }
}
