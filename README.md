# WebResearcher search controller in Dafny

This project models the research core of WebResearcher:

- **The self-improving search controller** `EnhancedSelfImprovingSearch` (`Self_Improving_Search.py`). Its attempt loop turns a question into a search query, searches the web, asks the language model to pick two pages, scrapes them, and asks the model whether to answer or to refine. It gives up after `max_attempts` passes and then synthesizes an answer from the model's own knowledge.
- **The small text protocols** the controller uses to read the model's "Key: value" replies and to lay out results for its prompts.
- **The cancellable engine** `AsyncSearchEngine` and its message sink `AsyncMessageHandler` (`api/search_engine_manager.py`). The engine checks a stop flag after every step. The sink is a bounded queue that drops blank messages and consecutive repeats.
- **The session registry** `SessionManager` (`api/session_manager.py`).

The language model, the DuckDuckGo search, robots.txt checks and page fetching are oracles. A `World` value holds their scripted replies, and `Calls` logs every model call and search made so far, with its arguments.

Files and modules:

- `wrappers.dfy` (`Wrappers`): `Option`.
- `strings.dfy` (`Strings`): the Python string and regular-expression helpers the parsers use.
- `response_parsing.dfy` (`ResponseParsing`): the parsers, normalisers and prompt formatters.
- `ports.dfy` (`Ports`): the oracles, and the `Backend` object whose model and search calls read them.
- `search_steps.dfy` (`SearchSteps`): each step of the controller as a function of the world and the calls so far. A step returns its result, the new call log and the messages it sent. Its retry loop becomes recursion on the tries left.
- `self_improving_search.dfy` (`SelfImprovingSearch`): the attempt loop as a function, its properties, and the class `EnhancedSelfImprovingSearch`. The class's methods are `while`/`for` loops, each proved equal to its function.
- `async_message_handler.dfy` (`MessageHandling`): `AsyncMessageHandler`, its bounded queue, the shared session tables, and a reference definition of what the queue holds.
- `async_search_engine.dfy` (`SearchEngineManager`): `AsyncSearchEngine` as functions over an `EngineState`, and the class whose methods are proved to follow them.
- `session_manager.dfy` (`SessionManagement`): session ids, active sessions, the thread pool and its futures, and the class `SessionManager`.

Where the code and its written description disagree, the model follows the code:

- **Page selection without numbers.** A selection reply with both marker lines but no number on the "Selected Results:" line gives an empty selection, not an absent one. The validator then rejects it.
- **The fallback query** joins the first five words with single spaces. It returns the question unchanged only when the question already has that form (`FallbackQueryKeepsShortQuery`).

## Model

| member | source | states |
|---|---|---|
| ResponseParsing.CleanQueryFacts | Self_Improving_Search.py:249-252 | A cleaned query is at most 100 characters, holds no `"`, `'`, `[` or `]`, does not start with whitespace, and has no two whitespace characters in a row |
| ResponseParsing.CleanQueryEmpty | Self_Improving_Search.py:249-252 | The cleaned query is empty exactly when the input held only whitespace, quotes and brackets |
| ResponseParsing.ValidateTimeRange | Self_Improving_Search.py:254-257 | The window is always one of d, w, m, y, none; it is the lower-cased input exactly when that is a known window, and "none" otherwise |
| ResponseParsing.ValidateTimeRangeIgnoresCase | Self_Improving_Search.py:254-257 | The check ignores case, and a checked window passes it again unchanged |
| ResponseParsing.FallbackQuery | Self_Improving_Search.py:259-261 | The fallback's words are the first five words of the question, and it is empty exactly when the question is blank |
| ResponseParsing.FallbackQueryKeepsShortQuery | Self_Improving_Search.py:259-261 | A question of at most five single-spaced words is its own fallback |
| ResponseParsing.ParseQueryResponseLastLineWins | Self_Improving_Search.py:235-247 | The query is the cleaned value of the last line whose key mentions "query", else ""; the window is the checked value of the last line whose key mentions "time" or "range" (and not "query"), else "none" |
| ResponseParsing.ParsePageSelectionResponseSpec | Self_Improving_Search.py:339-347 | The selection is absent exactly when no line starts with "Selected Results:" or none starts with "Reasoning:"; otherwise it holds every digit run of the last "Selected Results:" line, in order, possibly none |
| ResponseParsing.ValidatePageSelectionResponse | Self_Improving_Search.py:349-354 | A selection is accepted exactly when it holds two numbers, each a rank in 1..`num_results` |
| ResponseParsing.SelectionReplyValidates | Self_Improving_Search.py:339-354 | A well-formed reply naming ranks a and b is read back and then accepted exactly when both are ranks of the list, the same rank twice included |
| ResponseParsing.SelectionReplyRoundTrip | Self_Improving_Search.py:339-347 | A well-formed two-line selection reply naming ranks a and b is read back as exactly [a, b] with its reasoning |
| ResponseParsing.ParseEvaluationResponse | Self_Improving_Search.py:195-203 | The decision comes back lower-cased |
| ResponseParsing.ParseEvaluationResponseSpec | Self_Improving_Search.py:195-203 | The evaluation and the lower-cased decision are the values of the last "Evaluation:" and "Decision:" lines, each "" without such a line |
| ResponseParsing.FormatResultsListsEveryResult | Self_Improving_Search.py:356-363 | The selection prompt contains every result's entry; each entry opens with its rank and title and holds its URL line |
| ResponseParsing.FormatScrapedContentListsEveryPage | Self_Improving_Search.py:430-435 | The evaluation and answer prompts contain every scraped page's entry, its text collapsed onto one line |
| SearchSteps.FormulateQueryFacts | Self_Improving_Search.py:205-233 | `formulate_query` makes one to three model calls with the same prompt and no search; a returned plan has a known window and is either a parse with a non-empty query or the fallback with "none" |
| SearchSteps.FormulatedQueryEmptyOnlyForBlankQuestion | Self_Improving_Search.py:205-233 | The formulated query is empty only when the question is blank |
| SearchSteps.FormulateQueryFallsBack | Self_Improving_Search.py:205-233 | Three replies without a usable query give the fallback plan after exactly three calls |
| SearchSteps.PerformSearchFacts | Self_Improving_Search.py:263-281 | An empty query searches nothing and returns []; otherwise one search, with a `timelimit` only for a real window; results are the hits ranked 1, 2, … with their links; an error is reported only when the search failed, and then there are no results |
| SearchSteps.SelectRelevantPagesFacts | Self_Improving_Search.py:297-337 | One to three model calls; every returned URL passes `can_fetch`; the URLs keep the results' order; with results ranked 1..n at most two are returned; none are returned only when no result can be fetched |
| SearchSteps.ScrapeContentFacts | Self_Improving_Search.py:365-391 | No model call; the scraped dictionary holds, once each, exactly the requested URLs that are fetchable and have content, each with its text; it is empty exactly when no requested URL qualifies |
| SearchSteps.EvaluateScrapedContentFacts | Self_Improving_Search.py:164-193 | One to three model calls with the same prompt, exceptions swallowed; the decision is always "answer" or "refine" |
| SearchSteps.EvaluateDefaultsToRefine | Self_Improving_Search.py:164-193 | Three replies that raise or name no known decision give ("Failed to evaluate content.", "refine") |
| SearchSteps.GenerateFinalAnswerFacts | Self_Improving_Search.py:399-428 | One to three model calls; a returned answer is never empty and is the last reply's text or the apology |
| SearchSteps.SynthesisTokens | Self_Improving_Search.py:447-451 | `max_tokens` is the configured value, default 1024, lowered to 4096 only for an "openai" configuration |
| SearchSteps.SynthesizeFinalAnswerFacts | Self_Improving_Search.py:437-469 | Exactly one model call; the answer is the stripped reply, or the fallback text when the model raised or returned nothing |
| SelfImprovingSearch.RunAttemptFacts | Self_Improving_Search.py:98-158 | One pass makes at most twelve model calls and one search; it never takes the "unexpected decision" branch; it answers only when its search found something, and then sends the answer last |
| SelfImprovingSearch.AnsweredPassFacts | Self_Improving_Search.py:138-153 | A pass answers only right after reporting the decision "answer", with a non-empty answer as its last message |
| SelfImprovingSearch.SearchAndImproveFacts | Self_Improving_Search.py:96-162 | At most `max_attempts` passes, every one before the last retrying; at most twelve model calls and one search per pass plus one synthesis call; the answer is the last pass's generated answer, or else, after exactly `max_attempts` passes, the synthesized one; the answer is the last message sent |
| SelfImprovingSearch.NoHitsMeansSynthesis | Self_Improving_Search.py:96-162 | When no search ever finds anything, all `max_attempts` passes retry and the answer is the synthesized one |
| SelfImprovingSearch.EnhancedSelfImprovingSearch.constructor | Self_Improving_Search.py:84-89 | The controller keeps its backend, configuration and `max_attempts`, and has sent nothing |
| SelfImprovingSearch.EnhancedSelfImprovingSearch.SendMessage | Self_Improving_Search.py:91-94 | The message is handed to the handler |
| SelfImprovingSearch.EnhancedSelfImprovingSearch.FormulateQuery | Self_Improving_Search.py:205-233 | The retry loop makes the calls and returns the plan of `SearchSteps.FormulateQuery` |
| SelfImprovingSearch.EnhancedSelfImprovingSearch.PerformSearch | Self_Improving_Search.py:263-281 | The search and its report are those of `SearchSteps.PerformSearch` |
| SelfImprovingSearch.EnhancedSelfImprovingSearch.SelectRelevantPages | Self_Improving_Search.py:297-337 | The retry loop makes the calls, sends the warnings and returns the URLs of `SearchSteps.SelectRelevantPages` |
| SelfImprovingSearch.EnhancedSelfImprovingSearch.ScrapeContent | Self_Improving_Search.py:365-391 | The loop over the URLs builds the dictionary and sends the reports of `SearchSteps.ScrapeContent` |
| SelfImprovingSearch.EnhancedSelfImprovingSearch.DisplayScrapedContent | Self_Improving_Search.py:393-397 | Sends a heading, then each page's URL and first 4000 characters |
| SelfImprovingSearch.EnhancedSelfImprovingSearch.EvaluateScrapedContent | Self_Improving_Search.py:164-193 | The retry loop makes the calls and returns the evaluation of `SearchSteps.EvaluateScrapedContent` |
| SelfImprovingSearch.EnhancedSelfImprovingSearch.GenerateFinalAnswer | Self_Improving_Search.py:399-428 | The retry loop makes the calls and returns the answer or exception of `SearchSteps.GenerateFinalAnswer` |
| SelfImprovingSearch.EnhancedSelfImprovingSearch.SynthesizeFinalAnswer | Self_Improving_Search.py:437-469 | One call, returning the answer of `SearchSteps.SynthesizeFinalAnswer` |
| SelfImprovingSearch.EnhancedSelfImprovingSearch.AttemptLoop | Self_Improving_Search.py:99-158 | The `while` loop makes the calls and sends the messages of the loop's function, and returns an answer exactly when a pass answered |
| SelfImprovingSearch.EnhancedSelfImprovingSearch.SearchAndImprove | Self_Improving_Search.py:96-162 | Returns the answer, makes the calls and sends the messages of `RunSearch`, whose properties `SearchAndImproveFacts` states |
| MessageHandling.HandleAllFresh | api/search_engine_manager.py:29-53 | From a fresh handler, with nothing taken off the queue, the queue is the first 1000 of the stripped non-blank messages with consecutive repeats collapsed, and the last accepted message is the last non-blank one |
| MessageHandling.QueueFromFresh | api/search_engine_manager.py:29-53 | From a fresh handler, with nothing taken off the queue, the queue never holds more than 1000 messages, none blank or unstripped, no two neighbours equal, each one of the messages handed in |
| MessageHandling.HandleAllStopped | api/search_engine_manager.py:31-32 | A stopped handler ignores every message |
| MessageHandling.OverflowStillRecorded | api/search_engine_manager.py:38-49 | A message arriving at a full queue is lost but becomes the last accepted message, so a repeat of it is dropped even once the queue has room |
| MessageHandling.MessageQueue.PutNowait | api/search_engine_manager.py:44-49 | `put_nowait` appends when there is room and otherwise raises `queue.Full`, changing nothing |
| MessageHandling.AsyncMessageHandler.constructor | api/search_engine_manager.py:17-27 | A fresh empty queue is registered under the session id, and its processing flag is set to false |
| MessageHandling.AsyncMessageHandler.HandleMessage | api/search_engine_manager.py:29-53 | The handler's queue, last message and stop flag change as `Handle` says |
| MessageHandling.AsyncMessageHandler.Stop | api/search_engine_manager.py:55-59 | Sets the stop flag and clears the session's processing flag if it has one; nothing else in the tables changes |
| SearchEngineManager.SendStripsFirst | api/search_engine_manager.py:86-96 | Stripping and dropping a blank message before the handler, as `send_message` does, gives the same state as handing the message over as it is |
| SearchEngineManager.AsyncScrapeContent | api/search_engine_manager.py:132-142 | Every URL asked for joins `searched_urls`, scraped or not; the pages and calls are those of the base step |
| SearchEngineManager.AsyncSearchFacts | api/search_engine_manager.py:175-247 | At most `max_attempts` passes, every one before the last retrying; at most twelve model calls and one search per pass plus one synthesis call; `searched_urls` only grows, and only by fetchable URLs; the result is the stop notice, a pass's answer, or after all passes the synthesized answer |
| SearchEngineManager.StopBeforeSearch | api/search_engine_manager.py:175-186 | A stop set before the search begins returns "Search stopped by user" with no model call, no search, nothing delivered, and `searched_urls` and the last query unchanged |
| SearchEngineManager.FinallyNeverReportsStop | api/search_engine_manager.py:242-247 | The `finally` clause delivers "Search completed" or nothing; it never delivers "Search stopped" |
| SearchEngineManager.AsyncEmptyQueryRetries | api/search_engine_manager.py:110-120 | An empty formulated query reaches the engine's search step, which searches nothing, so the pass retries with no call made |
| SearchEngineManager.AsyncSearchMirrors | api/search_engine_manager.py:175-247 | With no stop requested, the engine makes exactly the model calls and searches of the base controller's `search_and_improve`, runs as many passes and returns the same answer |
| SearchEngineManager.AsyncSearchEngine.constructor | api/search_engine_manager.py:63-74 | The handler registers the session's queue; `max_attempts` comes from the settings, else 5; no stop, no URLs searched, no query yet |
| SearchEngineManager.AsyncSearchEngine.ShouldStop | api/search_engine_manager.py:76-78 | Returns whether the flag is set, once an outside stop landing at this read is applied |
| SearchEngineManager.AsyncSearchEngine.Stop | api/search_engine_manager.py:80-84 | Sets the flag and stops the handler |
| SearchEngineManager.AsyncSearchEngine.SendMessage | api/search_engine_manager.py:86-96 | The state afterwards is `Send`'s: nothing reaches the handler once the flag reads as set |
| SearchEngineManager.AsyncSearchEngine.FormulateQuery | api/search_engine_manager.py:99-108 | Reports around the base step, re-raising its exception, as `AsyncFormulateQuery` says |
| SearchEngineManager.AsyncSearchEngine.PerformSearch | api/search_engine_manager.py:110-120 | Records the query and window, then reports around the base step, as `AsyncPerformSearch` says |
| SearchEngineManager.AsyncSearchEngine.SelectRelevantPages | api/search_engine_manager.py:122-130 | Reports around the base step, as `AsyncSelectRelevantPages` says |
| SearchEngineManager.AsyncSearchEngine.ScrapeContent | api/search_engine_manager.py:132-142 | Reports around the base step and adds the URLs to `searched_urls`, as `AsyncScrapeContent` says |
| SearchEngineManager.AsyncSearchEngine.EvaluateScrapedContent | api/search_engine_manager.py:144-153 | Reports around the base step, as `AsyncEvaluateScrapedContent` says |
| SearchEngineManager.AsyncSearchEngine.GenerateFinalAnswer | api/search_engine_manager.py:155-163 | Reports around the base step, as `AsyncGenerateFinalAnswer` says |
| SearchEngineManager.AsyncSearchEngine.SynthesizeFinalAnswer | api/search_engine_manager.py:165-173 | Reports around the base step, as `AsyncSynthesizeFinalAnswer` says |
| SearchEngineManager.AsyncSearchEngine.AttemptLoop | api/search_engine_manager.py:180-232 | The `while` loop follows `AsyncLoopWith` over the engine's pass |
| SearchEngineManager.AsyncSearchEngine.Finish | api/search_engine_manager.py:242-247 | The `finally` clause, as `Finally` says |
| SearchEngineManager.AsyncPassStops | api/search_engine_manager.py:184-221 | A pass of the engine's loop returns the stop notice only after `should_stop()` has read the flag as set, so the flag is then set |
| SearchEngineManager.AsyncLoopWithStops | api/search_engine_manager.py:180-232 | When the loop ends on a pass that returned the stop notice, the flag is set |
| SearchEngineManager.StopMeansStopNotice | api/search_engine_manager.py:184-235 | When the stop flag is set by the end of the loop and no pass returned an answer, the result is the stop notice; when the flag is never set, the result is the last pass's answer or, after every pass retried, the synthesized answer, never the stop notice |
| SearchEngineManager.AsyncSearchEngine.SearchAndImprove | api/search_engine_manager.py:175-247 | Returns the result and leaves the state of `AsyncSearch`, whose properties `AsyncSearchFacts` and `StopMeansStopNotice` state; the shared tables keep their queues |
| SessionManagement.SessionIdRoundTrip | api/session_manager.py:20-24 | A session id is fifteen characters with `_` at position 8, and reading its fields back gives the clock reading |
| SessionManagement.SessionIdsDiffer | api/session_manager.py:20-24 | Two sessions get the same id exactly when they are created in the same second |
| SessionManagement.ActiveAfterStatus | api/session_manager.py:97-113 | Setting a session's status moves that session in or out of the active sessions and leaves the others alone |
| SessionManagement.ActiveAfterRemove | api/session_manager.py:82-113 | Removing a session removes it from the active sessions and nothing else |
| SessionManagement.Future.Cancel | api/session_manager.py:74-77 | A task that has not started is cancelled; a running or finished one is not |
| SessionManagement.Executor.Submit | api/session_manager.py:59-61 | A task is queued in submission order; after shutdown, submission raises and changes nothing |
| SessionManagement.Executor.Shutdown | api/session_manager.py:141 | `shutdown(wait=False)` refuses new work and leaves queued tasks alone |
| SessionManagement.SessionManager.constructor | api/session_manager.py:12-18 | No sessions, no tasks, a single-worker pool |
| SessionManagement.SessionManager.CreateSession | api/session_manager.py:20-24 | The id is the clock reading to the second, and reads back as that reading |
| SessionManagement.SessionManager.InitializeSession | api/session_manager.py:26-47 | A fresh engine with the request's settings, registered in the shared tables; the session is stored with the request's query, mode and settings and status "starting", and is active |
| SessionManagement.SessionManager.GetSession | api/session_manager.py:49-51 | The stored session, or none for an unknown id |
| SessionManagement.SessionManager.StartResearch | api/session_manager.py:53-62 | An unknown id raises "Session not found" and changes nothing; otherwise the engine's search is queued and recorded as the session's task |
| SessionManagement.SessionManager.StopResearch | api/session_manager.py:64-80 | An unknown id raises and changes nothing; otherwise the engine is stopped, a task not yet started is cancelled, the task is forgotten, the status becomes "stopped", the session leaves the active ones, the session's processing flag in the shared tables is cleared, and no other session or queue changes |
| SessionManagement.SessionManager.CleanupSession | api/session_manager.py:82-95 | A known session's engine is stopped, its task cancelled if not started, its processing flag cleared, and both are forgotten; an unknown id leaves the sessions, the tasks and the shared tables as they were; only that session's engine, handler and task can change |
| SessionManagement.SessionManager.UpdateSessionStatus | api/session_manager.py:97-100 | Only that session's status changes, keeping the manager's invariant; an unknown id changes nothing |
| SessionManagement.SessionManager.GetSessionStatus | api/session_manager.py:102-105 | The stored status, or none for an unknown id |
| SessionManagement.SessionManager.PauseSession | api/session_manager.py:115-124 | An unknown id raises and changes nothing; otherwise only the status changes, to "paused"; the manager's invariant is kept |
| SessionManagement.SessionManager.ResumeSession | api/session_manager.py:126-135 | An unknown id raises and changes nothing; otherwise only the status changes, to "running"; the manager's invariant is kept |
| SessionManagement.ClearOneMore | api/session_manager.py:139-140 | Cleaning up one more session of the `shutdown` loop clears that session's processing flag, if it has one, and no other flag |
| SessionManagement.SessionManager.Shutdown | api/session_manager.py:137-141 | Every session is cleaned up, so every engine is stopped and no task is left waiting to start; afterwards there are no sessions and no tasks; every old session's processing flag is cleared and every other flag and every message queue is kept; the pool refuses new work but keeps the work already queued (`wait=False`) |

## Left out

- Logging, `OutputRedirector` and colorama output: these are process-wide I/O with no effect on results.
- The language model (`llm_wrapper.py`), the DuckDuckGo search, and `web_scraper.can_fetch`/`get_web_content`: these are scripted oracles. `web_scraper` is not part of this model, and neither is the network, retries with `time.sleep`, or the real replies.
- MessageHandling.HandleAllFresh, MessageHandling.QueueFromFresh: they describe what the handler has put on the queue with nothing taken off it. The WebSocket consumer, which drains the queue and may put messages back, is not modelled; with it, the real queue can hold a message it has already forwarded next to a repeat of it.
- SearchSteps.PerformSearchFacts: the search oracle either returns hits or fails inside the step's own `try`. The import of `duckduckgo_search` and the `DDGS()` context sit outside that `try` (Self_Improving_Search.py:267-269), so in the source a failure there raises out of the step. The engine's override would then report "Search error", re-raise (api/search_engine_manager.py:118-120), and the loop would retry after "Error during search". That path is not modelled.
- ResponseParsing.FormatResultsListsEveryResult: a search hit (`Hit`, `SearchResult`) always has a title, a snippet and a URL. The `'N/A'` defaults of `format_results` for a missing key (Self_Improving_Search.py:359-361) are not modelled, nor is the `KeyError` that a hit without `href` would raise when pages are selected.
- The fetch oracle never raises: `can_fetch` and `get_web_content` always reply. So the error branch of the engine's `scrape_content` (api/search_engine_manager.py:140-142) and a pass failing on a raising fetch are not modelled.
- SearchSteps.ScrapeContentFacts: `get_web_content([url])` is taken to reply with either nothing or the single entry `{url: text}`. A reply keyed by other URLs, or with several entries, is not modelled.
- Prompt text: a prompt is a `Prompt` value holding only the inputs it embeds, not the fixed instruction text.
- `SearchMessage` timestamps and its `data` payload: a message is a kind and a text.
- Unicode: the regular-expression classes `\s` and `\d`, `str.split`, `str.strip` and `str.lower` are modelled on the ASCII range: whitespace is space, `\t` to `\r` and the separators 0x1C to 0x1F, digits are 0-9 and letters are ASCII letters. Non-ASCII whitespace (such as U+0085, U+00A0 or U+2003), non-ASCII digits and non-ASCII case folding are not modelled.
- Threads: the stop request from another thread lands at one numbered read of the stop flag (`Env.stopAt`). Interleavings inside a step are not modelled. The thread pool runs nothing: a task is created pending and the model only ever moves it to cancelled. The states started and finished, which a worker thread would reach, are never entered, so what cancellation does to a running task is stated but never exercised.
- `display_search_results` of the base controller: it reads `last_query`, which only the cancellable subclass sets, so the first message raises and the error is logged and swallowed. The model sends nothing for it. The subclass never calls it.
- `research_paused`: `AsyncSearchEngine` has no such attribute, so pausing and resuming change only the status.
- The outer `except` of the engine's `search_and_improve`: every step is inside the loop's own `try`, and synthesis swallows its errors, so no modelled path reaches it.
- The `parser` object is stored but never used by the modelled code, so it is not modelled.
- The WebSocket manager, the FastAPI routers, the sqlite database and the command-line front end are outside this model.
- `SessionManagement.SessionId`: the clock is a `DateTime` parameter; `datetime.now()` is not modelled.
