/**
 * The services the search controller calls and cannot see into: the text-generation
 * model (`llm.generate`), the web search provider (`DDGS().text`) and the page fetcher
 * (`can_fetch`, `get_web_content`). Each is a scripted oracle: the n-th call to the
 * model gets the n-th scripted reply, the n-th search the n-th scripted result list,
 * and fetching is a lookup in a fixed table. Every call to the model and to the search
 * provider is logged, so contracts can count and inspect them.
 */
module Ports {
  import opened Wrappers

  /** What `llm.generate` does with one prompt: returns text or raises. */
  datatype Reply = Text(text: string) | Raised(error: string)

  /** One search hit as the provider returns it. */
  datatype Hit = Hit(title: string, body: string, href: string)

  /** What one search does: a list of hits, or an exception. */
  datatype SearchReply = Hits(hits: seq<Hit>) | SearchFailed(error: string)

  /** The data each prompt embeds; its fixed instruction text is not part of the model. */
  datatype Prompt =
    | QueryPrompt(question: string)
    | SelectionPrompt(question: string, results: string)
    | EvaluationPrompt(question: string, content: string)
    | AnswerPrompt(question: string, content: string)
    | SynthesisPrompt(question: string)

  /** One call of `llm.generate(prompt, max_tokens=…, stop=…)`. */
  datatype LlmCall = LlmCall(prompt: Prompt, maxTokens: int, stop: Option<seq<string>>)

  /** One call of `ddgs.text(query, timelimit=…, max_results=…)`. */
  datatype SearchCall = SearchCall(query: string, timeLimit: Option<string>, maxResults: nat)

  /** The calls made so far, oldest first. */
  datatype Calls = Calls(llm: seq<LlmCall>, search: seq<SearchCall>)

  /** The scripts the oracles follow, and the fetcher's fixed tables. */
  datatype World = World(replies: seq<Reply>, searchReplies: seq<SearchReply>,
                         allowed: set<string>, pages: map<string, string>)

  const ScriptExhausted: string := "no scripted reply left"

  /** The reply to the model call with index `i`; once the script runs out the model raises. */
  function ReplyAt(w: World, i: nat): Reply {
    if i < |w.replies| then w.replies[i] else Raised(ScriptExhausted)
  }

  /** The reply to the next model call after `calls`. */
  function NextReply(w: World, calls: Calls): Reply {
    ReplyAt(w, |calls.llm|)
  }

  /** The result of the search with index `i`; once the script runs out searches find nothing. */
  function SearchReplyAt(w: World, i: nat): SearchReply {
    if i < |w.searchReplies| then w.searchReplies[i] else Hits([])
  }

  function NextSearchReply(w: World, calls: Calls): SearchReply {
    SearchReplyAt(w, |calls.search|)
  }

  /** `can_fetch(url)`: whether robots.txt lets the fetcher read the page. */
  function CanFetch(w: World, url: string): bool {
    url in w.allowed
  }

  /** `get_web_content([url])`: the page's text, or nothing when it cannot be fetched. */
  function WebContent(w: World, url: string): Option<string> {
    if url in w.pages then Some(w.pages[url]) else None
  }

  function AfterLlm(calls: Calls, call: LlmCall): Calls {
    calls.(llm := calls.llm + [call])
  }

  function AfterSearch(calls: Calls, call: SearchCall): Calls {
    calls.(search := calls.search + [call])
  }

  /** The live oracles: the scripts and a log of the calls made to them. */
  class Backend {
    const world: World
    var calls: Calls

    constructor(world: World)
      ensures this.world == world && calls == Calls([], [])
    {
      this.world := world;
      calls := Calls([], []);
    }

    /** `llm.generate`: answers with the next scripted reply and logs the call. */
    method Generate(call: LlmCall) returns (r: Reply)
      modifies this
      ensures r == NextReply(world, old(calls))
      ensures calls == AfterLlm(old(calls), call)
    {
      r := NextReply(world, calls);
      calls := AfterLlm(calls, call);
    }

    /** `ddgs.text`: answers with the next scripted result list and logs the call. */
    method Search(call: SearchCall) returns (r: SearchReply)
      modifies this
      ensures r == NextSearchReply(world, old(calls))
      ensures calls == AfterSearch(old(calls), call)
    {
      r := NextSearchReply(world, calls);
      calls := AfterSearch(calls, call);
    }
  }
}
