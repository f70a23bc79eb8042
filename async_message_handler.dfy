/**
 * `AsyncMessageHandler` (api/search_engine_manager.py): the message sink of the cancellable
 * search engine. It drops everything once stopped, strips each message, drops blank ones and
 * one that repeats the last accepted message, and puts the rest on a queue bounded at 1000
 * entries that the WebSocket side drains. The queue and the processing flag are registered
 * in two dictionaries shared with that side, keyed by session id.
 */
module MessageHandling {
  import opened Wrappers
  import opened Strings
  import opened SearchSteps

  const MaxQueueSize: nat := 1000

  /** What the handler holds: its queue's contents, the last accepted message, the stop flag. */
  datatype HandlerState = HandlerState(queue: seq<Message>, last: Option<Message>, stopped: bool)

  const FreshHandler: HandlerState := HandlerState([], None, false)

  /** `handle_message`. A message accepted while the queue is full is dropped, but it has
      already become the last accepted message. */
  function Handle(h: HandlerState, m: Message): HandlerState {
    if h.stopped then h
    else
      var text := Strip(m.text);
      if text == [] then h
      else
        var msg := Message(m.kind, text);
        if h.last == Some(msg) then h
        else h.(last := Some(msg), queue := if |h.queue| < MaxQueueSize then h.queue + [msg] else h.queue)
  }

  /** The handler's state after `ms` were handed to it, in order. */
  function HandleAll(h: HandlerState, ms: seq<Message>): HandlerState
    decreases |ms|
  {
    if ms == [] then h else Handle(HandleAll(h, ms[..|ms| - 1]), ms[|ms| - 1])
  }

  // ------------------------------------------------------------ a reference definition

  /** The non-blank messages of `ms`, stripped. */
  function Cleaned(ms: seq<Message>): seq<Message>
    decreases |ms|
  {
    if ms == [] then []
    else
      var m := ms[|ms| - 1];
      Cleaned(ms[..|ms| - 1]) + if IsBlank(m.text) then [] else [Message(m.kind, Strip(m.text))]
  }

  /** `xs` with every element equal to the one before it left out. */
  function Collapse<T(==)>(xs: seq<T>): seq<T>
    decreases |xs|
  {
    if |xs| <= 1 then xs
    else Collapse(xs[..|xs| - 1]) + if xs[|xs| - 1] == xs[|xs| - 2] then [] else [xs[|xs| - 1]]
  }

  function LastOf<T>(xs: seq<T>): Option<T> {
    if xs == [] then None else Some(xs[|xs| - 1])
  }

  predicate NoAdjacentDuplicates<T(==)>(xs: seq<T>) {
    forall i :: 0 < i < |xs| ==> xs[i - 1] != xs[i]
  }

  /** Stripped and not blank: what the handler lets through. */
  predicate Trimmed(m: Message) {
    m.text != [] && Strip(m.text) == m.text
  }

  lemma StripTwice(s: string)
    ensures Strip(Strip(s)) == Strip(s)
  {
    if Strip(s) != [] {
      StripTrimmed(Strip(s));
    }
  }

  lemma {:induction false} CleanedTrimmed(ms: seq<Message>)
    ensures forall m :: m in Cleaned(ms) ==> Trimmed(m)
    decreases |ms|
  {
    if ms != [] {
      CleanedTrimmed(ms[..|ms| - 1]);
      StripTwice(ms[|ms| - 1].text);
    }
  }

  /** Collapsing keeps the first and the last element and leaves no two neighbours equal;
      every element it keeps comes from `xs`. */
  lemma {:induction false} CollapseFacts<T>(xs: seq<T>)
    ensures |Collapse(xs)| <= |xs|
    ensures LastOf(Collapse(xs)) == LastOf(xs)
    ensures NoAdjacentDuplicates(Collapse(xs))
    ensures forall i :: 0 <= i < |Collapse(xs)| ==> Collapse(xs)[i] in xs
    decreases |xs|
  {
    if |xs| > 1 {
      var init := xs[..|xs| - 1];
      CollapseFacts(init);
      assert forall x :: x in init ==> x in xs;
    }
  }

  // ------------------------------------------------------------ properties

  /** A stopped handler ignores every message. */
  lemma {:induction false} HandleAllStopped(h: HandlerState, ms: seq<Message>)
    requires h.stopped
    ensures HandleAll(h, ms) == h
    decreases |ms|
  {
    if ms != [] {
      HandleAllStopped(h, ms[..|ms| - 1]);
    }
  }

  lemma CollapseSnoc<T>(xs: seq<T>, x: T)
    ensures Collapse(xs + [x]) == if LastOf(xs) == Some(x) then Collapse(xs) else Collapse(xs) + [x]
  {
    if xs != [] {
      assert (xs + [x])[..|xs|] == xs;
    }
  }

  lemma TakeSnoc<T>(xs: seq<T>, x: T, n: nat)
    ensures Take(xs + [x], n) == if |xs| < n then xs + [x] else Take(xs, n)
  {
    if |xs| >= n {
      assert (xs + [x])[..n] == xs[..n];
    }
  }

  /** One more message handed to a handler in the state the reference definition predicts. */
  lemma HandleReference(c: seq<Message>, m: Message)
    ensures var h := HandlerState(Take(Collapse(c), MaxQueueSize), LastOf(c), false);
      var c' := c + if IsBlank(m.text) then [] else [Message(m.kind, Strip(m.text))];
      Handle(h, m) == HandlerState(Take(Collapse(c'), MaxQueueSize), LastOf(c'), false)
  {
    if !IsBlank(m.text) {
      var msg := Message(m.kind, Strip(m.text));
      CollapseFacts(c);
      CollapseSnoc(c, msg);
      TakeSnoc(Collapse(c), msg, MaxQueueSize);
    } else {
      assert c + [] == c;
    }
  }

  /** From a fresh handler, the queue holds the first 1000 of the stripped, non-blank
      messages with consecutive repeats collapsed, and the last accepted message is the last
      non-blank one, whether or not the queue had room for it. */
  lemma {:induction false} HandleAllFresh(ms: seq<Message>)
    ensures HandleAll(FreshHandler, ms) ==
            HandlerState(Take(Collapse(Cleaned(ms)), MaxQueueSize), LastOf(Cleaned(ms)), false)
    decreases |ms|
  {
    if ms != [] {
      HandleAllFresh(ms[..|ms| - 1]);
      HandleReference(Cleaned(ms[..|ms| - 1]), ms[|ms| - 1]);
    }
  }

  /** What a fresh handler's queue can hold: at most 1000 stripped, non-blank messages, no
      two neighbours equal, each one of the messages handed in, stripped. */
  lemma QueueFromFresh(ms: seq<Message>)
    ensures var q := HandleAll(FreshHandler, ms).queue;
      |q| <= MaxQueueSize && NoAdjacentDuplicates(q) &&
      (forall i :: 0 <= i < |q| ==> Trimmed(q[i])) &&
      (forall i :: 0 <= i < |q| ==> q[i] in Cleaned(ms))
  {
    HandleAllFresh(ms);
    CleanedTrimmed(ms);
    CollapseFacts(Cleaned(ms));
    TakeKeeps(Collapse(Cleaned(ms)), MaxQueueSize);
  }

  lemma TakeKeeps<T>(xs: seq<T>, n: nat)
    ensures |Take(xs, n)| <= n
    ensures forall i :: 0 <= i < |Take(xs, n)| ==> Take(xs, n)[i] == xs[i]
  {
  }

  /** The overflow case: the queue is full, so the message is lost, yet a repeat of it that
      arrives once the queue has room is dropped as a duplicate. */
  lemma OverflowStillRecorded(h: HandlerState, m: Message)
    requires !h.stopped && !IsBlank(m.text) && |h.queue| >= MaxQueueSize
    ensures var once := Handle(h, m);
      once.queue == h.queue && once.last == Some(Message(m.kind, Strip(m.text))) &&
      Handle(once.(queue := []), m).queue == []
  {
    StripTwice(m.text);
  }

  // ------------------------------------------------------------ the objects

  /** A `queue.Queue` with a maximum size. */
  class MessageQueue {
    const maxSize: nat
    var items: seq<Message>

    constructor(maxSize: nat)
      ensures this.maxSize == maxSize && items == []
    {
      this.maxSize := maxSize;
      items := [];
    }

    /** `put_nowait`: `full` is the `queue.Full` exception, raised when there is no room. */
    method PutNowait(m: Message) returns (full: bool)
      modifies this
      ensures full <==> |old(items)| >= maxSize
      ensures items == if full then old(items) else old(items) + [m]
    {
      full := |items| >= maxSize;
      if !full {
        items := items + [m];
      }
    }
  }

  /** The `message_queues` and `message_processing_tasks` dictionaries shared with the
      WebSocket side. */
  class SessionTables {
    var queues: map<string, MessageQueue>
    var processing: map<string, bool>

    constructor()
      ensures queues == map[] && processing == map[]
    {
      queues := map[];
      processing := map[];
    }
  }

  /** `after` has the sessions of `before` and their flags, except that the flag of `id` may
      have been cleared. */
  predicate ProcessingReset(before: map<string, bool>, after: map<string, bool>, id: string) {
    after.Keys == before.Keys &&
    (forall k :: k in after && k != id ==> after[k] == before[k]) &&
    (id in after ==> after[id] == before[id] || !after[id])
  }

  lemma ProcessingResetTrans(a: map<string, bool>, b: map<string, bool>, c: map<string, bool>, id: string)
    requires ProcessingReset(a, b, id) && ProcessingReset(b, c, id)
    ensures ProcessingReset(a, c, id)
  {
  }

  class AsyncMessageHandler {
    const sessionId: string
    const queue: MessageQueue
    const tables: SessionTables
    var last: Option<Message>
    var stopped: bool

    predicate Valid() {
      queue.maxSize == MaxQueueSize
    }

    function View(): HandlerState
      reads this, queue
    {
      HandlerState(queue.items, last, stopped)
    }

    /** Registers a new empty queue under `sessionId` and marks it as not being processed. */
    constructor(sessionId: string, tables: SessionTables)
      modifies tables
      ensures Valid() && View() == FreshHandler && fresh(queue)
      ensures this.sessionId == sessionId && this.tables == tables
      ensures tables.queues == old(tables.queues)[sessionId := queue]
      ensures tables.processing == old(tables.processing)[sessionId := false]
    {
      this.sessionId := sessionId;
      this.tables := tables;
      var q := new MessageQueue(MaxQueueSize);
      queue := q;
      last := None;
      stopped := false;
      new;
      tables.queues := tables.queues[sessionId := q];
      tables.processing := tables.processing[sessionId := false];
    }

    /** `handle_message` */
    method HandleMessage(m: Message)
      requires Valid()
      modifies this, queue
      ensures View() == Handle(old(View()), m)
    {
      if stopped {
        return;
      }
      var text := Strip(m.text);
      if text == [] {
        return;
      }
      var msg := Message(m.kind, text);
      if last == Some(msg) {
        return;
      }
      last := Some(msg);
      var full := queue.PutNowait(msg);
    }

    /** `stop` */
    method Stop()
      modifies this, tables
      ensures stopped && last == old(last)
      ensures tables.queues == old(tables.queues)
      ensures tables.processing ==
              if sessionId in old(tables.processing) then old(tables.processing)[sessionId := false]
              else old(tables.processing)
    {
      stopped := true;
      if sessionId in tables.processing {
        tables.processing := tables.processing[sessionId := false];
      }
    }
  }
}
