/**
 * `SessionManager` (api/session_manager.py): the table of research sessions behind the web
 * API. Each session owns a cancellable search engine; a research run is a task handed to a
 * single-worker thread pool; stopping, cleaning up and shutting down stop the engines and
 * cancel the tasks that have not started.
 */
module SessionManagement {
  import opened Wrappers
  import opened Strings
  import opened Ports
  import opened SearchSteps
  import opened MessageHandling
  import opened SearchEngineManager

  // ------------------------------------------------------------ session ids

  /** A clock reading, as `datetime.now()` gives it. */
  datatype DateTime = DateTime(year: nat, month: nat, day: nat, hour: nat, minute: nat, second: nat)

  /** The ranges of a `datetime`, with a four-digit year. */
  predicate ValidDateTime(t: DateTime) {
    1000 <= t.year <= 9999 && 1 <= t.month <= 12 && 1 <= t.day <= 31 &&
    t.hour < 24 && t.minute < 60 && t.second < 60
  }

  function Pow10(n: nat): nat {
    if n == 0 then 1 else 10 * Pow10(n - 1)
  }

  predicate AllDigits(s: string) {
    forall i :: 0 <= i < |s| ==> IsDigit(s[i])
  }

  /** The last `width` decimal digits of `n`, zero-filled: `strftime`'s `%m`, `%d`, ... */
  function Padded(n: nat, width: nat): (s: string)
    ensures |s| == width && AllDigits(s)
  {
    if width == 0 then [] else Padded(n / 10, width - 1) + [DigitChar(n % 10)]
  }

  /** Reading a zero-filled field back gives the number, when it fits. */
  lemma {:induction false} PaddedValue(n: nat, width: nat)
    requires n < Pow10(width)
    ensures DigitsValue(Padded(n, width)) == n
  {
    if width > 0 {
      var s := Padded(n, width);
      assert s[..|s| - 1] == Padded(n / 10, width - 1);
      PaddedValue(n / 10, width - 1);
    }
  }

  /** `create_session`: the clock reading formatted as `%Y%m%d_%H%M%S`. */
  function SessionId(t: DateTime): (id: string)
    requires ValidDateTime(t)
  {
    Padded(t.year, 4) + Padded(t.month, 2) + Padded(t.day, 2) + "_" +
    Padded(t.hour, 2) + Padded(t.minute, 2) + Padded(t.second, 2)
  }

  /** The inverse of `SessionId`: a reference reading of the id's six fields. */
  function ParseSessionId(id: string): Option<DateTime> {
    if |id| == 15 && id[8] == '_' && AllDigits(id[0..4]) && AllDigits(id[4..6]) && AllDigits(id[6..8]) &&
       AllDigits(id[9..11]) && AllDigits(id[11..13]) && AllDigits(id[13..15])
    then Some(DateTime(DigitsValue(id[0..4]), DigitsValue(id[4..6]), DigitsValue(id[6..8]),
                       DigitsValue(id[9..11]), DigitsValue(id[11..13]), DigitsValue(id[13..15])))
    else None
  }

  /** A session id is fifteen characters, digits around an underscore, and gives the clock
      reading back. */
  lemma SessionIdRoundTrip(t: DateTime)
    requires ValidDateTime(t)
    ensures |SessionId(t)| == 15 && SessionId(t)[8] == '_'
    ensures ParseSessionId(SessionId(t)) == Some(t)
  {
    var id := SessionId(t);
    assert id[0..4] == Padded(t.year, 4);
    assert id[4..6] == Padded(t.month, 2);
    assert id[6..8] == Padded(t.day, 2);
    assert id[9..11] == Padded(t.hour, 2);
    assert id[11..13] == Padded(t.minute, 2);
    assert id[13..15] == Padded(t.second, 2);
    PaddedValue(t.year, 4);
    PaddedValue(t.month, 2);
    PaddedValue(t.day, 2);
    PaddedValue(t.hour, 2);
    PaddedValue(t.minute, 2);
    PaddedValue(t.second, 2);
  }

  /** Sessions created at different seconds get different ids; two created within the same
      second share one. */
  lemma SessionIdsDiffer(t1: DateTime, t2: DateTime)
    requires ValidDateTime(t1) && ValidDateTime(t2)
    ensures SessionId(t1) == SessionId(t2) <==> t1 == t2
  {
    SessionIdRoundTrip(t1);
    SessionIdRoundTrip(t2);
  }

  // ------------------------------------------------------------ sessions

  /** `ResearchRequest` (api/models.py). */
  datatype ResearchRequest = ResearchRequest(query: string, mode: string, settings: Option<SearchSettings>)

  /** The session dictionary: its query, mode, status, engine and settings. */
  datatype Session = Session(query: string, mode: string, status: string, engine: AsyncSearchEngine,
                             settings: Option<SearchSettings>)

  const Starting: string := "starting"
  const Stopped: string := "stopped"
  const Paused: string := "paused"
  const Running: string := "running"
  const SessionNotFound: string := "Session not found"

  /** A session counts as active unless it has completed, stopped or failed. */
  predicate IsActive(status: string) {
    status != "completed" && status != "stopped" && status != "error"
  }

  /** `get_active_sessions` */
  function Active(sessions: map<string, Session>): map<string, Session> {
    map id | id in sessions && IsActive(sessions[id].status) :: sessions[id]
  }

  /** Setting one session's status moves that session in or out of the active ones and
      leaves the others where they were. */
  lemma ActiveAfterStatus(sessions: map<string, Session>, id: string, status: string)
    requires id in sessions
    ensures var after := sessions[id := sessions[id].(status := status)];
      Active(after) == if IsActive(status) then Active(sessions)[id := after[id]] else Active(sessions) - {id}
  {
    var after := sessions[id := sessions[id].(status := status)];
    if IsActive(status) {
      assert Active(after).Keys == Active(sessions).Keys + {id};
    } else {
      assert Active(after).Keys == Active(sessions).Keys - {id};
    }
  }

  /** Removing a session removes it from the active ones and nothing else. */
  lemma ActiveAfterRemove(sessions: map<string, Session>, id: string)
    ensures Active(sessions - {id}) == Active(sessions) - {id}
  {
    assert Active(sessions - {id}).Keys == Active(sessions).Keys - {id};
  }

  // ------------------------------------------------------------ the thread pool

  /** The states of a `concurrent.futures.Future`. */
  datatype FutureState = Pending | Started | Finished | Cancelled

  /** The task that runs one engine's `search_and_improve` on one query. */
  class Future {
    const engine: AsyncSearchEngine
    const query: string
    var state: FutureState

    constructor(engine: AsyncSearchEngine, query: string)
      ensures this.engine == engine && this.query == query && state == Pending
    {
      this.engine := engine;
      this.query := query;
      state := Pending;
    }

    /** `cancel`: a task that has not started is cancelled; one that is running or done is
        not. */
    method Cancel() returns (ok: bool)
      modifies this
      ensures ok <==> old(state) == Pending || old(state) == Cancelled
      ensures state == if old(state) == Pending then Cancelled else old(state)
    {
      ok := state == Pending || state == Cancelled;
      if state == Pending {
        state := Cancelled;
      }
    }
  }

  const ShutdownError: string := "cannot schedule new futures after shutdown"

  /** A `ThreadPoolExecutor`: its work queue, in submission order, and its shutdown flag. */
  class Executor {
    const maxWorkers: nat
    var work: seq<Future>
    var isShutdown: bool

    constructor(maxWorkers: nat)
      ensures this.maxWorkers == maxWorkers && work == [] && !isShutdown
    {
      this.maxWorkers := maxWorkers;
      work := [];
      isShutdown := false;
    }

    /** `submit`: refused once the pool is shut down. */
    method Submit(engine: AsyncSearchEngine, query: string) returns (r: Outcome<Future>)
      modifies this
      ensures isShutdown == old(isShutdown)
      ensures old(isShutdown) ==> r == Threw(ShutdownError) && work == old(work)
      ensures !old(isShutdown) ==>
                r.Returned? && fresh(r.value) && r.value.engine == engine && r.value.query == query &&
                r.value.state == Pending && work == old(work) + [r.value]
    {
      if isShutdown {
        return Threw(ShutdownError);
      }
      var f := new Future(engine, query);
      work := work + [f];
      r := Returned(f);
    }

    /** `shutdown(wait=False)`: queued tasks are left to run. */
    method Shutdown()
      modifies this
      ensures isShutdown && work == old(work)
    {
      isShutdown := true;
    }
  }

  // ------------------------------------------------------------ the manager

  /** The processing flags once the sessions in `gone` have been cleaned up: each of their
      flags is cleared, every other flag is kept. */
  ghost function ClearedFlags(processing: map<string, bool>, gone: set<string>): map<string, bool> {
    map k | k in processing :: if k in gone then false else processing[k]
  }

  /** Cleaning up one more of the sessions `all` still `left` clears its flag, if it has one,
      and nothing else. */
  lemma ClearOneMore(processing: map<string, bool>, all: set<string>, left: set<string>, id: string)
    requires id in all && id in left
    ensures var c := ClearedFlags(processing, all - left);
            ClearedFlags(processing, all - (left - {id})) == if id in c then c[id := false] else c
  {
    assert all - (left - {id}) == (all - left) + {id};
  }

  class SessionManager {
    const backend: Backend
    const config: LlmConfig
    const tables: SessionTables
    const executor: Executor
    var sessions: map<string, Session>
    var activeTasks: map<string, Future>
    /** The engines, handlers and tasks the manager has handed out. */
    ghost var Repr: set<object>

    /** Every task belongs to a session; every session's engine and its handler carry the
        session's id, and the handler shares the manager's tables. */
    ghost predicate Valid()
      reads this
    {
      activeTasks.Keys <= sessions.Keys &&
      (forall id :: id in activeTasks ==> activeTasks[id] in Repr) &&
      forall id :: id in sessions ==>
        sessions[id].engine in Repr && sessions[id].engine.handler in Repr &&
        sessions[id].engine.sessionId == id &&
        sessions[id].engine.handler.sessionId == id && sessions[id].engine.handler.tables == tables
    }

    /** The objects a call about session `id` may change besides the manager and the tables. */
    ghost function Footprint(id: string): set<object>
      reads this
    {
      (if id in sessions then {sessions[id].engine as object, sessions[id].engine.handler as object} else {}) +
      (if id in activeTasks then {activeTasks[id] as object} else {})
    }

    function ActiveSessions(): map<string, Session>
      reads this
    {
      Active(sessions)
    }

    constructor(backend: Backend, config: LlmConfig, tables: SessionTables)
      ensures Valid() && this.backend == backend && this.config == config && this.tables == tables
      ensures sessions == map[] && activeTasks == map[]
      ensures fresh(executor) && executor.maxWorkers == 1 && executor.work == [] && !executor.isShutdown
    {
      this.backend := backend;
      this.config := config;
      this.tables := tables;
      executor := new Executor(1);
      sessions := map[];
      activeTasks := map[];
      Repr := {};
    }

    /** `create_session`: the id is the clock reading, to the second. */
    method CreateSession(now: DateTime) returns (id: string)
      requires ValidDateTime(now)
      ensures |id| == 15 && ParseSessionId(id) == Some(now)
    {
      id := SessionId(now);
      SessionIdRoundTrip(now);
    }

    /** `initialize_session`: a fresh engine, registered in the shared tables, and a session
        in the "starting" state; a session already under `id` is replaced, its task kept. */
    method InitializeSession(id: string, request: ResearchRequest, stopAt: Option<nat>)
      returns (engine: AsyncSearchEngine)
      requires Valid()
      modifies this, tables
      ensures Valid() && fresh(engine) && fresh(engine.handler)
      ensures sessions == old(sessions)[id := Session(request.query, request.mode, Starting, engine, request.settings)]
      ensures activeTasks == old(activeTasks) && id in ActiveSessions()
      ensures engine.base.backend == backend && engine.base.config == config && engine.stopAt == stopAt
      ensures engine.base.maxAttempts ==
              if request.settings.Some? then request.settings.value.maxAttempts else DefaultSettings.maxAttempts
      ensures engine.settings == request.settings.GetOr(DefaultSettings)
      ensures engine.State() == EngineState(backend.calls, 0, false, FreshHandler, {}, "", "")
      ensures tables.queues == old(tables.queues)[id := engine.handler.queue]
      ensures tables.processing == old(tables.processing)[id := false]
    {
      engine := new AsyncSearchEngine(backend, config, id, tables, request.settings, stopAt);
      sessions := sessions[id := Session(request.query, request.mode, Starting, engine, request.settings)];
      Repr := Repr + {engine, engine.handler};
    }

    /** `get_session` */
    function GetSession(id: string): (r: Option<Session>)
      reads this
      ensures r.Some? <==> id in sessions
      ensures r.Some? ==> r.value == sessions[id]
    {
      if id in sessions then Some(sessions[id]) else None
    }

    /** `start_research`: the engine's search is queued on the pool and recorded as the
        session's task, replacing any earlier one without cancelling it. */
    method StartResearch(id: string, query: string) returns (r: Outcome<Future>)
      requires Valid()
      modifies this, executor
      ensures Valid() && sessions == old(sessions) && executor.isShutdown == old(executor.isShutdown)
      ensures id !in sessions ==> r == Threw(SessionNotFound) && activeTasks == old(activeTasks) &&
                                  executor.work == old(executor.work)
      ensures id in sessions && executor.isShutdown ==>
                r == Threw(ShutdownError) && activeTasks == old(activeTasks) && executor.work == old(executor.work)
      ensures id in sessions && !executor.isShutdown ==>
                r.Returned? && fresh(r.value) && r.value.state == Pending &&
                r.value.engine == sessions[id].engine && r.value.query == query &&
                activeTasks == old(activeTasks)[id := r.value] && executor.work == old(executor.work) + [r.value]
    {
      var session := GetSession(id);
      if session.None? {
        return Threw(SessionNotFound);
      }
      r := executor.Submit(session.value.engine, query);
      if r.Returned? {
        activeTasks := activeTasks[id := r.value];
        Repr := Repr + {r.value};
      }
    }

    /** The shared part of `stop_research` and `cleanup_session`: stop the engine and cancel
        and forget the task. */
    method StopAndCancel(id: string)
      requires Valid() && id in sessions
      modifies this, tables, Footprint(id)
      ensures Valid() && Repr == old(Repr) && sessions == old(sessions) && activeTasks == old(activeTasks) - {id}
      ensures sessions[id].engine.stopped && sessions[id].engine.handler.stopped
      ensures id in old(activeTasks) ==>
                old(activeTasks)[id].state ==
                if old(activeTasks[id].state) == Pending then Cancelled else old(activeTasks[id].state)
      ensures tables.queues == old(tables.queues)
      ensures tables.processing == if id in old(tables.processing) then old(tables.processing)[id := false]
                                   else old(tables.processing)
    {
      sessions[id].engine.Stop();
      assert unchanged(this);
      CancelTask(id);
    }

    /** Cancels and forgets the session's task, if it has one. */
    method CancelTask(id: string)
      requires Valid()
      modifies this, if id in activeTasks then {activeTasks[id]} else {}
      ensures Valid() && Repr == old(Repr) && sessions == old(sessions) && activeTasks == old(activeTasks) - {id}
      ensures id in old(activeTasks) ==>
                old(activeTasks)[id].state ==
                if old(activeTasks[id].state) == Pending then Cancelled else old(activeTasks[id].state)
    {
      if id in activeTasks {
        var future := activeTasks[id];
        var cancelled := future.Cancel();
        activeTasks := activeTasks - {id};
      } else {
        assert activeTasks - {id} == activeTasks;
      }
    }

    /** `stop_research`: the engine is stopped, the task cancelled and forgotten, and the
        session marked "stopped", which takes it out of the active sessions. */
    method StopResearch(id: string) returns (r: Outcome<()>)
      requires Valid()
      modifies this, tables, Footprint(id)
      ensures Valid() && Repr == old(Repr)
      ensures id !in old(sessions) ==> r == Threw(SessionNotFound) && sessions == old(sessions) &&
                                       activeTasks == old(activeTasks)
      ensures id in old(sessions) ==>
                r == Returned(()) && sessions == old(sessions)[id := old(sessions)[id].(status := Stopped)] &&
                activeTasks == old(activeTasks) - {id} && sessions[id].engine.stopped &&
                ActiveSessions() == old(ActiveSessions()) - {id}
      ensures id in old(activeTasks) ==>
                old(activeTasks)[id].state ==
                if old(activeTasks[id].state) == Pending then Cancelled else old(activeTasks[id].state)
      ensures tables.queues == old(tables.queues)
      ensures tables.processing ==
              if id in old(sessions) && id in old(tables.processing) then old(tables.processing)[id := false]
              else old(tables.processing)
    {
      var session := GetSession(id);
      if session.None? {
        return Threw(SessionNotFound);
      }
      StopAndCancel(id);
      ActiveAfterStatus(sessions, id, Stopped);
      sessions := sessions[id := sessions[id].(status := Stopped)];
      r := Returned(());
    }

    /** `cleanup_session`: a known session's engine is stopped, its task cancelled, and both
        forgotten; an unknown id is ignored. */
    method CleanupSession(id: string)
      requires Valid()
      modifies this, tables, Footprint(id)
      ensures Valid() && Repr == old(Repr)
      ensures forall e: AsyncSearchEngine :: old(allocated(e)) && old(e.stopped) ==> e.stopped
      ensures forall f: Future :: old(allocated(f)) && old(f.state) != Pending ==> f.state != Pending
      // for an unknown id, removing it leaves both maps as they were
      ensures sessions == old(sessions) - {id} && activeTasks == old(activeTasks) - {id}
      ensures ActiveSessions() == old(ActiveSessions()) - {id}
      ensures id in old(sessions) ==> old(sessions)[id].engine.stopped
      ensures id in old(activeTasks) ==>
                old(activeTasks)[id].state ==
                if old(activeTasks[id].state) == Pending then Cancelled else old(activeTasks[id].state)
      ensures tables.queues == old(tables.queues)
      ensures tables.processing ==
              if id in old(sessions) && id in old(tables.processing) then old(tables.processing)[id := false]
              else old(tables.processing)
    {
      ActiveAfterRemove(sessions, id);
      if id in sessions {
        StopAndCancel(id);
        sessions := sessions - {id};
      } else {
        assert sessions - {id} == sessions && activeTasks - {id} == activeTasks;
      }
    }

    /** `update_session_status`: an unknown id is ignored. */
    method UpdateSessionStatus(id: string, status: string)
      requires Valid()
      modifies this
      ensures Valid() && Repr == old(Repr) && activeTasks == old(activeTasks)
      ensures id in old(sessions) ==> sessions == old(sessions)[id := old(sessions)[id].(status := status)]
      ensures id !in old(sessions) ==> sessions == old(sessions)
      ensures id in sessions ==> GetSessionStatus(id) == Some(status)
    {
      if id in sessions {
        sessions := sessions[id := sessions[id].(status := status)];
      }
    }

    /** `get_session_status` */
    function GetSessionStatus(id: string): (r: Option<string>)
      reads this
      ensures r.Some? <==> id in sessions
      ensures r.Some? ==> r.value == sessions[id].status
    {
      match GetSession(id)
      case Some(session) => Some(session.status)
      case None => None
    }

    /** `pause_session`. The engine has no `research_paused` attribute, so only the status
        changes. */
    method PauseSession(id: string) returns (r: Outcome<()>)
      requires Valid()
      modifies this
      ensures Valid() && Repr == old(Repr) && activeTasks == old(activeTasks)
      ensures id !in old(sessions) ==> r == Threw(SessionNotFound) && sessions == old(sessions)
      ensures id in old(sessions) ==> r == Returned(()) && sessions == old(sessions)[id := old(sessions)[id].(status := Paused)]
    {
      var session := GetSession(id);
      if session.None? {
        return Threw(SessionNotFound);
      }
      sessions := sessions[id := session.value.(status := Paused)];
      r := Returned(());
    }

    /** `resume_session`, likewise. */
    method ResumeSession(id: string) returns (r: Outcome<()>)
      requires Valid()
      modifies this
      ensures Valid() && Repr == old(Repr) && activeTasks == old(activeTasks)
      ensures id !in old(sessions) ==> r == Threw(SessionNotFound) && sessions == old(sessions)
      ensures id in old(sessions) ==> r == Returned(()) && sessions == old(sessions)[id := old(sessions)[id].(status := Running)]
    {
      var session := GetSession(id);
      if session.None? {
        return Threw(SessionNotFound);
      }
      sessions := sessions[id := session.value.(status := Running)];
      r := Returned(());
    }

    /** One round of `shutdown`'s loop: clean up one of the sessions still left, keeping the
        loop's invariant relative to the sessions and tasks the loop started from. */
    method ShutdownStep(id: string, ghost sessions0: map<string, Session>, ghost tasks0: map<string, Future>)
      requires Valid() && id in sessions && sessions.Keys <= sessions0.Keys
      requires forall i :: i in sessions ==> sessions[i] == sessions0[i]
      requires forall i :: i in activeTasks ==> i in tasks0 && activeTasks[i] == tasks0[i]
      requires forall i :: i in sessions0 && i !in sessions ==> sessions0[i].engine.stopped
      requires forall i :: i in tasks0 && i !in activeTasks ==> tasks0[i].state != Pending
      modifies this, tables, Footprint(id)
      ensures Valid() && Repr == old(Repr) && sessions.Keys == old(sessions.Keys) - {id}
      ensures forall i :: i in sessions ==> sessions[i] == sessions0[i]
      ensures forall i :: i in activeTasks ==> i in tasks0 && activeTasks[i] == tasks0[i]
      ensures forall i :: i in sessions0 && i !in sessions ==> sessions0[i].engine.stopped
      ensures forall i :: i in tasks0 && i !in activeTasks ==> tasks0[i].state != Pending
      ensures tables.queues == old(tables.queues)
      ensures tables.processing ==
              if id in old(tables.processing) then old(tables.processing)[id := false] else old(tables.processing)
      ensures executor.work == old(executor.work)
    {
      CleanupSession(id);
    }

    /** `shutdown`: every session is cleaned up, so every engine is stopped and no task is
        left waiting to start, and the pool refuses new work. */
    method Shutdown()
      requires Valid()
      modifies this, tables, executor, Repr
      ensures Valid() && sessions == map[] && activeTasks == map[] && executor.isShutdown
      ensures forall id :: id in old(sessions) ==> old(sessions)[id].engine.stopped
      ensures forall id :: id in old(activeTasks) ==> old(activeTasks)[id].state != Pending
      ensures tables.queues == old(tables.queues)
      ensures tables.processing == ClearedFlags(old(tables.processing), old(sessions).Keys)
      ensures executor.work == old(executor.work)
    {
      var ids := sessions.Keys;
      while ids != {}
        invariant Valid() && Repr == old(Repr) && sessions.Keys == ids && ids <= old(sessions).Keys
        invariant forall id :: id in sessions ==> sessions[id] == old(sessions)[id]
        invariant forall id :: id in activeTasks ==> id in old(activeTasks) && activeTasks[id] == old(activeTasks)[id]
        invariant forall id :: id in old(sessions) && id !in sessions ==> old(sessions)[id].engine.stopped
        invariant forall id :: id in old(activeTasks) && id !in activeTasks ==> old(activeTasks)[id].state != Pending
        invariant tables.queues == old(tables.queues)
        invariant tables.processing == ClearedFlags(old(tables.processing), old(sessions).Keys - ids)
        invariant executor.work == old(executor.work)
        decreases ids
      {
        var id :| id in ids;
        assert Footprint(id) <= Repr;
        ClearOneMore(old(tables.processing), old(sessions).Keys, ids, id);
        ShutdownStep(id, old(sessions), old(activeTasks));
        ids := ids - {id};
      }
      assert old(sessions).Keys - ids == old(sessions).Keys;
      executor.Shutdown();
    }
  }
}
