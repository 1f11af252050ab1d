/**
  What the two remote-mode entry points (src/handlers/messageHandler.ts and
  src/commands/opencode.ts) share: the per-thread event-stream client table,
  the busy guard, the session resume policy, the launch sequence inside their
  `try` block with its cleanup, and the three callbacks a run registers on its
  client. The session calls (`validateSession`, `createSession`, `sendPrompt`)
  and the client table accessors are not defined in sessionManager.ts; their
  meaning here is read off the call sites, and their outcomes are parameters.
 */
module RemoteSession {
  import opened Wrappers
  import opened Strings
  import opened DataStore
  import opened SessionManager
  import opened ServeManager
  import opened SseClient

  /** `getSseClient` / `setSseClient` / `clearSseClient`: one client per thread. */
  type ClientTable = map<string, Client>

  /** The busy guard of both handlers: the thread's client exists and is connected. */
  predicate ThreadRunning(clients: ClientTable, threadId: string) {
    threadId in clients && IsConnected(clients[threadId])
  }

  /** The state the remote handlers read and write. */
  datatype RemoteWorld = RemoteWorld(store: Store, serve: Registry, clients: ClientTable)

  // ---- resume policy ----

  /** The session a launch talks to, the store afterwards, and whether the stored one was reused. */
  datatype SessionChoice = SessionChoice(store: Store, sessionId: Result<string, string>, reused: bool)

  /**
    The resume policy: the stored session is reused (and its last-use time
    moved) exactly when its project path is the effective path and the worker
    validates it; otherwise a new session is created and stored over the old
    one. `valid` is the answer of `validateSession`, asked only when the paths
    agree, and `created` is `createSession`'s new id or its error.
   */
  function ResolveSession(s: Store, threadId: string, effectivePath: string, valid: bool,
                          created: Result<string, string>, now: int): (r: SessionChoice)
    ensures var stored := GetSessionForThread(s, threadId);
            r.reused <==> stored.Some? && stored.value.projectPath == effectivePath && valid
    ensures r.reused ==>
              && r.sessionId == Success(GetSessionForThread(s, threadId).value.sessionId)
              && r.store == UpdateSessionLastUsed(s, threadId, now)
    ensures !r.reused ==> r.sessionId == created
    ensures !r.reused && created.Success? ==> r.store == SetSessionForThread(s, threadId, created.value, effectivePath, now)
    ensures !r.reused && created.Failure? ==> r.store == s
    ensures r.sessionId.Success? ==> GetSessionForThread(r.store, threadId) == Some(SessionRef(r.sessionId.value, effectivePath))
    ensures r.store == s.(threadSessions := r.store.threadSessions)
  {
    var stored := GetSessionForThread(s, threadId);
    if stored.Some? && stored.value.projectPath == effectivePath && valid then
      SessionChoice(UpdateSessionLastUsed(s, threadId, now), Success(stored.value.sessionId), true)
    else
      match created
      case Success(id) => SessionChoice(SetSessionForThread(s, threadId, id, effectivePath, now), created, false)
      case Failure(_) => SessionChoice(s, created, false)
  }

  /**
    A session a launch created is reused by the next launch on the same path
    that validates it, whatever `createSession` would have answered then; a
    launch on another path never reuses it.
   */
  lemma ResumeAfterCreate(s: Store, threadId: string, path: string, otherPath: string, valid: bool, id: string,
                          created2: Result<string, string>, now1: int, now2: int)
    requires otherPath != path
    ensures var first := ResolveSession(s, threadId, path, valid, Success(id), now1);
            first.sessionId == Success(id) ==>
              && ResolveSession(first.store, threadId, path, true, created2, now2).reused
              && ResolveSession(first.store, threadId, path, true, created2, now2).sessionId == Success(id)
              && !ResolveSession(first.store, threadId, otherPath, true, created2, now2).reused
  {
  }

  // ---- the launch ----

  /** Outcomes of the worker calls inside a launch. */
  datatype LaunchOracle = LaunchOracle(
    freePorts: set<int>,                // ports the bind probe reports free
    process: nat,                       // handle of a newly spawned worker
    now: int,
    ready: bool,                        // `waitForReady` resolved within the default timeout
    sessionValid: bool,                 // `validateSession` of the stored session
    created: Result<string, string>,    // `createSession`: the new id or its error message
    promptError: Option<string>)        // `sendPrompt` rejected with this message

  /** What the `try` block ended with: the prompt sent on a session, or the error the `catch` reports. */
  datatype Launch = Launched(port: int, sessionId: string, prompt: string) | LaunchFailed(message: string)

  /** The handler-local state of one run: the text shown so far and whether the progress timer is set. */
  datatype RunLocal = RunLocal(accumulatedText: string, timerActive: bool)

  datatype LaunchStep = LaunchStep(world: RemoteWorld, launch: Launch, run: RunLocal)

  /** Registration handles of the run's part, idle and error callbacks. */
  const PartHandle: nat := 0
  const IdleHandle: nat := 1
  const ErrorHandle: nat := 2

  /** The worker's base URL, `http://localhost:{port}`. */
  function WorkerUrl(port: int): string {
    "http://localhost:" + IntToDecimal(port)
  }

  /** The client a run creates: connected to the worker's event endpoint, one callback of each kind. */
  function RunClient(port: int): (c: Client)
    ensures c.url == Some(WorkerUrl(port) + "/event")
    ensures c.source == Some(Connecting) && !IsConnected(c)
    ensures c.partCallbacks == [PartHandle] && c.idleCallbacks == [IdleHandle] && c.errorCallbacks == [ErrorHandle]
  {
    OnError(OnSessionIdle(OnPartUpdated(Connect(NewClient, WorkerUrl(port)), PartHandle), IdleHandle), ErrorHandle)
  }

  /** The `catch` block: the thread's client, whichever it is, is disconnected and dropped; the timer is cleared. */
  function Fail(w: RemoteWorld, threadId: string, message: string): (r: LaunchStep)
    ensures r.world == w.(clients := w.clients - {threadId})
    ensures r.launch == LaunchFailed(message) && !r.run.timerActive
  {
    LaunchStep(w.(clients := w.clients - {threadId}), LaunchFailed(message), RunLocal("", false))
  }

  /**
    The launch once the worker at `port` is ready: resolve the session,
    register a fresh client for the thread and send the prompt.
   */
  function LaunchOnReadyWorker(w: RemoteWorld, threadId: string, effectivePath: string, prompt: string,
                               port: int, o: LaunchOracle): (r: LaunchStep)
    ensures var choice := ResolveSession(w.store, threadId, effectivePath, o.sessionValid, o.created, o.now);
            && (r.launch.Launched? <==> choice.sessionId.Success? && o.promptError.None?)
            && (r.launch.Launched? ==>
                  && r.launch == Launched(port, choice.sessionId.value, prompt)
                  && r.world == RemoteWorld(choice.store, w.serve, w.clients[threadId := RunClient(port)])
                  && r.run == RunLocal("", true))
            && (r.launch.LaunchFailed? ==> r.world.store == choice.store && r.world.serve == w.serve)
    ensures r.launch.LaunchFailed? ==> r.world.clients == w.clients - {threadId} && !r.run.timerActive
  {
    var choice := ResolveSession(w.store, threadId, effectivePath, o.sessionValid, o.created, o.now);
    match choice.sessionId
    case Failure(e) => Fail(w.(store := choice.store), threadId, e)
    case Success(id) =>
      var w2 := RemoteWorld(choice.store, w.serve, w.clients[threadId := RunClient(port)]);
      match o.promptError
      case Some(e) => Fail(w2, threadId, e)
      case None => LaunchStep(w2, Launched(port, id, prompt), RunLocal("", true))
  }

  /**
    The launch: spawn (or reuse) the worker for the effective path, wait until
    it is ready, resolve the session, register a fresh client for the thread,
    start the progress timer and send the prompt. The first failure ends in
    the `catch`, which drops the thread's client; a worker that was spawned
    stays registered, and a session that was created stays stored.
   */
  function LaunchRun(w: RemoteWorld, threadId: string, effectivePath: string, prompt: string, o: LaunchOracle): (r: LaunchStep)
    ensures var sp := SpawnServe(w.serve, effectivePath, o.freePorts, o.process, o.now);
            && r.world.serve == sp.registry
            && (sp.port.Failure? ==> r.launch == LaunchFailed(sp.port.error) && r.world.store == w.store)
            && (sp.port.Success? && !o.ready ==>
                  r.launch == LaunchFailed(TimeoutMessage(sp.port.value, DefaultReadyTimeoutMs)) && r.world.store == w.store)
            && (r.launch.Launched? ==> sp.port == Success(r.launch.port))
    ensures var choice := ResolveSession(w.store, threadId, effectivePath, o.sessionValid, o.created, o.now);
            && (r.launch.Launched? <==>
                  SpawnServe(w.serve, effectivePath, o.freePorts, o.process, o.now).port.Success? && o.ready
                  && choice.sessionId.Success? && o.promptError.None?)
            && (r.launch.Launched? ==> choice.sessionId == Success(r.launch.sessionId) && r.world.store == choice.store)
    ensures r.launch.Launched? ==>
              && r.launch.prompt == prompt
              && GetPort(r.world.serve, effectivePath) == Some(r.launch.port)
              && GetSessionForThread(r.world.store, threadId) == Some(SessionRef(r.launch.sessionId, effectivePath))
              && r.world.clients == w.clients[threadId := RunClient(r.launch.port)]
              && r.run == RunLocal("", true)
    ensures r.launch.LaunchFailed? ==> threadId !in r.world.clients && !r.run.timerActive
    ensures r.world.store == w.store.(threadSessions := r.world.store.threadSessions)
    ensures forall other :: other != threadId && other in w.clients ==>
              other in r.world.clients && r.world.clients[other] == w.clients[other]
    ensures forall other :: other != threadId ==> (other in r.world.clients <==> other in w.clients)
  {
    var sp := SpawnServe(w.serve, effectivePath, o.freePorts, o.process, o.now);
    var w1 := w.(serve := sp.registry);
    match sp.port
    case Failure(e) => Fail(w1, threadId, e)
    case Success(port) =>
      if !o.ready then Fail(w1, threadId, TimeoutMessage(port, DefaultReadyTimeoutMs))
      else LaunchOnReadyWorker(w1, threadId, effectivePath, prompt, port, o)
  }

  /**
    The busy guard only closes once the transport opens: right after a launch
    the thread's client is still connecting, and the guard holds as soon as
    the transport reports it open.
   */
  lemma GuardClosesOnOpen(w: RemoteWorld, threadId: string, effectivePath: string, prompt: string, o: LaunchOracle)
    ensures var r := LaunchRun(w, threadId, effectivePath, prompt, o);
            && !ThreadRunning(r.world.clients, threadId)
            && (r.launch.Launched? ==>
                  ThreadRunning(r.world.clients[threadId := TransportState(r.world.clients[threadId], Open)], threadId))
  {
  }

  // ---- the run's callbacks ----

  /** The part callback: the run's text becomes the part's text; it is replaced, never appended to. */
  function OnPartText(run: RunLocal, part: TextPart): (r: RunLocal)
    ensures r.accumulatedText == part.text
    ensures r.timerActive == run.timerActive
  {
    run.(accumulatedText := part.text)
  }

  /**
    The idle callback: the timer is cleared at once; if the completion notice
    is then posted, the client is disconnected and the thread's entry dropped,
    otherwise the swallowed error leaves the table as it was.
   */
  function OnIdle(clients: ClientTable, threadId: string, run: RunLocal, donePosted: bool): (r: (ClientTable, RunLocal))
    ensures r.1 == run.(timerActive := false)
    ensures donePosted ==> r.0 == clients - {threadId}
    ensures !donePosted ==> r.0 == clients
  {
    (if donePosted then clients - {threadId} else clients, run.(timerActive := false))
  }

  /** The stream-error callback: only the timer is cleared; the client stays registered. */
  function OnStreamError(run: RunLocal): (r: RunLocal)
    ensures !r.timerActive && r.accumulatedText == run.accumulatedText
  {
    run.(timerActive := false)
  }

  /** One callback invocation on the run's state. */
  function Apply(clients: ClientTable, threadId: string, run: RunLocal, call: Invocation, donePosted: bool): (ClientTable, RunLocal) {
    match call
    case PartCall(_, part) => (clients, OnPartText(run, part))
    case IdleCall(_, _) => OnIdle(clients, threadId, run, donePosted)
    case ErrorCall(_, _) => (clients, OnStreamError(run))
  }

  function ApplyAll(clients: ClientTable, threadId: string, run: RunLocal, calls: seq<Invocation>, donePosted: bool): (ClientTable, RunLocal)
    decreases |calls|
  {
    if |calls| == 0 then (clients, run)
    else
      var next := Apply(clients, threadId, run, calls[0], donePosted);
      ApplyAll(next.0, threadId, next.1, calls[1..], donePosted)
  }

  /**
    Feeding a run's client a stream of payloads: each payload is classified by
    the client and handed to the callbacks registered on it. `donePosted`
    says whether completion notices get posted.
   */
  function Feed(clients: ClientTable, threadId: string, run: RunLocal, c: Client, payloads: seq<Payload>,
                donePosted: bool): (ClientTable, RunLocal)
    decreases |payloads|
  {
    if |payloads| == 0 then (clients, run)
    else
      var next := ApplyAll(clients, threadId, run, HandleMessage(c, payloads[0]), donePosted);
      Feed(next.0, threadId, next.1, c, payloads[1..], donePosted)
  }

  /** The reference reading of the run's text: the text of the last text part in the stream, or the initial text. */
  function LastPartText(payloads: seq<Payload>, initial: string): string
    decreases |payloads|
  {
    if |payloads| == 0 then initial
    else
      var last := payloads[|payloads| - 1];
      if Classify(last).PartText? then Classify(last).part.text
      else LastPartText(payloads[..|payloads| - 1], initial)
  }

  /** A run's client turns every non-ignored payload into exactly one call of the matching callback. */
  lemma RunClientDispatch(port: int, p: Payload)
    ensures var d := Classify(p);
            HandleMessage(RunClient(port), p) ==
              if d.Ignore? then []
              else [InvocationOf(if d.PartText? then PartHandle else if d.Idle? then IdleHandle else ErrorHandle, d)]
  {
    var c := RunClient(port);
    var d := Classify(p);
    if !d.Ignore? {
      var calls := HandleMessage(c, p);
      assert |Listeners(c, d)| == 1;
      assert calls == [calls[0]];
    }
  }

  /** One payload through a run's client: the text is replaced by a text part's text and kept otherwise. */
  lemma FeedOne(clients: ClientTable, threadId: string, run: RunLocal, port: int, p: Payload, donePosted: bool)
    ensures var next := ApplyAll(clients, threadId, run, HandleMessage(RunClient(port), p), donePosted);
            next.1.accumulatedText == (if Classify(p).PartText? then Classify(p).part.text else run.accumulatedText)
  {
    RunClientDispatch(port, p);
    var calls := HandleMessage(RunClient(port), p);
    if |calls| == 1 {
      assert calls[1..] == [];
    }
  }

  /** Reading the reference from the front: the first payload only sets the text the rest starts from. */
  lemma {:induction false} LastPartTextFront(p: Payload, rest: seq<Payload>, initial: string)
    ensures LastPartText([p] + rest, initial)
         == LastPartText(rest, if Classify(p).PartText? then Classify(p).part.text else initial)
    decreases |rest|
  {
    var start := if Classify(p).PartText? then Classify(p).part.text else initial;
    if |rest| == 0 {
      assert [p] + rest == [p];
      assert [p][..0] == [];
    } else {
      var all := [p] + rest;
      var last := rest[|rest| - 1];
      assert all[|all| - 1] == last;
      if !Classify(last).PartText? {
        assert all[..|all| - 1] == [p] + rest[..|rest| - 1];
        LastPartTextFront(p, rest[..|rest| - 1], initial);
      }
    }
  }

  /**
    Replace, not append: whatever else the stream carries, a run's text after
    it is the text of the last text part, or the text it had if there was none.
   */
  lemma {:induction false} FeedKeepsLastPart(clients: ClientTable, threadId: string, run: RunLocal, port: int,
                                             payloads: seq<Payload>, donePosted: bool)
    ensures Feed(clients, threadId, run, RunClient(port), payloads, donePosted).1.accumulatedText
         == LastPartText(payloads, run.accumulatedText)
    decreases |payloads|
  {
    if |payloads| > 0 {
      var next := ApplyAll(clients, threadId, run, HandleMessage(RunClient(port), payloads[0]), donePosted);
      FeedUnfold(clients, threadId, run, RunClient(port), payloads, donePosted);
      FeedOne(clients, threadId, run, port, payloads[0], donePosted);
      FeedKeepsLastPart(next.0, threadId, next.1, port, payloads[1..], donePosted);
      assert payloads == [payloads[0]] + payloads[1..];
      LastPartTextFront(payloads[0], payloads[1..], run.accumulatedText);
    }
  }

  /** One payload through a run's client: only an idle whose completion notice is posted drops the thread's client. */
  lemma FeedOneClients(clients: ClientTable, threadId: string, run: RunLocal, port: int, p: Payload, donePosted: bool)
    ensures ApplyAll(clients, threadId, run, HandleMessage(RunClient(port), p), donePosted).0
         == if donePosted && Classify(p).Idle? then clients - {threadId} else clients
  {
    RunClientDispatch(port, p);
    var calls := HandleMessage(RunClient(port), p);
    if |calls| == 1 {
      assert calls[1..] == [];
    }
  }

  /** A stream with no completed idle leaves the table alone; one completed idle removes the thread's client for good. */
  predicate HasIdle(payloads: seq<Payload>) {
    exists i :: 0 <= i < |payloads| && Classify(payloads[i]).Idle?
  }

  lemma {:induction false} FeedClients(clients: ClientTable, threadId: string, run: RunLocal, port: int,
                                       payloads: seq<Payload>, donePosted: bool)
    ensures Feed(clients, threadId, run, RunClient(port), payloads, donePosted).0
         == if donePosted && HasIdle(payloads) then clients - {threadId} else clients
    decreases |payloads|
  {
    if |payloads| > 0 {
      var p := payloads[0];
      var rest := payloads[1..];
      var next := ApplyAll(clients, threadId, run, HandleMessage(RunClient(port), p), donePosted);
      FeedUnfold(clients, threadId, run, RunClient(port), payloads, donePosted);
      FeedOneClients(clients, threadId, run, port, p, donePosted);
      FeedClients(next.0, threadId, next.1, port, rest, donePosted);
      HasIdleCons(payloads);
      if donePosted && Classify(p).Idle? {
        assert next.0 - {threadId} == next.0;
      }
    }
  }

  /** A stream has an idle exactly when its first payload is one or the rest has one. */
  lemma HasIdleCons(payloads: seq<Payload>)
    requires |payloads| > 0
    ensures HasIdle(payloads) <==> Classify(payloads[0]).Idle? || HasIdle(payloads[1..])
  {
    var rest := payloads[1..];
    if HasIdle(rest) {
      var i :| 0 <= i < |rest| && Classify(rest[i]).Idle?;
      assert payloads[i + 1] == rest[i];
    }
    if HasIdle(payloads) && !Classify(payloads[0]).Idle? {
      var i :| 0 <= i < |payloads| && Classify(payloads[i]).Idle?;
      assert rest[i - 1] == payloads[i];
    }
  }

  /** One step of `Feed`: the first payload's calls, then the rest of the stream. */
  lemma FeedUnfold(clients: ClientTable, threadId: string, run: RunLocal, c: Client, payloads: seq<Payload>,
                   donePosted: bool)
    requires |payloads| > 0
    ensures var next := ApplyAll(clients, threadId, run, HandleMessage(c, payloads[0]), donePosted);
            Feed(clients, threadId, run, c, payloads, donePosted)
            == Feed(next.0, threadId, next.1, c, payloads[1..], donePosted)
  {
  }
}
