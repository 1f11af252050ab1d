/**
  Prompt orchestration in SDK mode (src/services/executionService.ts).
  `runPrompt` is split at its await points into atomic steps over one world
  state (the store plus the active-execution table): the synchronous start,
  then the three lifecycle callbacks the execution fires later. I/O results
  (posting to the channel, creating a worktree, constructing the query) are
  parameters.

  `runPrompt` does not consult the busy predicate and `setActiveExecution`
  overwrites, so "one active execution per thread" is an obligation of the
  callers (the queue hand-off below meets it), not an invariant of this code.
 */
module ExecutionService {
  import opened Wrappers
  import opened Types
  import opened DataStore
  import opened ClaudeService
  import opened QueueManager
  import opened Worktrees

  datatype World = World(store: Store, active: ActiveTable)

  /** The I/O outcomes `runPrompt` meets before the query runs. */
  datatype StartOracle = StartOracle(
    worktree: Option<AutoWorktree>,   // the auto-created worktree, absent when creation threw
    now: int,
    statusPosted: bool,               // the status message was posted to the channel
    queryStarted: bool)               // constructing the SDK query did not throw

  /** State local to one invocation: whether its progress timer is still scheduled. */
  datatype Progress = Progress(timerActive: bool)

  datatype RunOutcome =
    | NoProject                                      // no project bound to the parent channel
    | StatusNotPosted                                // the status message failed; nothing started
    | Running(options: QueryOptions, progress: Progress)
    | StartFailed(next: Option<RunRequest>)          // synchronous failure after registration

  datatype RunStep = RunStep(world: World, outcome: RunOutcome)

  /** The session to resume: the stored one, only when it belongs to the same workspace. */
  function ResumeSessionId(session: Option<ThreadSession>, effectivePath: string): (r: Option<string>)
    ensures r.Some? <==> session.Some? && session.value.projectPath == effectivePath
    ensures r.Some? ==> r.value == session.value.sessionId
  {
    match session
    case Some(sess) => if sess.projectPath == effectivePath then Some(sess.sessionId) else None
    case None => None
  }

  /**
    The failure policy shared by `onError` and the synchronous catch: with
    `continueOnFailure` the queue advances; otherwise the thread's queue is
    emptied and nothing further runs. Nothing outside the queues changes.
   */
  function AfterFailure(s: Store, req: RunRequest): (r: Advance)
    ensures GetQueueSettings(s, req.threadId).continueOnFailure ==>
              r == ProcessNextInQueue(s, req.channel, req.threadId, req.parentChannelId)
    ensures !GetQueueSettings(s, req.threadId).continueOnFailure ==>
              r.next.None? && QueueOf(r.store, req.threadId) == []
    ensures r.store == s.(queues := r.store.queues)
    ensures forall other :: other != req.threadId ==> QueueOf(r.store, other) == QueueOf(s, other)
  {
    if GetQueueSettings(s, req.threadId).continueOnFailure
    then ProcessNextInQueue(s, req.channel, req.threadId, req.parentChannelId)
    else Advance(ClearQueue(s, req.threadId), None)
  }

  /** The execution `runPrompt` registers: fresh, with a query when constructing it succeeded. */
  function Registered(queryStarted: bool): Execution {
    NewExecution.(hasQuery := queryStarted)
  }

  /**
    The synchronous part of `runPrompt`, up to `execution.start` returning.

    Without a bound project nothing changes. Otherwise the thread gets its
    worktree mapping (existing or auto-created), the effective path is the
    mapped worktree or the project, and once the status message is posted:
    `freshContext` clears the stored session, the resume id is the stored
    session's id when it was made in the same workspace, and a new execution
    is registered for the thread, overwriting any previous entry. If the query
    cannot be constructed the entry is removed again and the failure policy
    applies. Other threads' entries never change.
   */
  function RunPrompt(w: World, req: RunRequest, o: StartOracle): (r: RunStep)
    ensures r.outcome.NoProject? <==> ChannelProjectPath(w.store, req.parentChannelId).None?
    ensures r.outcome.NoProject? ==> r.world == w
    ensures r.outcome.StatusNotPosted? ==>
              r.world.active == w.active && r.world.store.threadSessions == w.store.threadSessions
    ensures r.outcome.Running? ==>
              && r.outcome.options.cwd
                 == EffectivePath(GetWorktreeMapping(r.world.store, req.threadId),
                                  ChannelProjectPath(w.store, req.parentChannelId).value)
              && GetActiveExecution(r.world.active, req.threadId) == Some(Registered(true))
              && IsBusy(r.world.active, req.threadId)
              && r.outcome.progress.timerActive
    ensures r.outcome.Running? ==>
              r.outcome.options.model
              == QueryOptionsFor(r.outcome.options.cwd, None, ChannelModel(w.store, req.parentChannelId)).model
    ensures r.outcome.Running? && GetQueueSettings(w.store, req.threadId).freshContext ==>
              r.outcome.options.resume.None? && GetThreadSession(r.world.store, req.threadId).None?
    ensures r.outcome.Running? && !GetQueueSettings(w.store, req.threadId).freshContext ==>
              r.outcome.options.resume
              == QueryOptionsFor(r.outcome.options.cwd,
                                 ResumeSessionId(GetThreadSession(w.store, req.threadId), r.outcome.options.cwd),
                                 None).resume
    ensures r.outcome.StartFailed? ==>
              && GetActiveExecution(r.world.active, req.threadId).None?
              && (!GetQueueSettings(w.store, req.threadId).continueOnFailure ==>
                    r.outcome.next.None? && QueueOf(r.world.store, req.threadId) == [])
    ensures forall other :: other != req.threadId ==>
              GetActiveExecution(r.world.active, other) == GetActiveExecution(w.active, other)
    ensures forall other :: other != req.threadId ==>
              GetThreadSession(r.world.store, other) == GetThreadSession(w.store, other)
  {
    var t := req.threadId;
    match ChannelProjectPath(w.store, req.parentChannelId)
    case None => RunStep(w, NoProject)
    case Some(projectPath) =>
      var (s1, mapping) := EnsureWorktree(w.store, t, req.parentChannelId, projectPath, req.prompt, o.worktree, o.now);
      var path := EffectivePath(mapping, projectPath);
      if !o.statusPosted then RunStep(World(s1, w.active), StatusNotPosted)
      else
        var settings := GetQueueSettings(s1, t);
        var s2 := if settings.freshContext then ClearThreadSession(s1, t) else s1;
        var resume := ResumeSessionId(GetThreadSession(s2, t), path);
        var active := SetActiveExecution(w.active, t, Registered(o.queryStarted));
        if o.queryStarted then
          assert ChannelModel(s1, req.parentChannelId) == ChannelModel(w.store, req.parentChannelId);
          var options := QueryOptionsFor(path, resume, ChannelModel(s1, req.parentChannelId));
          RunStep(World(s2, active), Running(options, Progress(true)))
        else
          var adv := AfterFailure(s2, req);
          RunStep(World(adv.store, ClearActiveExecution(active, t)), StartFailed(adv.next))
  }

  /**
    What `runPrompt` does to the store. Only the worktree mappings, the thread
    sessions and the queues can change. The queues change only when the query
    cannot start, and the sessions only under `freshContext`. A start failure
    with `continueOnFailure` dispatches the oldest queued prompt unless the
    queue is paused or empty, and pops it.
   */
  lemma RunPromptStore(w: World, req: RunRequest, o: StartOracle)
    ensures var r := RunPrompt(w, req, o);
            r.world.store == w.store.(worktreeMappings := r.world.store.worktreeMappings,
                                      threadSessions := r.world.store.threadSessions,
                                      queues := r.world.store.queues)
    ensures var r := RunPrompt(w, req, o);
            !r.outcome.StartFailed? ==> r.world.store.queues == w.store.queues
    ensures var r := RunPrompt(w, req, o);
            !GetQueueSettings(w.store, req.threadId).freshContext ==>
              r.world.store.threadSessions == w.store.threadSessions
    ensures var r := RunPrompt(w, req, o);
            forall other :: other != req.threadId ==> QueueOf(r.world.store, other) == QueueOf(w.store, other)
    ensures var r := RunPrompt(w, req, o);
            var settings := GetQueueSettings(w.store, req.threadId);
            var queue := QueueOf(w.store, req.threadId);
            r.outcome.StartFailed? && settings.continueOnFailure ==>
              if settings.paused || queue == [] then
                r.outcome.next.None? && QueueOf(r.world.store, req.threadId) == queue
              else
                && r.outcome.next == Some(RunRequest(req.channel, req.threadId, queue[0].prompt, req.parentChannelId))
                && QueueOf(r.world.store, req.threadId) == queue[1..]
  {
    var t := req.threadId;
    match ChannelProjectPath(w.store, req.parentChannelId)
    case None =>
    case Some(projectPath) =>
      var (s1, mapping) := EnsureWorktree(w.store, t, req.parentChannelId, projectPath, req.prompt, o.worktree, o.now);
      if o.statusPosted {
        var s2 := if GetQueueSettings(s1, t).freshContext then ClearThreadSession(s1, t) else s1;
        assert GetQueueSettings(s2, t) == GetQueueSettings(w.store, t);
        assert QueueOf(s2, t) == QueueOf(w.store, t);
      }
  }

  /**
    `onSessionInit`: the thread's stored session becomes the new id in the
    effective workspace, port 0, created and last used now. Nothing else changes.
   */
  function OnSessionInit(w: World, threadId: string, effectivePath: string, sessionId: string, now: int): (r: World)
    ensures GetThreadSession(r.store, threadId) == Some(ThreadSession(threadId, sessionId, effectivePath, 0, now, now))
    ensures r.active == w.active
    ensures r.store == w.store.(threadSessions := r.store.threadSessions)
    ensures forall other :: other != threadId ==> GetThreadSession(r.store, other) == GetThreadSession(w.store, other)
  {
    World(SetThreadSession(w.store, ThreadSession(threadId, sessionId, effectivePath, 0, now, now)), w.active)
  }

  /** The state after a terminal callback, and the queued prompt it hands to `runPrompt`. */
  datatype Handoff = Handoff(world: World, progress: Progress, next: Option<RunRequest>)

  /**
    `onComplete`: the timer is cleared and the thread's entry removed, then the
    queue advances. The advance sits after posting the completion notice in the
    same try block, so it is skipped when that post fails.
   */
  function OnComplete(w: World, req: RunRequest, p: Progress, noticePosted: bool): (r: Handoff)
    ensures !r.progress.timerActive
    ensures GetActiveExecution(r.world.active, req.threadId).None?
    ensures forall other :: other != req.threadId ==>
              GetActiveExecution(r.world.active, other) == GetActiveExecution(w.active, other)
    ensures noticePosted ==>
              Advance(r.world.store, r.next) == ProcessNextInQueue(w.store, req.channel, req.threadId, req.parentChannelId)
    ensures !noticePosted ==> r.world.store == w.store && r.next.None?
  {
    var active := ClearActiveExecution(w.active, req.threadId);
    if noticePosted then
      var adv := ProcessNextInQueue(w.store, req.channel, req.threadId, req.parentChannelId);
      Handoff(World(adv.store, active), Progress(false), adv.next)
    else Handoff(World(w.store, active), Progress(false), None)
  }

  /** `onError`: the timer is cleared, the thread's entry removed, and the failure policy applied. */
  function OnError(w: World, req: RunRequest, p: Progress): (r: Handoff)
    ensures !r.progress.timerActive
    ensures GetActiveExecution(r.world.active, req.threadId).None?
    ensures forall other :: other != req.threadId ==>
              GetActiveExecution(r.world.active, other) == GetActiveExecution(w.active, other)
    ensures Advance(r.world.store, r.next) == AfterFailure(w.store, req)
  {
    var adv := AfterFailure(w.store, req);
    Handoff(World(adv.store, ClearActiveExecution(w.active, req.threadId)), Progress(false), adv.next)
  }

  /**
    The queue hand-off meets the caller obligation of `runPrompt`: whatever a
    terminal callback dispatches runs in the same thread and parent channel,
    on a thread that is no longer busy, and is the oldest queued prompt.
   */
  lemma HandOffToIdleThread(w: World, req: RunRequest, p: Progress, noticePosted: bool)
    ensures var r := OnComplete(w, req, p, noticePosted);
            r.next.Some? ==> && r.next.value == RunRequest(req.channel, req.threadId,
                                                            QueueOf(w.store, req.threadId)[0].prompt, req.parentChannelId)
                             && !IsBusy(r.world.active, req.threadId)
    ensures var r := OnError(w, req, p);
            r.next.Some? ==> && GetQueueSettings(w.store, req.threadId).continueOnFailure
                             && r.next.value == RunRequest(req.channel, req.threadId,
                                                            QueueOf(w.store, req.threadId)[0].prompt, req.parentChannelId)
                             && !IsBusy(r.world.active, req.threadId)
  {
  }

  /**
    `runPrompt` starts whether or not the thread is busy: with a project, a
    posted status and a constructible query it registers its execution over
    any existing one.
   */
  lemma RunPromptIgnoresBusy(w: World, req: RunRequest, o: StartOracle)
    requires ChannelProjectPath(w.store, req.parentChannelId).Some?
    requires o.statusPosted && o.queryStarted
    requires IsBusy(w.active, req.threadId)
    ensures RunPrompt(w, req, o).outcome.Running?
    ensures GetActiveExecution(RunPrompt(w, req, o).world.active, req.threadId) == Some(Registered(true))
  {
  }
}
