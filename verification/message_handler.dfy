/**
  Passthrough mode (src/handlers/messageHandler.ts): a message posted in a
  thread with passthrough on is sent, trimmed, as a prompt to the worker of
  the thread's project. Only the decisions are modelled; the replies,
  reactions and status edits are named by the outcome.
 */
module MessageHandler {
  import opened Wrappers
  import opened Types
  import opened Strings
  import opened DataStore
  import opened SessionManager
  import opened ServeManager
  import opened Worktrees
  import opened RemoteSession

  /** The channel a message arrived in; a thread's parent is None when Discord reports none. */
  datatype Channel = Thread(id: string, parentId: Option<string>) | NotThread

  datatype Incoming = Incoming(fromBot: bool, isSystem: bool, channel: Channel, content: string)

  /** Outcomes of the calls before the launch. */
  datatype MessageOracle = MessageOracle(
    worktree: Option<AutoWorktree>,   // the auto-created worktree, None when creation threw
    now: int,
    statusPosted: bool,               // the status message could be sent
    launch: LaunchOracle)

  datatype Outcome =
    | Ignored          // returned without a word
    | NoProjectReply   // "No project bound to parent channel" reply
    | BusyReaction     // the hourglass reaction
    | EmptyPrompt      // nothing to send
    | StatusNotSent    // the status message could not be posted
    | Started(launch: Launch, run: RunLocal)

  datatype Step = Step(world: RemoteWorld, outcome: Outcome)

  /** The early exits the handler passes silently: a human, non-system message in a passthrough thread with a parent. */
  predicate Accepted(s: Store, m: Incoming) {
    && !m.fromBot && !m.isSystem && m.channel.Thread?
    && m.channel.id in s.passthroughThreads
    && m.channel.parentId.Some? && m.channel.parentId.value != ""
  }

  /**
    `handleMessageCreate`: the silent exits, the missing-project reply, the
    auto-worktree step, the busy guard, the empty-prompt exit, the status
    message, and then the launch on the effective path with the trimmed
    prompt.
   */
  function HandleMessageCreate(w: RemoteWorld, m: Incoming, o: MessageOracle): (r: Step)
    ensures r.outcome.Ignored? <==> !Accepted(w.store, m)
    ensures r.outcome.NoProjectReply? <==> Accepted(w.store, m) && ChannelProjectPath(w.store, m.channel.parentId.value).None?
    ensures r.outcome.Ignored? || r.outcome.NoProjectReply? ==> r == Step(w, r.outcome)
    ensures !r.outcome.Ignored? && !r.outcome.NoProjectReply? ==>
              var project := ChannelProjectPath(w.store, m.channel.parentId.value).value;
              var mapped := EnsureWorktree(w.store, m.channel.id, m.channel.parentId.value, project, Trim(m.content), o.worktree, o.now);
              && (r.outcome.BusyReaction? <==> ThreadRunning(w.clients, m.channel.id))
              && (r.outcome.EmptyPrompt? <==> !ThreadRunning(w.clients, m.channel.id) && Trim(m.content) == "")
              && (r.outcome.Started? <==> !ThreadRunning(w.clients, m.channel.id) && Trim(m.content) != "" && o.statusPosted)
              && (!r.outcome.Started? ==> r.world == w.(store := mapped.0))
              && (r.outcome.Started? ==>
                    var path := EffectivePath(mapped.1, project);
                    var step := LaunchRun(w.(store := mapped.0), m.channel.id, path, Trim(m.content), o.launch);
                    r.world == step.world && r.outcome == Started(step.launch, step.run))
  {
    if !Accepted(w.store, m) then Step(w, Ignored)
    else
      var threadId := m.channel.id;
      var parent := m.channel.parentId.value;
      match ChannelProjectPath(w.store, parent)
      case None => Step(w, NoProjectReply)
      case Some(project) =>
        var prompt := Trim(m.content);
        var mapped := EnsureWorktree(w.store, threadId, parent, project, prompt, o.worktree, o.now);
        var w1 := w.(store := mapped.0);
        if ThreadRunning(w.clients, threadId) then Step(w1, BusyReaction)
        else if prompt == "" then Step(w1, EmptyPrompt)
        else if !o.statusPosted then Step(w1, StatusNotSent)
        else
          var step := LaunchRun(w1, threadId, EffectivePath(mapped.1, project), prompt, o.launch);
          Step(step.world, Started(step.launch, step.run))
  }

  /**
    A busy thread only gets the reaction: no worker is spawned, no session or
    client changes; at most the auto-worktree mapping is recorded.
   */
  lemma BusyStartsNothing(w: RemoteWorld, m: Incoming, o: MessageOracle)
    requires Accepted(w.store, m) && ThreadRunning(w.clients, m.channel.id)
    ensures var r := HandleMessageCreate(w, m, o);
            && (r.outcome.BusyReaction? || r.outcome.NoProjectReply?)
            && r.world.serve == w.serve && r.world.clients == w.clients
            && r.world.store.threadSessions == w.store.threadSessions
  {
  }

  /**
    A launched prompt is the trimmed message, runs on the thread's worktree
    when it has one (existing or just created) and on the project otherwise,
    and leaves the thread's stored session pointing at that path.
   */
  lemma StartedOnEffectivePath(w: RemoteWorld, m: Incoming, o: MessageOracle)
    requires Accepted(w.store, m)
    ensures var r := HandleMessageCreate(w, m, o);
            r.outcome.Started? && r.outcome.launch.Launched? ==>
              var project := ChannelProjectPath(w.store, m.channel.parentId.value).value;
              var path := EffectivePath(GetWorktreeMapping(r.world.store, m.channel.id), project);
              && r.outcome.launch.prompt == Trim(m.content) && r.outcome.launch.prompt != ""
              && GetPort(r.world.serve, path) == Some(r.outcome.launch.port)
              && GetSessionForThread(r.world.store, m.channel.id) == Some(SessionRef(r.outcome.launch.sessionId, path))
              && (GetWorktreeMapping(w.store, m.channel.id).Some? ==> path == GetWorktreeMapping(w.store, m.channel.id).value.worktreePath)
  {
    var r := HandleMessageCreate(w, m, o);
    if r.outcome.Started? && r.outcome.launch.Launched? {
      var project := ChannelProjectPath(w.store, m.channel.parentId.value).value;
      var mapped := EnsureWorktree(w.store, m.channel.id, m.channel.parentId.value, project, Trim(m.content), o.worktree, o.now);
      var step := LaunchRun(w.(store := mapped.0), m.channel.id, EffectivePath(mapped.1, project), Trim(m.content), o.launch);
      assert GetWorktreeMapping(step.world.store, m.channel.id) == GetWorktreeMapping(mapped.0, m.channel.id);
    }
  }

  /** An auto-created worktree is described from the trimmed prompt, not the raw message. */
  lemma AutoWorktreeDescription(w: RemoteWorld, m: Incoming, o: MessageOracle)
    requires Accepted(w.store, m)
    requires GetWorktreeMapping(w.store, m.channel.id).None?
    ensures var r := HandleMessageCreate(w, m, o);
            var d := GetWorktreeMapping(r.world.store, m.channel.id);
            d.Some? ==> d.value.description == Description(Trim(m.content))
  {
  }
}
