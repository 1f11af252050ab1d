/**
  The `/opencode` slash command (src/commands/opencode.ts): the prompt runs
  in the current thread, or in a thread found or created for it, on the
  worker of the project bound to the parent channel. There is no
  auto-worktree step and no empty-prompt check here, and the prompt is sent
  as given.
 */
module OpencodeCommand {
  import opened Wrappers
  import opened Strings
  import opened DataStore
  import opened SessionManager
  import opened ServeManager
  import opened Worktrees
  import opened RemoteSession

  /** `interaction.channel`: absent, a thread (whose parent may be null) or another channel. */
  datatype Channel = NoChannel | InThread(id: string, parentId: Option<string>) | OtherChannel

  /** `getParentChannelId`: a thread's parent, falling back to the interaction's channel id. */
  function GetParentChannelId(channel: Channel, channelId: string): (r: string)
    ensures channel.InThread? && channel.parentId.Some? ==> r == channel.parentId.value
    ensures !(channel.InThread? && channel.parentId.Some?) ==> r == channelId
  {
    match channel
    case InThread(_, parentId) => parentId.GetOr(channelId)
    case _ => channelId
  }

  /** Outcomes of the calls before the launch. */
  datatype CommandOracle = CommandOracle(
    thread: Option<string>,    // id of the thread `getOrCreateThread` returned; None when it threw
    statusPosted: bool,        // the status message could be sent to the thread
    launch: LaunchOracle)

  datatype Outcome =
    | NoProjectReply                 // ephemeral "No project set for this channel"
    | CannotCreateThread             // ephemeral "Cannot create thread."
    | AlreadyRunning                 // ephemeral "Already running" warning
    | CannotSendToThread             // the reply edited to "Cannot send message to thread."
    | Started(threadId: string, launch: Launch, run: RunLocal)

  /** `threadRequested` records whether `getOrCreateThread` was called. */
  datatype Step = Step(world: RemoteWorld, outcome: Outcome, threadRequested: bool)

  /** The thread the command runs in: the current one, else the helper's. */
  function TargetThread(channel: Channel, o: CommandOracle): Option<string> {
    if channel.InThread? then Some(channel.id) else o.thread
  }

  /**
    `execute`: a missing project ends before any thread is looked up; a
    thread that cannot be created ends with an error; a connected client on
    the thread ends with the "Already running" warning; then the status
    message and the launch on the mapped worktree or the project.
   */
  function Execute(w: RemoteWorld, channel: Channel, channelId: string, prompt: string, o: CommandOracle): (r: Step)
    ensures var parent := GetParentChannelId(channel, channelId);
            && (r.outcome.NoProjectReply? <==> ChannelProjectPath(w.store, parent).None?)
            && (r.threadRequested <==> ChannelProjectPath(w.store, parent).Some? && !channel.InThread?)
            && (r.outcome.CannotCreateThread? <==> ChannelProjectPath(w.store, parent).Some? && TargetThread(channel, o).None?)
    ensures !r.outcome.Started? ==> r.world == w
    ensures r.outcome.AlreadyRunning? <==>
              && ChannelProjectPath(w.store, GetParentChannelId(channel, channelId)).Some?
              && TargetThread(channel, o).Some? && ThreadRunning(w.clients, TargetThread(channel, o).value)
    ensures r.outcome.Started? ==>
              && Some(r.outcome.threadId) == TargetThread(channel, o)
              && !ThreadRunning(w.clients, r.outcome.threadId) && o.statusPosted
              && var project := ChannelProjectPath(w.store, GetParentChannelId(channel, channelId)).value;
                 var path := EffectivePath(GetWorktreeMapping(w.store, r.outcome.threadId), project);
                 var step := LaunchRun(w, r.outcome.threadId, path, prompt, o.launch);
                 r.world == step.world && r.outcome.launch == step.launch && r.outcome.run == step.run
  {
    var parent := GetParentChannelId(channel, channelId);
    match ChannelProjectPath(w.store, parent)
    case None => Step(w, NoProjectReply, false)
    case Some(project) =>
      var requested := !channel.InThread?;
      match TargetThread(channel, o)
      case None => Step(w, CannotCreateThread, requested)
      case Some(threadId) =>
        if ThreadRunning(w.clients, threadId) then Step(w, AlreadyRunning, requested)
        else if !o.statusPosted then Step(w, CannotSendToThread, requested)
        else
          var path := EffectivePath(GetWorktreeMapping(w.store, threadId), project);
          var step := LaunchRun(w, threadId, path, prompt, o.launch);
          Step(step.world, Started(threadId, step.launch, step.run), requested)
  }

  /**
    The command and passthrough follow one resume policy: a launched prompt
    talks to the stored session exactly when that session was on the same
    path and validated, and afterwards the stored session is the one used,
    on the path the prompt ran in.
   */
  lemma CommandResumePolicy(w: RemoteWorld, channel: Channel, channelId: string, prompt: string, o: CommandOracle)
    ensures var r := Execute(w, channel, channelId, prompt, o);
            r.outcome.Started? && r.outcome.launch.Launched? ==>
              var t := r.outcome.threadId;
              var project := ChannelProjectPath(w.store, GetParentChannelId(channel, channelId)).value;
              var path := EffectivePath(GetWorktreeMapping(w.store, t), project);
              var stored := GetSessionForThread(w.store, t);
              && r.outcome.launch.prompt == prompt
              && GetSessionForThread(r.world.store, t) == Some(SessionRef(r.outcome.launch.sessionId, path))
              && (stored.Some? && stored.value.projectPath == path && o.launch.sessionValid ==>
                    r.outcome.launch.sessionId == stored.value.sessionId)
              && (!(stored.Some? && stored.value.projectPath == path && o.launch.sessionValid) ==>
                    Success(r.outcome.launch.sessionId) == o.launch.created)
  {
  }
}
