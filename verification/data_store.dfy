/**
  The persisted key-value store the services read and write (dataStore.ts is
  not part of this model). Only the accessors visible at the call sites are
  given, with the get/set/clear meaning their names and the tests state.
 */
module DataStore {
  import opened Wrappers
  import opened Types

  datatype Store = Store(
    channelProjects: map<string, string>,    // parent channel -> bound project path
    channelModels: map<string, string>,      // parent channel -> preferred model
    autoWorktreeChannels: set<string>,       // parent channels whose project has autoWorktree on
    passthroughThreads: set<string>,         // threads with passthrough enabled
    threadSessions: map<string, ThreadSession>,
    worktreeMappings: map<string, WorktreeMapping>,
    queues: map<string, seq<QueuedMessage>>,
    queueSettings: map<string, QueueSettings>)

  /** `getChannelProjectPath`: absent, like an empty path, is falsy at every call site. */
  function ChannelProjectPath(s: Store, channelId: string): Option<string> {
    if channelId in s.channelProjects && s.channelProjects[channelId] != ""
    then Some(s.channelProjects[channelId]) else None
  }

  function ChannelModel(s: Store, channelId: string): Option<string> {
    if channelId in s.channelModels then Some(s.channelModels[channelId]) else None
  }

  function GetQueueSettings(s: Store, threadId: string): QueueSettings {
    if threadId in s.queueSettings then s.queueSettings[threadId] else DefaultSettings
  }

  function GetThreadSession(s: Store, threadId: string): Option<ThreadSession> {
    if threadId in s.threadSessions then Some(s.threadSessions[threadId]) else None
  }

  function SetThreadSession(s: Store, session: ThreadSession): Store {
    s.(threadSessions := s.threadSessions[session.threadId := session])
  }

  function ClearThreadSession(s: Store, threadId: string): Store {
    s.(threadSessions := s.threadSessions - {threadId})
  }

  function UpdateThreadSessionLastUsed(s: Store, threadId: string, now: int): Store {
    if threadId in s.threadSessions
    then s.(threadSessions := s.threadSessions[threadId := s.threadSessions[threadId].(lastUsedAt := now)])
    else s
  }

  function GetWorktreeMapping(s: Store, threadId: string): Option<WorktreeMapping> {
    if threadId in s.worktreeMappings then Some(s.worktreeMappings[threadId]) else None
  }

  function SetWorktreeMapping(s: Store, m: WorktreeMapping): Store {
    s.(worktreeMappings := s.worktreeMappings[m.threadId := m])
  }

  function RemoveWorktreeMapping(s: Store, threadId: string): Store {
    s.(worktreeMappings := s.worktreeMappings - {threadId})
  }

  /** The thread's pending prompts, oldest first. */
  function QueueOf(s: Store, threadId: string): seq<QueuedMessage> {
    if threadId in s.queues then s.queues[threadId] else []
  }

  /** `popFromQueue`: the oldest prompt and the store without it; nothing on an empty queue. */
  function PopFromQueue(s: Store, threadId: string): (Store, Option<QueuedMessage>) {
    var q := QueueOf(s, threadId);
    if |q| == 0 then (s, None)
    else (s.(queues := s.queues[threadId := q[1..]]), Some(q[0]))
  }

  function ClearQueue(s: Store, threadId: string): Store {
    s.(queues := s.queues - {threadId})
  }
}
