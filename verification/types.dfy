/**
  The persisted records of the bot (src/types/index.ts). Timestamps are
  milliseconds since the epoch and are passed in by the caller, since the model
  has no clock.
 */
module Types {

  /** Per-thread queue policy; a thread without stored settings uses `DefaultSettings`. */
  datatype QueueSettings = QueueSettings(paused: bool, continueOnFailure: bool, freshContext: bool)

  const DefaultSettings := QueueSettings(false, false, false)

  /** The conversation a thread resumes. `port` is a legacy field. */
  datatype ThreadSession = ThreadSession(
    threadId: string,
    sessionId: string,
    projectPath: string,
    port: int,
    createdAt: int,
    lastUsedAt: int)

  /** A prompt waiting for its thread to become idle. */
  datatype QueuedMessage = QueuedMessage(prompt: string, userId: string, timestamp: int)

  /** The git worktree a thread works in instead of the project directory. */
  datatype WorktreeMapping = WorktreeMapping(
    threadId: string,
    branchName: string,
    worktreePath: string,
    projectPath: string,
    description: string,
    createdAt: int)

  /**
    A request to run one prompt in a thread: the arguments of `runPrompt`.
    The channel object is represented by its id.
   */
  datatype RunRequest = RunRequest(channel: string, threadId: string, prompt: string, parentChannelId: string)
}
