/**
  The per-thread queue (queueManager.ts is not part of this model): the busy
  predicate and the advance step, with the behaviour its tests assert
  (src/__tests__/queueManager.test.ts).
 */
module QueueManager {
  import opened Wrappers
  import opened Types
  import opened DataStore
  import opened ClaudeService

  /** A thread is busy iff it has a registered execution that has not completed. */
  function IsBusy(t: ActiveTable, threadId: string): (r: bool)
    ensures r <==> threadId in t && !t[threadId].completed
  {
    match GetActiveExecution(t, threadId)
    case None => false
    case Some(e) => !e.completed
  }

  /** The store after an advance step and the prompt it hands to `runPrompt`, if any. */
  datatype Advance = Advance(store: Store, next: Option<RunRequest>)

  /**
    `processNextInQueue`: a paused queue is never popped; an empty one starts
    nothing; otherwise the oldest prompt is popped once and run in the same
    channel, thread and parent channel.
   */
  function ProcessNextInQueue(s: Store, channel: string, threadId: string, parentChannelId: string): (r: Advance)
    ensures GetQueueSettings(s, threadId).paused ==> r == Advance(s, None)
    ensures |QueueOf(s, threadId)| == 0 ==> r == Advance(s, None)
    ensures !GetQueueSettings(s, threadId).paused && |QueueOf(s, threadId)| > 0 ==>
              && r.next == Some(RunRequest(channel, threadId, QueueOf(s, threadId)[0].prompt, parentChannelId))
              && QueueOf(r.store, threadId) == QueueOf(s, threadId)[1..]
    ensures r.store == s.(queues := r.store.queues)
    ensures forall other :: other != threadId ==> QueueOf(r.store, other) == QueueOf(s, other)
  {
    if GetQueueSettings(s, threadId).paused then Advance(s, None)
    else
      var (s', popped) := PopFromQueue(s, threadId);
      match popped
      case None => Advance(s', None)
      case Some(m) => Advance(s', Some(RunRequest(channel, threadId, m.prompt, parentChannelId)))
  }

  /**
    The queue is first in, first out: two advances on an unpaused queue of at
    least two prompts dispatch its first and then its second prompt, and leave
    the rest in order.
   */
  lemma AdvanceIsFifo(s: Store, channel: string, threadId: string, parentChannelId: string)
    requires !GetQueueSettings(s, threadId).paused && |QueueOf(s, threadId)| >= 2
    ensures var q := QueueOf(s, threadId);
            var first := ProcessNextInQueue(s, channel, threadId, parentChannelId);
            var second := ProcessNextInQueue(first.store, channel, threadId, parentChannelId);
            && first.next == Some(RunRequest(channel, threadId, q[0].prompt, parentChannelId))
            && second.next == Some(RunRequest(channel, threadId, q[1].prompt, parentChannelId))
            && QueueOf(second.store, threadId) == q[2..]
  {
    var first := ProcessNextInQueue(s, channel, threadId, parentChannelId);
    assert GetQueueSettings(first.store, threadId) == GetQueueSettings(s, threadId);
  }
}
