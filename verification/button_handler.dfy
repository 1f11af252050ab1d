/**
  Button clicks (src/handlers/buttonHandler.ts): the custom id is split on
  '_' into an action and a thread id, and the action is routed to the
  interrupt, worktree-delete or pull-request handler. Replies are named by
  the outcome; their texts are given where a decision depends on them.
 */
module ButtonHandler {
  import opened Wrappers
  import opened Types
  import opened Strings
  import opened DataStore
  import opened ClaudeService
  import opened SessionManager
  import opened QueueManager
  import opened ExecutionService

  /** `const [action, threadId] = customId.split('_')`: the first two segments; the second may be missing. */
  datatype ButtonId = ButtonId(action: string, threadId: Option<string>)

  /** `Join` of at least two pieces starts with the first two and a separator between them. */
  lemma JoinTwo(parts: seq<string>, sep: char)
    requires |parts| >= 2
    ensures var head := parts[0] + [sep] + parts[1];
            && |head| <= |Join(parts, [sep])|
            && Join(parts, [sep])[..|head|] == head
            && (|head| == |Join(parts, [sep])| || Join(parts, [sep])[|head|] == sep)
  {
    var rest := parts[1..];
    assert parts == [parts[0]] + rest;
    JoinCons(parts[0], rest, [sep]);
    if |rest| > 1 {
      assert rest == [parts[1]] + rest[1..];
      JoinCons(parts[1], rest[1..], [sep]);
    }
  }

  /**
    Parsing a custom id: the action is the text before the first '_' (all of
    it when there is none); the thread id, present exactly when there is a
    '_', is the text up to the next '_' or the end. Anything after that is
    dropped.
   */
  function ParseCustomId(customId: string): (r: ButtonId)
    ensures '_' !in r.action
    ensures r.threadId.None? <==> '_' !in customId
    ensures r.threadId.None? ==> r.action == customId
    ensures r.threadId.Some? ==>
              var head := r.action + "_" + r.threadId.value;
              && '_' !in r.threadId.value
              && |head| <= |customId| && customId[..|head|] == head
              && (|head| == |customId| || customId[|head|] == '_')
  {
    var parts := Split(customId, '_');
    JoinSplit(customId, '_');
    if |parts| >= 2 then
      JoinTwo(parts, '_');
      assert customId[|parts[0]|] == '_';
      ButtonId(parts[0], Some(parts[1]))
    else
      assert parts == [parts[0]];
      ButtonId(parts[0], None)
  }

  /** `Join` of two leading pieces and more: the two pieces, then the rest after another separator. */
  lemma JoinCons2(a: string, b: string, rest: seq<string>, sep: char)
    requires |rest| >= 1
    ensures Join([a] + ([b] + rest), [sep]) == a + [sep] + (b + [sep] + Join(rest, [sep]))
  {
    JoinCons(a, [b] + rest, [sep]);
    JoinCons(b, rest, [sep]);
  }

  /**
    Round trip: an id built as action + "_" + threadId, optionally followed by
    '_' and more text, parses back to that action and thread id whenever
    neither contains '_'.
   */
  lemma {:induction false} CustomIdRoundTrip(action: string, threadId: string, tail: Option<string>)
    requires '_' !in action && '_' !in threadId
    ensures var id := action + "_" + threadId + (if tail.Some? then "_" + tail.value else "");
            ParseCustomId(id) == ButtonId(action, Some(threadId))
  {
    var id := action + "_" + threadId + (if tail.Some? then "_" + tail.value else "");
    match tail
    case None =>
      assert Join([action, threadId], "_") == id;
      SplitJoin([action, threadId], '_');
    case Some(t) =>
      var more := Split(t, '_');
      JoinSplit(t, '_');
      JoinCons2(action, threadId, more, '_');
      var parts := [action] + ([threadId] + more);
      assert Join(parts, "_") == id;
      assert forall i :: 0 <= i < |parts| ==> '_' !in parts[i] by {
        forall i | 0 <= i < |parts| ensures '_' !in parts[i] {
          if i >= 2 { assert parts[i] == more[i - 2]; }
        }
      }
      SplitJoin(parts, '_');
      assert Split(id, '_')[0] == action && Split(id, '_')[1] == threadId;
  }

  /** Where a click goes. */
  datatype Route = InvalidButton | Interrupt(threadId: string) | DeleteWorktree(threadId: string)
                 | CreatePr(threadId: string) | UnknownAction

  /**
    `handleButton`: a missing or empty thread id is an invalid button whatever
    the action; otherwise `interrupt`, `delete` and `pr` go to their handlers
    with that thread id and every other action is unknown.
   */
  function RouteButton(customId: string): (r: Route)
    ensures var b := ParseCustomId(customId);
            && (r.InvalidButton? <==> b.threadId.None? || b.threadId.value == "")
            && (r.Interrupt? <==> !r.InvalidButton? && b.action == "interrupt")
            && (r.DeleteWorktree? <==> !r.InvalidButton? && b.action == "delete")
            && (r.CreatePr? <==> !r.InvalidButton? && b.action == "pr")
            && (!r.InvalidButton? && !r.UnknownAction? ==> r.threadId == b.threadId.value)
  {
    var b := ParseCustomId(customId);
    if b.threadId.None? || b.threadId.value == "" then InvalidButton
    else if b.action == "interrupt" then Interrupt(b.threadId.value)
    else if b.action == "delete" then DeleteWorktree(b.threadId.value)
    else if b.action == "pr" then CreatePr(b.threadId.value)
    else UnknownAction
  }

  /** An id built from a known action and a valid thread id routes to that action's handler. */
  lemma RouteBuilt(action: string, threadId: string)
    requires '_' !in action && threadId != "" && '_' !in threadId
    ensures var r := RouteButton(action + "_" + threadId);
            && (action == "interrupt" ==> r == Interrupt(threadId))
            && (action == "delete" ==> r == DeleteWorktree(threadId))
            && (action == "pr" ==> r == CreatePr(threadId))
  {
    CustomIdRoundTrip(action, threadId, None);
    assert action + "_" + threadId + "" == action + "_" + threadId;
  }

  /**
    The buttons the bot posts (`interrupt_{threadId}`, `delete_{threadId}`,
    `pr_{threadId}`) route back to their own handler with the same thread id,
    for every non-empty thread id without '_'.
   */
  lemma ButtonsRouteBack(threadId: string)
    requires threadId != "" && '_' !in threadId
    ensures RouteButton("interrupt_" + threadId) == Interrupt(threadId)
    ensures RouteButton("delete_" + threadId) == DeleteWorktree(threadId)
    ensures RouteButton("pr_" + threadId) == CreatePr(threadId)
  {
    assert "interrupt" + "_" == "interrupt_" && "delete" + "_" == "delete_" && "pr" + "_" == "pr_";
    RouteBuilt("interrupt", threadId);
    RouteBuilt("delete", threadId);
    RouteBuilt("pr", threadId);
  }

  // ---- interrupt ----

  const InterruptSent := "⏸️ Interrupt request sent."
  const InterruptNotSent := "⚠️ No active execution found or interrupt failed."

  /** `handleInterrupt`: the sent reply exactly when `abortSession` reports success. */
  function HandleInterrupt(active: ActiveTable, threadId: string, interruptSucceeds: bool): (reply: string)
    ensures reply == InterruptSent <==> AbortSession(active, threadId, interruptSucceeds)
    ensures reply == InterruptSent || reply == InterruptNotSent
  {
    if AbortSession(active, threadId, interruptSucceeds) then InterruptSent else InterruptNotSent
  }

  /** The reply depends on nothing but the boolean `abortSession` returns. */
  lemma InterruptReplyOnlyFromResult(a1: ActiveTable, t1: string, ok1: bool, a2: ActiveTable, t2: string, ok2: bool)
    requires AbortSession(a1, t1, ok1) == AbortSession(a2, t2, ok2)
    ensures HandleInterrupt(a1, t1, ok1) == HandleInterrupt(a2, t2, ok2)
  {
  }

  /** An idle thread, or one whose execution has no query, is never reported interrupted. */
  lemma InterruptNeedsQuery(active: ActiveTable, threadId: string, ok: bool)
    requires threadId !in active || !active[threadId].hasQuery || !ok
    ensures HandleInterrupt(active, threadId, ok) == InterruptNotSent
  {
  }

  // ---- worktree delete ----

  /** Outcomes of the git and Discord calls of a delete. */
  datatype DeleteOracle = DeleteOracle(
    worktreeExists: bool,          // `worktreeExists(mapping.worktreePath)`
    removeError: Option<string>,   // `removeWorktree` threw this message
    inThread: bool,                // the click came from a thread
    archiveError: Option<string>)  // `setArchived(true)` threw this message

  datatype DeleteReply = MappingNotFound | Deleted | DeleteFailed(message: string)

  /** `removeCalled` records whether `removeWorktree` was called. */
  datatype DeleteStep = DeleteStep(store: Store, reply: DeleteReply, removeCalled: bool)

  function DeleteFailure(message: string): string {
    "❌ Failed to delete worktree: " + message
  }

  /**
    `handleWorktreeDelete`: without a mapping nothing is removed. Otherwise the
    worktree is removed only if it exists; a failed removal keeps the mapping,
    any other outcome drops it, and a failed archive is still reported as a
    failure after the mapping is gone. No other thread's mapping changes.
   */
  function HandleWorktreeDelete(s: Store, threadId: string, o: DeleteOracle): (r: DeleteStep)
    ensures r.reply.MappingNotFound? <==> GetWorktreeMapping(s, threadId).None?
    ensures r.reply.MappingNotFound? ==> r.store == s && !r.removeCalled
    ensures r.removeCalled <==> GetWorktreeMapping(s, threadId).Some? && o.worktreeExists
    ensures !r.reply.MappingNotFound? ==>
              && (GetWorktreeMapping(r.store, threadId).None? <==> !(o.worktreeExists && o.removeError.Some?))
              && (GetWorktreeMapping(r.store, threadId).Some? ==> r.store == s)
    ensures r.reply.Deleted? <==>
              && GetWorktreeMapping(s, threadId).Some?
              && !(o.worktreeExists && o.removeError.Some?) && !(o.inThread && o.archiveError.Some?)
    ensures r.store == s.(worktreeMappings := r.store.worktreeMappings)
    ensures forall other :: other != threadId ==> GetWorktreeMapping(r.store, other) == GetWorktreeMapping(s, other)
  {
    match GetWorktreeMapping(s, threadId)
    case None => DeleteStep(s, MappingNotFound, false)
    case Some(_) =>
      if o.worktreeExists && o.removeError.Some? then
        DeleteStep(s, DeleteFailed(DeleteFailure(o.removeError.value)), true)
      else
        var s1 := RemoveWorktreeMapping(s, threadId);
        if o.inThread && o.archiveError.Some? then
          DeleteStep(s1, DeleteFailed(DeleteFailure(o.archiveError.value)), o.worktreeExists)
        else DeleteStep(s1, Deleted, o.worktreeExists)
  }

  /**
    The buttons of a deleted worktree go stale: after a delete that found the
    mapping and whose removal did not throw, a second delete and the
    pull-request button both answer that no mapping exists, and neither
    changes anything. A removal that threw keeps the mapping, so a second
    delete tries again.
   */
  lemma DeleteLeavesStaleButtons(s: Store, active: ActiveTable, threadId: string, first: DeleteOracle,
                                 second: DeleteOracle, channel: ClickChannel, o: StartOracle)
    requires GetWorktreeMapping(s, threadId).Some?
    ensures var after := HandleWorktreeDelete(s, threadId, first).store;
            !(first.worktreeExists && first.removeError.Some?) ==>
              && HandleWorktreeDelete(after, threadId, second) == DeleteStep(after, MappingNotFound, false)
              && HandleWorktreePR(World(after, active), channel, threadId, o)
                 == PrStep(World(after, active), PrMappingNotFound, None)
    ensures var after := HandleWorktreeDelete(s, threadId, first).store;
            first.worktreeExists && first.removeError.Some? ==>
              !HandleWorktreeDelete(after, threadId, second).reply.MappingNotFound?
  {
  }

  // ---- pull request ----

  const PrPrompt := "Create a pull request for the current branch. Include a clear title and description summarizing all changes."

  /** The clicked message's channel: a thread (whose parent may be null) or something else. */
  datatype ClickChannel = ThreadChannel(id: string, parentId: Option<string>) | OtherChannel

  datatype PrReply = PrMappingNotFound | PrStarted

  /** `run` holds what `runPrompt` did, when it was called. */
  datatype PrStep = PrStep(world: World, reply: PrReply, run: Option<RunOutcome>)

  /**
    `handleWorktreePR`: without a mapping nothing runs. In a thread whose
    parent is known, the fixed pull-request prompt goes through `runPrompt`
    on the clicked thread with no busy check; elsewhere nothing runs, and the
    started reply is given either way.
   */
  function HandleWorktreePR(w: World, channel: ClickChannel, threadId: string, o: StartOracle): (r: PrStep)
    ensures r.reply.PrMappingNotFound? <==> GetWorktreeMapping(w.store, threadId).None?
    ensures r.run.None? ==> r.world == w
    ensures r.run.Some? <==>
              GetWorktreeMapping(w.store, threadId).Some? && channel.ThreadChannel? && channel.parentId.Some?
    ensures r.run.Some? ==>
              var step := RunPrompt(w, RunRequest(channel.id, threadId, PrPrompt, channel.parentId.value), o);
              r.world == step.world && r.run.value == step.outcome
  {
    match GetWorktreeMapping(w.store, threadId)
    case None => PrStep(w, PrMappingNotFound, None)
    case Some(_) =>
      match channel
      case ThreadChannel(id, Some(parent)) =>
        var step := RunPrompt(w, RunRequest(id, threadId, PrPrompt, parent), o);
        PrStep(step.world, PrStarted, Some(step.outcome))
      case _ => PrStep(w, PrStarted, None)
  }

  /**
    The pull-request button does not respect the busy guard: on a thread
    whose execution is still running, a started run replaces the active
    entry with a new execution.
   */
  lemma PrButtonReplacesBusyExecution(w: World, channel: ClickChannel, threadId: string, o: StartOracle)
    requires IsBusy(w.active, threadId)
    ensures var r := HandleWorktreePR(w, channel, threadId, o);
            r.run.Some? && r.run.value.Running? ==>
              && GetActiveExecution(r.world.active, threadId) == Some(Registered(true))
              && IsBusy(r.world.active, threadId)
  {
  }
}
