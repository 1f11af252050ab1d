/**
  The in-process execution engine (src/services/claudeService.ts): one
  `ClaudeExecution` consumes the message stream of an agent SDK query, keeps
  `accumulatedText` readable for progress display, and ends in exactly one
  terminal callback. The stream is a finite sequence of already-decoded
  messages followed by how the stream ended; callbacks are recorded in the
  order they fire instead of being called.
 */
module ClaudeService {
  import opened Wrappers
  import opened Strings

  // ---- SDK messages, as far as the execution looks into them ----

  datatype Delta = Delta(deltaType: string, text: string)

  /** The `event` of a `stream_event` message. */
  datatype StreamEvent = StreamEvent(eventType: string, delta: Option<Delta>)

  datatype ContentBlock = ContentBlock(blockType: string, text: string)

  datatype ResultMessage = ResultMessage(
    subtype: string,
    result: Option<string>,
    totalCostUsd: Option<real>,
    durationMs: Option<int>,
    numTurns: Option<int>)

  datatype SdkMessage =
    | System(subtype: string, sessionId: string)
    | StreamEventMessage(event: Option<StreamEvent>)     // None: the event is null or missing
    | Assistant(content: Option<seq<ContentBlock>>)     // None: message.content is not an array
    | SdkResult(res: ResultMessage)
    | Other(messageType: string)

  /** How the async generator stopped after its last message. */
  datatype StreamEnd = Exhausted | Threw(message: string)

  datatype ExecutionResult = ExecutionResult(
    text: string,
    cost: Option<real>,
    duration: Option<int>,
    numTurns: Option<int>)

  /** One firing of an `ExecutionCallbacks` member. */
  datatype Callback =
    | SessionInit(sessionId: string)
    | Complete(result: ExecutionResult)
    | Failed(message: string)
  {
    predicate IsTerminal() { Complete? || Failed? }
  }

  /** The observable fields of a `ClaudeExecution`; `hasQuery` says whether `queryInstance` is set. */
  datatype Execution = Execution(
    accumulatedText: string,
    sessionId: Option<string>,
    completed: bool,
    hasQuery: bool)

  const NewExecution := Execution("", None, false, false)

  const NoOutput := "No output received."

  /** JavaScript truthiness of an optional string. */
  predicate Truthy(s: Option<string>) {
    s.Some? && s.value != ""
  }

  // ---- start ----

  datatype QueryOptions = QueryOptions(cwd: string, model: Option<string>, resume: Option<string>)

  /** The query options `start` builds: model and resume are set only from truthy values. */
  function QueryOptionsFor(cwd: string, sessionId: Option<string>, model: Option<string>): (o: QueryOptions)
    ensures o.cwd == cwd
    ensures o.resume.Some? <==> Truthy(sessionId)
    ensures o.resume.Some? ==> o.resume == sessionId
    ensures o.model.Some? <==> Truthy(model)
    ensures o.model.Some? ==> o.model == model
  {
    QueryOptions(cwd, if Truthy(model) then model else None, if Truthy(sessionId) then sessionId else None)
  }

  // ---- the per-message handlers ----

  predicate IsTextDelta(event: Option<StreamEvent>) {
    && event.Some?
    && event.value.eventType == "content_block_delta"
    && event.value.delta.Some?
    && event.value.delta.value.deltaType == "text_delta"
  }

  /** `handleStreamEvent`: a text delta is appended; anything else leaves the text alone. */
  function HandleStreamEvent(acc: string, event: Option<StreamEvent>): (r: string)
    ensures IsTextDelta(event) ==> r == acc + event.value.delta.value.text
    ensures !IsTextDelta(event) ==> r == acc
  {
    if IsTextDelta(event) then acc + event.value.delta.value.text else acc
  }

  /** The `text` of every block of type "text", in order. */
  function TextBlocks(blocks: seq<ContentBlock>): (texts: seq<string>)
    ensures |texts| <= |blocks|
    ensures forall b :: b in blocks && b.blockType == "text" ==> b.text in texts
    ensures forall t :: t in texts ==> ContentBlock("text", t) in blocks
  {
    if |blocks| == 0 then []
    else (if blocks[0].blockType == "text" then [blocks[0].text] else []) + TextBlocks(blocks[1..])
  }

  /** Block order is kept: the texts of two runs of blocks are the texts of each, in turn. */
  lemma {:induction false} TextBlocksAppend(a: seq<ContentBlock>, b: seq<ContentBlock>)
    ensures TextBlocks(a + b) == TextBlocks(a) + TextBlocks(b)
    decreases |a|
  {
    if |a| == 0 {
      assert a + b == b;
    } else {
      var head := if a[0].blockType == "text" then [a[0].text] else [];
      assert (a + b)[0] == a[0];
      assert (a + b)[1..] == a[1..] + b;
      assert TextBlocks(a + b) == head + TextBlocks(a[1..] + b);
      assert TextBlocks(a) == head + TextBlocks(a[1..]);
      TextBlocksAppend(a[1..], b);
      assert head + (TextBlocks(a[1..]) + TextBlocks(b)) == (head + TextBlocks(a[1..])) + TextBlocks(b);
    }
  }

  /** The full text of an assistant turn, when its content is an array holding text blocks. */
  function TurnText(content: Option<seq<ContentBlock>>): Option<string> {
    if content.None? || |TextBlocks(content.value)| == 0 then None
    else Some(Join(TextBlocks(content.value), "\n"))
  }

  /**
    `handleAssistantMessage`: the turn text is authoritative. The accumulated
    text is left alone when it already ends with the turn text and is replaced
    by exactly the turn text otherwise.
   */
  function HandleAssistantMessage(acc: string, content: Option<seq<ContentBlock>>): (r: string)
    ensures TurnText(content).None? ==> r == acc
    ensures TurnText(content).Some? ==> EndsWith(r, TurnText(content).value)
    ensures TurnText(content).Some? ==> (r == acc <==> EndsWith(acc, TurnText(content).value))
    ensures r == acc || r == TurnText(content).value
  {
    match TurnText(content)
    case None => acc
    case Some(turn) => if EndsWith(acc, turn) then acc else turn
  }

  /** Applying the same assistant turn twice is the same as applying it once. */
  lemma AssistantIdempotent(acc: string, content: Option<seq<ContentBlock>>)
    ensures HandleAssistantMessage(HandleAssistantMessage(acc, content), content)
         == HandleAssistantMessage(acc, content)
  {
  }

  /**
    `handleResult`: a `success` result completes with the reported text when it
    is non-empty, else the accumulated text; any other subtype is an error.
   */
  function HandleResult(acc: string, res: ResultMessage): (c: Callback)
    ensures c.IsTerminal()
    ensures c.Complete? <==> res.subtype == "success"
    ensures c.Complete? ==> c.result.text == (if Truthy(res.result) then res.result.value else acc)
    ensures c.Complete? ==> (c.result.cost, c.result.duration, c.result.numTurns)
                             == (res.totalCostUsd, res.durationMs, res.numTurns)
    ensures c.Failed? ==> c.message == (if Truthy(res.result) then res.result.value
                                        else "Query failed with subtype: " + res.subtype)
  {
    if res.subtype == "success" then
      Complete(ExecutionResult(
        if Truthy(res.result) then res.result.value else acc,
        res.totalCostUsd, res.durationMs, res.numTurns))
    else
      Failed(if Truthy(res.result) then res.result.value else "Query failed with subtype: " + res.subtype)
  }

  /**
    The terminal callback when the stream stops without a result message: an
    exhausted stream completes with the accumulated text (or the no-output
    notice); a throwing one is routed to `onError` by `start`'s catch.
   */
  function EndCallback(acc: string, end: StreamEnd): (c: Callback)
    ensures c.IsTerminal()
    ensures c.Complete? <==> end.Exhausted?
    ensures c.Complete? ==> c.result == ExecutionResult(if acc == "" then NoOutput else acc, None, None, None)
    ensures c.Failed? ==> c.message == end.message
  {
    match end
    case Exhausted => Complete(ExecutionResult(if acc == "" then NoOutput else acc, None, None, None))
    case Threw(m) => Failed(m)
  }

  // ---- consumeQuery ----

  datatype Run = Run(exec: Execution, calls: seq<Callback>)

  /**
    `consumeQuery` from a not yet completed execution: messages are handled in
    order until the first result message, which ends consumption. Exactly one
    terminal callback fires, after any session-init callbacks, and the
    execution ends completed.
   */
  function Consume(e: Execution, msgs: seq<SdkMessage>, end: StreamEnd): (r: Run)
    requires !e.completed
    ensures r.exec.completed
    ensures r.exec.hasQuery == e.hasQuery
    ensures |r.calls| >= 1 && r.calls[|r.calls| - 1].IsTerminal()
    ensures forall i :: 0 <= i < |r.calls| - 1 ==> r.calls[i].SessionInit?
    decreases |msgs|
  {
    if |msgs| == 0 then
      // `completed` is still false here: only a result message sets it, and that returns
      Run(e.(completed := true), [EndCallback(e.accumulatedText, end)])
    else
      match msgs[0]
      case System(subtype, id) =>
        if subtype == "init" then
          var rest := Consume(e.(sessionId := Some(id)), msgs[1..], end);
          Run(rest.exec, [SessionInit(id)] + rest.calls)
        else Consume(e, msgs[1..], end)
      case StreamEventMessage(event) =>
        Consume(e.(accumulatedText := HandleStreamEvent(e.accumulatedText, event)), msgs[1..], end)
      case Assistant(content) =>
        Consume(e.(accumulatedText := HandleAssistantMessage(e.accumulatedText, content)), msgs[1..], end)
      case SdkResult(res) =>
        Run(e.(completed := true), [HandleResult(e.accumulatedText, res)])
      case Other(_) =>
        Consume(e, msgs[1..], end)
  }

  // ---- a message-by-message reference reading of consumeQuery ----

  /** The index of the first result message, or `|msgs|` when there is none. */
  function ResultIndex(msgs: seq<SdkMessage>): (k: nat)
    ensures k <= |msgs|
    ensures k < |msgs| ==> msgs[k].SdkResult?
    ensures forall j :: 0 <= j < k ==> !msgs[j].SdkResult?
  {
    if |msgs| == 0 then 0
    else if msgs[0].SdkResult? then 0
    else 1 + ResultIndex(msgs[1..])
  }

  /** What one message does to the accumulated text. */
  function UpdateText(acc: string, m: SdkMessage): string {
    match m
    case StreamEventMessage(event) => HandleStreamEvent(acc, event)
    case Assistant(content) => HandleAssistantMessage(acc, content)
    case _ => acc
  }

  function TextAfter(acc: string, msgs: seq<SdkMessage>): string
    decreases |msgs|
  {
    if |msgs| == 0 then acc else TextAfter(UpdateText(acc, msgs[0]), msgs[1..])
  }

  /** The session-init callbacks a message prefix fires, one per `system/init` message. */
  function InitCalls(msgs: seq<SdkMessage>): seq<Callback>
    decreases |msgs|
  {
    if |msgs| == 0 then []
    else (if msgs[0].System? && msgs[0].subtype == "init" then [SessionInit(msgs[0].sessionId)] else [])
         + InitCalls(msgs[1..])
  }

  /** The session id after a message prefix: the last init message's, else `current`. */
  function LastSessionId(current: Option<string>, msgs: seq<SdkMessage>): Option<string>
    decreases |msgs|
  {
    if |msgs| == 0 then current
    else LastSessionId(if msgs[0].System? && msgs[0].subtype == "init" then Some(msgs[0].sessionId) else current,
                       msgs[1..])
  }

  /** The terminal callback given the text at the point consumption stops. */
  function TerminalFor(acc: string, msgs: seq<SdkMessage>, end: StreamEnd): Callback {
    var k := ResultIndex(msgs);
    if k < |msgs| then HandleResult(acc, msgs[k].res) else EndCallback(acc, end)
  }

  /** `Consume` agrees with the reference reading on these inputs. */
  predicate ConsumeAgrees(e: Execution, msgs: seq<SdkMessage>, end: StreamEnd)
    requires !e.completed
  {
    var k := ResultIndex(msgs);
    var r := Consume(e, msgs, end);
    && r.calls == InitCalls(msgs[..k]) + [TerminalFor(TextAfter(e.accumulatedText, msgs[..k]), msgs, end)]
    && r.exec.accumulatedText == TextAfter(e.accumulatedText, msgs[..k])
    && r.exec.sessionId == LastSessionId(e.sessionId, msgs[..k])
  }

  /**
    Consumption equals the reference reading: everything before the first result
    message is handled in order (init ids fire and set the session id, text
    updates fold into the accumulator), nothing after it is looked at, and the
    single terminal callback is decided by that result message or, without one,
    by how the stream ended.
   */
  lemma {:induction false} ConsumeSpec(e: Execution, msgs: seq<SdkMessage>, end: StreamEnd)
    requires !e.completed
    ensures var k := ResultIndex(msgs);
            var r := Consume(e, msgs, end);
            && r.calls == InitCalls(msgs[..k]) + [TerminalFor(TextAfter(e.accumulatedText, msgs[..k]), msgs, end)]
            && r.exec.accumulatedText == TextAfter(e.accumulatedText, msgs[..k])
            && r.exec.sessionId == LastSessionId(e.sessionId, msgs[..k])
    decreases |msgs|
  {
    if |msgs| > 0 && !msgs[0].SdkResult? {
      var m := msgs[0];
      if m.System? && m.subtype == "init" {
        ConsumeSpec(e.(sessionId := Some(m.sessionId)), msgs[1..], end);
        ConsumeInitStep(e, msgs, end);
      } else {
        ConsumeSpec(e.(accumulatedText := UpdateText(e.accumulatedText, m)), msgs[1..], end);
        ConsumeTextStep(e, msgs, end);
      }
    } else {
      assert msgs[..ResultIndex(msgs)] == [];
    }
  }

  /** An init message fires its callback and sets the session id, and agreement carries over from the rest. */
  lemma ConsumeInitStep(e: Execution, msgs: seq<SdkMessage>, end: StreamEnd)
    requires !e.completed && |msgs| > 0 && msgs[0].System? && msgs[0].subtype == "init"
    requires ConsumeAgrees(e.(sessionId := Some(msgs[0].sessionId)), msgs[1..], end)
    ensures ConsumeAgrees(e, msgs, end)
  {
    var m := msgs[0];
    var tail := msgs[1..];
    var k := ResultIndex(msgs);
    var j := ResultIndex(tail);
    assert k == 1 + j;
    PrefixUnfolds(msgs, k);
    ConsumeStep(e, msgs, end);
    var e' := e.(sessionId := Some(m.sessionId));
    var text := TextAfter(e'.accumulatedText, tail[..j]);
    TerminalForTail(text, msgs, end);
    var rest := Consume(e', tail, end);
    assert [SessionInit(m.sessionId)] + rest.calls == InitCalls(msgs[..k]) + [TerminalFor(text, msgs, end)];
  }

  /** Any other message that is not a result only updates the text, and agreement carries over from the rest. */
  lemma ConsumeTextStep(e: Execution, msgs: seq<SdkMessage>, end: StreamEnd)
    requires !e.completed && |msgs| > 0 && !msgs[0].SdkResult? && !(msgs[0].System? && msgs[0].subtype == "init")
    requires ConsumeAgrees(e.(accumulatedText := UpdateText(e.accumulatedText, msgs[0])), msgs[1..], end)
    ensures ConsumeAgrees(e, msgs, end)
  {
    var tail := msgs[1..];
    var k := ResultIndex(msgs);
    var j := ResultIndex(tail);
    assert k == 1 + j;
    PrefixUnfolds(msgs, k);
    ConsumeStep(e, msgs, end);
    var e' := e.(accumulatedText := UpdateText(e.accumulatedText, msgs[0]));
    TerminalForTail(TextAfter(e'.accumulatedText, tail[..j]), msgs, end);
  }

  /** A message that is not a result does not change which terminal callback fires. */
  lemma TerminalForTail(acc: string, msgs: seq<SdkMessage>, end: StreamEnd)
    requires |msgs| > 0 && !msgs[0].SdkResult?
    ensures TerminalFor(acc, msgs[1..], end) == TerminalFor(acc, msgs, end)
  {
    var j := ResultIndex(msgs[1..]);
    assert ResultIndex(msgs) == 1 + j;
    if j < |msgs[1..]| {
      assert msgs[1..][j] == msgs[1 + j];
    }
  }

  /** The reference readings of a non-empty prefix unfold on its first message. */
  lemma PrefixUnfolds(msgs: seq<SdkMessage>, k: nat)
    requires 1 <= k <= |msgs|
    ensures msgs[..k][1..] == msgs[1..][..k - 1]
    ensures forall acc :: TextAfter(acc, msgs[..k]) == TextAfter(UpdateText(acc, msgs[0]), msgs[1..][..k - 1])
    ensures InitCalls(msgs[..k])
         == (if msgs[0].System? && msgs[0].subtype == "init" then [SessionInit(msgs[0].sessionId)] else [])
            + InitCalls(msgs[1..][..k - 1])
    ensures forall cur :: (LastSessionId(cur, msgs[..k])
      == LastSessionId(if msgs[0].System? && msgs[0].subtype == "init" then Some(msgs[0].sessionId) else cur,
                       msgs[1..][..k - 1]))
  {
    assert msgs[..k][1..] == msgs[1..][..k - 1];
    assert msgs[..k][0] == msgs[0];
  }

  /** One step of `Consume` on a message that is not a result. */
  lemma ConsumeStep(e: Execution, msgs: seq<SdkMessage>, end: StreamEnd)
    requires !e.completed && |msgs| > 0 && !msgs[0].SdkResult?
    ensures var m := msgs[0];
            if m.System? && m.subtype == "init" then
              var rest := Consume(e.(sessionId := Some(m.sessionId)), msgs[1..], end);
              Consume(e, msgs, end) == Run(rest.exec, [SessionInit(m.sessionId)] + rest.calls)
            else
              Consume(e, msgs, end) == Consume(e.(accumulatedText := UpdateText(e.accumulatedText, m)), msgs[1..], end)
  {
    var m := msgs[0];
    if !m.StreamEventMessage? && !m.Assistant? {
      assert e.(accumulatedText := UpdateText(e.accumulatedText, m)) == e;
    }
  }

  /** The deltas of a stream, concatenated: the reference for the accumulated text. */
  function DeltaText(events: seq<Option<StreamEvent>>): string {
    if |events| == 0 then ""
    else (if IsTextDelta(events[0]) then events[0].value.delta.value.text else "") + DeltaText(events[1..])
  }

  function AsStreamMessages(events: seq<Option<StreamEvent>>): (msgs: seq<SdkMessage>)
    ensures |msgs| == |events|
    ensures forall i :: 0 <= i < |msgs| ==> msgs[i] == StreamEventMessage(events[i])
  {
    if |events| == 0 then [] else [StreamEventMessage(events[0])] + AsStreamMessages(events[1..])
  }

  /** A stream of stream events only accumulates exactly the concatenation of its text deltas. */
  lemma {:induction false} DeltasConcatenate(acc: string, events: seq<Option<StreamEvent>>)
    ensures TextAfter(acc, AsStreamMessages(events)) == acc + DeltaText(events)
    decreases |events|
  {
    if |events| > 0 {
      var msgs := AsStreamMessages(events);
      assert msgs[1..] == AsStreamMessages(events[1..]);
      var head := if IsTextDelta(events[0]) then events[0].value.delta.value.text else "";
      assert UpdateText(acc, msgs[0]) == acc + head;
      DeltasConcatenate(acc + head, events[1..]);
      assert acc + head + DeltaText(events[1..]) == acc + (head + DeltaText(events[1..]));
    }
  }

  /**
    A stream of deltas that ends without a result completes with the
    concatenated deltas, or with the no-output notice when they are empty.
   */
  lemma DeltaStreamCompletes(events: seq<Option<StreamEvent>>)
    ensures var r := Consume(NewExecution, AsStreamMessages(events), Exhausted);
            var text := DeltaText(events);
            r.calls == [Complete(ExecutionResult(if text == "" then NoOutput else text, None, None, None))]
  {
    var msgs := AsStreamMessages(events);
    var k := ResultIndex(msgs);
    assert k == |msgs|;
    assert msgs[..k] == msgs;
    ConsumeSpec(NewExecution, msgs, Exhausted);
    DeltasConcatenate("", events);
    assert "" + DeltaText(events) == DeltaText(events);
    NoInitCalls(msgs);
    var text := DeltaText(events);
    assert TerminalFor(text, msgs, Exhausted) == EndCallback(text, Exhausted);
  }

  /**
    A stream of deltas closed by a result message ends with that result
    judged against the concatenated deltas. In particular a `success` result
    with an empty `result` field completes with exactly the concatenated
    deltas; that is also the empty text, without the no-output notice, when
    there were none.
   */
  lemma DeltasThenResult(events: seq<Option<StreamEvent>>, res: ResultMessage, end: StreamEnd)
    ensures var r := Consume(NewExecution, AsStreamMessages(events) + [SdkResult(res)], end);
            r.calls == [HandleResult(DeltaText(events), res)]
    ensures var r := Consume(NewExecution, AsStreamMessages(events) + [SdkResult(res)], end);
            res.subtype == "success" && !Truthy(res.result) ==>
              r.calls == [Complete(ExecutionResult(DeltaText(events), res.totalCostUsd, res.durationMs, res.numTurns))]
  {
    var prefix := AsStreamMessages(events);
    var msgs := prefix + [SdkResult(res)];
    var k := ResultIndex(msgs);
    assert msgs[|prefix|].SdkResult?;
    assert forall j :: 0 <= j < |prefix| ==> msgs[j] == prefix[j];
    assert k == |prefix|;
    assert msgs[..k] == prefix;
    var text := DeltaText(events);
    DeltasConcatenate("", events);
    assert "" + text == text;
    assert TextAfter("", prefix) == text;
    NoInitCalls(prefix);
    assert TerminalFor(text, msgs, end) == HandleResult(text, res);
    ConsumeSpec(NewExecution, msgs, end);
  }

  lemma {:induction false} NoInitCalls(msgs: seq<SdkMessage>)
    requires forall i :: 0 <= i < |msgs| ==> msgs[i].StreamEventMessage?
    ensures InitCalls(msgs) == []
    decreases |msgs|
  {
    if |msgs| > 0 {
      NoInitCalls(msgs[1..]);
    }
  }

  // ---- interrupt and the active-execution table ----

  /** `interrupt`: true only when a query exists and its interrupt call resolves. */
  function Interrupt(e: Execution, interruptSucceeds: bool): (r: bool)
    ensures r <==> e.hasQuery && interruptSucceeds
  {
    e.hasQuery && interruptSucceeds
  }

  /** Thread id -> the execution registered for it. */
  type ActiveTable = map<string, Execution>

  function GetActiveExecution(t: ActiveTable, threadId: string): Option<Execution> {
    if threadId in t then Some(t[threadId]) else None
  }

  /** `setActiveExecution`: a plain map write that overwrites any entry of the thread. */
  function SetActiveExecution(t: ActiveTable, threadId: string, e: Execution): (r: ActiveTable)
    ensures GetActiveExecution(r, threadId) == Some(e)
    ensures forall other :: other != threadId ==> GetActiveExecution(r, other) == GetActiveExecution(t, other)
  {
    t[threadId := e]
  }

  /** `clearActiveExecution`: deletes the thread's entry, whichever execution it holds. */
  function ClearActiveExecution(t: ActiveTable, threadId: string): (r: ActiveTable)
    ensures GetActiveExecution(r, threadId) == None
    ensures forall other :: other != threadId ==> GetActiveExecution(r, other) == GetActiveExecution(t, other)
  {
    t - {threadId}
  }

  /** `interruptExecution`: false without an entry, else the entry's `interrupt` result. */
  function InterruptExecution(t: ActiveTable, threadId: string, interruptSucceeds: bool): (r: bool)
    ensures r <==> threadId in t && t[threadId].hasQuery && interruptSucceeds
  {
    match GetActiveExecution(t, threadId)
    case None => false
    case Some(e) => Interrupt(e, interruptSucceeds)
  }
}
