/** One running turn: its steer inbox, and the program its goroutine follows. */
module TurnTask {
  import opened Seqs
  import opened Wrappers
  import opened Protocol
  import opened History
  import opened Text

  datatype TurnInput = TurnInput(text: string, imageUrls: seq<string>)

  // ----- the inbox -----

  /** Steer input waiting for the turn loop, and whether more is accepted. */
  datatype Inbox = Inbox(pending: seq<TurnInput>, accepting: bool)

  function Enqueued(inbox: Inbox, input: seq<TurnInput>): (Inbox, bool) {
    if !inbox.accepting then (inbox, false) else (inbox.(pending := inbox.pending + input), true)
  }

  /** Taking empties the inbox; finding it empty closes it, unless it is kept open. */
  function Taken(inbox: Inbox, keepOpen: bool): (Inbox, seq<TurnInput>) {
    (Inbox([], inbox.accepting && (inbox.pending != [] || keepOpen)), inbox.pending)
  }

  class RunningTask {
    var pendingInput: seq<TurnInput>
    var acceptingInput: bool
    var abortReason: string
    var cancelled: bool

    function State(): Inbox
      reads this
    {
      Inbox(pendingInput, acceptingInput)
    }

    constructor ()
      ensures State() == Inbox([], true) && !cancelled && abortReason == ""
    {
      pendingInput, acceptingInput, abortReason, cancelled := [], true, "", false;
    }

    method EnqueueInput(input: seq<TurnInput>) returns (accepted: bool)
      modifies this`pendingInput
      ensures (State(), accepted) == Enqueued(old(State()), input)
    {
      if !acceptingInput {
        return false;
      }
      pendingInput := pendingInput + input;
      return true;
    }

    method TakePendingInput(keepOpen: bool) returns (input: seq<TurnInput>)
      modifies this`pendingInput, this`acceptingInput
      ensures (State(), input) == Taken(old(State()), keepOpen)
    {
      input := pendingInput;
      pendingInput := [];
      if |input| == 0 && !keepOpen {
        acceptingInput := false;
      }
    }

    method Abort(reason: string)
      modifies this`abortReason, this`cancelled
      ensures abortReason == reason && cancelled
    {
      abortReason := reason;
      cancelled := true;
    }
  }

  // ----- the turn program -----

  datatype Call = Call(callId: string, name: string, arguments: string)

  datatype Outcome = Completed(error: Option<string>) | Aborted(reason: string)

  /** What one model response has brought so far. */
  datatype Sample = Sample(calls: seq<Call>, text: string, assistantSeen: bool, followUp: bool, completed: bool)

  /** Where the turn's goroutine stands. */
  datatype Pc =
    | LoopTop
    | BeforeSample
    | Sampling(sample: Sample)
    | Tools(sample: Sample, outputs: seq<Option<string>>)
    | Taking(followUp: bool)
    | Finishing
    | Ended
    | Cleared
    | Gone

  /** A turn. `queue` holds records it is about to make; it does nothing else before they are
      made. `error` is the error its loop returned with. The fields from `initial` on only keep
      account: `block` is everything the turn has decided to record, in order, `echoed` the user
      messages among the items of the model's streams, `foreign` says whether a stream held a
      tool output, and `brought` is what the tool of each call brought when it finished, by the
      place of the call among all calls of the turn. */
  datatype Task = Task(
    id: string,
    pc: Pc,
    queue: seq<Payload>,
    cancelled: bool,
    reason: string,
    inbox: Inbox,
    error: Option<string>,
    initial: TurnInput,
    accepted: seq<TurnInput>,
    taken: seq<TurnInput>,
    block: seq<Payload>,
    echoed: seq<ResponseItem>,
    foreign: bool,
    brought: map<nat, string>,
    outcome: Option<Outcome>)

  function UserItem(input: TurnInput): ResponseItem {
    NewUserMessage(input.text, input.imageUrls)
  }

  /** One input as it is recorded: the user message, then instructions it triggers. */
  function InputPayloads(input: TurnInput, instructions: Option<string>): seq<Payload> {
    [Item(UserItem(input))] + (if instructions.Some? then [Item(NewDeveloperMessage(instructions.value))] else [])
  }

  function InputsPayloads(inputs: seq<TurnInput>, instructions: TurnInput -> Option<string>): seq<Payload> {
    if inputs == [] then []
    else InputPayloads(inputs[0], instructions(inputs[0])) + InputsPayloads(inputs[1..], instructions)
  }

  function NewTask(id: string, startedAt: int, input: TurnInput, instructions: Option<string>): Task {
    var opening := [Event(TurnStarted(id, startedAt)), TurnContext(id)] + InputPayloads(input, instructions);
    Task(id, LoopTop, opening, false, "", Inbox([], true), None, input, [], [], opening, [], false, map[], None)
  }

  // ----- compaction -----

  const COMPACT_SUMMARY_PREFIX :=
    "Another language model started to solve this problem and produced a summary of its work. Continue from this checkpoint:\n\n"

  predicate IsUserMessage(item: ResponseItem) {
    item.typ.Message? && item.role.User?
  }

  function LastUserMessage(items: seq<ResponseItem>): seq<ResponseItem> {
    if items == [] then []
    else if IsUserMessage(items[|items| - 1]) then [items[|items| - 1]]
    else LastUserMessage(items[..|items| - 1])
  }

  function Replacement(prompt: seq<ResponseItem>, summary: string): seq<ResponseItem> {
    [NewUserMessage(COMPACT_SUMMARY_PREFIX + summary, [])] + LastUserMessage(prompt)
  }

  method BuildReplacement(prompt: seq<ResponseItem>, summary: string) returns (replacement: seq<ResponseItem>)
    ensures replacement == Replacement(prompt, summary)
  {
    replacement := [NewUserMessage(COMPACT_SUMMARY_PREFIX + summary, [])];
    var index := |prompt| - 1;
    EmptyUnit(replacement);
    assert prompt[..|prompt|] == prompt;
    while index >= 0
      invariant -1 <= index < |prompt|
      invariant LastUserMessage(prompt[..index + 1]) == LastUserMessage(prompt)
    {
      assert prompt[..index + 1][..index] == prompt[..index];
      if prompt[index].typ.Message? && prompt[index].role.User? {
        replacement := replacement + [prompt[index]];
        return;
      }
      index := index - 1;
    }
  }

  /** After a compaction the history is the summary and the newest user message, in that
      order; the prompt is just that, so it is too short to be compacted again. */
  lemma CompactionSettles(prompt: seq<ResponseItem>, summary: string)
    ensures var history := Filtered(Replacement(prompt, summary));
      && history == Replacement(prompt, summary)
      && Normalized(history) == history
      && |Normalized(history)| <= 2
      && LastUserMessage(history) == (if LastUserMessage(prompt) == [] then [history[0]] else LastUserMessage(prompt))
  {
    LastUserIsUser(prompt);
    var last := LastUserMessage(prompt);
    var first := NewUserMessage(COMPACT_SUMMARY_PREFIX + summary, []);
    var history := [first] + last;
    if last == [] {
      assert history == [first];
      FilteredOne(first);
      assert LastUserMessage(history) == [first];
    } else {
      assert history == [first, last[0]];
      FilteredAppend([first], last);
      FilteredOne(first);
      FilteredOne(last[0]);
    }
    PairedHistoryUnchanged(history);
  }

  /** A compaction takes every output with it, among them the error of an unroutable call. */
  lemma CompactionDropsOutputs(prompt: seq<ResponseItem>, summary: string, output: ResponseItem)
    requires output.typ.FunctionCallOutput?
    ensures output !in Normalized(Filtered(Replacement(prompt, summary)))
  {
    hide Normalized, Filtered;
    CompactionSettles(prompt, summary);
    LastUserIsUser(prompt);
  }

  lemma {:induction false} LastUserIsUser(items: seq<ResponseItem>)
    ensures |LastUserMessage(items)| <= 1
    ensures forall i :: 0 <= i < |LastUserMessage(items)| ==> IsUserMessage(LastUserMessage(items)[i])
  {
    if items != [] && !IsUserMessage(items[|items| - 1]) {
      LastUserIsUser(items[..|items| - 1]);
    }
  }

  // ----- tool calls -----

  /** A call the router accepts has an identifier and a name. */
  predicate Routable(item: ResponseItem) {
    item.callId != "" && item.name != ""
  }

  /** What the stream's finished item makes the turn record and remember. */
  function ItemRecords(item: ResponseItem, error: string): seq<Payload> {
    if !item.typ.FunctionCall? then [Item(item)]
    else if Routable(item) then [Item(item), Event(ToolCallStarted(item.callId, item.name, item.arguments))]
    else [Item(item), Item(NewFunctionCallOutput(ReplyId(item.callId), error))]
  }

  function OutputRecords(calls: seq<Call>, outputs: seq<string>): seq<Payload>
    requires |calls| == |outputs|
  {
    if calls == [] then []
    else
      [Item(NewFunctionCallOutput(calls[0].callId, outputs[0])),
       Event(ToolCallCompleted(calls[0].callId, calls[0].name, outputs[0]))]
      + OutputRecords(calls[1..], outputs[1..])
  }

  /** Text that was streamed without a finished assistant item is recorded as one. */
  function TextRecords(text: string, assistantSeen: bool): seq<Payload> {
    if !assistantSeen && text != "" then [Item(NewAssistantMessage(text))] else []
  }

  function Values(outputs: seq<Option<string>>): seq<string>
    requires forall i :: 0 <= i < |outputs| ==> outputs[i].Some?
  {
    seq(|outputs|, i requires 0 <= i < |outputs| => outputs[i].value)
  }

  // ----- parallel tools -----

  /** Tools finish one after another in some order, each filling its own slot. */
  function Finish(outputs: seq<Option<string>>, order: seq<nat>, results: seq<string>): seq<Option<string>>
    requires |outputs| == |results| && forall i :: 0 <= i < |order| ==> order[i] < |results|
    decreases |order|
  {
    if order == [] then outputs
    else Finish(outputs[order[0] := Some(results[order[0]])], order[1..], results)
  }

  lemma {:induction false} FinishLength(outputs: seq<Option<string>>, order: seq<nat>, results: seq<string>)
    requires |outputs| == |results| && forall k :: 0 <= k < |order| ==> order[k] < |results|
    ensures |Finish(outputs, order, results)| == |results|
    decreases |order|
  {
    if order != [] {
      FinishLength(outputs[order[0] := Some(results[order[0]])], order[1..], results);
    }
  }

  /** Slots keep their results, whatever finishes later. */
  lemma {:induction false} FinishFills(outputs: seq<Option<string>>, order: seq<nat>, results: seq<string>, i: nat)
    requires |outputs| == |results| && forall k :: 0 <= k < |order| ==> order[k] < |results|
    requires i < |results| && (i in order || outputs[i] == Some(results[i]))
    ensures |Finish(outputs, order, results)| == |results|
    ensures Finish(outputs, order, results)[i] == Some(results[i])
    decreases |order|
  {
    if order != [] {
      FinishFills(outputs[order[0] := Some(results[order[0]])], order[1..], results, i);
    }
  }

  /** The output of call `i`, and the report behind it, told by their places. */
  predicate RepliedAt(records: seq<Payload>, calls: seq<Call>, results: seq<string>, i: nat)
    requires i < |calls| == |results| && 2 * |calls| <= |records|
  {
    && records[2 * i] == Item(NewFunctionCallOutput(calls[i].callId, results[i]))
    && records[2 * i + 1] == Event(ToolCallCompleted(calls[i].callId, calls[i].name, results[i]))
  }

  lemma {:induction false} OutputsAt(calls: seq<Call>, results: seq<string>)
    requires |calls| == |results|
    ensures |OutputRecords(calls, results)| == 2 * |calls|
    ensures forall i :: 0 <= i < |calls| ==> RepliedAt(OutputRecords(calls, results), calls, results, i)
  {
    if calls != [] {
      var rest := OutputRecords(calls[1..], results[1..]);
      OutputsAt(calls[1..], results[1..]);
      forall i | 0 <= i < |calls|
        ensures RepliedAt(OutputRecords(calls, results), calls, results, i)
      {
        if i > 0 {
          assert RepliedAt(rest, calls[1..], results[1..], i - 1);
        }
      }
    }
  }

  /** In whatever order the calls of one batch finish, the records are the same: for each call,
      in the order the model issued them, the output of its own tool and the report of it. */
  lemma SchedulingIsInvisible(calls: seq<Call>, results: seq<string>, order: seq<nat>)
    requires |calls| == |results|
    requires forall k :: 0 <= k < |order| ==> order[k] < |results|
    requires forall i: nat :: i < |results| ==> i in order
    ensures var outputs := Finish(seq(|calls|, i => None), order, results);
      && |outputs| == |calls|
      && (forall i :: 0 <= i < |outputs| ==> outputs[i].Some?)
      && Values(outputs) == results
      && |OutputRecords(calls, Values(outputs))| == 2 * |calls|
      && forall i :: 0 <= i < |calls| ==> RepliedAt(OutputRecords(calls, Values(outputs)), calls, results, i)
  {
    hide RepliedAt, OutputRecords;
    var empty: seq<Option<string>> := seq(|calls|, i => None);
    var outputs := Finish(empty, order, results);
    FinishLength(empty, order, results);
    forall i: nat | i < |results|
      ensures outputs[i] == Some(results[i])
    {
      FinishFills(empty, order, results, i);
    }
    assert Values(outputs) == results;
    OutputsAt(calls, results);
  }

  // ----- the turn loop -----

  /** What the turn's goroutine can do next, with whatever the model, the tools and the clock
      contribute. */
  datatype TurnAction =
    | Compact(summary: string)
    | CompactFails(error: string)
    | SkipCompact
    | BeginSampling
    | Delta(text: string)
    | ItemDone(item: ResponseItem, error: string)
    | ResponseCompleted
    | StreamFails(error: string)
    | StreamEnds
    | ToolEvent(callId: string, stdin: string)
    | FinishTool(index: nat, output: string)
    | MergeTools
    | Take(instructions: TurnInput -> Option<string>)
    | End(completion: Completion)

  const EMPTY_HISTORY := "conversation history is empty"
  const CLOSED_EARLY := "model stream closed before response.completed"

  /** `prompt` is the prompt that the current history makes. */
  predicate Enabled(t: Task, prompt: seq<ResponseItem>, a: TurnAction) {
    && t.queue == []
    && match a
       case Compact(summary) => t.pc.LoopTop? && |prompt| > 2 && !Blank(summary)
       case CompactFails(_) => t.pc.LoopTop? && |prompt| > 2
       case SkipCompact => t.pc.LoopTop?
       case BeginSampling => t.pc.BeforeSample?
       case Delta(_) => t.pc.Sampling?
       case ItemDone(_, _) => t.pc.Sampling?
       case ResponseCompleted => t.pc.Sampling?
       case StreamFails(_) => t.pc.Sampling?
       case StreamEnds => t.pc.Sampling?
       case ToolEvent(_, _) => t.pc.Tools?
       case FinishTool(index, _) => t.pc.Tools? && index < |t.pc.outputs| && t.pc.outputs[index].None?
       case MergeTools => t.pc.Tools? && |t.pc.outputs| == |t.pc.sample.calls| && AllDone(t.pc.outputs)
       case Take(_) => t.pc.Taking?
       case End(_) => t.pc.Finishing?
  }

  /** A history that was just compacted is not compacted again, and no compaction leaves a blank
      summary. */
  lemma CompactionIsNotRepeated(t: Task, prompt: seq<ResponseItem>, first: string, second: string, error: string)
    ensures var again := Normalized(Filtered(Replacement(prompt, first)));
      !Enabled(t, again, Compact(second)) && !Enabled(t, again, CompactFails(error))
    ensures Blank(second) ==> !Enabled(t, prompt, Compact(second))
  {
    hide Normalized, Filtered, Blank;
    CompactionSettles(prompt, first);
  }

  predicate AllDone(outputs: seq<Option<string>>) {
    forall i :: 0 <= i < |outputs| ==> outputs[i].Some?
  }

  /** The records an action makes the turn put into the log, in order. */
  function Records(t: Task, prompt: seq<ResponseItem>, a: TurnAction): seq<Payload>
    requires Enabled(t, prompt, a)
  {
    match a
    case Compact(summary) => [Compacted(summary, Replacement(prompt, summary)), Event(ContextCompaction(t.id))]
    case CompactFails(error) => [Event(ErrorEvent(error))]
    case BeginSampling => if prompt == [] then [Event(ErrorEvent(EMPTY_HISTORY))] else []
    case ItemDone(item, error) => ItemRecords(item, error)
    case StreamFails(error) => [Event(ErrorEvent(error))]
    case StreamEnds =>
      if !t.pc.sample.completed then [Event(ErrorEvent(CLOSED_EARLY))]
      else if t.pc.sample.calls != [] then []
      else TextRecords(t.pc.sample.text, t.pc.sample.assistantSeen)
    case ToolEvent(callId, stdin) => [Event(TerminalInteraction(callId, stdin))]
    case MergeTools =>
      OutputRecords(t.pc.sample.calls, Values(t.pc.outputs)) + TextRecords(t.pc.sample.text, t.pc.sample.assistantSeen)
    case Take(instructions) => InputsPayloads(t.inbox.pending, instructions)
    case End(completion) =>
      [Event(if t.cancelled then TurnAborted(t.id, t.reason, completion.completedAt)
             else TurnComplete(t.id, completion.(error := t.error)))]
    case _ => []
  }

  function Failed(t: Task, error: string): Task {
    t.(error := Some(error), pc := Finishing)
  }

  // ----- reading a block -----

  function Collect<T>(payloads: seq<Payload>, f: Payload -> seq<T>): seq<T> {
    if payloads == [] then [] else f(payloads[0]) + Collect(payloads[1..], f)
  }

  function ReplyOf(payload: Payload): seq<string> {
    if payload.Event? && payload.msg.ToolCallCompleted? then [payload.msg.output] else []
  }

  function UserOf(payload: Payload): seq<ResponseItem> {
    if payload.Item? && IsUserMessage(payload.item) then [payload.item] else []
  }

  /** The account of what tools brought, once the tool of one more current call has finished. */
  function Noted(t: Task, index: nat, output: string): map<nat, string> {
    t.brought[|Collect(t.block, ReplyOf)| + index := output]
  }

  /** The effect of an action on the turn's own variables. */
  function Moved(t: Task, prompt: seq<ResponseItem>, a: TurnAction): Task
    requires Enabled(t, prompt, a)
  {
    match a
    case Compact(_) => t.(pc := BeforeSample)
    case CompactFails(error) => Failed(t, error)
    case SkipCompact => t.(pc := BeforeSample)
    case BeginSampling =>
      if prompt == [] then Failed(t, EMPTY_HISTORY) else t.(pc := Sampling(Sample([], "", false, false, false)))
    case Delta(text) => t.(pc := Sampling(t.pc.sample.(text := t.pc.sample.text + text)))
    case ItemDone(item, _) =>
      var isCall := item.typ.FunctionCall?;
      var calls := if isCall && Routable(item) then [Call(item.callId, item.name, item.arguments)] else [];
      t.(pc := Sampling(t.pc.sample.(
                 calls := t.pc.sample.calls + calls,
                 assistantSeen := t.pc.sample.assistantSeen || item.role.Assistant?,
                 followUp := t.pc.sample.followUp || (isCall && !Routable(item)))),
         echoed := t.echoed + UserOf(Item(item)),
         foreign := t.foreign || item.typ.FunctionCallOutput?)
    case ResponseCompleted => t.(pc := Sampling(t.pc.sample.(completed := true)))
    case StreamFails(error) => Failed(t, error)
    case StreamEnds =>
      if !t.pc.sample.completed then Failed(t, CLOSED_EARLY)
      else if t.pc.sample.calls != [] then
        t.(pc := Tools(t.pc.sample, seq(|t.pc.sample.calls|, i => None)))
      else t.(pc := Taking(t.pc.sample.followUp))
    case ToolEvent(_, _) => t
    case FinishTool(index, output) =>
      t.(pc := Tools(t.pc.sample, t.pc.outputs[index := Some(output)]), brought := Noted(t, index, output))
    case MergeTools => t.(pc := Taking(true))
    case Take(_) =>
      var (inbox, input) := Taken(t.inbox, t.pc.followUp);
      t.(inbox := inbox, taken := t.taken + input, pc := if t.pc.followUp || input != [] then LoopTop else Finishing)
    case End(_) => t.(outcome := Some(if t.cancelled then Aborted(t.reason) else Completed(t.error)), pc := Ended)
  }

  function Advanced(t: Task, prompt: seq<ResponseItem>, a: TurnAction): Task
    requires Enabled(t, prompt, a)
  {
    var records := Records(t, prompt, a);
    Moved(t, prompt, a).(queue := records, block := t.block + records)
  }

  /** What others do to a turn: the submission loop steers and aborts it, and the recorder
      takes the next record off its queue. */
  function Steered(t: Task, input: TurnInput): Task {
    var (inbox, ok) := Enqueued(t.inbox, [input]);
    t.(inbox := inbox, accepted := if ok then t.accepted + [input] else t.accepted)
  }

  function Cancelled(t: Task, reason: string): Task {
    t.(cancelled := true, reason := reason)
  }

  function Flushed(t: Task): Task
    requires t.queue != []
  {
    t.(queue := t.queue[1..])
  }
}
