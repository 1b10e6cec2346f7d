/** One sampling request, as the loop that the turn's goroutine runs. */
module TurnSampling {
  import opened Seqs
  import opened Wrappers
  import opened Protocol
  import opened History
  import opened TurnTask
  import opened TurnAccounting

  /** What the model's stream delivers; `error` is what the router says about an item that it
      cannot turn into a call. */
  datatype StreamEvent = TextDelta(text: string) | OutputItemDone(item: ResponseItem, error: string) | ResponseDone

  function ActionOf(event: StreamEvent): TurnAction {
    match event
    case TextDelta(text) => Delta(text)
    case OutputItemDone(item, error) => ItemDone(item, error)
    case ResponseDone => ResponseCompleted
  }

  predicate Receiving(t: Task) {
    t.pc.Sampling? && t.queue == []
  }

  /** An action of the turn, with its records made. */
  function Done(t: Task, a: TurnAction): Task
    requires Enabled(t, [], a)
  {
    Advanced(t, [], a).(queue := [])
  }

  lemma StreamGoesOn(t: Task, event: StreamEvent)
    requires Receiving(t)
    ensures Enabled(t, [], ActionOf(event)) && Receiving(Done(t, ActionOf(event)))
  {
  }

  /** The turn after some events of a stream. */
  function Streamed(t: Task, events: seq<StreamEvent>): (u: Task)
    requires Receiving(t)
    ensures Receiving(u)
  {
    if events == [] then t
    else
      var before := Streamed(t, events[..|events| - 1]);
      StreamGoesOn(before, events[|events| - 1]);
      Done(before, ActionOf(events[|events| - 1]))
  }

  function Executed(calls: seq<Call>, execute: Call -> string): seq<string> {
    seq(|calls|, i requires 0 <= i < |calls| => execute(calls[i]))
  }

  function Filled(outputs: seq<string>): seq<Option<string>> {
    seq(|outputs|, i requires 0 <= i < |outputs| => Some(outputs[i]))
  }

  /** The turn after its stream has ended and all tools it called have finished. */
  function Concluded(t: Task, execute: Call -> string): Task
    requires Receiving(t)
  {
    var ended := Done(t, StreamEnds);
    if !ended.pc.Tools? then ended
    else Done(ended.(pc := Tools(ended.pc.sample, Filled(Executed(ended.pc.sample.calls, execute)))), MergeTools)
  }

  lemma SampleMoves(t: Task, event: StreamEvent)
    requires Receiving(t)
    ensures var u := Done(t, ActionOf(event));
      match event
      case TextDelta(text) => u.pc.sample == t.pc.sample.(text := t.pc.sample.text + text) && u.block == t.block
      case ResponseDone => u.pc.sample == t.pc.sample.(completed := true) && u.block == t.block
      case OutputItemDone(item, error) =>
        && u.block == t.block + ItemRecords(item, error)
        && u.pc.sample.text == t.pc.sample.text && u.pc.sample.completed == t.pc.sample.completed
        && u.pc.sample.assistantSeen == (t.pc.sample.assistantSeen || item.role.Assistant?)
        && u.pc.sample.followUp == (t.pc.sample.followUp || (item.typ.FunctionCall? && !Routable(item)))
        && u.pc.sample.calls == t.pc.sample.calls +
             (if item.typ.FunctionCall? && Routable(item) then [Call(item.callId, item.name, item.arguments)] else [])
  {
    EmptyUnit(t.block);
  }

  // ----- what a response asks for, told by its events alone -----

  predicate AsksFor(event: StreamEvent) {
    event.OutputItemDone? && event.item.typ.FunctionCall?
  }

  /** The call that a tool is run for. */
  function CallOf(event: StreamEvent): seq<Call> {
    if AsksFor(event) && event.item.callId != "" && event.item.name != ""
    then [Call(event.item.callId, event.item.name, event.item.arguments)] else []
  }

  /** The output that the stream itself makes the turn record: one it holds, or the error of a
      call without a name or an identifier. */
  function StreamOutputOf(event: StreamEvent): seq<ResponseItem> {
    if event.OutputItemDone? && event.item.typ.FunctionCallOutput? then [event.item]
    else if AsksFor(event) && event.item.callId == "" then [NewFunctionCallOutput("invalid_function_call", event.error)]
    else if AsksFor(event) && event.item.name == "" then [NewFunctionCallOutput(event.item.callId, event.error)]
    else []
  }

  function StreamItemOf(event: StreamEvent): seq<ResponseItem> {
    if event.OutputItemDone? && !event.item.typ.FunctionCallOutput? then [event.item] else []
  }

  function TextOf(event: StreamEvent): string {
    if event.TextDelta? then event.text else ""
  }

  function Gather<T>(events: seq<StreamEvent>, f: StreamEvent -> seq<T>): seq<T> {
    if events == [] then [] else Gather(events[..|events| - 1], f) + f(events[|events| - 1])
  }

  predicate AssistantSpoke(events: seq<StreamEvent>) {
    exists i :: 0 <= i < |events| && events[i].OutputItemDone? && events[i].item.role.Assistant?
  }

  predicate CallSeen(events: seq<StreamEvent>) {
    exists i :: 0 <= i < |events| && AsksFor(events[i])
  }

  // ----- what the turn records of it -----

  function StartOf(payload: Payload): seq<Call> {
    if payload.Event? && payload.msg.ToolCallStarted?
    then [Call(payload.msg.callId, payload.msg.name, payload.msg.arguments)] else []
  }

  /** The identifier, the name and the output of a completion. */
  function CompletionOf(payload: Payload): seq<(string, string, string)> {
    if payload.Event? && payload.msg.ToolCallCompleted?
    then [(payload.msg.callId, payload.msg.name, payload.msg.output)] else []
  }

  function OutputOf(payload: Payload): seq<ResponseItem> {
    if payload.Item? && payload.item.typ.FunctionCallOutput? then [payload.item] else []
  }

  function OtherItemOf(payload: Payload): seq<ResponseItem> {
    if payload.Item? && !payload.item.typ.FunctionCallOutput? then [payload.item] else []
  }

  function Completions(calls: seq<Call>, execute: Call -> string): seq<(string, string, string)> {
    seq(|calls|, i requires 0 <= i < |calls| => (calls[i].callId, calls[i].name, execute(calls[i])))
  }

  function Replies(calls: seq<Call>, execute: Call -> string): seq<ResponseItem> {
    seq(|calls|, i requires 0 <= i < |calls| => NewFunctionCallOutput(calls[i].callId, execute(calls[i])))
  }

  /** No tool call is reported as started once one has been reported as completed. */
  predicate StartsFirst(records: seq<Payload>) {
    forall i, j :: 0 <= i < j < |records| && CompletionOf(records[i]) != [] ==> StartOf(records[j]) == []
  }

  /** What a stream has made the turn record. */
  predicate StreamTold(events: seq<StreamEvent>, records: seq<Payload>) {
    && Collect(records, StartOf) == Gather(events, CallOf)
    && Collect(records, CompletionOf) == []
    && Collect(records, OutputOf) == Gather(events, StreamOutputOf)
    && Collect(records, OtherItemOf) == Gather(events, StreamItemOf)
    && Reported(records)
  }

  /** What a sampling request records and returns: every call with a name and an identifier is
      started, in order; if the response completed, every one is completed, in order, with the
      output of its own tool; the outputs in the history are those of the stream and then those
      of the tools, each directly before its completion; the other items are those of the stream
      and the streamed text, if no item told it; and the model is asked again if it called. */
  ghost predicate RequestTold(events: seq<StreamEvent>, execute: Call -> string, records: seq<Payload>,
                              needsFollowUp: bool, error: Option<string>) {
    var calls := Gather(events, CallOf);
    && error == (if ResponseDone in events then None else Some("model stream closed before response.completed"))
    && (error.Some? ==> StreamTold(events, records))
    && (error == None ==>
        && Collect(records, StartOf) == calls
        && Collect(records, CompletionOf) == Completions(calls, execute)
        && Collect(records, OutputOf) == Gather(events, StreamOutputOf) + Replies(calls, execute)
        && Collect(records, OtherItemOf) == Gather(events, StreamItemOf) +
             (if !AssistantSpoke(events) && Gather(events, TextOf) != "" then [NewAssistantMessage(Gather(events, TextOf))] else [])
        && Reported(records)
        && StartsFirst(records)
        && (needsFollowUp <==> CallSeen(events)))
  }

  // ----- the stream, event by event -----

  function EventRecords(event: StreamEvent): seq<Payload> {
    if event.OutputItemDone? then ItemRecords(event.item, event.error) else []
  }

  lemma EventTold(event: StreamEvent)
    ensures var records := EventRecords(event);
      && Collect(records, StartOf) == CallOf(event)
      && Collect(records, CompletionOf) == []
      && Collect(records, OutputOf) == StreamOutputOf(event)
      && Collect(records, OtherItemOf) == StreamItemOf(event)
      && Reported(records)
  {
    var records := EventRecords(event);
    if |records| == 1 {
      CollectOne(records[0], StartOf);
      CollectOne(records[0], CompletionOf);
      CollectOne(records[0], OutputOf);
      CollectOne(records[0], OtherItemOf);
    } else if |records| == 2 {
      assert records == [records[0], records[1]];
      CollectTwo(records[0], records[1], StartOf);
      CollectTwo(records[0], records[1], CompletionOf);
      CollectTwo(records[0], records[1], OutputOf);
      CollectTwo(records[0], records[1], OtherItemOf);
    }
  }

  lemma GatherMore<T>(events: seq<StreamEvent>, event: StreamEvent, f: StreamEvent -> seq<T>)
    ensures Gather(events + [event], f) == Gather(events, f) + f(event)
  {
    assert (events + [event])[..|events|] == events;
  }

  lemma OneMoreSeen(events: seq<StreamEvent>, event: StreamEvent)
    ensures var more := events + [event];
      && (AssistantSpoke(more) <==> AssistantSpoke(events) || (event.OutputItemDone? && event.item.role.Assistant?))
      && (CallSeen(more) <==> CallSeen(events) || AsksFor(event))
      && (ResponseDone in more <==> ResponseDone in events || event.ResponseDone?)
  {
    hide AsksFor;
    var more := events + [event];
    assert more[|events|] == event && forall i :: 0 <= i < |events| ==> more[i] == events[i];
  }

  lemma StreamToldMore(events: seq<StreamEvent>, records: seq<Payload>, event: StreamEvent)
    requires StreamTold(events, records)
    ensures StreamTold(events + [event], records + EventRecords(event))
  {
    hide Collect, Gather, CallOf, StreamOutputOf, StreamItemOf, Reported, EventRecords;
    EventTold(event);
    GatherMore(events, event, CallOf);
    GatherMore(events, event, StreamOutputOf);
    GatherMore(events, event, StreamItemOf);
    CollectAppend(records, EventRecords(event), StartOf);
    CollectAppend(records, EventRecords(event), CompletionOf);
    CollectAppend(records, EventRecords(event), OutputOf);
    CollectAppend(records, EventRecords(event), OtherItemOf);
    ReportedAppend(records, EventRecords(event));
  }

  /** What the loop's variables hold after some events. */
  predicate Gathered(events: seq<StreamEvent>, calls: seq<Call>, text: string, assistantSeen: bool, followUp: bool, completed: bool) {
    && calls == Gather(events, CallOf) && text == Gather(events, TextOf)
    && assistantSeen == AssistantSpoke(events)
    && completed == (ResponseDone in events)
    && (followUp || calls != [] <==> CallSeen(events))
  }

  lemma GatheredMore(events: seq<StreamEvent>, sample: Sample, event: StreamEvent, next: Sample)
    requires Gathered(events, sample.calls, sample.text, sample.assistantSeen, sample.followUp, sample.completed)
    requires next.text == sample.text + (if event.TextDelta? then event.text else "")
    requires next.completed == (sample.completed || event.ResponseDone?)
    requires next.assistantSeen == (sample.assistantSeen || (event.OutputItemDone? && event.item.role.Assistant?))
    requires next.followUp == (sample.followUp || (AsksFor(event) && (event.item.callId == "" || event.item.name == "")))
    requires next.calls == sample.calls +
      (if AsksFor(event) && event.item.callId != "" && event.item.name != ""
       then [Call(event.item.callId, event.item.name, event.item.arguments)] else [])
    ensures Gathered(events + [event], next.calls, next.text, next.assistantSeen, next.followUp, next.completed)
  {
    hide AssistantSpoke, CallSeen, Gather;
    GatherMore(events, event, CallOf);
    GatherMore(events, event, TextOf);
    OneMoreSeen(events, event);
  }

  // ----- the tools -----

  function Pair(call: Call, output: string): seq<Payload> {
    [Item(NewFunctionCallOutput(call.callId, output)), Event(ToolCallCompleted(call.callId, call.name, output))]
  }

  lemma PairTold(call: Call, output: string)
    ensures Collect(Pair(call, output), StartOf) == []
    ensures Collect(Pair(call, output), CompletionOf) == [(call.callId, call.name, output)]
    ensures Collect(Pair(call, output), OutputOf) == [NewFunctionCallOutput(call.callId, output)]
    ensures Collect(Pair(call, output), OtherItemOf) == []
  {
    var pair := Pair(call, output);
    CollectTwo(pair[0], pair[1], StartOf);
    CollectTwo(pair[0], pair[1], CompletionOf);
    CollectTwo(pair[0], pair[1], OutputOf);
    CollectTwo(pair[0], pair[1], OtherItemOf);
  }

  lemma {:induction false} OutputsTold(calls: seq<Call>, execute: Call -> string)
    ensures var records := OutputRecords(calls, Executed(calls, execute));
      && Collect(records, StartOf) == []
      && Collect(records, CompletionOf) == Completions(calls, execute)
      && Collect(records, OutputOf) == Replies(calls, execute)
      && Collect(records, OtherItemOf) == []
  {
    hide StartOf, CompletionOf, OutputOf, OtherItemOf, NewFunctionCallOutput;
    if calls != [] {
      var rest, first := calls[1..], Pair(calls[0], execute(calls[0]));
      assert Executed(calls, execute)[1..] == Executed(rest, execute);
      var tail := OutputRecords(rest, Executed(rest, execute));
      OutputsTold(rest, execute);
      PairTold(calls[0], execute(calls[0]));
      assert OutputRecords(calls, Executed(calls, execute)) == first + tail;
      CollectAppend(first, tail, StartOf);
      CollectAppend(first, tail, CompletionOf);
      CollectAppend(first, tail, OutputOf);
      CollectAppend(first, tail, OtherItemOf);
      hide Collect, OutputRecords, Pair;
      assert Completions(calls, execute) == [(calls[0].callId, calls[0].name, execute(calls[0]))] + Completions(rest, execute);
      assert Replies(calls, execute) == [NewFunctionCallOutput(calls[0].callId, execute(calls[0]))] + Replies(rest, execute);
    }
  }

  lemma TextTold(text: string, assistantSeen: bool)
    ensures var records := TextRecords(text, assistantSeen);
      && Collect(records, StartOf) == [] && Collect(records, CompletionOf) == [] && Collect(records, OutputOf) == []
      && Collect(records, OtherItemOf) == (if !assistantSeen && text != "" then [NewAssistantMessage(text)] else [])
      && Reported(records)
  {
    if !assistantSeen && text != "" {
      var message := Item(NewAssistantMessage(text));
      CollectOne(message, StartOf);
      CollectOne(message, CompletionOf);
      CollectOne(message, OutputOf);
      CollectOne(message, OtherItemOf);
    }
  }

  lemma {:induction false} NoneCollected<T>(payloads: seq<Payload>, f: Payload -> seq<T>)
    requires Collect(payloads, f) == []
    ensures forall i :: 0 <= i < |payloads| ==> f(payloads[i]) == []
  {
    if payloads != [] {
      NoneCollected(payloads[1..], f);
      assert forall i :: 1 <= i < |payloads| ==> payloads[i] == payloads[1..][i - 1];
    }
  }

  lemma StartsBeforeCompletions(stream: seq<Payload>, replies: seq<Payload>)
    requires Collect(stream, CompletionOf) == [] && Collect(replies, StartOf) == []
    ensures StartsFirst(stream + replies)
  {
    hide StartOf, CompletionOf;
    NoneCollected(stream, CompletionOf);
    NoneCollected(replies, StartOf);
  }

  lemma CollectThree<T>(a: seq<Payload>, b: seq<Payload>, c: seq<Payload>, f: Payload -> seq<T>)
    ensures Collect(a + b + c, f) == Collect(a, f) + Collect(b, f) + Collect(c, f)
    ensures Collect(b + c, f) == Collect(b, f) + Collect(c, f)
  {
    CollectAppend(a + b, c, f);
    CollectAppend(a, b, f);
    CollectAppend(b, c, f);
  }

  lemma RequestAssembled(events: seq<StreamEvent>, execute: Call -> string, stream: seq<Payload>, sample: Sample)
    requires StreamTold(events, stream) && sample.completed
    requires Gathered(events, sample.calls, sample.text, sample.assistantSeen, sample.followUp, sample.completed)
    ensures var replies := OutputRecords(sample.calls, Executed(sample.calls, execute));
      RequestTold(events, execute, stream + replies + TextRecords(sample.text, sample.assistantSeen),
                  sample.followUp || sample.calls != [], None)
  {
    hide Collect, OutputRecords, TextRecords, Reported, StartsFirst, Completions, Replies, CallSeen, AssistantSpoke,
      Gather;
    var replies := OutputRecords(sample.calls, Executed(sample.calls, execute));
    var text := TextRecords(sample.text, sample.assistantSeen);
    OutputsTold(sample.calls, execute);
    OutputsReported(sample.calls, Executed(sample.calls, execute));
    TextTold(sample.text, sample.assistantSeen);
    CollectThree(stream, replies, text, StartOf);
    CollectThree(stream, replies, text, CompletionOf);
    CollectThree(stream, replies, text, OutputOf);
    CollectThree(stream, replies, text, OtherItemOf);
    ReportedAppend(stream, replies);
    ReportedAppend(stream + replies, text);
    Associative(stream, replies, text);
    StartsBeforeCompletions(stream, replies + text);
    EmptyUnit(Collect(stream, StartOf));
    EmptyUnit(Gather(events, StreamItemOf));
    EmptyUnit(Completions(sample.calls, execute));
    EmptyUnit(Gather(events, StreamOutputOf) + Replies(sample.calls, execute));
  }

  /** The loop does to its variables, and records, exactly what the turn's actions do. On an
      error the caller records one more event. */
  method RunSamplingRequest(t: Task, events: seq<StreamEvent>, execute: Call -> string)
    returns (records: seq<Payload>, needsFollowUp: bool, error: Option<string>)
    requires Receiving(t) && t.pc.sample == Sample([], "", false, false, false)
    ensures RequestTold(events, execute, records, needsFollowUp, error)
    ensures var u := Concluded(Streamed(t, events), execute);
      if error.Some? then u == Streamed(t, events).(block := t.block + records + [Event(ErrorEvent(error.value))], pc := Finishing, error := error)
      else u == Streamed(t, events).(block := t.block + records, pc := Taking(needsFollowUp))
  {
    hide Streamed, Done, ItemRecords, Concluded, StreamTold, Gathered, RequestTold;
    records := [];
    needsFollowUp := false;
    error := None;
    var output, assistantSeen, completed := "", false, false;
    var pendingCalls: seq<Call> := [];
    EmptyUnit(t.block);
    StreamedNothing(t);
    assert events[..0] == [];
    for i := 0 to |events|
      invariant Streamed(t, events[..i]).pc.sample == Sample(pendingCalls, output, assistantSeen, needsFollowUp, completed)
      invariant Streamed(t, events[..i]).block == t.block + records
      invariant error == None
    {
      StreamedMore(t, events, i);
      SampleMoves(Streamed(t, events[..i]), events[i]);
      match events[i] {
        case TextDelta(text) =>
          output := output + text;
        case OutputItemDone(item, message) =>
          ghost var before := records;
          records := records + [Item(item)];
          if item.role.Assistant? {
            assistantSeen := true;
          }
          EmptyUnit(pendingCalls);
          if item.typ.FunctionCall? {
            if item.callId == "" || item.name == "" {
              records := records + [Item(NewFunctionCallOutput(ReplyId(item.callId), message))];
              needsFollowUp := true;
            } else {
              records := records + [Event(ToolCallStarted(item.callId, item.name, item.arguments))];
              pendingCalls := pendingCalls + [Call(item.callId, item.name, item.arguments)];
            }
          }
          ItemRecorded(before, item, message);
          Associative(t.block, before, ItemRecords(item, message));
        case ResponseDone =>
          completed := true;
      }
    }
    assert events[..|events|] == events;
    StreamConcludes(Streamed(t, events), execute);
    StreamedTold(t, events);
    DropLeft(t.block, records);
    ghost var stream, sample := records, Sample(pendingCalls, output, assistantSeen, needsFollowUp, completed);
    if !completed {
      error := Some(CLOSED_EARLY);
      ClosedTold(events, execute, records, sample);
      return;
    }
    RequestAssembled(events, execute, stream, sample);
    EmptyUnit(stream);
    if pendingCalls != [] {
      ghost var before := records;
      records := RecordOutputs(records, pendingCalls, execute);
      Associative(t.block, before, OutputRecords(pendingCalls, Executed(pendingCalls, execute)));
      needsFollowUp := true;
    } else {
      EmptyUnit(t.block + records);
    }
    Associative(t.block, records, TextRecords(output, assistantSeen));
    EmptyUnit(records);
    if !assistantSeen && output != "" {
      records := records + [Item(NewAssistantMessage(output))];
    }
  }

  lemma NothingTold()
    ensures StreamTold([], []) && Gathered([], [], "", false, false, false)
  {
  }

  /** What the turn has recorded and holds after some events of a stream. */
  lemma {:induction false} StreamedTold(t: Task, events: seq<StreamEvent>)
    requires Receiving(t) && t.pc.sample == Sample([], "", false, false, false)
    ensures var u := Streamed(t, events);
      && |t.block| <= |u.block| && u.block[..|t.block|] == t.block
      && StreamTold(events, u.block[|t.block|..])
      && Gathered(events, u.pc.sample.calls, u.pc.sample.text, u.pc.sample.assistantSeen, u.pc.sample.followUp, u.pc.sample.completed)
    decreases |events|
  {
    hide Streamed, Done, ItemRecords, StreamTold, Gathered, Receiving;
    if events == [] {
      StreamedNothing(t);
      DropLeft(t.block, []);
      EmptyUnit(t.block);
      NothingTold();
    } else {
      var n := |events| - 1;
      var front, event := events[..n], events[n];
      StreamedTold(t, front);
      StreamedMore(t, events, n);
      assert events[..n + 1] == events && front + [event] == events;
      OneEventTold(t, front, event, Streamed(t, front), Streamed(t, events));
    }
  }

  lemma OneEventTold(t: Task, events: seq<StreamEvent>, event: StreamEvent, u: Task, v: Task)
    requires Receiving(u) && Enabled(u, [], ActionOf(event)) && v == Done(u, ActionOf(event))
    requires |t.block| <= |u.block| && u.block[..|t.block|] == t.block && StreamTold(events, u.block[|t.block|..])
    requires Gathered(events, u.pc.sample.calls, u.pc.sample.text, u.pc.sample.assistantSeen, u.pc.sample.followUp, u.pc.sample.completed)
    ensures Receiving(v) && |t.block| <= |v.block| && v.block[..|t.block|] == t.block
    ensures StreamTold(events + [event], v.block[|t.block|..])
    ensures Gathered(events + [event], v.pc.sample.calls, v.pc.sample.text, v.pc.sample.assistantSeen, v.pc.sample.followUp, v.pc.sample.completed)
  {
    hide Done, ItemRecords, StreamTold, Gathered, Enabled;
    StreamGoesOn(u, event);
    SampleMoves(u, event);
    StreamToldMore(events, u.block[|t.block|..], event);
    EmptyUnit(u.block[|t.block|..]);
    EmptyUnit(u.pc.sample.calls);
    EmptyUnit(u.pc.sample.text);
    GatheredMore(events, u.pc.sample, event, v.pc.sample);
    BehindPrefix(t.block, u.block, EventRecords(event));
    EmptyUnit(u.block);
  }

  lemma BehindPrefix<T>(a: seq<T>, b: seq<T>, c: seq<T>)
    requires |a| <= |b| && b[..|a|] == a
    ensures (b + c)[..|a|] == a && (b + c)[|a|..] == b[|a|..] + c
  {
  }

  lemma ClosedTold(events: seq<StreamEvent>, execute: Call -> string, records: seq<Payload>, sample: Sample)
    requires StreamTold(events, records) && !sample.completed
    requires Gathered(events, sample.calls, sample.text, sample.assistantSeen, sample.followUp, sample.completed)
    ensures RequestTold(events, execute, records, sample.followUp, Some(CLOSED_EARLY))
  {
    hide StreamTold;
  }

  lemma StreamedNothing(t: Task)
    requires Receiving(t)
    ensures Streamed(t, []) == t
  {
  }

  lemma StreamedMore(t: Task, events: seq<StreamEvent>, i: nat)
    requires Receiving(t) && i < |events|
    ensures Enabled(Streamed(t, events[..i]), [], ActionOf(events[i]))
    ensures Streamed(t, events[..i + 1]) == Done(Streamed(t, events[..i]), ActionOf(events[i]))
  {
    assert events[..i + 1][..i] == events[..i];
    StreamGoesOn(Streamed(t, events[..i]), events[i]);
  }

  lemma ItemRecorded(before: seq<Payload>, item: ResponseItem, error: string)
    ensures var reply := Item(NewFunctionCallOutput(ReplyId(item.callId), error));
      var start := Event(ToolCallStarted(item.callId, item.name, item.arguments));
      before + ItemRecords(item, error)
      == if !item.typ.FunctionCall? then before + [Item(item)]
         else if item.callId == "" || item.name == "" then before + [Item(item)] + [reply]
         else before + [Item(item)] + [start]
  {
  }

  lemma StreamConcludes(t: Task, execute: Call -> string)
    requires Receiving(t)
    ensures var u, sample := Concluded(t, execute), t.pc.sample;
      var text := TextRecords(sample.text, sample.assistantSeen);
      if !sample.completed then u == t.(block := t.block + [Event(ErrorEvent(CLOSED_EARLY))], pc := Finishing, error := Some(CLOSED_EARLY))
      else if sample.calls == [] then u == t.(block := t.block + text, pc := Taking(sample.followUp))
      else u == t.(block := t.block + OutputRecords(sample.calls, Executed(sample.calls, execute)) + text, pc := Taking(true))
  {
    EmptyUnit(t.block);
    var outputs := Executed(t.pc.sample.calls, execute);
    assert Values(Filled(outputs)) == outputs;
    Associative(t.block, OutputRecords(t.pc.sample.calls, outputs), TextRecords(t.pc.sample.text, t.pc.sample.assistantSeen));
  }

  /** Once all tools are done, their outputs are recorded in the order of the calls. */
  method RecordOutputs(before: seq<Payload>, calls: seq<Call>, execute: Call -> string) returns (records: seq<Payload>)
    ensures records == before + OutputRecords(calls, Executed(calls, execute))
  {
    records := before;
    var outputs := Executed(calls, execute);
    for i := 0 to |calls|
      invariant records + OutputRecords(calls[i..], outputs[i..]) == before + OutputRecords(calls, outputs)
    {
      var output, report := Item(NewFunctionCallOutput(calls[i].callId, outputs[i])),
                            Event(ToolCallCompleted(calls[i].callId, calls[i].name, outputs[i]));
      assert calls[i..][1..] == calls[i + 1..] && outputs[i..][1..] == outputs[i + 1..];
      Associative(records, [output, report], OutputRecords(calls[i + 1..], outputs[i + 1..]));
      records := records + [output, report];
    }
    EmptyUnit(records);
  }
}
