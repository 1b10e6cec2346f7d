/** What every turn keeps, whatever its model, its tools and its clients do: an account of the
    steer input it took, of the tool calls it made, and the shape of what it records. */
module TurnAccounting {
  import opened Seqs
  import opened Wrappers
  import opened Protocol
  import opened History
  import opened RolloutTurns
  import opened TurnTask

  // ----- reading a block -----

  lemma {:induction false} CollectAppend<T>(a: seq<Payload>, b: seq<Payload>, f: Payload -> seq<T>)
    ensures Collect(a + b, f) == Collect(a, f) + Collect(b, f)
  {
    if a == [] {
      EmptyUnit(b);
      EmptyUnit(Collect(b, f));
    } else {
      assert (a + b)[1..] == a[1..] + b;
      CollectAppend(a[1..], b, f);
      Associative(f(a[0]), Collect(a[1..], f), Collect(b, f));
    }
  }

  lemma CollectOne<T>(payload: Payload, f: Payload -> seq<T>)
    ensures Collect([payload], f) == f(payload)
  {
    assert [payload][1..] == [];
    EmptyUnit(f(payload));
  }

  lemma CollectTwo<T>(p: Payload, q: Payload, f: Payload -> seq<T>)
    ensures Collect([p, q], f) == f(p) + f(q)
  {
    assert [p, q][1..] == [q];
    CollectOne(q, f);
  }

  lemma {:induction false} CollectNothing<T>(payloads: seq<Payload>, f: Payload -> seq<T>)
    requires forall i :: 0 <= i < |payloads| ==> f(payloads[i]) == []
    ensures Collect(payloads, f) == []
  {
    if payloads != [] {
      CollectNothing(payloads[1..], f);
      assert f(payloads[0]) == [];
    }
  }

  function StartedOf(payload: Payload): seq<(string, string)> {
    if payload.Event? && payload.msg.ToolCallStarted? then [(payload.msg.callId, payload.msg.name)] else []
  }

  function CompletedOf(payload: Payload): seq<(string, string)> {
    if payload.Event? && payload.msg.ToolCallCompleted? then [(payload.msg.callId, payload.msg.name)] else []
  }

  /** Payloads that neither are nor report a tool call or its output. */
  predicate Silent(payload: Payload) {
    && (payload.Event? ==> !payload.msg.ToolCallStarted? && !payload.msg.ToolCallCompleted?)
    && (payload.Item? ==> !payload.item.typ.FunctionCall? && !payload.item.typ.FunctionCallOutput?)
  }

  predicate AllSilent(payloads: seq<Payload>) {
    forall i :: 0 <= i < |payloads| ==> Silent(payloads[i])
  }

  predicate Plain(payload: Payload) {
    !IsStart(payload) && !IsTerminal(payload)
  }

  predicate AllPlain(payloads: seq<Payload>) {
    forall i :: 0 <= i < |payloads| ==> Plain(payloads[i])
  }

  lemma {:induction false} InputRecords(inputs: seq<TurnInput>, instructions: TurnInput -> Option<string>)
    ensures AllSilent(InputsPayloads(inputs, instructions)) && AllPlain(InputsPayloads(inputs, instructions))
    ensures Collect(InputsPayloads(inputs, instructions), UserOf) == UserItems(inputs)
  {
    if inputs != [] {
      var first := InputPayloads(inputs[0], instructions(inputs[0]));
      InputRecords(inputs[1..], instructions);
      CollectAppend(first, InputsPayloads(inputs[1..], instructions), UserOf);
      OneInput(inputs[0], instructions(inputs[0]));
      assert UserItems(inputs) == [UserItem(inputs[0])] + UserItems(inputs[1..]);
    }
  }

  lemma OneInput(input: TurnInput, instructions: Option<string>)
    ensures var payloads := InputPayloads(input, instructions);
      payloads != [] && Collect(payloads, UserOf) == [UserItem(input)] && AllSilent(payloads) && AllPlain(payloads)
  {
    var payloads := InputPayloads(input, instructions);
    if instructions == None {
      assert payloads == [Item(UserItem(input))];
      CollectOne(Item(UserItem(input)), UserOf);
    } else {
      var note := Item(NewDeveloperMessage(instructions.value));
      assert payloads == [Item(UserItem(input)), note];
      CollectTwo(Item(UserItem(input)), note, UserOf);
    }
  }

  function UserItems(inputs: seq<TurnInput>): seq<ResponseItem> {
    seq(|inputs|, i requires 0 <= i < |inputs| => UserItem(inputs[i]))
  }

  lemma UserItemsAppend(a: seq<TurnInput>, b: seq<TurnInput>)
    ensures UserItems(a + b) == UserItems(a) + UserItems(b)
  {
  }

  // ----- steer input -----

  predicate AtEnd(t: Task) {
    t.pc.Finishing? || Finished(t)
  }

  predicate Finished(t: Task) {
    t.pc.Ended? || t.pc.Cleared? || t.pc.Gone?
  }

  /** Input that was accepted has been taken or is still waiting, in order. The inbox is closed
      exactly when the turn's loop has returned without an error, and then nothing waits. */
  predicate InboxOk(t: Task) {
    && t.accepted == t.taken + t.inbox.pending
    && (!t.inbox.accepting <==> AtEnd(t) && t.error == None)
    && (!t.inbox.accepting ==> t.inbox.pending == [])
    && (t.error.Some? ==> AtEnd(t))
  }

  lemma InboxStep(t: Task, prompt: seq<ResponseItem>, a: TurnAction)
    requires InboxOk(t) && Enabled(t, prompt, a)
    ensures InboxOk(Advanced(t, prompt, a))
  {
    hide Records, Noted;
    if a.Take? {
      EmptyUnit(t.taken + t.inbox.pending);
    } else {
      hide Moved, Enabled;
      AccountsMove(t, prompt, a);
      StatusStays(t, prompt, a);
      InboxUntouched(t, prompt, a);
    }
  }

  lemma InboxUntouched(t: Task, prompt: seq<ResponseItem>, a: TurnAction)
    requires Enabled(t, prompt, a) && !a.Take? && (t.error.Some? ==> AtEnd(t))
    ensures var next := Moved(t, prompt, a);
      && next.inbox == t.inbox
      && (next.error == t.error || next.error.Some?)
      && (next.error.Some? && t.error == None ==> next.pc.Finishing?)
      && (AtEnd(next) <==> AtEnd(t) || (next.error.Some? && t.error == None))
  {
    hide Noted, UserOf, Routable;
  }

  lemma InboxSteered(t: Task, input: TurnInput)
    requires InboxOk(t)
    ensures InboxOk(Steered(t, input))
    ensures Steered(t, input).accepted == if t.inbox.accepting then t.accepted + [input] else t.accepted
  {
    Associative(t.taken, t.inbox.pending, [input]);
  }

  /** `all` is an interleaving of `a` and `b`. */
  predicate Interleaves<T(==)>(all: seq<T>, a: seq<T>, b: seq<T>)
    decreases |all|
  {
    if all == [] then a == [] && b == []
    else
      var n := |all| - 1;
      || (a != [] && a[|a| - 1] == all[n] && Interleaves(all[..n], a[..|a| - 1], b))
      || (b != [] && b[|b| - 1] == all[n] && Interleaves(all[..n], a, b[..|b| - 1]))
  }

  lemma {:induction false} InterleavesLeft<T>(all: seq<T>, a: seq<T>, b: seq<T>, more: seq<T>)
    requires Interleaves(all, a, b)
    ensures Interleaves(all + more, a + more, b)
    decreases |more|
  {
    if more == [] {
      EmptyUnit(all);
      EmptyUnit(a);
    } else {
      var n := |more| - 1;
      InterleavesLeft(all, a, b, more[..n]);
      assert (all + more)[..|all| + n] == all + more[..n];
      assert (a + more)[..|a| + n] == a + more[..n];
    }
  }

  lemma InterleavesRight<T>(all: seq<T>, a: seq<T>, b: seq<T>, more: seq<T>)
    requires Interleaves(all, a, b) && |more| <= 1
    ensures Interleaves(all + more, a, b + more)
  {
    if more == [] {
      EmptyUnit(all);
      EmptyUnit(b);
    } else {
      assert (all + more)[..|all|] == all;
      assert (b + more)[..|b|] == b;
    }
  }

  lemma {:induction false} InterleavesNothing<T>(all: seq<T>, a: seq<T>)
    requires Interleaves(all, a, [])
    ensures all == a
    decreases |all|
  {
    if all != [] {
      InterleavesNothing(all[..|all| - 1], a[..|a| - 1]);
    }
  }

  /** The user messages a turn records: the input that started it and the steer input it
      took, each once and in order, among what the model's own streams held. */
  predicate UsersOk(t: Task) {
    Interleaves(Collect(t.block, UserOf), [UserItem(t.initial)] + UserItems(t.taken), t.echoed)
  }

  function Spoken(t: Task, a: TurnAction): seq<ResponseItem> {
    match a
    case Take(_) => UserItems(t.inbox.pending)
    case ItemDone(item, _) => UserOf(Item(item))
    case _ => []
  }

  lemma UserRecords(t: Task, prompt: seq<ResponseItem>, a: TurnAction)
    requires Enabled(t, prompt, a)
    ensures Collect(Records(t, prompt, a), UserOf) == Spoken(t, a)
  {
    var records := Records(t, prompt, a);
    match a
    case Take(instructions) => InputRecords(t.inbox.pending, instructions);
    case ItemDone(item, error) =>
      EmptyUnit(UserOf(Item(item)));
      if |records| == 1 {
        CollectOne(records[0], UserOf);
      } else {
        CollectTwo(records[0], records[1], UserOf);
      }
    case MergeTools =>
      OutputsArePlain(t.pc.sample.calls, Values(t.pc.outputs));
      CollectNothing(records, UserOf);
    case _ => CollectNothing(records, UserOf);
  }

  lemma UsersStep(t: Task, prompt: seq<ResponseItem>, a: TurnAction)
    requires UsersOk(t) && Enabled(t, prompt, a)
    ensures UsersOk(Advanced(t, prompt, a))
  {
    hide Records, Interleaves, Collect, Enabled, UserItems, UserOf;
    var records, next := Records(t, prompt, a), Advanced(t, prompt, a);
    CollectAppend(t.block, records, UserOf);
    UserRecords(t, prompt, a);
    var before, inputs := Collect(t.block, UserOf), [UserItem(t.initial)] + UserItems(t.taken);
    EmptyUnit(before);
    AccountsMove(t, prompt, a);
    if a.Take? {
      InterleavesLeft(before, inputs, t.echoed, UserItems(t.inbox.pending));
      UserItemsAppend(t.taken, t.inbox.pending);
      Associative([UserItem(t.initial)], UserItems(t.taken), UserItems(t.inbox.pending));
    } else if a.ItemDone? {
      UserOfIsShort(Item(a.item));
      InterleavesRight(before, inputs, t.echoed, UserOf(Item(a.item)));
    }
  }

  lemma UserOfIsShort(payload: Payload)
    ensures |UserOf(payload)| <= 1
  {
  }

  lemma AccountsMove(t: Task, prompt: seq<ResponseItem>, a: TurnAction)
    requires Enabled(t, prompt, a)
    ensures var next := Moved(t, prompt, a);
      && next.initial == t.initial && next.block == t.block && next.id == t.id
      && next.taken == (if a.Take? then t.taken + t.inbox.pending else t.taken)
      && next.echoed == (if a.ItemDone? then t.echoed + UserOf(Item(a.item)) else t.echoed)
      && (t.foreign ==> next.foreign)
      && (a.ItemDone? && a.item.typ.FunctionCallOutput? ==> next.foreign)
  {
    hide Noted, UserOf, Routable, Enabled;
  }

  /** What is others' to change, the turn leaves alone. */
  lemma StatusStays(t: Task, prompt: seq<ResponseItem>, a: TurnAction)
    requires Enabled(t, prompt, a)
    ensures var next := Moved(t, prompt, a);
      next.accepted == t.accepted && next.cancelled == t.cancelled && next.reason == t.reason
  {
    hide Noted, UserOf, Routable, Enabled;
  }

  // ----- tool calls -----

  /** The calls of the current response that have no output yet. */
  function Waiting(pc: Pc): seq<Call> {
    match pc
    case Sampling(sample) => sample.calls
    case Tools(sample, _) => sample.calls
    case _ => []
  }

  function Names(calls: seq<Call>): seq<(string, string)> {
    seq(|calls|, i requires 0 <= i < |calls| => (calls[i].callId, calls[i].name))
  }

  lemma {:induction false} OutputsArePlain(calls: seq<Call>, outputs: seq<string>)
    requires |calls| == |outputs|
    ensures AllPlain(OutputRecords(calls, outputs))
    ensures forall i :: 0 <= i < |OutputRecords(calls, outputs)| ==>
      UserOf(OutputRecords(calls, outputs)[i]) == [] && StartedOf(OutputRecords(calls, outputs)[i]) == []
  {
    if calls != [] {
      OutputsArePlain(calls[1..], outputs[1..]);
    }
  }

  lemma {:induction false} OutputsComplete(calls: seq<Call>, outputs: seq<string>)
    requires |calls| == |outputs|
    ensures Collect(OutputRecords(calls, outputs), CompletedOf) == Names(calls)
  {
    if calls != [] {
      var output := Item(NewFunctionCallOutput(calls[0].callId, outputs[0]));
      var report := Event(ToolCallCompleted(calls[0].callId, calls[0].name, outputs[0]));
      OutputsComplete(calls[1..], outputs[1..]);
      CollectTwo(output, report, CompletedOf);
      CollectAppend([output, report], OutputRecords(calls[1..], outputs[1..]), CompletedOf);
      assert Names(calls) == [(calls[0].callId, calls[0].name)] + Names(calls[1..]);
    }
  }

  /** The started and the completed calls agree, in order: all started calls but those of the
      current response are completed, and after an error no others are. */
  predicate CallsOk(t: Task) {
    var started, completed := Collect(t.block, StartedOf), Collect(t.block, CompletedOf);
    && (t.error == None ==> started == completed + Names(Waiting(t.pc)))
    && (t.error.Some? ==> completed <= started)
  }

  function NewlyStarted(t: Task, a: TurnAction): seq<(string, string)> {
    if a.ItemDone? && a.item.typ.FunctionCall? && Routable(a.item) then [(a.item.callId, a.item.name)] else []
  }

  lemma StartRecords(t: Task, prompt: seq<ResponseItem>, a: TurnAction)
    requires Enabled(t, prompt, a)
    ensures Collect(Records(t, prompt, a), StartedOf) == NewlyStarted(t, a)
  {
    var records := Records(t, prompt, a);
    if a.ItemDone? {
      if |records| == 1 {
        CollectOne(records[0], StartedOf);
      } else {
        CollectTwo(records[0], records[1], StartedOf);
      }
    } else {
      if a.MergeTools? {
        OutputsArePlain(t.pc.sample.calls, Values(t.pc.outputs));
      } else if a.Take? {
        InputRecords(t.inbox.pending, a.instructions);
      }
      CollectNothing(records, StartedOf);
    }
  }

  lemma CompletionRecords(t: Task, prompt: seq<ResponseItem>, a: TurnAction)
    requires Enabled(t, prompt, a)
    ensures Collect(Records(t, prompt, a), CompletedOf) == if a.MergeTools? then Names(t.pc.sample.calls) else []
  {
    var records := Records(t, prompt, a);
    if a.MergeTools? {
      var text := TextRecords(t.pc.sample.text, t.pc.sample.assistantSeen);
      OutputsComplete(t.pc.sample.calls, Values(t.pc.outputs));
      CollectAppend(OutputRecords(t.pc.sample.calls, Values(t.pc.outputs)), text, CompletedOf);
      CollectNothing(text, CompletedOf);
    } else {
      if a.Take? {
        InputRecords(t.inbox.pending, a.instructions);
      }
      CollectNothing(records, CompletedOf);
    }
  }

  lemma WaitingMoves(t: Task, prompt: seq<ResponseItem>, a: TurnAction)
    requires Enabled(t, prompt, a)
    ensures var next := Moved(t, prompt, a);
      next.error == None ==>
        && t.error == None
        && (a.MergeTools? ==> Names(Waiting(next.pc)) == [] && Waiting(t.pc) == t.pc.sample.calls)
        && (!a.MergeTools? ==> Names(Waiting(next.pc)) == Names(Waiting(t.pc)) + NewlyStarted(t, a))
    ensures var next := Moved(t, prompt, a); next.error.Some? && t.error == None ==> !a.ItemDone? && !a.MergeTools?
  {
    hide Noted;
    EmptyUnit(Names(Waiting(t.pc)));
    if a.ItemDone? && a.item.typ.FunctionCall? && Routable(a.item) {
      var more := Call(a.item.callId, a.item.name, a.item.arguments);
      assert Names(t.pc.sample.calls + [more]) == Names(t.pc.sample.calls) + [(more.callId, more.name)];
    } else if a.ItemDone? {
      EmptyUnit(t.pc.sample.calls);
    }
  }

  lemma CallsStep(t: Task, prompt: seq<ResponseItem>, a: TurnAction)
    requires CallsOk(t) && InboxOk(t) && Enabled(t, prompt, a)
    ensures CallsOk(Advanced(t, prompt, a))
  {
    hide Records, Collect, Enabled, Moved, Names, Waiting, InboxOk, AtEnd, NewlyStarted;
    var records, next := Records(t, prompt, a), Advanced(t, prompt, a);
    CollectAppend(t.block, records, StartedOf);
    CollectAppend(t.block, records, CompletedOf);
    StartRecords(t, prompt, a);
    CompletionRecords(t, prompt, a);
    WaitingMoves(t, prompt, a);
    NoCallsAtEnd(t, prompt, a);
    AccountsMove(t, prompt, a);
    var completed := Collect(t.block, CompletedOf);
    EmptyUnit(Collect(t.block, StartedOf));
    EmptyUnit(completed);
    EmptyUnit(completed + Names(Waiting(t.pc)));
    Associative(completed, Names(Waiting(t.pc)), NewlyStarted(t, a));
  }

  lemma NoCallsAtEnd(t: Task, prompt: seq<ResponseItem>, a: TurnAction)
    requires Enabled(t, prompt, a) && InboxOk(t)
    ensures t.error.Some? ==> NewlyStarted(t, a) == [] && !a.MergeTools? && Moved(t, prompt, a).error == t.error
    ensures !a.ItemDone? ==> NewlyStarted(t, a) == []
  {
  }

  // ----- what the tools brought -----

  function Slots(pc: Pc): seq<Option<string>> {
    if pc.Tools? then pc.outputs else []
  }

  predicate Holds(brought: map<nat, string>, n: nat, slot: Option<string>) {
    match slot
    case None => n !in brought
    case Some(output) => n in brought && brought[n] == output
  }

  /** The outputs reported so far are what the tools of those calls brought, call by call, and
      the slots of the running ones hold what theirs have brought. */
  predicate BroughtOk(t: Task) {
    var replies, slots := Collect(t.block, ReplyOf), Slots(t.pc);
    && (forall i :: 0 <= i < |replies| ==> Holds(t.brought, i, Some(replies[i])))
    && (forall i :: 0 <= i < |slots| ==> Holds(t.brought, |replies| + i, slots[i]))
    && (forall n :: n in t.brought ==> n < |replies| + |slots|)
  }

  lemma {:induction false} OutputsReply(calls: seq<Call>, outputs: seq<string>)
    requires |calls| == |outputs|
    ensures Collect(OutputRecords(calls, outputs), ReplyOf) == outputs
  {
    if calls != [] {
      var output := Item(NewFunctionCallOutput(calls[0].callId, outputs[0]));
      var report := Event(ToolCallCompleted(calls[0].callId, calls[0].name, outputs[0]));
      OutputsReply(calls[1..], outputs[1..]);
      CollectTwo(output, report, ReplyOf);
      CollectAppend([output, report], OutputRecords(calls[1..], outputs[1..]), ReplyOf);
      assert outputs == [outputs[0]] + outputs[1..];
    }
  }

  lemma ReplyRecords(t: Task, prompt: seq<ResponseItem>, a: TurnAction)
    requires Enabled(t, prompt, a)
    ensures Collect(Records(t, prompt, a), ReplyOf) == if a.MergeTools? then Values(t.pc.outputs) else []
  {
    var records := Records(t, prompt, a);
    if a.MergeTools? {
      var text := TextRecords(t.pc.sample.text, t.pc.sample.assistantSeen);
      OutputsReply(t.pc.sample.calls, Values(t.pc.outputs));
      CollectAppend(OutputRecords(t.pc.sample.calls, Values(t.pc.outputs)), text, ReplyOf);
      CollectNothing(text, ReplyOf);
    } else {
      if a.Take? {
        InputRecords(t.inbox.pending, a.instructions);
      }
      CollectNothing(records, ReplyOf);
    }
  }

  /** A slot is filled by the end of its own tool, and by nothing else. */
  lemma SlotsMove(t: Task, prompt: seq<ResponseItem>, a: TurnAction)
    requires Enabled(t, prompt, a)
    ensures var before, after := Slots(t.pc), Slots(Moved(t, prompt, a).pc);
      && (a.StreamEnds? ==> before == [] && forall i :: 0 <= i < |after| ==> after[i] == None)
      && (a.MergeTools? ==> after == [])
      && (a.FinishTool? ==>
          a.index < |before| && before[a.index] == None && after == before[a.index := Some(a.output)])
      && (!a.StreamEnds? && !a.MergeTools? && !a.FinishTool? ==> after == before)
    ensures Moved(t, prompt, a).brought ==
      if a.FinishTool? then Noted(t, a.index, a.output) else t.brought
  {
    hide Noted, UserOf, Routable;
  }

  lemma BroughtStep(t: Task, prompt: seq<ResponseItem>, a: TurnAction)
    requires BroughtOk(t) && Enabled(t, prompt, a)
    ensures BroughtOk(Advanced(t, prompt, a))
  {
    hide Records, Collect, Moved, Slots;
    var records, next := Records(t, prompt, a), Advanced(t, prompt, a);
    CollectAppend(t.block, records, ReplyOf);
    ReplyRecords(t, prompt, a);
    SlotsMove(t, prompt, a);
    AccountsMove(t, prompt, a);
    EmptyUnit(Collect(t.block, ReplyOf));
    if a.MergeTools? {
      MergedIsBrought(t);
    }
  }

  lemma MergedIsBrought(t: Task)
    requires BroughtOk(t) && t.pc.Tools? && AllDone(t.pc.outputs)
    ensures Slots(t.pc) == t.pc.outputs
    ensures forall i :: 0 <= i < |t.pc.outputs| ==>
      Holds(t.brought, |Collect(t.block, ReplyOf)| + i, Some(Values(t.pc.outputs)[i]))
  {
    hide Collect, Holds;
    forall i | 0 <= i < |t.pc.outputs|
      ensures Holds(t.brought, |Collect(t.block, ReplyOf)| + i, Some(Values(t.pc.outputs)[i]))
    {
      assert Holds(t.brought, |Collect(t.block, ReplyOf)| + i, t.pc.outputs[i]);
    }
  }

  lemma {:induction false} RepliesCount(payloads: seq<Payload>)
    ensures |Collect(payloads, ReplyOf)| == |Collect(payloads, CompletedOf)|
  {
    if payloads != [] {
      RepliesCount(payloads[1..]);
    }
  }

  // ----- reports -----

  /** Every start and completion event directly follows the item it reports. */
  predicate ReportedAt(payloads: seq<Payload>, i: nat)
    requires i < |payloads|
  {
    payloads[i].Event? ==>
      match payloads[i].msg
      case ToolCallStarted(callId, name, arguments) =>
        && i > 0 && payloads[i - 1].Item?
        && var item := payloads[i - 1].item;
        item.typ.FunctionCall? && item.callId == callId && item.name == name && item.arguments == arguments
      case ToolCallCompleted(callId, _, output) =>
        i > 0 && payloads[i - 1] == Item(NewFunctionCallOutput(callId, output))
      case _ => true
  }

  predicate Reported(payloads: seq<Payload>) {
    forall i: nat :: i < |payloads| ==> ReportedAt(payloads, i)
  }

  lemma ReportedAppend(a: seq<Payload>, b: seq<Payload>)
    requires Reported(a) && Reported(b)
    ensures Reported(a + b)
  {
    forall i: nat | i < |a + b|
      ensures ReportedAt(a + b, i)
    {
      if i < |a| {
        assert ReportedAt(a, i);
      } else {
        assert ReportedAt(b, i - |a|);
      }
    }
  }

  lemma {:induction false} OutputsReported(calls: seq<Call>, outputs: seq<string>)
    requires |calls| == |outputs|
    ensures Reported(OutputRecords(calls, outputs))
  {
    if calls != [] {
      OutputsReported(calls[1..], outputs[1..]);
      var pair := [Item(NewFunctionCallOutput(calls[0].callId, outputs[0])),
                   Event(ToolCallCompleted(calls[0].callId, calls[0].name, outputs[0]))];
      assert Reported(pair);
      ReportedAppend(pair, OutputRecords(calls[1..], outputs[1..]));
    }
  }

  lemma ReportedStep(t: Task, prompt: seq<ResponseItem>, a: TurnAction)
    requires Reported(t.block) && Enabled(t, prompt, a)
    ensures Reported(Advanced(t, prompt, a).block)
  {
    ReportedRecords(t, prompt, a);
    AccountsMove(t, prompt, a);
    ReportedAppend(t.block, Records(t, prompt, a));
  }

  lemma ReportedRecords(t: Task, prompt: seq<ResponseItem>, a: TurnAction)
    requires Enabled(t, prompt, a)
    ensures Reported(Records(t, prompt, a))
  {
    if a.MergeTools? {
      OutputsReported(t.pc.sample.calls, Values(t.pc.outputs));
      ReportedAppend(OutputRecords(t.pc.sample.calls, Values(t.pc.outputs)),
                     TextRecords(t.pc.sample.text, t.pc.sample.assistantSeen));
    } else if a.Take? {
      InputRecords(t.inbox.pending, a.instructions);
    }
  }

  // ----- answers -----

  function Ids(calls: seq<Call>): seq<string> {
    seq(|calls|, i requires 0 <= i < |calls| => calls[i].callId)
  }

  /** The calls that are owed an output after a payload, if it is no output nobody is owed. */
  function Settled(owed: Option<multiset<string>>, payload: Payload): Option<multiset<string>> {
    if owed == None || !payload.Item? then owed
    else if payload.item.typ.FunctionCall? then Some(owed.value + multiset{ReplyId(payload.item.callId)})
    else if payload.item.typ.FunctionCallOutput? then
      if payload.item.callId in owed.value then Some(owed.value - multiset{payload.item.callId}) else None
    else owed
  }

  function Owing(owed: Option<multiset<string>>, payloads: seq<Payload>): Option<multiset<string>>
    decreases |payloads|
  {
    if payloads == [] then owed else Owing(Settled(owed, payloads[0]), payloads[1..])
  }

  lemma {:induction false} OwingAppend(owed: Option<multiset<string>>, a: seq<Payload>, b: seq<Payload>)
    ensures Owing(owed, a + b) == Owing(Owing(owed, a), b)
    decreases |a|
  {
    if a == [] {
      EmptyUnit(b);
    } else {
      assert (a + b)[1..] == a[1..] + b;
      OwingAppend(Settled(owed, a[0]), a[1..], b);
    }
  }

  lemma {:induction false} SilentOwesNothing(owed: Option<multiset<string>>, payloads: seq<Payload>)
    requires AllSilent(payloads)
    ensures Owing(owed, payloads) == owed
  {
    if payloads != [] {
      SilentOwesNothing(owed, payloads[1..]);
    }
  }

  lemma {:induction false} OutputsSettle(calls: seq<Call>, outputs: seq<string>)
    requires |calls| == |outputs|
    ensures Owing(Some(multiset(Ids(calls))), OutputRecords(calls, outputs)) == Some(multiset{})
  {
    if calls == [] {
      assert Ids(calls) == [];
    } else {
      var pair := [Item(NewFunctionCallOutput(calls[0].callId, outputs[0])),
                   Event(ToolCallCompleted(calls[0].callId, calls[0].name, outputs[0]))];
      var rest := Ids(calls[1..]);
      assert Ids(calls) == [calls[0].callId] + rest;
      assert multiset(Ids(calls)) - multiset{calls[0].callId} == multiset(rest);
      OwingTwo(Some(multiset(Ids(calls))), pair[0], pair[1]);
      OwingAppend(Some(multiset(Ids(calls))), pair, OutputRecords(calls[1..], outputs[1..]));
      OutputsSettle(calls[1..], outputs[1..]);
    }
  }

  /** Unless a model stream holds outputs of its own: every output answers one call made
      before it that had none yet, and no other call is left without an output than those of
      the current response, or those an error cut short. */
  predicate OwingOk(t: Task) {
    var owed := Owing(Some(multiset{}), t.block);
    !t.foreign ==>
      && owed.Some?
      && (t.error == None ==> owed == Some(multiset(Ids(Waiting(t.pc)))))
  }

  lemma SilentRecords(t: Task, prompt: seq<ResponseItem>, a: TurnAction)
    requires Enabled(t, prompt, a) && !a.ItemDone? && !a.MergeTools?
    ensures AllSilent(Records(t, prompt, a))
  {
    if a.Take? {
      InputRecords(t.inbox.pending, a.instructions);
    }
  }

  lemma WaitingIdsMove(t: Task, prompt: seq<ResponseItem>, a: TurnAction)
    requires Enabled(t, prompt, a) && !a.ItemDone? && !a.MergeTools?
    ensures var next := Moved(t, prompt, a);
      && next.foreign == t.foreign
      && (next.error == None ==> t.error == None && Waiting(next.pc) == Waiting(t.pc))
  {
    hide Noted;
  }

  lemma OwingStep(t: Task, prompt: seq<ResponseItem>, a: TurnAction)
    requires OwingOk(t) && InboxOk(t) && Enabled(t, prompt, a)
    ensures OwingOk(Advanced(t, prompt, a))
  {
    hide Records, Owing, Settled, Moved, Ids;
    OwingAppend(Some(multiset{}), t.block, Records(t, prompt, a));
    AccountsMove(t, prompt, a);
    if a.ItemDone? {
      OwingItem(t, prompt, a.item, a.error);
    } else if a.MergeTools? {
      OwingMerge(t, prompt);
    } else {
      SilentRecords(t, prompt, a);
      SilentOwesNothing(Owing(Some(multiset{}), t.block), Records(t, prompt, a));
      WaitingIdsMove(t, prompt, a);
    }
  }

  lemma OwingOne(owed: Option<multiset<string>>, payload: Payload)
    ensures Owing(owed, [payload]) == Settled(owed, payload)
  {
    hide Settled;
    assert [payload][1..] == [];
  }

  lemma OwingTwo(owed: Option<multiset<string>>, p: Payload, q: Payload)
    ensures Owing(owed, [p, q]) == Settled(Settled(owed, p), q)
  {
    hide Settled;
    assert [p, q][1..] == [q];
    OwingOne(Settled(owed, p), q);
  }

  lemma ItemOwes(owed: multiset<string>, item: ResponseItem, error: string)
    requires !item.typ.FunctionCallOutput?
    ensures Owing(Some(owed), ItemRecords(item, error))
         == Some(if item.typ.FunctionCall? && Routable(item) then owed + multiset{item.callId} else owed)
  {
    var records := ItemRecords(item, error);
    if item.typ.FunctionCall? {
      OwingTwo(Some(owed), records[0], records[1]);
      AnsweredAtOnce(owed, ReplyId(item.callId));
    } else {
      OwingOne(Some(owed), records[0]);
    }
  }

  lemma WaitingItem(t: Task, prompt: seq<ResponseItem>, item: ResponseItem, error: string)
    requires InboxOk(t) && Enabled(t, prompt, ItemDone(item, error))
    ensures var next := Moved(t, prompt, ItemDone(item, error));
      && t.error == None && next.error == None
      && (!next.foreign ==> !t.foreign && !item.typ.FunctionCallOutput?)
      && Ids(Waiting(next.pc)) == Ids(Waiting(t.pc)) + (if item.typ.FunctionCall? && Routable(item) then [item.callId] else [])
  {
    var calls := Waiting(t.pc);
    EmptyUnit(calls);
    EmptyUnit(Ids(calls));
    var call := Call(item.callId, item.name, item.arguments);
    assert Ids(calls + [call]) == Ids(calls) + [item.callId];
  }

  lemma OwingItem(t: Task, prompt: seq<ResponseItem>, item: ResponseItem, error: string)
    requires InboxOk(t) && Enabled(t, prompt, ItemDone(item, error))
    ensures var next := Moved(t, prompt, ItemDone(item, error));
      && t.error == None && next.error == None
      && (!next.foreign ==>
            && !t.foreign
            && Owing(Some(multiset(Ids(Waiting(t.pc)))), Records(t, prompt, ItemDone(item, error)))
               == Some(multiset(Ids(Waiting(next.pc)))))
  {
    hide Moved, Owing, InboxOk, ItemRecords, Routable, Ids, Waiting;
    WaitingItem(t, prompt, item, error);
    EmptyUnit(Ids(Waiting(t.pc)));
    if !item.typ.FunctionCallOutput? {
      ItemOwes(multiset(Ids(Waiting(t.pc))), item, error);
    }
  }

  lemma AnsweredAtOnce(owed: multiset<string>, id: string)
    ensures (owed + multiset{id}) - multiset{id} == owed
  {
  }

  lemma OwingMerge(t: Task, prompt: seq<ResponseItem>)
    requires InboxOk(t) && Enabled(t, prompt, MergeTools)
    ensures var next := Moved(t, prompt, MergeTools);
      && t.error == None && next.error == None && next.foreign == t.foreign
      && Owing(Some(multiset(Ids(Waiting(t.pc)))), Records(t, prompt, MergeTools)) == Some(multiset(Ids(Waiting(next.pc))))
  {
    hide Owing, Settled;
    var outputs := OutputRecords(t.pc.sample.calls, Values(t.pc.outputs));
    var text := TextRecords(t.pc.sample.text, t.pc.sample.assistantSeen);
    OwingAppend(Some(multiset(Ids(t.pc.sample.calls))), outputs, text);
    OutputsSettle(t.pc.sample.calls, Values(t.pc.outputs));
    SilentOwesNothing(Some(multiset{}), text);
    assert Ids([]) == [];
  }

  // ----- the shape of a block -----

  /** The terminal event that tells an outcome. */
  predicate Tells(payload: Payload, id: string, outcome: Outcome) {
    && payload.Event?
    && match outcome
       case Completed(error) => payload.msg.TurnComplete? && payload.msg.turnId == id && payload.msg.completion.error == error
       case Aborted(reason) => payload.msg.TurnAborted? && payload.msg.turnId == id && payload.msg.reason == reason
  }

  /** What a turn records is one block, closed by the event that tells its outcome as soon as
      it has one; its queue is the end of that block. */
  predicate BlockOk(t: Task) {
    && Block(t.block, t.id)
    && (t.outcome.Some? <==> Finished(t))
    && (t.outcome.Some? <==> ClosedBlock(t.block, t.id))
    && (t.outcome.Some? ==> Tells(t.block[|t.block| - 1], t.id, t.outcome.value))
    && (t.outcome.Some? && t.outcome.value.Completed? ==> t.outcome.value.error == t.error)
    && |t.queue| <= |t.block| && t.queue == t.block[|t.block| - |t.queue|..]
    && (t.pc.Cleared? || t.pc.Gone? ==> t.queue == [])
  }

  lemma PlainRecords(t: Task, prompt: seq<ResponseItem>, a: TurnAction)
    requires Enabled(t, prompt, a) && !a.End?
    ensures AllPlain(Records(t, prompt, a))
  {
    if a.MergeTools? {
      OutputsArePlain(t.pc.sample.calls, Values(t.pc.outputs));
    } else if a.Take? {
      InputRecords(t.inbox.pending, a.instructions);
    }
  }

  lemma PlainExtendsBlock(block: seq<Payload>, id: string, more: seq<Payload>)
    requires Block(block, id) && !ClosedBlock(block, id) && AllPlain(more)
    ensures Block(block + more, id) && !ClosedBlock(block + more, id)
  {
    assert !IsTerminal(block[|block| - 1]);
    assert forall i :: |block| <= i < |block + more| ==> Plain((block + more)[i]);
  }

  lemma TerminalClosesBlock(block: seq<Payload>, id: string, outcome: Outcome, last: Payload)
    requires Block(block, id) && !ClosedBlock(block, id) && Tells(last, id, outcome)
    ensures ClosedBlock(block + [last], id)
  {
    assert !IsTerminal(block[|block| - 1]);
  }

  lemma BlockStep(t: Task, prompt: seq<ResponseItem>, a: TurnAction)
    requires BlockOk(t) && Enabled(t, prompt, a)
    ensures BlockOk(Advanced(t, prompt, a))
  {
    hide Records, Block, ClosedBlock, Enabled, Moved;
    var records := Records(t, prompt, a);
    DropLeft(t.block, records);
    AccountsMove(t, prompt, a);
    OutcomeMoves(t, prompt, a);
    if a.End? {
      EndRecord(t, prompt, a);
      assert records == [records[0]];
      TerminalClosesBlock(t.block, t.id, Moved(t, prompt, a).outcome.value, records[0]);
      ClosedIsBlock(t.block + records, t.id);
    } else {
      PlainRecords(t, prompt, a);
      PlainExtendsBlock(t.block, t.id, records);
    }
  }

  lemma ClosedIsBlock(block: seq<Payload>, id: string)
    ensures ClosedBlock(block, id) ==> Block(block, id)
  {
  }

  lemma OutcomeMoves(t: Task, prompt: seq<ResponseItem>, a: TurnAction)
    requires Enabled(t, prompt, a)
    ensures var next := Moved(t, prompt, a);
      && !Finished(t)
      && (!a.End? ==> !Finished(next) && next.outcome == t.outcome)
      && (a.End? ==> next.pc.Ended? && next.error == t.error
                     && next.outcome == Some(if t.cancelled then Aborted(t.reason) else Outcome.Completed(t.error)))
  {
    hide Noted;
  }

  lemma EndRecord(t: Task, prompt: seq<ResponseItem>, a: TurnAction)
    requires Enabled(t, prompt, a) && a.End?
    ensures |Records(t, prompt, a)| == 1
    ensures Tells(Records(t, prompt, a)[0], t.id, if t.cancelled then Aborted(t.reason) else Outcome.Completed(t.error))
  {
  }

  // ----- all of it -----

  predicate TurnOk(t: Task) {
    && InboxOk(t) && UsersOk(t) && CallsOk(t) && BroughtOk(t) && Reported(t.block) && OwingOk(t) && BlockOk(t)
    && SlotsOk(t.pc)
  }

  /** While tools run there is one slot per call. */
  predicate SlotsOk(pc: Pc) {
    pc.Tools? ==> |pc.outputs| == |pc.sample.calls|
  }

  lemma SlotsStep(t: Task, prompt: seq<ResponseItem>, a: TurnAction)
    requires SlotsOk(t.pc) && Enabled(t, prompt, a)
    ensures SlotsOk(Advanced(t, prompt, a).pc)
  {
    hide Records;
  }

  lemma TurnStepOk(t: Task, prompt: seq<ResponseItem>, a: TurnAction)
    requires TurnOk(t) && Enabled(t, prompt, a)
    ensures TurnOk(Advanced(t, prompt, a))
  {
    hide InboxOk, UsersOk, CallsOk, BroughtOk, Reported, OwingOk, BlockOk, Advanced, Enabled;
    InboxStep(t, prompt, a);
    UsersStep(t, prompt, a);
    CallsStep(t, prompt, a);
    BroughtStep(t, prompt, a);
    ReportedStep(t, prompt, a);
    OwingStep(t, prompt, a);
    BlockStep(t, prompt, a);
    SlotsStep(t, prompt, a);
  }

  lemma NewInboxOk(t: Task)
    requires t.inbox == Inbox([], true) && t.accepted == t.taken == [] && t.pc.LoopTop? && t.error == None
    ensures InboxOk(t)
  {
  }

  lemma NewUsersOk(t: Task, start: seq<Payload>, inputs: seq<Payload>)
    requires t.block == start + inputs && t.taken == [] && t.echoed == []
    requires |start| == 2 && UserOf(start[0]) == UserOf(start[1]) == []
    requires Collect(inputs, UserOf) == [UserItem(t.initial)]
    ensures UsersOk(t)
  {
    hide UserOf, Interleaves, Collect;
    CollectAppend(start, inputs, UserOf);
    CollectNothing(start, UserOf);
    EmptyUnit(Collect(inputs, UserOf));
    assert [UserItem(t.initial)] + UserItems(t.taken) == [UserItem(t.initial)];
    InterleavesWhole([UserItem(t.initial)]);
  }

  lemma InterleavesWhole<T>(all: seq<T>)
    ensures Interleaves(all, all, [])
  {
    InterleavesLeft([], [], [], all);
    EmptyUnit(all);
  }

  lemma NewCallsOk(t: Task)
    requires AllSilent(t.block) && Waiting(t.pc) == [] && Slots(t.pc) == [] && t.error == None && t.brought == map[]
    ensures CallsOk(t) && BroughtOk(t) && OwingOk(t) && Reported(t.block)
  {
    CollectNothing(t.block, StartedOf);
    CollectNothing(t.block, CompletedOf);
    CollectNothing(t.block, ReplyOf);
    SilentOwesNothing(Some(multiset{}), t.block);
    assert Names([]) == [] && Ids([]) == [];
    forall i: nat | i < |t.block|
      ensures ReportedAt(t.block, i)
    {
      assert Silent(t.block[i]);
    }
  }

  lemma NewBlockOk(t: Task, start: seq<Payload>, inputs: seq<Payload>)
    requires t.block == start + inputs && t.queue == t.block && t.pc.LoopTop? && t.outcome == None
    requires |start| == 2 && IsStart(start[0]) && start[0].msg.turnId == t.id && Plain(start[1])
    requires AllPlain(inputs) && inputs != []
    ensures BlockOk(t)
  {
    assert Block(start, t.id);
    PlainExtendsBlock(start, t.id, inputs);
  }

  lemma NewTurnOk(id: string, startedAt: int, input: TurnInput, instructions: Option<string>)
    ensures TurnOk(NewTask(id, startedAt, input, instructions))
  {
    hide InboxOk, UsersOk, CallsOk, BroughtOk, Reported, OwingOk, BlockOk, InputPayloads, Collect;
    var t := NewTask(id, startedAt, input, instructions);
    var start, inputs := [Event(TurnStarted(id, startedAt)), TurnContext(id)], InputPayloads(input, instructions);
    OneInput(input, instructions);
    NewBlockOk(t, start, inputs);
    NewUsersOk(t, start, inputs);
    assert AllSilent(start);
    NewCallsOk(t);
    NewInboxOk(t);
  }

  /** What others do to a turn leaves its accounts alone. */
  lemma SameAccounts(t: Task, u: Task)
    requires TurnOk(t)
    requires u.(inbox := t.inbox, accepted := t.accepted, cancelled := t.cancelled, reason := t.reason,
                queue := t.queue, pc := t.pc) == t
    requires Waiting(u.pc) == Waiting(t.pc) && Slots(u.pc) == Slots(t.pc)
    ensures UsersOk(u) && CallsOk(u) && BroughtOk(u) && Reported(u.block) && OwingOk(u)
  {
    hide Reported, Interleaves, Collect, Owing, Names, Ids, Waiting, Slots, Holds, InboxOk, BlockOk;
  }

  lemma SteeredOk(t: Task, input: TurnInput)
    requires TurnOk(t)
    ensures TurnOk(Steered(t, input))
  {
    hide UsersOk, CallsOk, BroughtOk, Reported, OwingOk, Block, ClosedBlock, Tells;
    InboxSteered(t, input);
    hide InboxOk;
    SameAccounts(t, Steered(t, input));
  }

  lemma CancelledOk(t: Task, reason: string)
    requires TurnOk(t)
    ensures TurnOk(Cancelled(t, reason))
  {
    hide UsersOk, CallsOk, BroughtOk, Reported, OwingOk, Block, ClosedBlock, Tells;
    SameAccounts(t, Cancelled(t, reason));
  }

  lemma FlushedOk(t: Task)
    requires TurnOk(t) && t.queue != []
    ensures TurnOk(Flushed(t))
  {
    hide UsersOk, CallsOk, BroughtOk, Reported, OwingOk, Block, ClosedBlock, Tells;
    SameAccounts(t, Flushed(t));
  }

  lemma RetiredOk(t: Task, pc: Pc)
    requires TurnOk(t) && t.queue == [] && (t.pc.Ended? || t.pc.Cleared?) && (pc.Cleared? || pc.Gone?)
    ensures TurnOk(t.(pc := pc))
  {
    hide UsersOk, CallsOk, BroughtOk, Reported, OwingOk, Block, ClosedBlock, Tells;
    SameAccounts(t, t.(pc := pc));
  }

  // ----- what a finished turn has done -----

  /** A turn that ended without an error has taken every steer input it accepted: the user
      messages it recorded are the starting input and then those, each once, in order, among
      what the model's streams echoed. */
  lemma SteerDelivered(t: Task)
    requires TurnOk(t) && t.outcome == Some(Outcome.Completed(None))
    ensures t.taken == t.accepted && t.inbox == Inbox([], false)
    ensures Interleaves(Collect(t.block, UserOf), [UserItem(t.initial)] + UserItems(t.accepted), t.echoed)
    ensures t.echoed == [] ==> Collect(t.block, UserOf) == [UserItem(t.initial)] + UserItems(t.accepted)
  {
    hide Block, ClosedBlock, Reported, Interleaves, Collect, Owing;
    EmptyUnit(t.taken);
    if t.echoed == [] {
      InterleavesNothing(Collect(t.block, UserOf), [UserItem(t.initial)] + UserItems(t.accepted));
    }
  }

  /** At every moment what a turn accepted is what it took and what still waits, in order, and
      the user messages recorded and about to be recorded are the starting input and what it
      took, in order, among what the streams held. */
  lemma SteerAccount(t: Task)
    requires TurnOk(t)
    ensures |t.queue| <= |t.block| && t.accepted == t.taken + t.inbox.pending
    ensures var said := Collect(t.block[..|t.block| - |t.queue|], UserOf) + Collect(t.queue, UserOf);
      && Interleaves(said, [UserItem(t.initial)] + UserItems(t.taken), t.echoed)
      && (t.echoed == [] ==> said + UserItems(t.inbox.pending) == [UserItem(t.initial)] + UserItems(t.accepted))
  {
    hide Block, ClosedBlock, Reported, Interleaves, Collect, Owing, CallsOk, UserItems;
    var recorded := t.block[..|t.block| - |t.queue|];
    assert recorded + t.queue == t.block;
    CollectAppend(recorded, t.queue, UserOf);
    if t.echoed == [] {
      InterleavesNothing(Collect(t.block, UserOf), [UserItem(t.initial)] + UserItems(t.taken));
      UserItemsAppend(t.taken, t.inbox.pending);
      Associative([UserItem(t.initial)], UserItems(t.taken), UserItems(t.inbox.pending));
    }
  }

  /** A turn that ended without an error has completed exactly the calls it started, in the
      order the model issued them, and owes no output. */
  lemma CallsAnswered(t: Task)
    requires TurnOk(t) && t.outcome == Some(Outcome.Completed(None))
    ensures Collect(t.block, CompletedOf) == Collect(t.block, StartedOf)
    ensures !t.foreign ==> Owing(Some(multiset{}), t.block) == Some(multiset{})
  {
    hide Block, ClosedBlock, Reported, Interleaves, Collect, Owing;
    assert Names([]) == [] && Ids([]) == [];
    EmptyUnit(Collect(t.block, CompletedOf));
  }

  /** The reported outputs are, in order, what the tools of the started calls brought. */
  lemma OutputsAreBrought(t: Task, n: nat)
    requires TurnOk(t) && n < |Collect(t.block, CompletedOf)|
    ensures |Collect(t.block, ReplyOf)| == |Collect(t.block, CompletedOf)| <= |Collect(t.block, StartedOf)|
    ensures Collect(t.block, StartedOf)[n] == Collect(t.block, CompletedOf)[n]
    ensures n in t.brought && Collect(t.block, ReplyOf)[n] == t.brought[n]
  {
    hide Block, ClosedBlock, Reported, UsersOk, Collect, Owing;
    RepliesCount(t.block);
    assert Holds(t.brought, n, Some(Collect(t.block, ReplyOf)[n]));
  }

  function CallIdOf(payload: Payload): seq<string> {
    if payload.Item? && payload.item.typ.FunctionCall? then [ReplyId(payload.item.callId)] else []
  }

  function OutputIdOf(payload: Payload): seq<string> {
    if payload.Item? && payload.item.typ.FunctionCallOutput? then [payload.item.callId] else []
  }

  lemma SettledBalances(owed: multiset<string>, payload: Payload)
    ensures var next := Settled(Some(owed), payload); next.Some? ==>
      owed + multiset(CallIdOf(payload)) == multiset(OutputIdOf(payload)) + next.value
  {
  }

  lemma Rebalance(a: multiset<string>, b: multiset<string>, c: multiset<string>, x: seq<string>, y: seq<string>, u: seq<string>, v: seq<string>)
    requires a + multiset(x) == multiset(y) + b && b + multiset(u) == multiset(v) + c
    ensures a + multiset(x + u) == multiset(y + v) + c
  {
    assert a + multiset(x + u) == (a + multiset(x)) + multiset(u);
    assert (multiset(y) + b) + multiset(u) == multiset(y) + (b + multiset(u));
    assert multiset(y) + (multiset(v) + c) == multiset(y + v) + c;
  }

  /** The account of owed outputs means: calls and outputs balance but for the owed ones. */
  lemma {:induction false} OwingBalances(owed: multiset<string>, payloads: seq<Payload>)
    ensures var after := Owing(Some(owed), payloads); after.Some? ==>
      owed + multiset(Collect(payloads, CallIdOf)) == multiset(Collect(payloads, OutputIdOf)) + after.value
    decreases |payloads|
  {
    hide Settled, CallIdOf, OutputIdOf;
    if payloads == [] {
    } else {
      var next := Settled(Some(owed), payloads[0]);
      var after := Owing(Some(owed), payloads);
      if next == None {
        NothingAfterNone(payloads[1..]);
      } else if after.Some? {
        OwingBalances(next.value, payloads[1..]);
        SettledBalances(owed, payloads[0]);
        Rebalance(owed, next.value, after.value,
                  CallIdOf(payloads[0]), OutputIdOf(payloads[0]),
                  Collect(payloads[1..], CallIdOf), Collect(payloads[1..], OutputIdOf));
      }
    }
  }

  /** With nothing owed, each identifier has as many outputs as calls. */
  lemma NothingOwedBalances(payloads: seq<Payload>)
    requires Owing(Some(multiset{}), payloads) == Some(multiset{})
    ensures multiset(Collect(payloads, CallIdOf)) == multiset(Collect(payloads, OutputIdOf))
  {
    hide Owing, Collect;
    OwingBalances(multiset{}, payloads);
    var calls, outputs := multiset(Collect(payloads, CallIdOf)), multiset(Collect(payloads, OutputIdOf));
    assert multiset{} + calls == calls && outputs + multiset{} == outputs;
  }

  lemma {:induction false} NothingAfterNone(payloads: seq<Payload>)
    ensures Owing(None, payloads) == None
  {
    if payloads != [] {
      NothingAfterNone(payloads[1..]);
    }
  }

  /** And at no point have more outputs been recorded for an identifier than calls. */
  lemma OutputsFollowCalls(payloads: seq<Payload>, n: nat)
    requires Owing(Some(multiset{}), payloads).Some? && n <= |payloads|
    ensures multiset(Collect(payloads[..n], OutputIdOf)) <= multiset(Collect(payloads[..n], CallIdOf))
  {
    hide Owing, Collect;
    assert payloads[..n] + payloads[n..] == payloads;
    OwingAppend(Some(multiset{}), payloads[..n], payloads[n..]);
    NothingAfterNone(payloads[n..]);
    OwingBalances(multiset{}, payloads[..n]);
    var owed := Owing(Some(multiset{}), payloads[..n]);
    assert owed.Some?;
    assert multiset(Collect(payloads[..n], CallIdOf)) == multiset(Collect(payloads[..n], OutputIdOf)) + owed.value;
  }
}
