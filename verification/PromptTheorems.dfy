/** What every prompt that is sent to the model contains. */
module PromptTheorems {
  import opened Seqs
  import opened Wrappers
  import opened Protocol
  import opened History
  import opened Rollout
  import opened RolloutTurns
  import opened TurnTask
  import opened TurnAccounting
  import opened TurnEngine
  import opened SessionInvariant

  // ----- the newest user message -----

  lemma LastAfter(items: seq<ResponseItem>, item: ResponseItem)
    ensures LastUserMessage(items + [item]) == if IsUserMessage(item) then [item] else LastUserMessage(items)
  {
    assert (items + [item])[..|items|] == items;
  }

  lemma {:induction false} LastAppend(a: seq<ResponseItem>, b: seq<ResponseItem>)
    ensures LastUserMessage(a + b) == if LastUserMessage(b) != [] then LastUserMessage(b) else LastUserMessage(a)
  {
    if b == [] {
      EmptyUnit(a);
    } else {
      var n := |b| - 1;
      Associative(a, b[..n], [b[n]]);
      assert b[..n] + [b[n]] == b;
      LastAfter(a + b[..n], b[n]);
      LastAppend(a, b[..n]);
    }
  }

  lemma {:induction false} OutputsAreNoUserMessages(items: seq<ResponseItem>)
    ensures LastUserMessage(NonOutputs(items)) == LastUserMessage(items)
  {
    if items != [] {
      var head, rest := items[0], items[1..];
      OutputsAreNoUserMessages(rest);
      assert items == [head] + rest;
      LastAppend([head], rest);
      EmptyUnit(NonOutputs(rest));
      LastAppend([head], NonOutputs(rest));
      assert [] + [head] == [head];
      LastAfter([], head);
    }
  }

  /** Preparing a prompt leaves the newest user message in place. */
  lemma PromptKeepsLast(items: seq<ResponseItem>)
    ensures LastUserMessage(Normalized(items)) == LastUserMessage(items)
  {
    hide LastUserMessage, RepairedAll, NonOutputs;
    RepairKeepsTheRest(items, CallIds(items), OutputIds(items));
    OutputsAreNoUserMessages(items);
    OutputsAreNoUserMessages(Normalized(items));
  }

  lemma CompactionKeepsLast(items: seq<ResponseItem>, summary: string)
    requires LastUserMessage(items) != []
    ensures var replacement := Replacement(Normalized(items), summary);
      Filtered(replacement) == replacement && LastUserMessage(replacement) == LastUserMessage(items)
  {
    hide LastUserMessage, Normalized, Filtered, Replacement;
    PromptKeepsLast(items);
    CompactionSettles(Normalized(items), summary);
  }

  lemma LiveStepLast(history: seq<ResponseItem>, payload: Payload)
    requires payload.Compacted? ==>
      Filtered(payload.replacement) == payload.replacement && LastUserMessage(payload.replacement) == LastUserMessage(history)
    ensures LastUserMessage(LiveStep(history, payload))
         == if payload.Item? && IsUserMessage(payload.item) then [payload.item] else LastUserMessage(history)
  {
    hide LastUserMessage, Filtered;
    if payload.Item? {
      FilteredOne(payload.item);
      LastAfter(history, payload.item);
      EmptyUnit(history);
    }
  }

  lemma ItemsLast(payloads: seq<Payload>, payload: Payload)
    ensures LastUserMessage(ItemsOf(payloads + [payload]))
         == if payload.Item? && IsUserMessage(payload.item) then [payload.item] else LastUserMessage(ItemsOf(payloads))
  {
    hide LastUserMessage, ItemsOf;
    ItemsOfAppend(payloads, payload);
    EmptyUnit(ItemsOf(payloads));
    if payload.Item? {
      LastAfter(ItemsOf(payloads), payload.item);
    }
  }

  // ----- what every step keeps -----

  /** A replacement about to be recorded is next in line, and has the newest user message. */
  predicate ReplacementsOk(queue: seq<Payload>, history: seq<ResponseItem>) {
    forall i :: 0 <= i < |queue| && queue[i].Compacted? ==>
      && i == 0
      && Filtered(queue[0].replacement) == queue[0].replacement
      && LastUserMessage(queue[0].replacement) == LastUserMessage(history)
  }

  /** As soon as a turn has recorded the input that started it, the newest user message of the
      history is the newest one that the turn has recorded. */
  predicate TurnGrounded(t: Task, history: seq<ResponseItem>) {
    && |t.block| >= 3 && |t.queue| <= |t.block|
    && t.block[2] == Item(UserItem(t.initial))
    && t.queue == t.block[|t.block| - |t.queue|..]
    && (|t.block| - |t.queue| >= 3 ==>
          && LastUserMessage(history) != []
          && LastUserMessage(history) == LastUserMessage(ItemsOf(t.block[..|t.block| - |t.queue|])))
    && ReplacementsOk(t.queue, history)
  }

  predicate GroundedIn(tasks: seq<Task>, active: Option<nat>, history: seq<ResponseItem>) {
    tasks != [] && active.Some? ==> TurnGrounded(tasks[|tasks| - 1], history)
  }

  predicate Grounded(s: Session) {
    GroundedIn(s.tasks, s.active, s.history)
  }

  lemma NoReplacements(t: Task, prompt: seq<ResponseItem>, a: TurnAction)
    requires Enabled(t, prompt, a) && !a.Compact?
    ensures forall i :: 0 <= i < |Records(t, prompt, a)| ==> !Records(t, prompt, a)[i].Compacted?
  {
    if a.MergeTools? {
      OutputsHoldNoReplacement(t.pc.sample.calls, Values(t.pc.outputs));
    } else if a.Take? {
      InputsHoldNoReplacement(t.inbox.pending, a.instructions);
    }
  }

  lemma {:induction false} OutputsHoldNoReplacement(calls: seq<Call>, outputs: seq<string>)
    requires |calls| == |outputs|
    ensures forall i :: 0 <= i < |OutputRecords(calls, outputs)| ==> !OutputRecords(calls, outputs)[i].Compacted?
  {
    if calls != [] {
      OutputsHoldNoReplacement(calls[1..], outputs[1..]);
    }
  }

  lemma {:induction false} InputsHoldNoReplacement(inputs: seq<TurnInput>, instructions: TurnInput -> Option<string>)
    ensures forall i :: 0 <= i < |InputsPayloads(inputs, instructions)| ==> !InputsPayloads(inputs, instructions)[i].Compacted?
  {
    if inputs != [] {
      InputsHoldNoReplacement(inputs[1..], instructions);
    }
  }

  lemma AdvanceGrounded(t: Task, history: seq<ResponseItem>, a: TurnAction)
    requires TurnGrounded(t, history) && Enabled(t, Normalized(history), a)
    ensures TurnGrounded(Advanced(t, Normalized(history), a), history)
  {
    hide LastUserMessage, ItemsOf, Records, Enabled, Filtered, Normalized;
    var prompt := Normalized(history);
    AdvancedRuns(t, prompt, a);
    AccountsMove(t, prompt, a);
    DropLeft(t.block, Records(t, prompt, a));
    assert t.block[..|t.block|] == t.block;
    if a.Compact? {
      CompactRecords(t, prompt, a.summary);
      CompactionKeepsLast(history, a.summary);
    } else {
      NoReplacements(t, prompt, a);
    }
  }

  lemma CompactRecords(t: Task, prompt: seq<ResponseItem>, summary: string)
    requires Enabled(t, prompt, Compact(summary))
    ensures Records(t, prompt, Compact(summary)) == [Compacted(summary, Replacement(prompt, summary)), Event(ContextCompaction(t.id))]
  {
  }

  lemma FlushGrounded(t: Task, history: seq<ResponseItem>)
    requires TurnGrounded(t, history) && t.queue != []
    ensures TurnGrounded(Flushed(t), LiveStep(history, t.queue[0]))
  {
    hide LastUserMessage, ItemsOf, Filtered, LiveStep, UserItem, IsUserMessage;
    var m := |t.block| - |t.queue|;
    var payload := t.queue[0];
    QueueMoves(t.block, t.queue, m);
    assert t.block[..m + 1] == t.block[..m] + [t.block[m]];
    LiveStepLast(history, payload);
    ItemsLast(t.block[..m], payload);
    InitialIsUserMessage(t.initial);
    NothingReplaced(t.queue, history, LiveStep(history, payload));
  }

  lemma QueueMoves(block: seq<Payload>, queue: seq<Payload>, m: nat)
    requires m < |block| && queue == block[m..]
    ensures queue[0] == block[m] && queue[1..] == block[m + 1..]
  {
  }

  lemma InitialIsUserMessage(input: TurnInput)
    ensures IsUserMessage(UserItem(input))
  {
  }

  lemma NothingReplaced(queue: seq<Payload>, history: seq<ResponseItem>, next: seq<ResponseItem>)
    requires queue != [] && ReplacementsOk(queue, history)
    ensures ReplacementsOk(queue[1..], next)
  {
    hide LastUserMessage, Filtered;
    assert forall i :: 0 <= i < |queue| - 1 ==> queue[1..][i] == queue[i + 1];
  }

  lemma NewGrounded(id: string, startedAt: int, input: TurnInput, instructions: Option<string>, history: seq<ResponseItem>)
    ensures TurnGrounded(NewTask(id, startedAt, input, instructions), history)
  {
    hide LastUserMessage, ItemsOf, Filtered;
    var t := NewTask(id, startedAt, input, instructions);
    assert forall i :: 0 <= i < |t.block| ==> !t.block[i].Compacted?;
  }

  lemma SameGrounded(t: Task, u: Task, history: seq<ResponseItem>)
    requires TurnGrounded(t, history) && u.block == t.block && u.queue == t.queue && u.initial == t.initial
    ensures TurnGrounded(u, history)
  {
  }

  lemma GroundedStep(s: Session, a: Action)
    requires Consistent(s) && Grounded(s) && Possible(s, a)
    ensures Grounded(Next(s, a))
  {
    hide LogOk, PlanOk, LoopOk, EarlierOk, TasksOk, Enabled, Advanced, NewTask, Normalized, LoopAfterInput, LoopAfterInterrupt,
      LoopAfterAbort, LiveStep, TurnGrounded, Reopened;
    match a
    case Turn(k, step) =>
      AdvancedRuns(s.tasks[k], Normalized(s.history), step);
      RunningIsNewest(s.tasks, s.active, k);
      AdvanceGrounded(s.tasks[k], s.history, step);
    case Flush(k, time, size, ok) =>
      FlushingIsRunning(s, k);
      FlushGrounded(s.tasks[k], s.history);
    case Spawn(startedAt, instructions) =>
      NewGrounded(s.loop.id, startedAt, s.loop.input, instructions, s.history);
    case Deliver =>
      DeliverGrounded(s);
    case CancelTurn =>
      CancelGrounded(s);
    case Clear(k) =>
      ClearingRetires(s, k);
    case Close(k) =>
      CloseGrounded(s, k);
    case _ =>
  }

  lemma FlushingIsRunning(s: Session, k: nat)
    requires TasksOk(s.tasks, s.active) && k < |s.tasks| && s.tasks[k].queue != []
    ensures s.active == Some(k) && k == |s.tasks| - 1
  {
    hide TurnOk, Retired;
    OnlyRunningHasQueue(s.tasks[k]);
    RunningIsNewest(s.tasks, s.active, k);
  }

  lemma DeliverGrounded(s: Session)
    requires Grounded(s) && Possible(s, Deliver)
    ensures Grounded(Next(s, Deliver))
  {
    hide TurnGrounded, Enabled;
    var k := s.loop.task;
    SteeringKeepsInitial(s.tasks[k], s.loop.input);
    if s.active.Some? && k == |s.tasks| - 1 {
      SameGrounded(s.tasks[k], Steered(s.tasks[k], s.loop.input), s.history);
    }
  }

  lemma CancelGrounded(s: Session)
    requires Grounded(s) && Possible(s, CancelTurn)
    ensures Grounded(Next(s, CancelTurn))
  {
    hide TurnGrounded, Enabled;
    var k := s.loop.task;
    if s.active.Some? && k == |s.tasks| - 1 {
      SameGrounded(s.tasks[k], Cancelled(s.tasks[k], s.loop.reason), s.history);
    }
  }

  lemma SteeringKeepsInitial(t: Task, input: TurnInput)
    ensures var u := Steered(t, input); u.block == t.block && u.queue == t.queue && u.initial == t.initial
  {
  }

  lemma ClearingRetires(s: Session, k: nat)
    requires TasksOk(s.tasks, s.active) && k < |s.tasks| && s.tasks[k].pc.Ended?
    ensures s.active == Some(k)
  {
    hide TurnOk;
    RunningIsNewest(s.tasks, s.active, k);
  }

  lemma CloseGrounded(s: Session, k: nat)
    requires Grounded(s) && Possible(s, Close(k))
    ensures Grounded(Next(s, Close(k)))
  {
    hide TurnGrounded, Enabled;
    if s.active.Some? && k == |s.tasks| - 1 {
      SameGrounded(s.tasks[k], s.tasks[k].(pc := Gone), s.history);
    }
  }

  // ----- every prompt -----

  lemma {:induction false} RunGrounded(s: Session, actions: seq<Action>)
    requires Consistent(s) && Grounded(s)
    ensures Consistent(Run(s, actions)) && Grounded(Run(s, actions))
    decreases |actions|
  {
    hide Consistent, Grounded, Possible, Next;
    if actions != [] {
      if Possible(s, actions[0]) {
        StepConsistent(s, actions[0]);
        GroundedStep(s, actions[0]);
        RunGrounded(Next(s, actions[0]), actions[1..]);
      } else {
        RunGrounded(s, actions[1..]);
      }
    }
  }

  lemma LastIsMember(items: seq<ResponseItem>)
    requires LastUserMessage(items) != []
    ensures items != []
  {
  }

  /** In every run from any readable log: whenever a turn samples the model, its prompt is not
      empty, answers all calls, matches all outputs, and its newest user message is the newest
      one the turn has recorded, however often the history was compacted. */
  lemma EveryPromptIsGrounded(lines: seq<Line>, cwd: string, time: int, size: nat, ok: bool, actions: seq<Action>, k: nat)
    requires Opened(lines).Some?
    requires Possible(Run(Booted(Opened(lines).value, cwd, time, size, ok), actions), Turn(k, BeginSampling))
    ensures var s := Run(Booted(Opened(lines).value, cwd, time, size, ok), actions);
      var prompt := Normalized(s.history);
      && prompt != [] && Answered(prompt) && Matched(prompt)
      && LastUserMessage(prompt) == LastUserMessage(ItemsOf(s.tasks[k].block)) != []
  {
    hide Consistent, Grounded, Possible, TasksOk, GroundedIn, TurnGrounded, Enabled, Booted, Run, Opened, Normalized,
      LastUserMessage, ItemsOf, Answered, Matched;
    var start := Booted(Opened(lines).value, cwd, time, size, ok);
    BootConsistent(lines, cwd, time, size, ok);
    BootGrounded(Opened(lines).value, cwd, time, size, ok);
    RunGrounded(start, actions);
    var s := Run(start, actions);
    Parts(s, k);
    SamplingTurn(s.tasks, s.active, s.history, k);
    GroundedPrompt(s.tasks[k], s.history);
  }

  lemma Parts(s: Session, k: nat)
    requires Consistent(s) && Grounded(s) && Possible(s, Turn(k, BeginSampling))
    ensures k < |s.tasks| && TasksOk(s.tasks, s.active) && GroundedIn(s.tasks, s.active, s.history)
    ensures Enabled(s.tasks[k], Normalized(s.history), BeginSampling)
  {
    hide LogOk, TasksOk, PlanOk, LoopOk, EarlierOk, GroundedIn, Enabled, Normalized;
  }

  lemma BootGrounded(file: Store, cwd: string, time: int, size: nat, ok: bool)
    ensures Grounded(Booted(file, cwd, time, size, ok))
  {
    hide LiveStep, Replayed, Filtered, NextOrdinal, TurnGrounded;
  }

  lemma SamplingTurn(tasks: seq<Task>, active: Option<nat>, history: seq<ResponseItem>, k: nat)
    requires k < |tasks| && TasksOk(tasks, active) && GroundedIn(tasks, active, history)
    requires Enabled(tasks[k], Normalized(history), BeginSampling)
    ensures tasks[k].queue == [] && TurnGrounded(tasks[k], history)
  {
    hide TurnOk, Advanced, Normalized, TurnGrounded, Retired, Records;
    AdvancedRuns(tasks[k], Normalized(history), BeginSampling);
    RunningIsNewest(tasks, active, k);
  }

  lemma GroundedPrompt(t: Task, history: seq<ResponseItem>)
    requires TurnGrounded(t, history) && t.queue == []
    ensures var prompt := Normalized(history);
      && prompt != [] && Answered(prompt) && Matched(prompt)
      && LastUserMessage(prompt) == LastUserMessage(ItemsOf(t.block)) != []
  {
    hide Normalized, LastUserMessage, ItemsOf, Answered, Matched;
    assert t.block[..|t.block|] == t.block;
    PromptKeepsLast(history);
    LastIsMember(Normalized(history));
    PromptAnswersCalls(history);
    PromptMatchesOutputs(history);
  }
}
