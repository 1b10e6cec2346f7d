/** What a session promises in every state it can reach. */
module SessionTheorems {
  import opened Seqs
  import opened Wrappers
  import opened Protocol
  import opened History
  import opened Rollout
  import opened RolloutTurns
  import opened TurnTask
  import opened TurnAccounting
  import opened TurnEngine
  import opened SessionInvariant

  /** The states of all runs from any readable log. */
  ghost predicate Reachable(s: Session) {
    exists lines, cwd, time, size, ok, actions ::
      Opened(lines).Some? && s == Run(Booted(Opened(lines).value, cwd, time, size, ok), actions)
  }

  lemma ReachableIsConsistent(s: Session)
    requires Reachable(s)
    ensures Consistent(s)
  {
    hide Consistent, Run, Booted, Opened;
    var lines, cwd, time, size, ok, actions :|
      Opened(lines).Some? && s == Run(Booted(Opened(lines).value, cwd, time, size, ok), actions);
    BootConsistent(lines, cwd, time, size, ok);
    RunConsistent(Booted(Opened(lines).value, cwd, time, size, ok), actions);
  }

  // ----- the log -----

  /** The log only grows, over all runs, failures and restarts included. */
  lemma {:induction false} LogOnlyGrows(s: Session, actions: seq<Action>)
    ensures s.store.lines <= Run(s, actions).store.lines
    decreases |actions|
  {
    hide Possible, Next;
    if actions != [] {
      if Possible(s, actions[0]) {
        LogStepGrows(s, actions[0]);
        LogOnlyGrows(Next(s, actions[0]), actions[1..]);
      } else {
        LogOnlyGrows(s, actions[1..]);
      }
    }
  }

  lemma LogStepGrows(s: Session, a: Action)
    requires Possible(s, a)
    ensures s.store.lines <= Next(s, a).store.lines
  {
    hide Enabled, Advanced, NewTask, LoopAfterInput, LoopAfterInterrupt, LoopAfterAbort, Normalized, Steered, Cancelled,
      LiveStep, Reopened, Replayed, Filtered, AllFit, NextOrdinal;
  }

  /** A new log is introduced by the session line, numbered zero, if it can be written; a log that
      goes on is not introduced again. */
  lemma LogIsIntroduced(s: Session, lines: seq<Line>, cwd: string, time: int, size: nat, ok: bool)
    requires Opened(lines).Some?
    ensures var booted := Booted(Opened(lines).value, cwd, time, size, ok).store;
      booted == if lines == [] && ok then Store([Line(0, time, size, SessionMeta(cwd))], 1, false)
                else if lines == [] then Store([], 0, true)
                else Opened(lines).value
    ensures s.store.lines == lines ==>
      Next(s, Restart(cwd, time, size, ok)).store == Booted(Opened(lines).value, cwd, time, size, ok).store
  {
    hide Reopened, Replayed, Filtered, LiveStep, AllFit;
    OpenedOrdinal(lines);
  }

  /** Replaying the log gives the live history as it was when the recorder last wrote, which is
      the present one unless the recorder has failed. */
  lemma LogReplaysToHistory(s: Session)
    requires Reachable(s)
    ensures Filtered(Replayed(Payloads(s.store.lines))) == s.book.snapshot
    ensures !s.store.failed ==> s.book.snapshot == s.history
  {
    hide Reachable, Replayed, Filtered, Payloads, TasksOk, PlanOk, LoopOk, EarlierOk;
    ReachableIsConsistent(s);
    assert s.book.intent[..|s.book.intent|] == s.book.intent;
  }

  /** So a process that resumes starts from that history, whenever the last one ended. */
  lemma ResumeRestoresHistory(s: Session, cwd: string, time: int, size: nat, ok: bool)
    requires Reachable(s) && Possible(s, Restart(cwd, time, size, ok))
    ensures Next(s, Restart(cwd, time, size, ok)).history == s.book.snapshot
  {
    hide Reachable, Replayed, Filtered, Payloads, Consistent, Reopened;
    ReachableIsConsistent(s);
    LogReplaysToHistory(s);
  }

  /** After a failed write nothing reaches the log, and its replay stays what it was, until the
      log is opened again. */
  lemma {:induction false} FailureFreezesLog(s: Session, actions: seq<Action>)
    requires s.store.failed && forall i :: 0 <= i < |actions| ==> !actions[i].Restart?
    ensures var after := Run(s, actions); after.store == s.store && after.book.snapshot == s.book.snapshot
    decreases |actions|
  {
    if actions != [] {
      if Possible(s, actions[0]) {
        FailedStep(s, actions[0]);
        FailureFreezesLog(Next(s, actions[0]), actions[1..]);
      } else {
        FailureFreezesLog(s, actions[1..]);
      }
    }
  }

  lemma FailedStep(s: Session, a: Action)
    requires s.store.failed && Possible(s, a) && !a.Restart?
    ensures Next(s, a).store == s.store && Next(s, a).book.snapshot == s.book.snapshot
  {
    hide Enabled, Advanced, NewTask, LoopAfterInput, LoopAfterInterrupt, LoopAfterAbort, Normalized, Steered,
      Cancelled, LiveStep;
  }

  // ----- the turns in the log -----

  /** The blocks that are in the log. */
  function LoggedBlocks(s: Session): seq<seq<Payload>> {
    Reopened(s).earlier
  }

  function LoggedIds(s: Session): seq<string> {
    Reopened(s).ids
  }

  lemma BlocksStart(blocks: seq<seq<Payload>>, ids: seq<string>)
    requires Blocks(blocks, ids)
    ensures forall i :: 0 <= i < |blocks| ==> blocks[i] != [] && IsStart(blocks[i][0])
  {
  }

  /** The log is one block after another, each opened by the start of its turn and closed by
      its only terminal event, except the last one and those that were last when a process
      ended. Reading its turns gives one turn per block. */
  lemma LogIsBlocks(s: Session)
    requires Reachable(s) && |s.book.lead| <= |s.store.lines|
    ensures Payloads(s.store.lines) == s.book.lead + Flat(LoggedBlocks(s))
    ensures Blocks(LoggedBlocks(s), LoggedIds(s))
    ensures forall j :: 0 <= j < |LoggedBlocks(s)| - 1 && !ClosedBlock(LoggedBlocks(s)[j], LoggedIds(s)[j]) ==>
      j + 1 in s.book.restarts
    ensures forall i :: 0 <= i < |LoggedBlocks(s)| ==> LoggedBlocks(s)[i] != [] && IsStart(LoggedBlocks(s)[i][0])
    ensures TurnsOf(Payloads(s.store.lines)) == TurnsOf(s.book.lead) + Summaries(LoggedBlocks(s))
  {
    hide Reachable, Consistent, Payloads, Flat, ClosedBlock, Reopened, TurnsOf, Summaries, Block;
    ReachableIsConsistent(s);
    RestartedLog(s);
    RestartedBlocks(s);
    BlocksStart(LoggedBlocks(s), LoggedIds(s));
    ReadingBlocks(s.book.lead, LoggedBlocks(s), LoggedIds(s));
    NewRestart(s);
  }

  lemma NewRestart(s: Session)
    ensures Reopened(s).restarts == s.book.restarts + {|LoggedBlocks(s)|}
  {
  }

  lemma {:induction false} CutIsWhole(blocks: seq<seq<Payload>>, n: nat)
    requires n >= |Flat(blocks)| && forall i :: 0 <= i < |blocks| ==> blocks[i] != []
    ensures CutBlocks(blocks, n) == blocks
  {
  }

  /** While the recorder works, nothing is missing once the running turn has made its records:
      the log holds every block of the thread. */
  lemma HealthyLogIsComplete(s: Session)
    requires Reachable(s) && !s.store.failed && Pending(s.tasks) == []
    ensures |s.book.lead| <= |s.store.lines|
    ensures LoggedBlocks(s) == AllBlocks(s)
    ensures Payloads(s.store.lines) == s.book.lead + Flat(AllBlocks(s))
  {
    hide Reachable, Replayed, Filtered, Payloads, TasksOk, LoopOk, Block, ClosedBlock, Flat, CutBlocks;
    ReachableIsConsistent(s);
    HealthyLength(s);
    AllAreBlocks(s);
    BlocksAreNotEmpty(AllBlocks(s), AllIds(s));
    CutIsWhole(AllBlocks(s), |s.store.lines| - |s.book.lead|);
  }

  lemma HealthyLength(s: Session)
    requires Consistent(s) && !s.store.failed && Pending(s.tasks) == []
    ensures Payloads(s.store.lines) == s.book.lead + Flat(AllBlocks(s))
    ensures |s.store.lines| == |s.book.lead| + |Flat(AllBlocks(s))|
  {
    hide Replayed, Filtered, TasksOk, LoopOk, EarlierOk, Flat, BlocksOf;
    assert s.book.intent[..|s.book.intent|] == s.book.intent;
    EmptyUnit(s.book.base + s.book.intent);
    assert |Payloads(s.store.lines)| == |s.store.lines|;
  }

  /** The stored turn shows how the turn ended, and with which items. */
  lemma StatusTellsOutcome(t: Task)
    requires TurnOk(t)
    ensures Block(t.block, t.id)
    ensures var turn := Summary(t.block);
      && turn.id == t.id && turn.items == ItemsOf(t.block)
      && turn.status == (match t.outcome
                         case None => InProgress
                         case Some(Aborted(_)) => Interrupted
                         case Some(Completed(error)) => if error.Some? then FailedTurn else Status.Completed)
      && (t.outcome.Some? && t.outcome.value.Completed? ==> turn.error == t.outcome.value.error == t.error)
  {
    hide InboxOk, UsersOk, CallsOk, BroughtOk, Reported, OwingOk, ItemsOf;
  }

  lemma {:induction false} SummaryAt(blocks: seq<seq<Payload>>, ids: seq<string>, k: nat)
    requires Blocks(blocks, ids) && k < |blocks|
    ensures forall i :: 0 <= i < |blocks| ==> blocks[i] != [] && IsStart(blocks[i][0])
    ensures |Summaries(blocks)| == |blocks| && Summaries(blocks)[k] == Summary(blocks[k])
    decreases |blocks|
  {
    hide Block, Summary;
    BlocksStart(blocks, ids);
    var n := |blocks| - 1;
    if n > 0 {
      SummaryAt(blocks[..n], ids[..n], if k < n then k else 0);
    }
  }

  /** Reading the turns of the log shows, for every turn of the process, its identifier, its
      items and how it ended, in order behind the turns of earlier processes. */
  lemma TurnInLog(s: Session, k: nat)
    requires Reachable(s) && !s.store.failed && Pending(s.tasks) == [] && k < |s.tasks|
    ensures var turns := TurnsOf(Payloads(s.store.lines));
      var at := |TurnsOf(s.book.lead)| + |s.book.earlier| + k;
      var t := s.tasks[k];
      && |turns| == |TurnsOf(s.book.lead)| + |s.book.earlier| + |s.tasks|
      && turns[at].id == t.id && turns[at].items == ItemsOf(t.block)
      && turns[at].status == (match t.outcome
                              case None => InProgress
                              case Some(Aborted(_)) => Interrupted
                              case Some(Completed(error)) => if error.Some? then FailedTurn else Status.Completed)
      && (t.outcome.Some? && t.outcome.value.Completed? ==> turns[at].error == t.outcome.value.error)
  {
    hide Reachable, LogOk, TasksOk, PlanOk, LoopOk, EarlierOk, TurnsOf, Summaries, Summary, Payloads, Flat, Reopened,
      Blocks, ItemsOf, TurnOk;
    ReachableIsConsistent(s);
    HealthyLogIsComplete(s);
    LogIsBlocks(s);
    AllAreBlocks(s);
    var j := |s.book.earlier| + k;
    assert AllBlocks(s)[j] == s.tasks[k].block;
    SummaryAt(AllBlocks(s), AllIds(s), j);
    TaskIsOk(s.tasks, s.active, k);
    StatusTellsOutcome(s.tasks[k]);
  }

  lemma TaskIsOk(tasks: seq<Task>, active: Option<nat>, k: nat)
    requires TasksOk(tasks, active) && k < |tasks|
    ensures TurnOk(tasks[k])
  {
    hide TurnOk, Retired;
  }

  // ----- turns -----

  /** At most one turn runs, and it is the active one. */
  lemma OneTurnRuns(s: Session, j: nat, k: nat)
    requires Reachable(s) && j < |s.tasks| && k < |s.tasks|
    requires !Retired(s.tasks[j]) && !Retired(s.tasks[k])
    ensures j == k && s.active == Some(k)
  {
    hide Reachable, LogOk, PlanOk, LoopOk, EarlierOk, TasksOk, Retired;
    ReachableIsConsistent(s);
    RunningIsNewest(s.tasks, s.active, j);
    RunningIsNewest(s.tasks, s.active, k);
  }

  /** While a turn's tools run it is the active turn, so a tool call that asks for approval does
      so in the name of its own turn. */
  lemma ToolsRunInActiveTurn(s: Session, k: nat)
    requires Reachable(s) && k < |s.tasks| && s.tasks[k].pc.Tools?
    ensures s.active == Some(k) && ActiveId(s) == s.tasks[k].id
  {
    hide Reachable, LogOk, PlanOk, LoopOk, EarlierOk, TasksOk;
    ReachableIsConsistent(s);
    RunningIsNewest(s.tasks, s.active, k);
  }

  /** A new turn starts only when all others are over and closed: none is ever replaced. */
  lemma StartReplacesNothing(s: Session, a: Action, k: nat)
    requires Reachable(s) && Possible(s, a) && a.Spawn? && k < |s.tasks|
    ensures s.active == None && Retired(s.tasks[k]) && ClosedBlock(s.tasks[k].block, s.tasks[k].id)
  {
    hide Reachable, LogOk, PlanOk, EarlierOk, TasksOk, ClosedBlock, Retired;
    ReachableIsConsistent(s);
    RetiredIsClosed(s, k);
  }

  lemma RetiredIsClosed(s: Session, k: nat)
    requires Consistent(s) && k < |s.tasks| && s.active == None
    ensures Retired(s.tasks[k]) && ClosedBlock(s.tasks[k].block, s.tasks[k].id)
  {
    hide LogOk, PlanOk, LoopOk, EarlierOk, InboxOk, UsersOk, CallsOk, BroughtOk, Reported, OwingOk, Block, ClosedBlock, Tells;
    assert TurnOk(s.tasks[k]);
  }

  /** After a shutdown every turn of the process is over and closed. */
  lemma ShutdownClosesTurns(s: Session, k: nat)
    requires Reachable(s) && s.loop.Stopped? && k < |s.tasks|
    ensures Retired(s.tasks[k]) && ClosedBlock(s.tasks[k].block, s.tasks[k].id)
  {
    hide Reachable, LogOk, PlanOk, EarlierOk, TasksOk, ClosedBlock, Retired;
    ReachableIsConsistent(s);
    RetiredIsClosed(s, k);
  }

  /** Only a delivery to it makes a turn accept input, and input that named a turn is accepted
      by no other. */
  lemma SteerHitsNamedTurn(s: Session, a: Action, k: nat)
    requires Reachable(s) && Possible(s, a) && !a.Restart? && k < |s.tasks|
    ensures k < |Next(s, a).tasks| && Next(s, a).tasks[k].id == s.tasks[k].id
    ensures Next(s, a).tasks[k].accepted != s.tasks[k].accepted ==>
      && a.Deliver? && s.loop.task == k
      && s.tasks[k].inbox.accepting
      && Next(s, a).tasks[k].accepted == s.tasks[k].accepted + [s.loop.input]
      && (s.loop.expected != "" ==> s.tasks[k].id == s.loop.expected)
  {
    hide Reachable, Possible, Next, LogOk, TasksOk, PlanOk, LoopOk, EarlierOk;
    ReachableIsConsistent(s);
    SteerStep(s, a, k);
  }

  lemma SteerStep(s: Session, a: Action, k: nat)
    requires LoopOk(s.tasks, s.active, s.loop) && Possible(s, a) && !a.Restart? && k < |s.tasks|
    ensures k < |Next(s, a).tasks| && Next(s, a).tasks[k].id == s.tasks[k].id
    ensures Next(s, a).tasks[k].accepted != s.tasks[k].accepted ==>
      && a.Deliver? && s.loop.task == k
      && s.tasks[k].inbox.accepting
      && Next(s, a).tasks[k].accepted == s.tasks[k].accepted + [s.loop.input]
      && (s.loop.expected != "" ==> s.tasks[k].id == s.loop.expected)
  {
    hide Enabled, Advanced, NewTask, Normalized, LoopAfterInput, LoopAfterInterrupt, LoopAfterAbort, LiveStep;
    if a.Turn? && a.task == k {
      AdvancedAccepts(s.tasks[k], Normalized(s.history), a.step);
    }
  }

  lemma AdvancedAccepts(t: Task, prompt: seq<ResponseItem>, a: TurnAction)
    requires Enabled(t, prompt, a)
    ensures var u := Advanced(t, prompt, a);
      u.accepted == t.accepted && u.cancelled == t.cancelled && u.reason == t.reason && u.id == t.id
  {
    hide Records, Moved, Enabled;
    AccountsMove(t, prompt, a);
    StatusStays(t, prompt, a);
  }

  /** Only the loop aborts a turn: the one it found active, which may be over by then, but which
      no other has followed. A request that named a turn aborts no other. */
  lemma InterruptHitsNamedTurn(s: Session, a: Action, k: nat)
    requires Reachable(s) && Possible(s, a) && !a.Restart? && k < |s.tasks|
    ensures k < |Next(s, a).tasks|
    ensures (Next(s, a).tasks[k].cancelled, Next(s, a).tasks[k].reason) != (s.tasks[k].cancelled, s.tasks[k].reason) ==>
      && a.CancelTurn? && s.loop.task == k && (s.active == None || s.active == Some(k))
      && Next(s, a).tasks[k].cancelled && Next(s, a).tasks[k].reason == s.loop.reason
      && (s.loop.expected != "" ==> s.tasks[k].id == s.loop.expected)
  {
    hide Reachable, Possible, Next, LogOk, TasksOk, PlanOk, LoopOk, EarlierOk;
    ReachableIsConsistent(s);
    InterruptStep(s, a, k);
  }

  lemma InterruptStep(s: Session, a: Action, k: nat)
    requires LoopOk(s.tasks, s.active, s.loop) && Possible(s, a) && !a.Restart? && k < |s.tasks|
    ensures k < |Next(s, a).tasks|
    ensures (Next(s, a).tasks[k].cancelled, Next(s, a).tasks[k].reason) != (s.tasks[k].cancelled, s.tasks[k].reason) ==>
      && a.CancelTurn? && s.loop.task == k && (s.active == None || s.active == Some(k))
      && Next(s, a).tasks[k].cancelled && Next(s, a).tasks[k].reason == s.loop.reason
      && (s.loop.expected != "" ==> s.tasks[k].id == s.loop.expected)
  {
    hide Enabled, Advanced, NewTask, Normalized, LoopAfterInput, LoopAfterInterrupt, LoopAfterAbort, LiveStep;
    if a.Turn? && a.task == k {
      AdvancedAccepts(s.tasks[k], Normalized(s.history), a.step);
    }
  }

  // ----- steering -----

  /** Where a turn's block is in a complete log. */
  lemma BlockInLog(s: Session, k: nat)
    requires Reachable(s) && !s.store.failed && Pending(s.tasks) == [] && k < |s.tasks|
    ensures var before := s.book.lead + Flat(s.book.earlier + BlocksOf(s.tasks[..k]));
      && |before| + |s.tasks[k].block| <= |Payloads(s.store.lines)|
      && Payloads(s.store.lines)[|before|..|before| + |s.tasks[k].block|] == s.tasks[k].block
  {
    hide Reachable, Consistent, Payloads, Flat, BlocksOf, LoggedBlocks;
    ReachableIsConsistent(s);
    HealthyLogIsComplete(s);
    var before := Flat(s.book.earlier + BlocksOf(s.tasks[..k]));
    FlatPlan(s.book.earlier, s.tasks[..k + 1]);
    assert s.tasks[..k + 1][..k] == s.tasks[..k];
    var rest := FlatContinues(s.book.earlier, s.tasks, k + 1);
    Window(s.book.lead, before, s.tasks[k].block, rest);
  }

  lemma Window<T>(a: seq<T>, b: seq<T>, c: seq<T>, d: seq<T>)
    ensures (a + ((b + c) + d))[|a + b|..|a + b| + |c|] == c
  {
  }

  lemma {:induction false} FlatContinues(earlier: seq<seq<Payload>>, tasks: seq<Task>, k: nat) returns (rest: seq<Payload>)
    requires k <= |tasks|
    ensures Flat(earlier + BlocksOf(tasks)) == Flat(earlier + BlocksOf(tasks[..k])) + rest
    decreases |tasks|
  {
    hide Flat, BlocksOf;
    if k == |tasks| {
      assert tasks[..k] == tasks;
      rest := [];
      EmptyUnit(Flat(earlier + BlocksOf(tasks)));
    } else {
      var n := |tasks| - 1;
      var some := FlatContinues(earlier, tasks[..n], k);
      assert tasks[..n][..k] == tasks[..k];
      FlatPlan(earlier, tasks);
      rest := some + tasks[n].block;
      Associative(Flat(earlier + BlocksOf(tasks[..k])), some, tasks[n].block);
    }
  }

  /** Every steer input that a turn accepted is in the log once the turn has completed without
      an error: its block holds the user messages of the starting input and of all accepted
      input, each once and in the order of acceptance. */
  lemma AcceptedSteerIsLogged(s: Session, k: nat)
    requires Reachable(s) && !s.store.failed && Pending(s.tasks) == [] && k < |s.tasks|
    requires s.tasks[k].outcome == Some(Outcome.Completed(None))
    ensures var t := s.tasks[k];
      var at := |s.book.lead + Flat(s.book.earlier + BlocksOf(s.tasks[..k]))|;
      && at + |t.block| <= |Payloads(s.store.lines)|
      && var said := Collect(Payloads(s.store.lines)[at..at + |t.block|], UserOf);
      && Interleaves(said, [UserItem(t.initial)] + UserItems(t.accepted), t.echoed)
      && (t.echoed == [] ==> said == [UserItem(t.initial)] + UserItems(t.accepted))
  {
    hide Reachable, Payloads, Flat, BlocksOf, Collect, Interleaves, TurnOk, LogOk, PlanOk, LoopOk, EarlierOk;
    ReachableIsConsistent(s);
    BlockInLog(s, k);
    SteerDelivered(s.tasks[k]);
  }

  /** And there every call it started is completed, in the order the model issued them, each with
      the output its own tool brought. Unless a stream held outputs of its own, calls and outputs
      balance, and at no point are there more outputs for an identifier than calls before. */
  lemma CallsAnsweredInLog(s: Session, k: nat, n: nat)
    requires Reachable(s) && !s.store.failed && Pending(s.tasks) == [] && k < |s.tasks|
    requires s.tasks[k].outcome == Some(Outcome.Completed(None)) && n <= |s.tasks[k].block|
    ensures var t := s.tasks[k];
      var at := |s.book.lead + Flat(s.book.earlier + BlocksOf(s.tasks[..k]))|;
      && at + |t.block| <= |Payloads(s.store.lines)|
      && var block := Payloads(s.store.lines)[at..at + |t.block|];
      && Collect(block, CompletedOf) == Collect(block, StartedOf)
      && |Collect(block, ReplyOf)| == |Collect(block, StartedOf)|
      && (forall i :: 0 <= i < |Collect(block, ReplyOf)| ==> i in t.brought && Collect(block, ReplyOf)[i] == t.brought[i])
      && (!t.foreign ==>
            && multiset(Collect(block, CallIdOf)) == multiset(Collect(block, OutputIdOf))
            && multiset(Collect(block[..n], OutputIdOf)) <= multiset(Collect(block[..n], CallIdOf)))
  {
    hide Reachable, Payloads, Flat, BlocksOf, Collect, Owing, TurnOk, LogOk, PlanOk, LoopOk, EarlierOk;
    ReachableIsConsistent(s);
    BlockInLog(s, k);
    var t := s.tasks[k];
    CallsAnswered(t);
    RepliesCount(t.block);
    forall i | 0 <= i < |Collect(t.block, ReplyOf)|
      ensures i in t.brought && Collect(t.block, ReplyOf)[i] == t.brought[i]
    {
      OutputsAreBrought(t, i);
    }
    if !t.foreign {
      NothingOwedBalances(t.block);
      OutputsFollowCalls(t.block, n);
    }
  }

  /** What a finished tool brings is noted for its own call, which had nothing noted before. */
  lemma ToolBringsOwnOutput(s: Session, k: nat, i: nat, output: string)
    requires Reachable(s) && Possible(s, Turn(k, FinishTool(i, output)))
    ensures var t, u := s.tasks[k], Next(s, Turn(k, FinishTool(i, output))).tasks[k];
      var n := |Collect(t.block, CompletedOf)| + i;
      && i < |t.pc.sample.calls| && n < |Collect(t.block, StartedOf)|
      && Collect(t.block, StartedOf)[n] == (t.pc.sample.calls[i].callId, t.pc.sample.calls[i].name)
      && n !in t.brought && u.brought == t.brought[n := output]
  {
    hide Reachable, LogOk, PlanOk, LoopOk, EarlierOk, UsersOk, Reported, OwingOk, BlockOk, Collect, Normalized;
    ReachableIsConsistent(s);
    var t := s.tasks[k];
    assert TurnOk(t);
    RepliesCount(t.block);
    assert Holds(t.brought, |Collect(t.block, ReplyOf)| + i, t.pc.outputs[i]);
  }

  /** Nothing else changes what is noted. */
  lemma OnlyToolsBring(s: Session, a: Action, k: nat)
    requires Possible(s, a) && !a.Restart? && k < |s.tasks|
    ensures k < |Next(s, a).tasks|
    ensures Next(s, a).tasks[k].brought != s.tasks[k].brought ==> a.Turn? && a.task == k && a.step.FinishTool?
  {
    hide Enabled, Records, Moved, NewTask, Normalized, LoopAfterInput, LoopAfterInterrupt, LoopAfterAbort, LiveStep;
    if a.Turn? && a.task == k {
      SlotsMove(s.tasks[k], Normalized(s.history), a.step);
    }
  }

  /** Once a turn's loop has returned, what it accepted and did not take is lost: over any run
      it takes nothing more and records no further user message. */
  lemma {:induction false} UntakenInputIsLost(s: Session, actions: seq<Action>, k: nat)
    requires k < |s.tasks| && AtEnd(s.tasks[k])
    requires forall i :: 0 <= i < |actions| ==> !actions[i].Restart?
    ensures var after := Run(s, actions);
      && k < |after.tasks| && AtEnd(after.tasks[k])
      && after.tasks[k].taken == s.tasks[k].taken
      && Collect(after.tasks[k].block, UserOf) == Collect(s.tasks[k].block, UserOf)
    decreases |actions|
  {
    hide Possible, Next, AtEnd, Collect;
    if actions != [] {
      if Possible(s, actions[0]) {
        EndStep(s, actions[0], k);
        UntakenInputIsLost(Next(s, actions[0]), actions[1..], k);
      } else {
        UntakenInputIsLost(s, actions[1..], k);
      }
    }
  }

  lemma EndStep(s: Session, a: Action, k: nat)
    requires Possible(s, a) && !a.Restart? && k < |s.tasks| && AtEnd(s.tasks[k])
    ensures k < |Next(s, a).tasks| && AtEnd(Next(s, a).tasks[k])
    ensures Next(s, a).tasks[k].taken == s.tasks[k].taken
    ensures Collect(Next(s, a).tasks[k].block, UserOf) == Collect(s.tasks[k].block, UserOf)
  {
    hide Enabled, Advanced, NewTask, Normalized, LoopAfterInput, LoopAfterInterrupt, LoopAfterAbort, LiveStep, Collect;
    if a.Turn? && a.task == k {
      EndAdvances(s.tasks[k], Normalized(s.history), a.step);
    }
  }

  lemma EndAdvances(t: Task, prompt: seq<ResponseItem>, a: TurnAction)
    requires Enabled(t, prompt, a) && AtEnd(t)
    ensures var u := Advanced(t, prompt, a);
      AtEnd(u) && u.taken == t.taken && Collect(u.block, UserOf) == Collect(t.block, UserOf)
  {
    hide Collect;
    UserRecords(t, prompt, a);
    CollectAppend(t.block, Records(t, prompt, a), UserOf);
    EmptyUnit(Collect(t.block, UserOf));
  }

  /** Input that reaches a turn whose loop has returned is accepted exactly when the loop
      returned with an error; so it is then accepted only to be lost. */
  lemma LateSteerAcceptedIffFailed(s: Session)
    requires Reachable(s) && Possible(s, Deliver) && AtEnd(s.tasks[s.loop.task])
    ensures var k := s.loop.task;
      && (Next(s, Deliver).tasks[k].accepted != s.tasks[k].accepted <==> s.tasks[k].error.Some?)
      && (s.tasks[k].error.Some? ==>
            Next(s, Deliver).tasks[k].accepted == s.tasks[k].accepted + [s.loop.input]
            && Next(s, Deliver).tasks[k].taken == s.tasks[k].taken)
  {
    hide Reachable, LogOk, PlanOk, LoopOk, EarlierOk, UsersOk, CallsOk, BroughtOk, Reported, OwingOk, BlockOk, AtEnd;
    ReachableIsConsistent(s);
    assert TurnOk(s.tasks[s.loop.task]);
    InboxSteered(s.tasks[s.loop.task], s.loop.input);
    assert |s.tasks[s.loop.task].accepted + [s.loop.input]| == |s.tasks[s.loop.task].accepted| + 1;
  }

  // ----- parallel tools -----

  /** The tools of one response finish in the given order. */
  function ToolsFinish(t: Task, order: seq<nat>, results: seq<string>): Task
    requires t.pc.Tools? && |t.pc.outputs| == |results| && forall i :: 0 <= i < |order| ==> order[i] < |results|
    decreases |order|
  {
    if order == [] || !Enabled(t, [], FinishTool(order[0], results[order[0]])) then t
    else
      ToolsFinish(Advanced(t, [], FinishTool(order[0], results[order[0]])), order[1..], results)
  }

  predicate Distinct(order: seq<nat>) {
    forall i, j :: 0 <= i < j < |order| ==> order[i] != order[j]
  }

  lemma {:induction false} ToolsFillSlots(t: Task, order: seq<nat>, results: seq<string>)
    requires t.pc.Tools? && |t.pc.outputs| == |results| && forall i :: 0 <= i < |order| ==> order[i] < |results|
    requires t.queue == [] && Distinct(order) && forall i :: 0 <= i < |order| ==> t.pc.outputs[order[i]].None?
    ensures var u := ToolsFinish(t, order, results);
      u == t.(pc := Tools(t.pc.sample, Finish(t.pc.outputs, order, results)), brought := u.brought)
    decreases |order|
  {
    if order != [] {
      var i := order[0];
      var u := Advanced(t, [], FinishTool(i, results[i]));
      FinishOne(t, i, results[i]);
      assert forall j :: 0 <= j < |order[1..]| ==> order[1..][j] == order[j + 1];
      ToolsFillSlots(u, order[1..], results);
    }
  }

  lemma FinishOne(t: Task, i: nat, output: string)
    requires t.queue == [] && t.pc.Tools? && i < |t.pc.outputs| && t.pc.outputs[i].None?
    ensures var u := Advanced(t, [], FinishTool(i, output));
      u == t.(pc := Tools(t.pc.sample, t.pc.outputs[i := Some(output)]), brought := u.brought)
  {
    hide Noted;
    EmptyUnit(t.block);
  }

  /** In whatever order the tools of a response finish, what the turn then records is the same:
      one output and one report per call, in the order the model issued the calls. */
  lemma ToolOrderIsInvisible(t: Task, order: seq<nat>, results: seq<string>)
    requires t.pc.Tools? && t.queue == [] && |t.pc.sample.calls| == |results|
    requires t.pc.outputs == seq(|results|, i => None)
    requires Distinct(order) && (forall i :: 0 <= i < |order| ==> order[i] < |results|)
    requires forall i: nat :: i < |results| ==> i in order
    ensures var u := ToolsFinish(t, order, results);
      && Enabled(u, [], MergeTools)
      && var records, n := Records(u, [], MergeTools), |results|;
      && 2 * n <= |records|
      && (forall i :: 0 <= i < n ==> RepliedAt(records, t.pc.sample.calls, results, i))
      && records[2 * n..] == (if !t.pc.sample.assistantSeen && t.pc.sample.text != ""
                              then [Item(NewAssistantMessage(t.pc.sample.text))] else [])
  {
    hide OutputRecords, Finish, ToolsFinish;
    ToolsFillSlots(t, order, results);
    SchedulingIsInvisible(t.pc.sample.calls, results, order);
    DropLeft(OutputRecords(t.pc.sample.calls, results), TextRecords(t.pc.sample.text, t.pc.sample.assistantSeen));
    RepliesStay(OutputRecords(t.pc.sample.calls, results), TextRecords(t.pc.sample.text, t.pc.sample.assistantSeen),
                t.pc.sample.calls, results);
  }

  lemma RepliesStay(replies: seq<Payload>, more: seq<Payload>, calls: seq<Call>, results: seq<string>)
    requires |calls| == |results| && |replies| == 2 * |calls|
    requires forall i :: 0 <= i < |calls| ==> RepliedAt(replies, calls, results, i)
    ensures forall i :: 0 <= i < |calls| ==> RepliedAt(replies + more, calls, results, i)
  {
    forall i | 0 <= i < |calls|
      ensures RepliedAt(replies + more, calls, results, i)
    {
      assert RepliedAt(replies, calls, results, i);
    }
  }
}
