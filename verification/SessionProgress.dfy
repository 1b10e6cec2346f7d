/** Nothing in a session gets stuck: a turn can always go on until it is over, and the loop can
    always be shut down. */
module SessionProgress {
  import opened Wrappers
  import opened Protocol
  import opened History
  import opened Rollout
  import opened RolloutTurns
  import opened TurnTask
  import opened TurnAccounting
  import opened TurnEngine
  import opened SessionInvariant
  import opened SessionTheorems

  // ----- one turn -----

  const NO_COMPLETION := Completion(None, None, 0, 0, None, "")

  /** Something a running turn can do when its records are made. */
  function WayOut(t: Task): TurnAction
    requires !Finished(t) && SlotsOk(t.pc)
  {
    match t.pc
    case LoopTop => SkipCompact
    case BeforeSample => BeginSampling
    case Sampling(_) => StreamFails("")
    case Tools(_, outputs) => if AllDone(outputs) then MergeTools else FinishTool(FirstUndone(outputs), "")
    case Taking(_) => Take(_ => None)
    case _ => End(NO_COMPLETION)
  }

  function FirstUndone(outputs: seq<Option<string>>): (i: nat)
    requires !AllDone(outputs)
    ensures i < |outputs| && outputs[i].None?
  {
    if outputs[0].None? then 0
    else
      assert !AllDone(outputs[1..]) by {
        var i :| 0 <= i < |outputs| && outputs[i].None?;
        assert outputs[1..][i - 1].None?;
      }
      1 + FirstUndone(outputs[1..])
  }

  /** Whatever the history, a turn that is not over and has nothing left to record can act: no
      guard of an action ever holds it up. */
  lemma TurnNeverStuck(t: Task, prompt: seq<ResponseItem>)
    requires TurnOk(t) && t.queue == [] && !Finished(t)
    ensures Enabled(t, prompt, WayOut(t))
  {
    hide InboxOk, UsersOk, CallsOk, BroughtOk, Reported, OwingOk, BlockOk;
  }

  function Rank(pc: Pc): nat {
    match pc
    case Gone => 0
    case Cleared => 1
    case Ended => 2
    case Finishing => 3
    case Sampling(_) => 4
    case BeforeSample => 5
    case LoopTop => 6
    case Taking(_) => 7
    case Tools(_, _) => 8
  }

  function Missing(outputs: seq<Option<string>>): nat {
    if outputs == [] then 0 else (if outputs[0].None? then 1 else 0) + Missing(outputs[1..])
  }

  function Undone(pc: Pc): nat {
    if pc.Tools? then Missing(pc.outputs) else 0
  }

  lemma {:induction false} OneLessMissing(outputs: seq<Option<string>>, i: nat, output: string)
    requires i < |outputs| && outputs[i].None?
    ensures Missing(outputs[i := Some(output)]) < Missing(outputs)
  {
    if i > 0 {
      assert outputs[i := Some(output)][1..] == outputs[1..][i - 1 := Some(output)];
      OneLessMissing(outputs[1..], i - 1, output);
    } else {
      assert outputs[0 := Some(output)][1..] == outputs[1..];
    }
  }

  lemma WayOutLeadsOn(t: Task, prompt: seq<ResponseItem>)
    requires TurnOk(t) && t.queue == [] && !Finished(t) && Enabled(t, prompt, WayOut(t))
    ensures var u := Advanced(t, prompt, WayOut(t));
      Rank(u.pc) < Rank(t.pc) || (Rank(u.pc) == Rank(t.pc) && Undone(u.pc) < Undone(t.pc))
  {
    hide InboxOk, UsersOk, CallsOk, BroughtOk, Reported, OwingOk, BlockOk, Records;
    if t.pc.Tools? && !AllDone(t.pc.outputs) {
      OneLessMissing(t.pc.outputs, FirstUndone(t.pc.outputs), "");
    }
  }

  /** What brings turn `k` further: its next record, its next action, or its departure. */
  function Onwards(s: Session, k: nat): Action
    requires k < |s.tasks| && SlotsOk(s.tasks[k].pc)
  {
    var t := s.tasks[k];
    if t.queue != [] then Flush(k, 0, 0, true)
    else if t.pc.Ended? then Clear(k)
    else if Finished(t) then Close(k)
    else Turn(k, WayOut(t))
  }

  lemma OnwardsWorks(s: Session, k: nat)
    requires k < |s.tasks| && TurnOk(s.tasks[k]) && !s.tasks[k].pc.Gone?
    ensures Possible(s, Onwards(s, k))
    ensures var t, u := s.tasks[k], Next(s, Onwards(s, k));
      && |u.tasks| == |s.tasks| && u.loop == s.loop
      && (|| Rank(u.tasks[k].pc) < Rank(t.pc)
          || (Rank(u.tasks[k].pc) == Rank(t.pc) && Undone(u.tasks[k].pc) < Undone(t.pc))
          || (u.tasks[k].pc == t.pc && |u.tasks[k].queue| < |t.queue|))
  {
    hide InboxOk, UsersOk, CallsOk, BroughtOk, Reported, OwingOk, Block, ClosedBlock, Tells, Advanced, Enabled, LiveStep, Appended,
      Undone, Normalized;
    var t := s.tasks[k];
    if t.queue == [] && !Finished(t) {
      TurnNeverStuck(t, Normalized(s.history));
      WayOutLeadsOn(t, Normalized(s.history));
    }
  }

  predicate NoRestart(actions: seq<Action>) {
    forall i :: 0 <= i < |actions| ==> !actions[i].Restart?
  }

  lemma RunFirst(s: Session, a: Action, rest: seq<Action>)
    requires Possible(s, a)
    ensures Run(s, [a] + rest) == Run(Next(s, a), rest)
  {
    hide Possible, Next;
    assert ([a] + rest)[1..] == rest;
  }

  /** From any consistent state a turn can come to its end, without the loop doing anything. */
  lemma TurnCanEnd(s: Session, k: nat) returns (actions: seq<Action>)
    requires Consistent(s) && k < |s.tasks|
    ensures NoRestart(actions)
    ensures var u := Run(s, actions);
      Consistent(u) && |u.tasks| == |s.tasks| && u.tasks[k].pc.Gone? && u.loop == s.loop
    decreases Rank(s.tasks[k].pc), Undone(s.tasks[k].pc), |s.tasks[k].queue|
  {
    hide Consistent, Possible, Next, Rank, Undone, Onwards, TurnOk;
    TaskOkIn(s, k);
    if s.tasks[k].pc.Gone? {
      actions := [];
    } else {
      var a := Onwards(s, k);
      OnwardsWorks(s, k);
      OnwardsStays(s, k);
      StepConsistent(s, a);
      var rest := TurnCanEnd(Next(s, a), k);
      RunFirst(s, a, rest);
      actions := [a] + rest;
    }
  }

  lemma TaskOkIn(s: Session, k: nat)
    requires Consistent(s) && k < |s.tasks|
    ensures TurnOk(s.tasks[k]) && SlotsOk(s.tasks[k].pc)
  {
    hide LogOk, PlanOk, LoopOk, EarlierOk, InboxOk, UsersOk, CallsOk, BroughtOk, Reported, OwingOk, BlockOk, Retired;
  }

  lemma OnwardsStays(s: Session, k: nat)
    requires k < |s.tasks| && SlotsOk(s.tasks[k].pc)
    ensures !Onwards(s, k).Restart?
  {
  }

  // ----- the loop -----

  function AfterRank(after: After): nat {
    match after
    case ThenStop => 0
    case ThenIdle => 4
    case ThenStart(_, _) => 5
  }

  function LoopRank(loop: Loop): nat {
    match loop
    case Stopped => 0
    case Idle => 4
    case Steering(_, _, _) => 5
    case Spawning(_, _) => 5
    case Aborting(_, after) => AfterRank(after) + 1
    case Cancelling(_, _, _, after) => AfterRank(after) + 2
    case Interrupting(_, _, after) => AfterRank(after) + 3
  }

  /** What brings the loop nearer to its end, when it does not have to wait for a turn. */
  function LoopOnwards(loop: Loop): Action {
    match loop
    case Steering(_, _, _) => Deliver
    case Spawning(_, _) => Spawn(0, None)
    case Interrupting(_, _, _) => LookBeforeAbort
    case Cancelling(_, _, _, _) => CancelTurn
    case Aborting(_, _) => AbortedTurnGone
    case _ => SubmitShutdown
  }

  lemma LoopGoesOn(s: Session)
    requires TasksOk(s.tasks, s.active) && LoopOk(s.tasks, s.active, s.loop) && !s.loop.Stopped?
    requires s.loop.Aborting? ==> s.tasks[s.loop.task].pc.Gone?
    ensures Possible(s, LoopOnwards(s.loop)) && LoopRank(Next(s, LoopOnwards(s.loop)).loop) < LoopRank(s.loop)
  {
    hide TurnOk, Retired, Steered, Cancelled, NewTask;
    ActiveIsATask(s.tasks, s.active);
  }

  lemma LoopParts(s: Session)
    requires Consistent(s)
    ensures TasksOk(s.tasks, s.active) && LoopOk(s.tasks, s.active, s.loop)
    ensures s.loop.Aborting? ==> s.loop.task < |s.tasks|
  {
    hide LogOk, TasksOk, PlanOk, EarlierOk;
  }

  lemma LoopCanStop(s: Session) returns (actions: seq<Action>)
    requires Consistent(s)
    ensures NoRestart(actions) && Run(s, actions).loop.Stopped?
    decreases LoopRank(s.loop)
  {
    hide Consistent, Possible, Next, LoopRank, LoopOnwards, TasksOk, LoopOk;
    LoopParts(s);
    if s.loop.Stopped? {
      actions := [];
    } else {
      var wait := [];
      var ready := s;
      if s.loop.Aborting? {
        wait := TurnCanEnd(s, s.loop.task);
        ready := Run(s, wait);
        LoopParts(ready);
      } else {
        assert Run(s, []) == s;
      }
      var a := LoopOnwards(ready.loop);
      LoopGoesOn(ready);
      LoopStays(ready.loop);
      StepConsistent(ready, a);
      var rest := LoopCanStop(Next(ready, a));
      RunFirst(ready, a, rest);
      RunInParts(s, wait, [a] + rest);
      actions := wait + ([a] + rest);
    }
  }

  lemma LoopStays(loop: Loop)
    ensures !LoopOnwards(loop).Restart?
  {
  }

  /** From every reachable state, whatever the loop and the turns are in the middle of, some run
      of the process shuts it down: no wait of the loop and no guard of a turn is for ever. */
  lemma ShutdownCanFinish(s: Session)
    requires Reachable(s)
    ensures exists actions :: NoRestart(actions) && Run(s, actions).loop.Stopped?
  {
    hide Reachable, Consistent, Run;
    ReachableIsConsistent(s);
    var actions := LoopCanStop(s);
  }
}
