/** What each submission makes the loop do, over all runs that follow it. */
module LoopEffects {
  import opened Wrappers
  import opened Protocol
  import opened History
  import opened Text
  import opened Rollout
  import opened RolloutTurns
  import opened TurnTask
  import opened TurnAccounting
  import opened TurnEngine
  import opened SessionInvariant
  import opened SessionTheorems

  predicate NoRestart(actions: seq<Action>) {
    forall i :: 0 <= i < |actions| ==> !actions[i].Restart?
  }

  // ----- what a step does to one turn and to the loop -----

  /** The actions of the loop itself, which it needs its place for. */
  predicate OfLoop(a: Action) {
    a.SubmitInput? || a.SubmitInterrupt? || a.SubmitShutdown? || a.Deliver? || a.Spawn? || a.LookBeforeAbort?
    || a.CancelTurn? || a.AbortedTurnGone?
  }

  /** What others do leaves the loop where it is. */
  lemma LoopWaits(s: Session, a: Action)
    requires Possible(s, a) && !a.Restart? && !OfLoop(a)
    ensures Next(s, a).loop == s.loop && |Next(s, a).tasks| == |s.tasks|
    ensures Next(s, a).active == s.active || Next(s, a).active == None
  {
    hide Enabled, Advanced, Normalized, LiveStep;
  }

  /** A turn goes on only by its own actions; the loop can cancel it, and that is all it can do
      about how it ends. An outcome is never changed, and a turn that is over stays over. */
  lemma TurnGoesOn(s: Session, a: Action, k: nat)
    requires Consistent(s) && Possible(s, a) && !a.Restart? && k < |s.tasks|
    ensures k < |Next(s, a).tasks|
    ensures var t, u := s.tasks[k], Next(s, a).tasks[k];
      && u.id == t.id && u.initial == t.initial
      && (Retired(t) ==> Retired(u)) && (t.pc.Gone? ==> u.pc.Gone?)
      && (t.outcome.Some? ==> u.outcome == t.outcome)
      && (!a.CancelTurn? ==>
          && u.cancelled == t.cancelled && u.reason == t.reason
          && (t.outcome == None && u.outcome.Some? && t.cancelled ==> u.outcome == Some(Aborted(t.reason))))
  {
    hide LogOk, PlanOk, LoopOk, EarlierOk, Enabled, Advanced, Normalized, LiveStep, NewTask, LoopAfterInput,
      LoopAfterInterrupt, LoopAfterAbort, TasksOk, TurnOk;
    if a.Turn? && a.task == k {
      TaskIsOk(s.tasks, s.active, k);
      ActionMoves(s.tasks[k], Normalized(s.history), a.step);
    }
  }

  lemma ActionMoves(t: Task, prompt: seq<ResponseItem>, a: TurnAction)
    requires TurnOk(t) && Enabled(t, prompt, a)
    ensures var u := Advanced(t, prompt, a);
      && u.id == t.id && u.initial == t.initial && u.cancelled == t.cancelled && u.reason == t.reason
      && !Finished(t) && t.outcome == None && !Retired(t)
      && (u.outcome.Some? && t.cancelled ==> u.outcome == Some(Aborted(t.reason)))
  {
    hide InboxOk, UsersOk, CallsOk, BroughtOk, Reported, OwingOk, Block, ClosedBlock, Tells, SlotsOk, Records, Moved;
    AccountsMove(t, prompt, a);
    StatusStays(t, prompt, a);
    OutcomeMoves(t, prompt, a);
  }

  // ----- an abort -----

  /** The loop waits for the turn, or the turn is gone; and the turn is cancelled and has not
      ended, or it has ended as told. */
  predicate AbortPending(s: Session, k: nat, reason: string, after: After, told: Outcome) {
    && k < |s.tasks|
    && var t := s.tasks[k];
       && (s.loop == Aborting(k, after) || t.pc.Gone?)
       && (|| (t.outcome == None && t.cancelled && t.reason == reason && told == Aborted(reason))
           || t.outcome == Some(told))
  }

  lemma AbortStep(s: Session, a: Action, k: nat, reason: string, after: After, told: Outcome)
    requires Consistent(s) && Possible(s, a) && !a.Restart? && AbortPending(s, k, reason, after, told)
    ensures AbortPending(Next(s, a), k, reason, after, told)
  {
    hide Next, Consistent;
    TurnGoesOn(s, a, k);
    if s.tasks[k].outcome == None {
      NotGoneYet(s, k);
    }
    if !OfLoop(a) {
      LoopWaits(s, a);
    }
  }

  lemma NotGoneYet(s: Session, k: nat)
    requires Consistent(s) && k < |s.tasks| && s.tasks[k].outcome == None
    ensures !s.tasks[k].pc.Gone?
  {
    hide LogOk, PlanOk, LoopOk, EarlierOk, InboxOk, UsersOk, CallsOk, BroughtOk, Reported, OwingOk, Block, ClosedBlock,
      Tells;
    assert TurnOk(s.tasks[k]);
  }

  lemma {:induction false} AbortRuns(s: Session, actions: seq<Action>, k: nat, reason: string, after: After, told: Outcome)
    requires Consistent(s) && NoRestart(actions) && AbortPending(s, k, reason, after, told)
    ensures AbortPending(Run(s, actions), k, reason, after, told)
    decreases |actions|
  {
    hide Consistent, Possible, Next, AbortPending;
    if actions != [] {
      if Possible(s, actions[0]) {
        StepConsistent(s, actions[0]);
        AbortStep(s, actions[0], k, reason, after, told);
        AbortRuns(Next(s, actions[0]), actions[1..], k, reason, after, told);
      } else {
        AbortRuns(s, actions[1..], k, reason, after, told);
      }
    }
  }

  lemma OutcomeIsTold(s: Session, k: nat, outcome: Outcome)
    requires Consistent(s) && k < |s.tasks| && s.tasks[k].outcome == Some(outcome)
    ensures var t := s.tasks[k]; ClosedBlock(t.block, t.id) && t.block != [] && Tells(t.block[|t.block| - 1], t.id, outcome)
  {
    hide LogOk, PlanOk, LoopOk, EarlierOk, InboxOk, UsersOk, CallsOk, BroughtOk, Reported, OwingOk, Tells;
    assert TurnOk(s.tasks[k]);
  }

  /** What aborting a turn brings about, over all runs: the loop waits until the turn is gone. If
      the turn had not ended before, it ends as aborted, for the reason of the abort, and its block
      is closed by an event that says so; if it had, it keeps the outcome it had. */
  lemma AbortTakesEffect(s: Session, actions: seq<Action>)
    requires Reachable(s) && Possible(s, CancelTurn) && NoRestart(actions)
    ensures var k, u := s.loop.task, Run(Next(s, CancelTurn), actions);
      && k < |u.tasks|
      && var before, t := s.tasks[k].outcome, u.tasks[k];
         && (u.loop == Aborting(k, s.loop.after) || t.pc.Gone?)
         && (t.pc.Gone? ==> t.outcome.Some?)
         && (t.outcome.Some? ==>
              && t.outcome == (if before.Some? then before else Some(Aborted(s.loop.reason)))
              && ClosedBlock(t.block, t.id) && t.block != []
              && Tells(t.block[|t.block| - 1], t.id, t.outcome.value))
  {
    hide Consistent, Reachable, Run, ClosedBlock, Tells;
    ReachableIsConsistent(s);
    StepConsistent(s, CancelTurn);
    var k, reason, after, u := s.loop.task, s.loop.reason, s.loop.after, Run(Next(s, CancelTurn), actions);
    var told := if s.tasks[k].outcome.Some? then s.tasks[k].outcome.value else Aborted(reason);
    AbortRuns(Next(s, CancelTurn), actions, k, reason, after, told);
    RunConsistent(Next(s, CancelTurn), actions);
    if u.tasks[k].outcome.Some? {
      OutcomeIsTold(u, k, told);
    } else {
      NotGoneYet(u, k);
    }
  }

  // ----- an interrupt -----

  /** The loop is on its way to abort turn `k`, or waits for it; or the turn is over. */
  predicate InterruptPending(s: Session, k: nat, expected: string, reason: string, after: After) {
    && k < |s.tasks|
    && (|| Retired(s.tasks[k])
        || s.loop == Interrupting(expected, reason, after)
        || s.loop == Cancelling(k, expected, reason, after)
        || (s.loop == Aborting(k, after) && s.tasks[k].cancelled))
    && (s.loop == Aborting(k, after) ==> s.tasks[k].outcome.Some? || s.tasks[k].reason == reason)
  }

  lemma InterruptStepOn(s: Session, a: Action, k: nat, expected: string, reason: string, after: After)
    requires Consistent(s) && Possible(s, a) && !a.Restart?
    requires InterruptPending(s, k, expected, reason, after) && !Retired(s.tasks[k])
    ensures InterruptPending(Next(s, a), k, expected, reason, after)
  {
    hide Next, Consistent;
    TurnGoesOn(s, a, k);
    RunningIsActive(s, k);
    if OfLoop(a) {
      LoopTowardsAbort(s, a, k, expected, reason, after);
    } else {
      LoopWaits(s, a);
    }
  }

  lemma RunningIsActive(s: Session, k: nat)
    requires Consistent(s) && k < |s.tasks| && !Retired(s.tasks[k])
    ensures s.active == Some(k)
  {
    hide LogOk, PlanOk, LoopOk, EarlierOk, TasksOk;
    RunningIsNewest(s.tasks, s.active, k);
  }

  lemma LoopTowardsAbort(s: Session, a: Action, k: nat, expected: string, reason: string, after: After)
    requires Possible(s, a) && OfLoop(a) && k < |s.tasks| && s.active == Some(k) && !s.tasks[k].pc.Gone?
    requires || s.loop == Interrupting(expected, reason, after)
             || s.loop == Cancelling(k, expected, reason, after)
             || s.loop == Aborting(k, after)
    ensures var next := Next(s, a);
      || (s.loop.Interrupting? && next.loop == Cancelling(k, expected, reason, after))
      || (s.loop.Cancelling? && a.CancelTurn? && next.loop == Aborting(k, after)
          && next.tasks == s.tasks[k := Cancelled(s.tasks[k], reason)])
  {
  }

  lemma {:induction false} InterruptRuns(s: Session, actions: seq<Action>, k: nat, expected: string, reason: string, after: After)
    requires Consistent(s) && NoRestart(actions) && k < |s.tasks|
    requires Retired(s.tasks[k]) || InterruptPending(s, k, expected, reason, after)
    ensures var u := Run(s, actions);
      k < |u.tasks| && (Retired(u.tasks[k]) || InterruptPending(u, k, expected, reason, after))
    decreases |actions|
  {
    hide Consistent, Possible, Next, InterruptPending, Retired;
    if actions != [] {
      var a := actions[0];
      if Possible(s, a) {
        StepConsistent(s, a);
        TurnGoesOn(s, a, k);
        if !Retired(s.tasks[k]) {
          InterruptStepOn(s, a, k, expected, reason, after);
        }
        InterruptRuns(Next(s, a), actions[1..], k, expected, reason, after);
      } else {
        InterruptRuns(s, actions[1..], k, expected, reason, after);
      }
    }
  }

  /** An interrupt that names the active turn, or none, is carried through: over all runs the loop
      does nothing else, and takes no other submission, before that turn is over. */
  lemma InterruptIsCarriedThrough(s: Session, expected: string, k: nat, actions: seq<Action>)
    requires Reachable(s) && s.loop.Idle? && s.active == Some(k) && NoRestart(actions)
    requires k < |s.tasks| && (expected == "" || s.tasks[k].id == expected)
    ensures var u := Run(Next(s, SubmitInterrupt(expected)), actions);
      && k < |u.tasks|
      && (|| Retired(u.tasks[k])
          || u.loop == Interrupting(expected, "interrupted", ThenIdle)
          || u.loop == Cancelling(k, expected, "interrupted", ThenIdle)
          || (u.loop == Aborting(k, ThenIdle) && u.tasks[k].cancelled
              && (u.tasks[k].outcome == None ==> u.tasks[k].reason == "interrupted")))
  {
    hide Consistent, Reachable, Run, Retired;
    ReachableIsConsistent(s);
    StepConsistent(s, SubmitInterrupt(expected));
    InterruptRuns(Next(s, SubmitInterrupt(expected)), actions, k, expected, "interrupted", ThenIdle);
  }

  /** An interrupt that names another turn changes nothing, and one that names none changes
      nothing once the loop has looked and found no turn. */
  lemma InterruptWithoutTurn(s: Session, expected: string)
    requires Reachable(s) && s.loop.Idle?
    ensures Next(s, SubmitInterrupt(expected)) == s <==>
      expected != "" && (s.active.Some? ==> s.active.value >= |s.tasks| || s.tasks[s.active.value].id != expected)
    ensures s.active == None && expected == "" ==>
      Possible(Next(s, SubmitInterrupt(expected)), LookBeforeAbort)
      && Next(Next(s, SubmitInterrupt(expected)), LookBeforeAbort) == s
  {
    hide Reachable;
  }

  /** The loop is on its way to stop, or has stopped. */
  predicate Stopping(loop: Loop) {
    || (loop.Interrupting? && loop.reason == "shutdown" && loop.after == ThenStop)
    || (loop.Cancelling? && loop.reason == "shutdown" && loop.after == ThenStop)
    || (loop.Aborting? && loop.after == ThenStop)
    || loop.Stopped?
  }

  lemma StoppingStep(s: Session, a: Action)
    requires Possible(s, a) && !a.Restart? && Stopping(s.loop)
    ensures Stopping(Next(s, a).loop)
  {
    if !OfLoop(a) {
      LoopWaits(s, a);
    }
  }

  lemma {:induction false} StoppingRuns(s: Session, actions: seq<Action>)
    requires NoRestart(actions) && Stopping(s.loop)
    ensures Stopping(Run(s, actions).loop)
    decreases |actions|
  {
    hide Possible, Next, Stopping;
    if actions != [] {
      if Possible(s, actions[0]) {
        StoppingStep(s, actions[0]);
        StoppingRuns(Next(s, actions[0]), actions[1..]);
      } else {
        StoppingRuns(s, actions[1..]);
      }
    }
  }

  /** A shutdown is final: in no run after it does the loop take another submission. */
  lemma ShutdownIsFinal(s: Session, actions: seq<Action>, a: Action)
    requires s.loop.Idle? && NoRestart(actions) && (a.SubmitInput? || a.SubmitInterrupt? || a.SubmitShutdown?)
    ensures Stopping(Run(Next(s, SubmitShutdown), actions).loop)
    ensures !Possible(Run(Next(s, SubmitShutdown), actions), a)
  {
    hide Run;
    StoppingRuns(Next(s, SubmitShutdown), actions);
  }

  // ----- input -----

  /** Input is refused, and changes nothing, exactly if it says nothing and shows nothing, or
      names a turn that is not the active one. */
  lemma InputRefusedIff(s: Session, id: string, input: TurnInput, expected: string)
    requires Reachable(s) && s.loop.Idle?
    ensures Next(s, SubmitInput(id, input, expected)) == s <==>
      || (Blank(input.text) && input.imageUrls == [])
      || (expected != "" && (s.active.Some? ==> s.active.value >= |s.tasks| || s.tasks[s.active.value].id != expected))
  {
    hide Reachable, Blank;
  }

  /** Input for the active turn is kept for it until it is delivered: nothing but the delivery
      moves the loop, and the delivery hands it to that turn, at the end of what waits there, if
      the turn still accepts input. */
  lemma SteerIsDelivered(s: Session, id: string, input: TurnInput, expected: string, k: nat, actions: seq<Action>)
    requires Reachable(s) && s.loop.Idle? && s.active == Some(k) && k < |s.tasks|
    requires (!Blank(input.text) || input.imageUrls != []) && (expected == "" || s.tasks[k].id == expected)
    requires NoRestart(actions) && forall i :: 0 <= i < |actions| ==> !actions[i].Deliver?
    ensures var u := Run(Next(s, SubmitInput(id, input, expected)), actions);
      && u.loop == Steering(k, expected, input) && k < |u.tasks| && Possible(u, Deliver)
      && var t, next := u.tasks[k], Next(u, Deliver);
      && next == u.(tasks := u.tasks[k := next.tasks[k]], loop := Idle)
      && next.tasks[k] == (if t.inbox.accepting
           then t.(inbox := Inbox(t.inbox.pending + [input], true), accepted := t.accepted + [input]) else t)
  {
    hide Reachable, Blank, Run;
    SteeringStays(Next(s, SubmitInput(id, input, expected)), actions);
  }

  lemma {:induction false} SteeringStays(s: Session, actions: seq<Action>)
    requires s.loop.Steering? && s.loop.task < |s.tasks|
    requires NoRestart(actions) && forall i :: 0 <= i < |actions| ==> !actions[i].Deliver?
    ensures Run(s, actions).loop == s.loop && |Run(s, actions).tasks| == |s.tasks|
    decreases |actions|
  {
    hide Next;
    if actions != [] {
      if Possible(s, actions[0]) {
        LoopWaits(s, actions[0]);
        SteeringStays(Next(s, actions[0]), actions[1..]);
      } else {
        SteeringStays(s, actions[1..]);
      }
    }
  }

  /** The loop is on its way to start a turn as number `n`, or has started it. */
  predicate StartPending(s: Session, n: nat, id: string, input: TurnInput) {
    || (|s.tasks| == n && s.active == None
        && (s.loop == Interrupting("", "replaced", ThenStart(id, input)) || s.loop == Spawning(id, input)))
    || (|s.tasks| > n && s.tasks[n].id == id && s.tasks[n].initial == input)
  }

  lemma StartStep(s: Session, a: Action, n: nat, id: string, input: TurnInput)
    requires Consistent(s) && Possible(s, a) && !a.Restart? && StartPending(s, n, id, input)
    ensures StartPending(Next(s, a), n, id, input)
  {
    hide Consistent;
    if n < |s.tasks| {
      hide Next;
      TurnGoesOn(s, a, n);
    } else if OfLoop(a) {
      StartLoopStep(s, a, n, id, input);
    } else {
      LoopWaits(s, a);
    }
  }

  lemma StartLoopStep(s: Session, a: Action, n: nat, id: string, input: TurnInput)
    requires Possible(s, a) && OfLoop(a) && |s.tasks| == n && StartPending(s, n, id, input)
    ensures StartPending(Next(s, a), n, id, input)
  {
    hide InputPayloads;
  }

  lemma {:induction false} StartRuns(s: Session, actions: seq<Action>, n: nat, id: string, input: TurnInput)
    requires Consistent(s) && NoRestart(actions) && StartPending(s, n, id, input)
    ensures StartPending(Run(s, actions), n, id, input)
    decreases |actions|
  {
    hide Consistent, Possible, Next, StartPending;
    if actions != [] {
      if Possible(s, actions[0]) {
        StepConsistent(s, actions[0]);
        StartStep(s, actions[0], n, id, input);
        StartRuns(Next(s, actions[0]), actions[1..], n, id, input);
      } else {
        StartRuns(s, actions[1..], n, id, input);
      }
    }
  }

  /** Input that finds no active turn starts one: over all runs the loop does nothing else before
      the next turn of the process is the one with its identifier and the input. */
  lemma InputStartsTurn(s: Session, id: string, input: TurnInput, actions: seq<Action>)
    requires Reachable(s) && s.loop.Idle? && s.active == None && NoRestart(actions)
    requires !Blank(input.text) || input.imageUrls != []
    ensures var n, u := |s.tasks|, Run(Next(s, SubmitInput(id, input, "")), actions);
      || (|u.tasks| == n && u.active == None
          && (u.loop == Interrupting("", "replaced", ThenStart(id, input)) || u.loop == Spawning(id, input)))
      || (|u.tasks| > n && u.tasks[n].id == id && u.tasks[n].initial == input)
  {
    hide Consistent, Reachable, Run, Blank;
    ReachableIsConsistent(s);
    StepConsistent(s, SubmitInput(id, input, ""));
    StartRuns(Next(s, SubmitInput(id, input, "")), actions, |s.tasks|, id, input);
  }
}
