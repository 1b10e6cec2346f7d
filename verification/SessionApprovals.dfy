/** The session and its approval desk together: tools of a running turn ask, and the submission
    loop delivers decisions between its other work. */
module SessionApprovals {
  import opened Wrappers
  import opened Rollout
  import opened TurnAccounting
  import opened TurnEngine
  import opened SessionInvariant
  import Approvals

  /** `owners` keeps, for every request, the identifier of the turn whose tool made it. */
  datatype Joined = Joined(session: Session, desk: Approvals.Desk, owners: seq<string>)

  datatype JoinedStep =
    | OfSession(action: Action)
    | AskFrom(task: nat, callId: string)
    | OfDesk(step: Approvals.Step)

  predicate LoopActs(a: Action) {
    !a.Turn? && !a.Flush? && !a.Clear? && !a.Close? && !a.Restart?
  }

  /** The loop does one thing at a time: it takes a decision when idle, and sends it before it
      goes on. */
  predicate CanHappen(j: Joined, step: JoinedStep) {
    match step
    case OfSession(a) => Possible(j.session, a) && (LoopActs(a) ==> j.desk.delivering == None)
    case AskFrom(k, callId) =>
      && k < |j.session.tasks| && j.session.tasks[k].pc.Tools?
      && callId in Ids(j.session.tasks[k].pc.sample.calls)
    case OfDesk(s) => !s.Ask? && Approvals.Possible(j.desk, s) && (s.Submit? ==> j.session.loop.Idle?)
  }

  /** A request names the turn that is active when it is made; a new process starts without
      requests. */
  function After(j: Joined, step: JoinedStep): Joined
    requires CanHappen(j, step)
  {
    match step
    case OfSession(a) =>
      if a.Restart? then Joined(Next(j.session, a), Approvals.EMPTY, [])
      else j.(session := Next(j.session, a))
    case AskFrom(k, callId) =>
      j.(desk := Approvals.Next(j.desk, Approvals.Ask(callId, ActiveId(j.session))),
         owners := j.owners + [j.session.tasks[k].id])
    case OfDesk(s) => j.(desk := Approvals.Next(j.desk, s))
  }

  function JoinedRun(j: Joined, steps: seq<JoinedStep>): Joined
    decreases |steps|
  {
    if steps == [] then j
    else JoinedRun(if CanHappen(j, steps[0]) then After(j, steps[0]) else j, steps[1..])
  }

  /** Every request names the turn whose tool made it. */
  ghost predicate Sound(j: Joined) {
    && Consistent(j.session)
    && Approvals.Safe(j.desk)
    && |j.owners| == |j.desk.requests|
    && forall i :: 0 <= i < |j.owners| ==> j.desk.requests[i].turnId == j.owners[i]
  }

  lemma ToolsAreActive(s: Session, k: nat)
    requires Consistent(s) && k < |s.tasks| && s.tasks[k].pc.Tools?
    ensures ActiveId(s) == s.tasks[k].id
  {
    hide LogOk, PlanOk, LoopOk, EarlierOk, TasksOk;
    RunningIsNewest(s.tasks, s.active, k);
  }

  lemma DeskKeepsTurns(d: Approvals.Desk, step: Approvals.Step)
    requires Approvals.Possible(d, step)
    ensures var e := Approvals.Next(d, step);
      && |d.requests| <= |e.requests|
      && (forall i :: 0 <= i < |d.requests| ==> e.requests[i].turnId == d.requests[i].turnId)
      && (!step.Ask? ==> |e.requests| == |d.requests|)
  {
  }

  lemma EmptyDeskIsSafe()
    ensures Approvals.Safe(Approvals.EMPTY)
  {
  }

  lemma SoundStep(j: Joined, step: JoinedStep)
    requires Sound(j) && CanHappen(j, step)
    ensures Sound(After(j, step))
  {
    hide Consistent, Approvals.Safe, Possible, Next, Approvals.Possible, ActiveId;
    match step
    case OfSession(a) =>
      StepConsistent(j.session, a);
      EmptyDeskIsSafe();
    case AskFrom(k, callId) =>
      var ask := Approvals.Ask(callId, ActiveId(j.session));
      AskingIsPossible(j.desk, ask);
      ToolsAreActive(j.session, k);
      Approvals.SafeStep(j.desk, ask);
      DeskKeepsTurns(j.desk, ask);
    case OfDesk(s) =>
      Approvals.SafeStep(j.desk, s);
      DeskKeepsTurns(j.desk, s);
  }

  lemma AskingIsPossible(d: Approvals.Desk, ask: Approvals.Step)
    requires ask.Ask?
    ensures Approvals.Possible(d, ask)
    ensures Approvals.Next(d, ask).requests
         == d.requests + [Approvals.Request(ask.callId, ask.turnId, Approvals.Registering, None, None)]
  {
  }

  lemma {:induction false} SoundRun(j: Joined, steps: seq<JoinedStep>)
    requires Sound(j)
    ensures Sound(JoinedRun(j, steps))
    decreases |steps|
  {
    hide Sound, CanHappen, After;
    if steps != [] {
      if CanHappen(j, steps[0]) {
        SoundStep(j, steps[0]);
        SoundRun(After(j, steps[0]), steps[1..]);
      } else {
        SoundRun(j, steps[1..]);
      }
    }
  }

  /** In all runs of the whole, from any readable log: a tool call that received a decision got
      one submitted with its own call identifier and with the identifier of the very turn it
      runs in, and nobody else got that submission. */
  lemma DecisionsReachTheirTurn(lines: seq<Line>, cwd: string, time: int, size: nat, ok: bool,
                                steps: seq<JoinedStep>, i: nat, n: nat)
    requires Opened(lines).Some?
    requires var j := JoinedRun(Joined(Booted(Opened(lines).value, cwd, time, size, ok), Approvals.EMPTY, []), steps);
      i < |j.desk.requests| && j.desk.requests[i].received == Some(n)
    ensures var j := JoinedRun(Joined(Booted(Opened(lines).value, cwd, time, size, ok), Approvals.EMPTY, []), steps);
      && n < |j.desk.submitted| && i < |j.owners|
      && j.desk.submitted[n].callId == j.desk.requests[i].callId
      && j.desk.submitted[n].turnId == j.owners[i]
      && forall k: nat :: k < |j.desk.requests| && j.desk.requests[k].received == Some(n) ==> k == i
  {
    hide JoinedRun, Consistent, Booted, Opened;
    var start := Joined(Booted(Opened(lines).value, cwd, time, size, ok), Approvals.EMPTY, []);
    BootConsistent(lines, cwd, time, size, ok);
    EmptyDeskIsSafe();
    SoundRun(start, steps);
    var j := JoinedRun(start, steps);
    assert Approvals.Holds(j.desk.requests[i], n);
    assert Approvals.Meant(j.desk, i, n);
    assert forall k: nat :: k < |j.desk.requests| && j.desk.requests[k].received == Some(n) ==> Approvals.Holds(j.desk.requests[k], n);
  }
}
