/** Asking a client for approval: tool calls wait on one-slot channels that the submission loop
    finds through a shared table. */
module Approvals {
  import opened Wrappers

  datatype Response = Response(callId: string, turnId: string, decision: string)

  datatype Stage = Registering | Waiting | Leaving | Left

  /** One waiting tool call. Decisions are named by their place among all submitted ones: the
      one in the channel's slot, and the one that was received. */
  datatype Request = Request(callId: string, turnId: string, stage: Stage, slot: Option<nat>, received: Option<nat>)

  /** The requests so far, the table from call identifiers to them, what was submitted so far,
      and the request that the loop is about to send the newest submission to. */
  datatype Desk = Desk(
    requests: seq<Request>,
    approvals: map<string, nat>,
    submitted: seq<Response>,
    delivering: Option<nat>)

  datatype Step =
    | Ask(callId: string, turnId: string)
    | Register(i: nat)
    | Submit(response: Response)
    | Send
    | Receive(i: nat)
    | Cancel(i: nat)
    | Leave(i: nat)

  predicate Possible(d: Desk, step: Step) {
    match step
    case Ask(_, _) => true
    case Register(i) => i < |d.requests| && d.requests[i].stage.Registering?
    case Submit(_) => d.delivering == None
    case Send => d.delivering.Some? && d.delivering.value < |d.requests| && d.submitted != []
    case Receive(i) => i < |d.requests| && d.requests[i].stage.Waiting? && d.requests[i].slot.Some?
    case Cancel(i) => i < |d.requests| && d.requests[i].stage.Waiting?
    case Leave(i) => i < |d.requests| && d.requests[i].stage.Leaving?
  }

  /** Whom a submitted decision is meant for, by the table. */
  function Addressee(d: Desk, response: Response): Option<nat> {
    if response.callId in d.approvals
       && d.approvals[response.callId] < |d.requests|
       && d.requests[d.approvals[response.callId]].turnId == response.turnId
    then Some(d.approvals[response.callId])
    else None
  }

  function Next(d: Desk, step: Step): Desk
    requires Possible(d, step)
  {
    match step
    case Ask(callId, turnId) => d.(requests := d.requests + [Request(callId, turnId, Registering, None, None)])
    case Register(i) =>
      d.(approvals := d.approvals[d.requests[i].callId := i],
         requests := d.requests[i := d.requests[i].(stage := Waiting)])
    case Submit(response) => d.(submitted := d.submitted + [response], delivering := Addressee(d, response))
    case Send =>
      var i := d.delivering.value;
      var request := d.requests[i];
      d.(delivering := None,
         requests := if request.slot == None then d.requests[i := request.(slot := Some(|d.submitted| - 1))] else d.requests)
    case Receive(i) =>
      d.(requests := d.requests[i := d.requests[i].(stage := Leaving, slot := None, received := d.requests[i].slot)])
    case Cancel(i) => d.(requests := d.requests[i := d.requests[i].(stage := Leaving)])
    case Leave(i) =>
      d.(approvals := d.approvals - {d.requests[i].callId},
         requests := d.requests[i := d.requests[i].(stage := Left)])
  }

  function Run(d: Desk, steps: seq<Step>): Desk
    decreases |steps|
  {
    if steps == [] then d
    else Run(if Possible(d, steps[0]) then Next(d, steps[0]) else d, steps[1..])
  }

  const EMPTY := Desk([], map[], [], None)

  // ----- safety -----

  predicate Meant(d: Desk, i: nat, n: nat)
    requires i < |d.requests|
  {
    && n < |d.submitted|
    && d.submitted[n].callId == d.requests[i].callId
    && d.submitted[n].turnId == d.requests[i].turnId
  }

  predicate Holds(request: Request, n: nat) {
    request.slot == Some(n) || request.received == Some(n)
  }

  /** Only decisions submitted with its own call and turn reach a request, and no decision
      reaches two requests, or one request twice. */
  ghost predicate Safe(d: Desk) {
    && (forall id :: id in d.approvals ==> d.approvals[id] < |d.requests| && d.requests[d.approvals[id]].callId == id)
    && (forall i: nat, n: nat :: i < |d.requests| && Holds(d.requests[i], n) ==> Meant(d, i, n))
    && (d.delivering.Some? ==> d.delivering.value < |d.requests| && d.submitted != [] && Meant(d, d.delivering.value, |d.submitted| - 1))
    && (d.delivering.Some? ==> forall i: nat :: i < |d.requests| ==> !Holds(d.requests[i], |d.submitted| - 1))
    && (forall i: nat, j: nat, n: nat :: i < |d.requests| && j < |d.requests| && Holds(d.requests[i], n) && Holds(d.requests[j], n) ==> i == j)
    && (forall i: nat :: i < |d.requests| && d.requests[i].received.Some? ==>
          d.requests[i].slot != d.requests[i].received && (d.requests[i].stage.Leaving? || d.requests[i].stage.Left?))
  }

  lemma SafeStep(d: Desk, step: Step)
    requires Safe(d) && Possible(d, step)
    ensures Safe(Next(d, step))
  {
    var e := Next(d, step);
    match step
    case Ask(callId, turnId) =>
      assert forall i: nat :: i < |d.requests| ==> e.requests[i] == d.requests[i];
    case Register(i) => RequestMoves(d, e, i);
    case Submit(response) => SubmitSafe(d, response);
    case Send =>
      SendSafe(d);
    case Receive(i) => RequestMoves(d, e, i);
    case Cancel(i) => RequestMoves(d, e, i);
    case Leave(i) => RequestMoves(d, e, i);
  }

  /** A step that changes one request and gives it no new decision. */
  lemma RequestMoves(d: Desk, e: Desk, i: nat)
    requires Safe(d) && i < |d.requests| && |e.requests| == |d.requests|
    requires e.submitted == d.submitted && e.delivering == d.delivering
    requires forall k: nat :: k < |d.requests| && k != i ==> e.requests[k] == d.requests[k]
    requires forall n: nat :: Holds(e.requests[i], n) ==> Holds(d.requests[i], n)
    requires e.requests[i].callId == d.requests[i].callId && e.requests[i].turnId == d.requests[i].turnId
    requires e.requests[i].received.Some? ==>
      e.requests[i].slot != e.requests[i].received && (e.requests[i].stage.Leaving? || e.requests[i].stage.Left?)
    requires forall id :: id in e.approvals ==> (id in d.approvals && e.approvals[id] == d.approvals[id]) || (e.approvals[id] == i && id == d.requests[i].callId)
    ensures Safe(e)
  {
    forall k: nat, n: nat | k < |e.requests| && Holds(e.requests[k], n)
      ensures Holds(d.requests[k], n) && Meant(e, k, n)
    {
      assert Holds(d.requests[k], n);
      assert Meant(d, k, n);
    }
  }

  lemma SubmitSafe(d: Desk, response: Response)
    requires Safe(d) && Possible(d, Submit(response))
    ensures Safe(Next(d, Submit(response)))
  {
    var e := Next(d, Submit(response));
    forall k: nat, n: nat | k < |e.requests| && Holds(e.requests[k], n)
      ensures Meant(e, k, n) && n < |d.submitted|
    {
      assert Holds(d.requests[k], n);
      assert Meant(d, k, n);
    }
  }

  lemma SendSafe(d: Desk)
    requires Safe(d) && Possible(d, Send)
    ensures Safe(Next(d, Send))
  {
    var i, n := d.delivering.value, |d.submitted| - 1;
    var e := Next(d, Send);
    if d.requests[i].slot == None {
      forall k: nat, m: nat | k < |e.requests| && Holds(e.requests[k], m)
        ensures Meant(e, k, m) && (m == n ==> k == i) && (m != n ==> Holds(d.requests[k], m))
      {
        if !Holds(d.requests[k], m) {
          assert k == i && m == n;
          assert Meant(d, i, n);
        } else {
          assert Meant(d, k, m);
        }
      }
      assert !Holds(d.requests[i], n);
      assert d.requests[i].received != Some(n);
    }
  }

  lemma {:induction false} RunSafe(d: Desk, steps: seq<Step>)
    requires Safe(d)
    ensures Safe(Run(d, steps))
    decreases |steps|
  {
    hide Safe, Possible, Next;
    if steps != [] {
      if Possible(d, steps[0]) {
        SafeStep(d, steps[0]);
        RunSafe(Next(d, steps[0]), steps[1..]);
      } else {
        RunSafe(d, steps[1..]);
      }
    }
  }

  /** In every run, whatever call identifiers are in use: a request that has received a decision
      received one submitted with its own call and turn, and no other request received that
      submission. */
  lemma DecisionsReachTheirCall(steps: seq<Step>, i: nat, n: nat)
    requires var d := Run(EMPTY, steps); i < |d.requests| && d.requests[i].received == Some(n)
    ensures var d := Run(EMPTY, steps);
      && n < |d.submitted|
      && d.submitted[n].callId == d.requests[i].callId && d.submitted[n].turnId == d.requests[i].turnId
      && forall j: nat :: j < |d.requests| && d.requests[j].received == Some(n) ==> j == i
  {
    hide Run;
    assert Safe(EMPTY);
    RunSafe(EMPTY, steps);
    var d := Run(EMPTY, steps);
    assert Holds(d.requests[i], n);
    assert Meant(d, i, n);
    assert forall j: nat :: j < |d.requests| && d.requests[j].received == Some(n) ==> Holds(d.requests[j], n);
  }

  // ----- at most once -----

  /** What a request has received stays what it received, over any run. */
  lemma {:induction false} ReceivedOnce(d: Desk, steps: seq<Step>, i: nat)
    requires Safe(d) && i < |d.requests| && d.requests[i].received.Some?
    ensures i < |Run(d, steps).requests| && Run(d, steps).requests[i].received == d.requests[i].received
    decreases |steps|
  {
    if steps != [] {
      if Possible(d, steps[0]) {
        SafeStep(d, steps[0]);
        var e := Next(d, steps[0]);
        assert d.requests[i].stage.Leaving? || d.requests[i].stage.Left?;
        assert e.requests[i].received == d.requests[i].received;
        hide Safe, Possible, Next;
        ReceivedOnce(e, steps[1..], i);
      } else {
        ReceivedOnce(d, steps[1..], i);
      }
    }
  }

  // ----- which requests can be answered -----

  predicate Registered(d: Desk, i: nat) {
    i < |d.requests| && d.requests[i].callId in d.approvals && d.approvals[d.requests[i].callId] == i
  }

  /** A decision submitted for a waiting request that is in the table, and whose slot is free,
      is the one it receives. */
  lemma RegisteredIsAnswered(d: Desk, i: nat, decision: string)
    requires Registered(d, i) && d.requests[i].stage.Waiting? && d.requests[i].slot == None && d.delivering == None
    ensures var response := Response(d.requests[i].callId, d.requests[i].turnId, decision);
      var e := Run(d, [Submit(response), Send, Receive(i)]);
      && i < |e.requests| && e.requests[i].received == Some(|d.submitted|)
      && e.submitted == d.submitted + [response]
      && e.delivering == None
  {
    var response := Response(d.requests[i].callId, d.requests[i].turnId, decision);
    var steps := [Submit(response), Send, Receive(i)];
    assert steps[1..] == [Send, Receive(i)];
    assert steps[1..][1..] == [Receive(i)];
    assert steps[1..][1..][1..] == [];
    var d1 := Next(d, steps[0]);
    assert Addressee(d, response) == Some(i);
    var d2 := Next(d1, Send);
    assert d2.requests[i] == d.requests[i].(slot := Some(|d.submitted|));
    var d3 := Next(d2, Receive(i));
    assert Run(d2, [Receive(i)]) == d3;
    assert Run(d1, [Send, Receive(i)]) == d3;
  }

  /** Submission `n` is on its way to a request that waits for it, or was received by it. */
  predicate Comes(d: Desk, i: nat, n: nat) {
    i < |d.requests| &&
    var request := d.requests[i];
    || request.received == Some(n)
    || (&& request.stage.Waiting? && request.received == None
        && (request.slot == Some(n) || (request.slot == None && d.delivering == Some(i) && |d.submitted| == n + 1)))
  }

  /** The request was cancelled before it received a decision. */
  predicate GaveUp(d: Desk, i: nat) {
    i < |d.requests| && d.requests[i].received == None && (d.requests[i].stage.Leaving? || d.requests[i].stage.Left?)
  }

  lemma ComingStep(d: Desk, step: Step, i: nat, n: nat)
    requires Safe(d) && Possible(d, step) && (Comes(d, i, n) || GaveUp(d, i))
    ensures Comes(Next(d, step), i, n) || GaveUp(Next(d, step), i)
  {
  }

  lemma {:induction false} ComingRun(d: Desk, steps: seq<Step>, i: nat, n: nat)
    requires Safe(d) && (Comes(d, i, n) || GaveUp(d, i))
    ensures Comes(Run(d, steps), i, n) || GaveUp(Run(d, steps), i)
    decreases |steps|
  {
    hide Safe, Possible, Next, Comes, GaveUp;
    if steps != [] {
      if Possible(d, steps[0]) {
        SafeStep(d, steps[0]);
        ComingStep(d, steps[0], i, n);
        ComingRun(Next(d, steps[0]), steps[1..], i, n);
      } else {
        ComingRun(d, steps[1..], i, n);
      }
    }
  }

  /** A decision submitted for a waiting request that is in the table, and whose slot is free,
      is the one that the request receives, whatever else happens and in whatever order, unless
      the request is cancelled first. */
  lemma SubmittedDecisionArrives(d: Desk, i: nat, decision: string, steps: seq<Step>)
    requires Safe(d) && Registered(d, i) && d.requests[i].stage.Waiting? && d.requests[i].slot == None && d.delivering == None
    ensures var e := Run(Next(d, Submit(Response(d.requests[i].callId, d.requests[i].turnId, decision))), steps);
      && (Comes(e, i, |d.submitted|) || GaveUp(e, i))
      && (e.requests[i].received.Some? ==> e.requests[i].received == Some(|d.submitted|))
  {
    hide Run;
    var submit := Submit(Response(d.requests[i].callId, d.requests[i].turnId, decision));
    SafeStep(d, submit);
    assert Comes(Next(d, submit), i, |d.submitted|);
    ComingRun(Next(d, submit), steps, i, |d.submitted|);
  }

  /** A request that waits without being in the table, with nothing on its way to it. */
  predicate Orphaned(d: Desk, i: nat) {
    && i < |d.requests|
    && !d.requests[i].stage.Registering?
    && !Registered(d, i)
    && d.requests[i].slot == None && d.requests[i].received == None
    && d.delivering != Some(i)
  }

  /** It never receives a decision, in any run. */
  lemma {:induction false} OrphanIsNeverAnswered(d: Desk, steps: seq<Step>, i: nat)
    requires Safe(d) && Orphaned(d, i)
    ensures Orphaned(Run(d, steps), i)
    decreases |steps|
  {
    if steps != [] {
      if Possible(d, steps[0]) {
        SafeStep(d, steps[0]);
        OrphanStep(d, steps[0], i);
        hide Safe, Possible, Next, Orphaned;
        OrphanIsNeverAnswered(Next(d, steps[0]), steps[1..], i);
      } else {
        OrphanIsNeverAnswered(d, steps[1..], i);
      }
    }
  }

  lemma OrphanStep(d: Desk, step: Step, i: nat)
    requires Safe(d) && Orphaned(d, i) && Possible(d, step)
    ensures Orphaned(Next(d, step), i)
  {
  }

  /** A request that waits is orphaned exactly when no run ever brings it a decision. */
  lemma AnswerableIff(d: Desk, i: nat)
    requires Safe(d) && i < |d.requests| && d.requests[i].stage.Waiting?
    ensures !Orphaned(d, i) <==>
      exists steps: seq<Step> :: i < |Run(d, steps).requests| && Run(d, steps).requests[i].received.Some?
  {
    if Orphaned(d, i) {
      forall steps: seq<Step>
        ensures i < |Run(d, steps).requests| && Run(d, steps).requests[i].received == None
      {
        OrphanIsNeverAnswered(d, steps, i);
      }
    } else {
      var steps := RunThatAnswers(d, i);
      assert Run(d, steps).requests[i].received.Some?;
    }
  }

  lemma RunThatAnswers(d: Desk, i: nat) returns (steps: seq<Step>)
    requires Safe(d) && i < |d.requests| && d.requests[i].stage.Waiting? && !Orphaned(d, i)
    ensures i < |Run(d, steps).requests| && Run(d, steps).requests[i].received.Some?
  {
    if d.requests[i].slot.Some? {
      steps := [Receive(i)];
      RunOne(d, Receive(i));
    } else if d.delivering == Some(i) {
      steps := [Send, Receive(i)];
      RunTwo(d, Send, Receive(i));
    } else {
      var e, before := d, [];
      if d.delivering.Some? {
        e, before := Next(d, Send), [Send];
        RunOne(d, Send);
      } else {
        assert Run(d, []) == d;
      }
      RegisteredIsAnswered(e, i, "");
      var response := Response(e.requests[i].callId, e.requests[i].turnId, "");
      steps := before + [Submit(response), Send, Receive(i)];
      RunInParts(d, before, [Submit(response), Send, Receive(i)]);
    }
  }

  lemma RunOne(d: Desk, step: Step)
    requires Possible(d, step)
    ensures Run(d, [step]) == Next(d, step)
  {
    assert [step][1..] == [];
  }

  lemma RunTwo(d: Desk, one: Step, two: Step)
    requires Possible(d, one) && Possible(Next(d, one), two)
    ensures Run(d, [one, two]) == Next(Next(d, one), two)
  {
    assert [one, two][1..] == [two];
    RunOne(Next(d, one), two);
  }

  lemma {:induction false} RunInParts(d: Desk, a: seq<Step>, b: seq<Step>)
    ensures Run(d, a + b) == Run(Run(d, a), b)
    decreases |a|
  {
    if a == [] {
      assert a + b == b;
    } else {
      assert (a + b)[1..] == a[1..] + b;
      RunInParts(if Possible(d, a[0]) then Next(d, a[0]) else d, a[1..], b);
    }
  }

  // ----- requests for the same call -----

  predicate Open(request: Request) {
    request.stage.Waiting? || request.stage.Leaving?
  }

  predicate AllRegistered(d: Desk) {
    forall i: nat :: i < |d.requests| && Open(d.requests[i]) ==> Registered(d, i)
  }

  /** No other open request is about the same call. */
  predicate NoRival(d: Desk, i: nat) {
    i < |d.requests| && forall j: nat :: j < |d.requests| && j != i && Open(d.requests[j]) ==>
      d.requests[j].callId != d.requests[i].callId
  }

  /** A step keeps all open requests in the table exactly when it does not register a request
      for a call that an open one is already about. */
  lemma StepKeepsRegisteredIff(d: Desk, step: Step)
    requires Safe(d) && AllRegistered(d) && Possible(d, step)
    ensures AllRegistered(Next(d, step)) <==> (step.Register? ==> NoRival(d, step.i))
  {
    var e := Next(d, step);
    if step.Register? {
      RegisterKeepsIff(d, step.i);
    } else if step.Leave? {
      forall j: nat | j < |e.requests| && Open(e.requests[j])
        ensures Registered(e, j)
      {
        assert Registered(d, j) && Registered(d, step.i);
      }
    } else {
      forall j: nat | j < |e.requests| && Open(e.requests[j])
        ensures Registered(e, j)
      {
        assert Open(d.requests[j]);
      }
    }
  }

  lemma RegisterKeepsIff(d: Desk, i: nat)
    requires Safe(d) && AllRegistered(d) && Possible(d, Register(i))
    ensures AllRegistered(Next(d, Register(i))) <==> NoRival(d, i)
  {
    var e := Next(d, Register(i));
    if j: nat :| j < |d.requests| && j != i && Open(d.requests[j]) && d.requests[j].callId == d.requests[i].callId {
      assert Open(e.requests[j]) && !Registered(e, j);
    } else {
      forall j: nat | j < |e.requests| && Open(e.requests[j])
        ensures Registered(e, j)
      {
        assert j != i ==> Registered(d, j);
      }
    }
  }

  /** All open requests are in the table throughout a run. */
  predicate AlwaysRegistered(d: Desk, steps: seq<Step>)
    decreases |steps|
  {
    AllRegistered(d) && (steps != [] ==>
      AlwaysRegistered(if Possible(d, steps[0]) then Next(d, steps[0]) else d, steps[1..]))
  }

  /** In a run no request is registered while one for the same call is open. */
  predicate NeverRivals(d: Desk, steps: seq<Step>)
    decreases |steps|
  {
    steps != [] ==>
      && (Possible(d, steps[0]) && steps[0].Register? ==> NoRival(d, steps[0].i))
      && NeverRivals(if Possible(d, steps[0]) then Next(d, steps[0]) else d, steps[1..])
  }

  lemma {:induction false} RunKeepsRegisteredIff(d: Desk, steps: seq<Step>)
    requires Safe(d) && AllRegistered(d)
    ensures AlwaysRegistered(d, steps) <==> NeverRivals(d, steps)
    decreases |steps|
  {
    hide Safe, AllRegistered, Possible, Next, NoRival;
    if steps != [] {
      if Possible(d, steps[0]) {
        var e := Next(d, steps[0]);
        SafeStep(d, steps[0]);
        StepKeepsRegisteredIff(d, steps[0]);
        if AllRegistered(e) {
          RunKeepsRegisteredIff(e, steps[1..]);
        }
      } else {
        RunKeepsRegisteredIff(d, steps[1..]);
      }
    }
  }

  /** From the start, then: in a run all open requests stay in the table exactly when it never
      registers a request for a call that an open one is about. */
  lemma EveryRequestStaysInTableIff(steps: seq<Step>)
    ensures AlwaysRegistered(EMPTY, steps) <==> NeverRivals(EMPTY, steps)
  {
    RunKeepsRegisteredIff(EMPTY, steps);
  }

  // ----- requests that can still be answered -----

  /** No waiting request is orphaned. */
  predicate NoneStranded(d: Desk) {
    forall j: nat :: j < |d.requests| && d.requests[j].stage.Waiting? ==> !Orphaned(d, j)
  }

  predicate OnItsWay(d: Desk, j: nat)
    requires j < |d.requests|
  {
    d.requests[j].slot.Some? || d.delivering == Some(j)
  }

  /** Every other request that waits about the same call has a decision on its way. */
  predicate OthersProvided(d: Desk, i: nat) {
    i < |d.requests| && forall j: nat ::
      (j < |d.requests| && j != i && d.requests[j].stage.Waiting? && d.requests[j].callId == d.requests[i].callId) ==>
        OnItsWay(d, j)
  }

  /** The steps that overwrite or delete an entry of the table. */
  predicate TouchesTable(step: Step) {
    step.Register? || step.Leave?
  }

  /** A step strands no request exactly when, if it overwrites or deletes an entry of the table,
      all other requests waiting about that call have a decision on its way. */
  lemma StepStrandsNoneIff(d: Desk, step: Step)
    requires Safe(d) && NoneStranded(d) && Possible(d, step)
    ensures NoneStranded(Next(d, step)) <==> (TouchesTable(step) ==> OthersProvided(d, step.i))
  {
    var e := Next(d, step);
    if TouchesTable(step) {
      TableStepStrandsNoneIff(d, step);
    } else {
      forall j: nat | j < |e.requests| && e.requests[j].stage.Waiting?
        ensures !Orphaned(e, j)
      {
        assert j < |d.requests| && d.requests[j].stage.Waiting?;
        assert !Orphaned(d, j);
      }
    }
  }

  lemma TableStepStrandsNoneIff(d: Desk, step: Step)
    requires Safe(d) && NoneStranded(d) && Possible(d, step) && TouchesTable(step)
    ensures NoneStranded(Next(d, step)) <==> OthersProvided(d, step.i)
  {
    var i, e := step.i, Next(d, step);
    forall j: nat | j < |d.requests| && j != i && d.requests[j].stage.Waiting?
      ensures Orphaned(e, j) <==> d.requests[j].callId == d.requests[i].callId && !OnItsWay(d, j)
    {
      assert !Orphaned(d, j) && e.requests[j] == d.requests[j];
    }
    assert !(e.requests[i].stage.Waiting? && Orphaned(e, i));
    if !OthersProvided(d, i) {
      var j: nat :| j < |d.requests| && j != i && d.requests[j].stage.Waiting?
                    && d.requests[j].callId == d.requests[i].callId && !OnItsWay(d, j);
      assert e.requests[j].stage.Waiting? && Orphaned(e, j);
    }
  }

  /** No request is stranded throughout a run. */
  predicate NeverStranded(d: Desk, steps: seq<Step>)
    decreases |steps|
  {
    NoneStranded(d) && (steps != [] ==>
      NeverStranded(if Possible(d, steps[0]) then Next(d, steps[0]) else d, steps[1..]))
  }

  /** Throughout a run entries are only overwritten or deleted when that strands nobody. */
  predicate AlwaysProvided(d: Desk, steps: seq<Step>)
    decreases |steps|
  {
    steps != [] ==>
      && (Possible(d, steps[0]) && TouchesTable(steps[0]) ==> OthersProvided(d, steps[0].i))
      && AlwaysProvided(if Possible(d, steps[0]) then Next(d, steps[0]) else d, steps[1..])
  }

  lemma {:induction false} RunStrandsNoneIff(d: Desk, steps: seq<Step>)
    requires Safe(d) && NoneStranded(d)
    ensures NeverStranded(d, steps) <==> AlwaysProvided(d, steps)
    decreases |steps|
  {
    hide Safe, NoneStranded, Possible, Next, OthersProvided, TouchesTable;
    if steps != [] {
      if Possible(d, steps[0]) {
        var e := Next(d, steps[0]);
        SafeStep(d, steps[0]);
        StepStrandsNoneIff(d, steps[0]);
        if NoneStranded(e) {
          RunStrandsNoneIff(e, steps[1..]);
        }
      } else {
        RunStrandsNoneIff(d, steps[1..]);
      }
    }
  }

  /** From the start: every waiting request stays answerable throughout a run exactly when no
      entry is overwritten or deleted while another request waits about the same call with no
      decision on its way. */
  lemma EveryRequestStaysAnswerableIff(steps: seq<Step>)
    ensures NeverStranded(EMPTY, steps) <==> AlwaysProvided(EMPTY, steps)
  {
    RunStrandsNoneIff(EMPTY, steps);
  }

  /** A run from one desk to another that strands nobody. */
  predicate Leads(d: Desk, steps: seq<Step>, e: Desk) {
    Run(d, steps) == e && AlwaysProvided(d, steps)
  }

  lemma LeadsOne(d: Desk, step: Step)
    requires Possible(d, step) && (TouchesTable(step) ==> OthersProvided(d, step.i))
    ensures Leads(d, [step], Next(d, step))
  {
    hide OthersProvided, Possible, Next;
    assert [step][1..] == [] && [step][0] == step;
    assert AlwaysProvided(Next(d, step), []) && Run(Next(d, step), []) == Next(d, step);
    assert AlwaysProvided(d, [step]);
  }

  lemma {:induction false} LeadsFurther(d: Desk, a: seq<Step>, e: Desk, b: seq<Step>, f: Desk)
    requires Leads(d, a, e) && Leads(e, b, f)
    ensures Leads(d, a + b, f)
    decreases |a|
  {
    hide OthersProvided, Possible, Next;
    if a == [] {
      assert a + b == b;
    } else {
      assert (a + b)[1..] == a[1..] + b;
      LeadsFurther(if Possible(d, a[0]) then Next(d, a[0]) else d, a[1..], e, b, f);
    }
  }

  const YES := Response("c", "t", "yes")

  const WAITS := Request("c", "t", Waiting, None, None)

  /** One request is asked, registered and decided, but has not received its decision. */
  lemma FirstIsDecided()
    ensures Leads(EMPTY, [Ask("c", "t"), Register(0)] + [Submit(YES), Send],
                  Desk([WAITS.(slot := Some(0))], map["c" := 0], [YES], None))
  {
    var d1 := Next(EMPTY, Ask("c", "t"));
    assert d1.requests == [WAITS.(stage := Registering)];
    var d2 := Next(d1, Register(0));
    assert d2 == Desk([WAITS], map["c" := 0], [], None);
    var d3 := Next(d2, Submit(YES));
    assert d3 == Desk([WAITS], map["c" := 0], [YES], Some(0));
    LeadsOne(EMPTY, Ask("c", "t"));
    LeadsOne(d1, Register(0));
    LeadsFurther(EMPTY, [Ask("c", "t")], d1, [Register(0)], d2);
    LeadsOne(d2, Submit(YES));
    LeadsOne(d3, Send);
    LeadsFurther(d2, [Submit(YES)], d3, [Send], Next(d3, Send));
    LeadsFurther(EMPTY, [Ask("c", "t"), Register(0)], d2, [Submit(YES), Send], Next(d3, Send));
    assert [Ask("c", "t")] + [Register(0)] == [Ask("c", "t"), Register(0)];
    assert [Submit(YES)] + [Send] == [Submit(YES), Send];
    assert Next(d3, Send).requests == [WAITS.(slot := Some(0))];
  }

  /** Then a second one is registered for the same call. */
  lemma SecondOverwrites()
    ensures var d := Desk([WAITS.(slot := Some(0))], map["c" := 0], [YES], None);
      && Leads(d, [Ask("c", "t"), Register(1)], Desk([WAITS.(slot := Some(0)), WAITS], map["c" := 1], [YES], None))
      && !NoRival(Next(d, Ask("c", "t")), 1)
  {
    var d := Desk([WAITS.(slot := Some(0))], map["c" := 0], [YES], None);
    var d1 := Next(d, Ask("c", "t"));
    assert d1.requests == [WAITS.(slot := Some(0)), WAITS.(stage := Registering)];
    var d2 := Next(d1, Register(1));
    assert d2.requests == [WAITS.(slot := Some(0)), WAITS] && d2.approvals == map["c" := 1];
    LeadsOne(d, Ask("c", "t"));
    assert OthersProvided(d1, 1) by {
      assert d1.requests[0].slot.Some?;
    }
    LeadsOne(d1, Register(1));
    LeadsFurther(d, [Ask("c", "t")], d1, [Register(1)], d2);
    assert [Ask("c", "t")] + [Register(1)] == [Ask("c", "t"), Register(1)];
    assert Open(d1.requests[0]) && d1.requests[0].callId == d1.requests[1].callId;
  }

  /** Both receive their decisions. */
  lemma BothReceive()
    ensures Leads(Desk([WAITS.(slot := Some(0)), WAITS], map["c" := 1], [YES], None),
                  [Receive(0), Submit(YES)] + [Send, Receive(1)],
                  Desk([WAITS.(stage := Leaving, received := Some(0)), WAITS.(stage := Leaving, received := Some(1))],
                       map["c" := 1], [YES, YES], None))
  {
    var left := WAITS.(stage := Leaving, received := Some(0));
    var d := Desk([WAITS.(slot := Some(0)), WAITS], map["c" := 1], [YES], None);
    var d1, d2 := Next(d, Receive(0)), Next(Next(d, Receive(0)), Submit(YES));
    assert d1.requests == [left, WAITS];
    assert d2 == Desk([left, WAITS], map["c" := 1], [YES, YES], Some(1));
    var d3 := Next(d2, Send);
    assert d3.requests == [left, WAITS.(slot := Some(1))];
    assert Next(d3, Receive(1)).requests == [left, WAITS.(stage := Leaving, received := Some(1))];
    LeadsOne(d, Receive(0));
    LeadsOne(d1, Submit(YES));
    LeadsFurther(d, [Receive(0)], d1, [Submit(YES)], d2);
    LeadsOne(d2, Send);
    LeadsOne(d3, Receive(1));
    LeadsFurther(d2, [Send], d3, [Receive(1)], Next(d3, Receive(1)));
    assert [Receive(0)] + [Submit(YES)] == [Receive(0), Submit(YES)] && [Send] + [Receive(1)] == [Send, Receive(1)];
    LeadsFurther(d, [Receive(0), Submit(YES)], d2, [Send, Receive(1)], Next(d3, Receive(1)));
  }

  lemma {:induction false} RivalsLater(d: Desk, a: seq<Step>, b: seq<Step>)
    ensures NeverRivals(d, a + b) ==> NeverRivals(Run(d, a), b)
    decreases |a|
  {
    hide NoRival, Possible, Next;
    if a == [] {
      assert a + b == b;
    } else {
      assert (a + b)[1..] == a[1..] + b;
      RivalsLater(if Possible(d, a[0]) then Next(d, a[0]) else d, a[1..], b);
    }
  }

  /** Being in the table is more than is needed: a run that overwrites an entry, strands nobody,
      and brings both requests for one call a decision. */
  lemma RivalsCanBothBeAnswered()
    ensures var first := [Ask("c", "t"), Register(0)] + [Submit(YES), Send];
      var second := [Ask("c", "t"), Register(1)];
      var steps := first + (second + ([Receive(0), Submit(YES)] + [Send, Receive(1)]));
      && !NeverRivals(EMPTY, steps) && NeverStranded(EMPTY, steps)
      && |Run(EMPTY, steps).requests| == 2
      && Run(EMPTY, steps).requests[0].received == Some(0) && Run(EMPTY, steps).requests[1].received == Some(1)
  {
    hide Run, AlwaysProvided, NoRival;
    var first, second := [Ask("c", "t"), Register(0)] + [Submit(YES), Send], [Ask("c", "t"), Register(1)];
    var third := [Receive(0), Submit(YES)] + [Send, Receive(1)];
    var d := Desk([WAITS.(slot := Some(0))], map["c" := 0], [YES], None);
    var e := Desk([WAITS.(slot := Some(0)), WAITS], map["c" := 1], [YES], None);
    var f := Run(e, third);
    FirstIsDecided();
    SecondOverwrites();
    BothReceive();
    LeadsFurther(d, second, e, third, f);
    LeadsFurther(EMPTY, first, d, second + third, f);
    EveryRequestStaysAnswerableIff(first + (second + third));
    RivalsLater(EMPTY, first, second + third);
    assert (second + third)[0] == Ask("c", "t") && (second + third)[1..][0] == Register(1);
    assert !NeverRivals(d, second + third);
  }

  /** A second request for the same call orphans the first. */
  lemma SharedCallOrphans(d: Desk, i: nat, j: nat)
    requires i < |d.requests| && j < |d.requests| && i != j
    requires d.requests[i].callId == d.requests[j].callId
    requires d.requests[i].stage.Waiting? && d.requests[i].slot == None && d.requests[i].received == None && d.delivering == None
    requires d.requests[j].stage.Registering?
    ensures Orphaned(Next(d, Register(j)), i)
  {
  }

  /** And the first one takes the second one's entry along when it leaves. */
  lemma LeavingOrphans(d: Desk, i: nat, j: nat)
    requires i < |d.requests| && j < |d.requests| && i != j
    requires d.requests[i].callId == d.requests[j].callId && d.requests[i].stage.Leaving?
    requires d.requests[j].stage.Waiting? && d.requests[j].slot == None && d.requests[j].received == None
    requires d.delivering != Some(j)
    ensures Orphaned(Next(d, Leave(i)), j)
  {
  }

  const TWICE := [Ask("c", "t"), Ask("c", "t"), Register(0), Register(1)]

  lemma TwoForOneCall()
    ensures var waiting := Request("c", "t", Waiting, None, None);
      Run(EMPTY, TWICE) == Desk([waiting, waiting], map["c" := 1], [], None)
  {
    var a, b := Request("c", "t", Registering, None, None), Request("c", "t", Waiting, None, None);
    var d2 := Desk([a, a], map[], [], None);
    assert Next(Next(EMPTY, Ask("c", "t")), Ask("c", "t")).requests == d2.requests;
    var d3 := Next(d2, Register(0));
    assert d3.requests == [b, a];
    assert Next(d3, Register(1)).requests == [b, b] && Next(d3, Register(1)).approvals == map["c" := 1];
    RunTwo(EMPTY, Ask("c", "t"), Ask("c", "t"));
    RunTwo(d2, Register(0), Register(1));
    RunInParts(EMPTY, [Ask("c", "t"), Ask("c", "t")], [Register(0), Register(1)]);
    assert [Ask("c", "t"), Ask("c", "t")] + [Register(0), Register(1)] == TWICE;
  }

  /** The shortest such run: two requests for one call orphan the first, which takes the second
      along when it gives up. */
  lemma BothCanBeOrphaned()
    ensures Orphaned(Run(EMPTY, TWICE), 0) && !Orphaned(Run(EMPTY, TWICE), 1)
    ensures Orphaned(Run(EMPTY, TWICE + [Cancel(0), Leave(0)]), 1)
  {
    hide Run;
    TwoForOneCall();
    var d := Run(EMPTY, TWICE);
    RunTwo(d, Cancel(0), Leave(0));
    RunInParts(EMPTY, TWICE, [Cancel(0), Leave(0)]);
  }
}
