/** A run in which steer input is accepted only to be lost. */
module LostSteer {
  import opened Seqs
  import opened Wrappers
  import opened Protocol
  import opened History
  import opened Text
  import opened Rollout
  import opened TurnTask
  import opened TurnAccounting
  import opened TurnEngine
  import opened SessionTheorems

  const FIRST := TurnInput("go", [])
  const STEER := TurnInput("wait", [])

  /** A turn starts on a new log, samples the model, and is steered; before the input gets
      there, the model's stream fails. */
  const UNTIL_DELIVERY: seq<Action> :=
    [SubmitInput("t", FIRST, ""), LookBeforeAbort, Spawn(0, None)] + (THREE + LAST)

  const THREE: seq<Action> := [Flush(0, 0, 0, true), Flush(0, 0, 0, true), Flush(0, 0, 0, true)]

  const LAST: seq<Action> :=
    [Turn(0, SkipCompact), Turn(0, BeginSampling), SubmitInput("u", STEER, ""), Turn(0, StreamFails("down"))]

  function Log(): Session {
    Booted(Store([], 0, false), "", 0, 0, true)
  }

  lemma RunOne(s: Session, a: Action)
    requires Possible(s, a)
    ensures Run(s, [a]) == Next(s, a)
  {
    hide Next, Possible;
    assert [a][1..] == [];
  }

  lemma RunThree(s: Session, a: Action, b: Action, c: Action)
    requires Possible(s, a) && Possible(Next(s, a), b) && Possible(Next(Next(s, a), b), c)
    ensures Run(s, [a, b, c]) == Next(Next(Next(s, a), b), c)
  {
    hide Next, Possible;
    assert [a, b, c][1..] == [b, c] && [b, c][1..] == [c];
    RunOne(Next(Next(s, a), b), c);
  }

  function Opening(): Task {
    NewTask("t", 0, FIRST, None)
  }

  lemma InputStarts(s: Session)
    requires s.active == None && s.loop == Idle
    ensures Possible(s, SubmitInput("t", FIRST, ""))
    ensures Next(s, SubmitInput("t", FIRST, "")) == s.(loop := Interrupting("", "replaced", ThenStart("t", FIRST)))
  {
    hide ValidInput;
    InputsAreValid();
  }

  lemma NothingToAbort(s: Session)
    requires s.active == None && s.loop == Interrupting("", "replaced", ThenStart("t", FIRST))
    ensures Possible(s, LookBeforeAbort)
    ensures Next(s, LookBeforeAbort) == s.(loop := Spawning("t", FIRST))
  {
  }

  lemma SpawnsFirst(s: Session)
    requires s.tasks == [] && s.loop == Spawning("t", FIRST)
    ensures Possible(s, Spawn(0, None))
    ensures Next(s, Spawn(0, None)) == s.(tasks := [Opening()], active := Some(0), loop := Idle)
  {
    hide NewTask;
    EmptyUnit([Opening()]);
  }

  /** The turn is started. */
  lemma Starts()
    ensures var s := Run(Log(), UNTIL_DELIVERY[..3]);
      s.tasks == [Opening()] && s.active == Some(0) && s.loop == Idle && s.history == []
  {
    hide Next, Possible, Run, Opening, Log;
    var s0 := Log();
    LogIsEmpty();
    InputStarts(s0);
    var s1 := Next(s0, SubmitInput("t", FIRST, ""));
    NothingToAbort(s1);
    SpawnsFirst(Next(s1, LookBeforeAbort));
    RunThree(s0, SubmitInput("t", FIRST, ""), LookBeforeAbort, Spawn(0, None));
    assert UNTIL_DELIVERY[..3] == [SubmitInput("t", FIRST, ""), LookBeforeAbort, Spawn(0, None)];
  }

  lemma InputsAreValid()
    ensures ValidInput(FIRST) && ValidInput(STEER)
  {
    TrimSpaceKeeps("go");
    TrimSpaceKeeps("wait");
  }

  lemma LogIsEmpty()
    ensures Log().tasks == [] && Log().active == None && Log().loop == Idle && Log().history == []
  {
    assert Payloads([]) == [];
  }

  lemma Flushes(s: Session, t: Task)
    requires s.tasks == [t] && t.queue != []
    ensures Possible(s, Flush(0, 0, 0, true))
    ensures var u := Next(s, Flush(0, 0, 0, true));
      && u.tasks == [t.(queue := t.queue[1..])] && u.active == s.active && u.loop == s.loop
      && u.history == LiveStep(s.history, t.queue[0])
  {
    hide Appended, LiveStep;
  }

  /** Its first records are made; then the history is its input. */
  lemma RecordsOpening(s: Session)
    requires s.tasks == [Opening()] && s.active == Some(0) && s.loop == Idle && s.history == []
    ensures var u := Run(s, THREE);
      && u.tasks == [Opening().(queue := [])] && u.active == Some(0) && u.loop == Idle
      && u.history == [UserItem(FIRST)]
  {
    hide Next, Possible, Run, NewTask, UserItem, Filtered;
    var t := Opening();
    var started, context, item := Event(TurnStarted("t", 0)), TurnContext("t"), Item(UserItem(FIRST));
    OpeningQueue();
    assert t.queue[1..] == [context, item] && t.queue[1..][1..] == [item] && [item][1..] == [];
    Flushes(s, t);
    var s1 := Next(s, Flush(0, 0, 0, true));
    Flushes(s1, t.(queue := [context, item]));
    var s2 := Next(s1, Flush(0, 0, 0, true));
    Flushes(s2, t.(queue := [item]));
    UserItemsAreRecorded(FIRST);
    EmptyUnit([UserItem(FIRST)]);
    RunThree(s, Flush(0, 0, 0, true), Flush(0, 0, 0, true), Flush(0, 0, 0, true));
  }

  lemma OpeningQueue()
    ensures Opening().queue == [Event(TurnStarted("t", 0)), TurnContext("t"), Item(UserItem(FIRST))]
  {
  }

  lemma UserItemsAreRecorded(input: TurnInput)
    ensures Filtered([UserItem(input)]) == [UserItem(input)]
    ensures Normalized([UserItem(input)]) == [UserItem(input)]
  {
    FilteredOne(UserItem(input));
    PairedHistoryUnchanged([UserItem(input)]);
  }

  lemma Samples(s: Session)
    requires s.tasks == [Opening().(queue := [])] && s.history == [UserItem(FIRST)]
    ensures Possible(s, Turn(0, SkipCompact)) && Possible(Next(s, Turn(0, SkipCompact)), Turn(0, BeginSampling))
    ensures var u := Next(Next(s, Turn(0, SkipCompact)), Turn(0, BeginSampling));
      && u.tasks == [Opening().(queue := [], pc := Sampling(Sample([], "", false, false, false)))]
      && u.active == s.active && u.loop == s.loop
  {
    hide Normalized, NewTask, UserItem;
    UserItemsAreRecorded(FIRST);
    OpeningStandsAtTop();
    var block := Opening().block;
    EmptyUnit(block);
  }

  lemma IsSteered(s: Session)
    requires |s.tasks| == 1 && s.active == Some(0) && s.loop == Idle
    ensures Possible(s, SubmitInput("u", STEER, ""))
    ensures Next(s, SubmitInput("u", STEER, "")) == s.(loop := Steering(0, "", STEER))
  {
    hide ValidInput;
    InputsAreValid();
  }

  lemma StreamBreaks(s: Session, t: Task)
    requires s.tasks == [t] && t.pc.Sampling? && t.queue == []
    ensures Possible(s, Turn(0, StreamFails("down")))
    ensures var u := Next(s, Turn(0, StreamFails("down")));
      && |u.tasks| == 1 && u.loop == s.loop
      && u.tasks[0].pc.Finishing? && u.tasks[0].error == Some("down")
      && u.tasks[0].inbox == t.inbox && u.tasks[0].accepted == t.accepted && u.tasks[0].taken == t.taken
  {
    hide Normalized;
  }

  /** It samples, and is steered while the stream fails. */
  lemma Fails(s: Session)
    requires s.tasks == [Opening().(queue := [])] && s.active == Some(0) && s.loop == Idle
    requires s.history == [UserItem(FIRST)]
    ensures var u := Run(s, LAST);
      && |u.tasks| == 1 && u.loop == Steering(0, "", STEER)
      && u.tasks[0].pc.Finishing? && u.tasks[0].error == Some("down")
      && u.tasks[0].inbox == Inbox([], true) && u.tasks[0].accepted == [] && u.tasks[0].taken == []
  {
    hide Next, Possible, Run, UserItem, NewTask, Opening;
    OpeningStandsAtTop();
    Samples(s);
    var s2 := Next(Next(s, Turn(0, SkipCompact)), Turn(0, BeginSampling));
    IsSteered(s2);
    var s3 := Next(s2, SubmitInput("u", STEER, ""));
    StreamBreaks(s3, s3.tasks[0]);
    RunThree(s, Turn(0, SkipCompact), Turn(0, BeginSampling), SubmitInput("u", STEER, ""));
    RunOne(s3, Turn(0, StreamFails("down")));
    var three := [Turn(0, SkipCompact), Turn(0, BeginSampling), SubmitInput("u", STEER, "")];
    RunInParts(s, three, [Turn(0, StreamFails("down"))]);
    assert three + [Turn(0, StreamFails("down"))] == LAST;
  }

  lemma OpeningStandsAtTop()
    ensures var t := Opening();
      && t.pc.LoopTop? && t.inbox == Inbox([], true) && t.error == None && t.accepted == [] && t.taken == [] && t.id == "t"
  {
  }

  /** So there is a reachable state in which input waits to be delivered to a turn whose loop
      has returned with an error. It is accepted, and no run from there takes it. */
  lemma SteerCanBeLost(actions: seq<Action>)
    requires forall i :: 0 <= i < |actions| ==> !actions[i].Restart?
    ensures var s := Run(Log(), UNTIL_DELIVERY);
      && Reachable(s)
      && s.loop == Steering(0, "", STEER) && |s.tasks| == 1 && AtEnd(s.tasks[0]) && s.tasks[0].error.Some?
      && Possible(s, Deliver)
      && Next(s, Deliver).tasks[0].accepted == [STEER]
      && var after := Run(Next(s, Deliver), actions);
      0 < |after.tasks| && after.tasks[0].taken == []
  {
    hide Run, Next, Possible, Reachable, AtEnd;
    var started := Run(Log(), UNTIL_DELIVERY[..3]);
    Starts();
    RecordsOpening(started);
    Fails(Run(started, THREE));
    RunInParts(started, THREE, LAST);
    RunInParts(Log(), UNTIL_DELIVERY[..3], THREE + LAST);
    assert UNTIL_DELIVERY[..3] + (THREE + LAST) == UNTIL_DELIVERY;
    var s := Run(Log(), UNTIL_DELIVERY);
    LogIsReachable(UNTIL_DELIVERY);
    Delivery(s);
    UntakenInputIsLost(Next(s, Deliver), actions, 0);
  }

  lemma LogIsReachable(actions: seq<Action>)
    ensures Reachable(Run(Log(), actions))
  {
    hide Run;
    assert Opened([]) == Some(Store([], 0, false));
    assert Run(Log(), actions) == Run(Booted(Opened([]).value, "", 0, 0, true), actions);
  }

  lemma Delivery(s: Session)
    requires |s.tasks| == 1 && s.loop == Steering(0, "", STEER) && s.tasks[0].pc.Finishing?
    requires s.tasks[0].inbox == Inbox([], true) && s.tasks[0].accepted == [] && s.tasks[0].taken == []
    ensures AtEnd(s.tasks[0]) && Possible(s, Deliver)
    ensures var t := Next(s, Deliver).tasks; |t| == 1 && t[0].accepted == [STEER] && t[0].taken == [] && AtEnd(t[0])
  {
    assert [] + [STEER] == [STEER];
  }
}
