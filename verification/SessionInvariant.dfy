/** What every step of the session keeps: the log, the live history and the turns agree. */
module SessionInvariant {
  import opened Seqs
  import opened Wrappers
  import opened Protocol
  import opened History
  import opened Rollout
  import opened RolloutTurns
  import opened TurnTask
  import opened TurnAccounting
  import opened TurnEngine

  // ----- the log and the history -----

  /** The log is what this process found, followed by what it recorded while the recorder
      worked; the live history replays everything it set out to record. */
  predicate LogOk(s: Session) {
    && s.book.kept <= |s.book.intent|
    && (!s.store.failed ==> s.book.kept == |s.book.intent|)
    && Payloads(s.store.lines) == s.book.base + s.book.intent[..s.book.kept]
    && s.history == Filtered(Replayed(s.book.base + s.book.intent))
    && s.book.snapshot == Filtered(Replayed(s.book.base + s.book.intent[..s.book.kept]))
  }

  lemma PayloadsAppend(lines: seq<Line>, line: Line)
    ensures Payloads(lines + [line]) == Payloads(lines) + [line.payload]
  {
  }

  lemma LogRecorded(s: Session, payload: Payload, time: int, size: nat, ok: bool)
    requires LogOk(s)
    ensures LogOk(Recorded(s, payload, time, size, ok))
  {
    hide Replayed, Filtered, LiveStep, Payloads;
    var intent := s.book.intent + [payload];
    DropLeft(s.book.intent, [payload]);
    Associative(s.book.base, s.book.intent, [payload]);
    ReplayedAppend(s.book.base + s.book.intent, payload);
    PayloadsAppend(s.store.lines, Line(s.store.ordinal, time, size, payload));
    assert intent[..s.book.kept] == s.book.intent[..s.book.kept];
    assert intent[..|intent|] == intent;
    assert s.book.intent[..|s.book.intent|] == s.book.intent;
  }

  lemma LogFresh(file: Store, book: Ledger)
    requires !file.failed
    ensures LogOk(Fresh(file, book))
  {
    EmptyUnit(Payloads(file.lines));
  }

  lemma SameLog(s: Session, t: Session)
    requires LogOk(s) && t.store == s.store && t.history == s.history
    requires t.book.(lead := s.book.lead) == s.book
    ensures LogOk(t)
  {
  }

  lemma LogIntroduced(s: Session, cwd: string, time: int, size: nat, ok: bool)
    requires LogOk(s)
    ensures LogOk(Introduced(s, cwd, time, size, ok))
  {
    hide LogOk, Recorded;
    var named := s.(book := s.book.(lead := [SessionMeta(cwd)]));
    SameLog(s, named);
    LogRecorded(named, SessionMeta(cwd), time, size, ok);
  }

  // ----- the turns -----

  /** A turn that is over as far as the session is concerned. */
  predicate Retired(t: Task) {
    t.pc.Cleared? || t.pc.Gone?
  }

  /** Every turn keeps its accounts; only the newest can still be running, and it is exactly
      the active one. */
  predicate TasksOk(tasks: seq<Task>, active: Option<nat>) {
    && (forall k :: 0 <= k < |tasks| ==> TurnOk(tasks[k]))
    && (forall k :: 0 <= k < |tasks| - 1 ==> Retired(tasks[k]))
    && (active.Some? ==> active.value == |tasks| - 1)
    && (tasks != [] ==> (active == None <==> Retired(tasks[|tasks| - 1])))
  }

  lemma TaskReplaced(tasks: seq<Task>, active: Option<nat>, k: nat, t: Task)
    requires TasksOk(tasks, active) && k < |tasks| && TurnOk(t) && (Retired(t) <==> Retired(tasks[k]))
    ensures TasksOk(tasks[k := t], active)
  {
    hide TurnOk, Retired;
  }

  lemma RunningIsNewest(tasks: seq<Task>, active: Option<nat>, k: nat)
    requires TasksOk(tasks, active) && k < |tasks| && !Retired(tasks[k])
    ensures active == Some(k) && k == |tasks| - 1
  {
    hide TurnOk;
  }

  lemma TaskRetires(tasks: seq<Task>, active: Option<nat>, k: nat, t: Task)
    requires TasksOk(tasks, active) && k < |tasks| && !Retired(tasks[k]) && TurnOk(t) && Retired(t)
    ensures active == Some(k) && TasksOk(tasks[k := t], None)
  {
    hide TurnOk;
    RunningIsNewest(tasks, active, k);
  }

  lemma TaskSpawned(tasks: seq<Task>, t: Task)
    requires TasksOk(tasks, None) && TurnOk(t) && !Retired(t)
    ensures TasksOk(tasks + [t], Some(|tasks|))
  {
    hide TurnOk, Retired;
  }

  // ----- the plan -----

  /** The records the running turn has yet to make. */
  function Pending(tasks: seq<Task>): seq<Payload> {
    if tasks == [] then [] else tasks[|tasks| - 1].queue
  }

  /** What the process has recorded and is about to record is the log's beginning, the blocks
      of earlier processes, and the blocks of its own turns. */
  predicate PlanOk(tasks: seq<Task>, book: Ledger) {
    book.base + book.intent + Pending(tasks) == book.lead + Flat(book.earlier + BlocksOf(tasks))
  }

  lemma FlatSnoc(blocks: seq<seq<Payload>>, block: seq<Payload>)
    ensures Flat(blocks + [block]) == Flat(blocks) + block
  {
    assert (blocks + [block])[..|blocks|] == blocks;
  }

  lemma BlocksSnoc(tasks: seq<Task>)
    requires tasks != []
    ensures var n := |tasks| - 1; BlocksOf(tasks) == BlocksOf(tasks[..n]) + [tasks[n].block]
  {
  }

  /** The flattened plan, with the newest block in front of our eyes. */
  lemma FlatPlan(earlier: seq<seq<Payload>>, tasks: seq<Task>)
    requires tasks != []
    ensures var n := |tasks| - 1;
      Flat(earlier + BlocksOf(tasks)) == Flat(earlier + BlocksOf(tasks[..n])) + tasks[n].block
  {
    hide Flat, BlocksOf;
    var n := |tasks| - 1;
    BlocksSnoc(tasks);
    Associative(earlier, BlocksOf(tasks[..n]), [tasks[n].block]);
    FlatSnoc(earlier + BlocksOf(tasks[..n]), tasks[n].block);
  }

  lemma SameBlocks(tasks: seq<Task>, k: nat, t: Task)
    requires k < |tasks| && t.block == tasks[k].block
    ensures BlocksOf(tasks[k := t]) == BlocksOf(tasks)
  {
  }

  lemma PlanKept(tasks: seq<Task>, book: Ledger, k: nat, t: Task)
    requires PlanOk(tasks, book) && k < |tasks| && t.block == tasks[k].block && t.queue == tasks[k].queue
    ensures PlanOk(tasks[k := t], book)
  {
    hide Flat;
    SameBlocks(tasks, k, t);
  }

  lemma PlanExtended(tasks: seq<Task>, book: Ledger, t: Task, records: seq<Payload>)
    requires PlanOk(tasks, book) && tasks != [] && Pending(tasks) == []
    requires t.queue == records && t.block == tasks[|tasks| - 1].block + records
    ensures PlanOk(tasks[|tasks| - 1 := t], book)
  {
    hide Flat, BlocksOf;
    var n := |tasks| - 1;
    var more := tasks[n := t];
    assert more[..n] == tasks[..n];
    FlatPlan(book.earlier, tasks);
    FlatPlan(book.earlier, more);
    var before := Flat(book.earlier + BlocksOf(tasks[..n]));
    EmptyUnit(book.base + book.intent);
    Associative(before, tasks[n].block, records);
    Associative(book.lead, before + tasks[n].block, records);
  }

  lemma PlanFlushed(tasks: seq<Task>, book: Ledger, next: Ledger)
    requires PlanOk(tasks, book) && tasks != [] && Pending(tasks) != []
    requires var payload := Pending(tasks)[0];
      next.intent == book.intent + [payload] && next.base == book.base && next.lead == book.lead && next.earlier == book.earlier
    ensures var n := |tasks| - 1; PlanOk(tasks[n := Flushed(tasks[n])], next)
  {
    hide Flat;
    var n := |tasks| - 1;
    var queue := Pending(tasks);
    SameBlocks(tasks, n, Flushed(tasks[n]));
    MoveAcross(book.base, book.intent, queue);
  }

  lemma MoveAcross(base: seq<Payload>, intent: seq<Payload>, queue: seq<Payload>)
    requires queue != []
    ensures base + (intent + [queue[0]]) + queue[1..] == base + intent + queue
  {
    assert [queue[0]] + queue[1..] == queue;
    Associative(base, intent, [queue[0]]);
    Associative(base + intent, [queue[0]], queue[1..]);
  }

  lemma PlanSpawned(tasks: seq<Task>, book: Ledger, t: Task)
    requires PlanOk(tasks, book) && Pending(tasks) == [] && t.queue == t.block
    ensures PlanOk(tasks + [t], book)
  {
    hide Flat, BlocksOf;
    var more := tasks + [t];
    assert more[..|tasks|] == tasks;
    FlatPlan(book.earlier, more);
    EmptyUnit(book.base + book.intent);
    Associative(book.lead, Flat(book.earlier + BlocksOf(tasks)), t.block);
  }

  lemma NothingPending(tasks: seq<Task>)
    requires TasksOk(tasks, None)
    ensures Pending(tasks) == []
  {
    hide InboxOk, UsersOk, CallsOk, BroughtOk, Reported, OwingOk, Block, ClosedBlock, Tells;
    if tasks != [] {
      assert TurnOk(tasks[|tasks| - 1]);
    }
  }

  // ----- the loop -----

  /** What the loop has seen still holds when it acts on it: a turn it found by its identifier
      is that turn, the active turn is not exchanged for another, and a new turn never
      replaces a running one. */
  predicate LoopOk(tasks: seq<Task>, active: Option<nat>, loop: Loop) {
    match loop
    case Idle => true
    case Steering(k, expected, _) => k < |tasks| && (expected != "" ==> tasks[k].id == expected)
    case Spawning(_, _) => active == None
    case Interrupting(expected, _, after) =>
      && (expected != "" && active.Some? ==> active.value < |tasks| && tasks[active.value].id == expected)
      && (after.ThenStart? ==> active == None)
    case Cancelling(k, expected, _, after) =>
      && k < |tasks| && (expected != "" ==> tasks[k].id == expected)
      && !after.ThenStart? && (active.Some? ==> active == Some(k))
    case Aborting(k, after) =>
      k < |tasks| && !after.ThenStart? && tasks[k].cancelled && (active.Some? ==> active == Some(k))
    case Stopped => active == None
  }

  // ----- earlier processes -----

  /** Blocks of earlier processes; only the last one before a restart may be open. */
  predicate EarlierOk(book: Ledger) {
    && Blocks(book.earlier, book.ids)
    && (forall j :: 0 <= j < |book.earlier| && !ClosedBlock(book.earlier[j], book.ids[j]) ==> j + 1 in book.restarts)
    && (|book.lead| <= |book.base| || (book.base == [] && |book.lead| == 1 && book.intent != []))
  }

  lemma {:induction false} CutIsPrefix(blocks: seq<seq<Payload>>, n: nat)
    ensures n <= |Flat(blocks)| ==> Flat(CutBlocks(blocks, n)) == Flat(blocks)[..n]
    ensures n >= |Flat(blocks)| ==> Flat(CutBlocks(blocks, n)) == Flat(blocks)
  {
    if blocks != [] {
      var front, last := blocks[..|blocks| - 1], blocks[|blocks| - 1];
      var m := |Flat(front)|;
      if n <= m {
        CutIsPrefix(front, n);
        TakeLeft(Flat(front), last, n);
      } else if n < m + |last| {
        FlatSnoc(front, last[..n - m]);
        TakeRight(Flat(front), last, n);
      } else {
        TakeAll(Flat(blocks), n);
      }
    }
  }

  lemma TakeLeft<T>(a: seq<T>, b: seq<T>, n: nat)
    requires n <= |a|
    ensures (a + b)[..n] == a[..n]
    ensures n == |a| ==> a[..n] == a
  {
  }

  lemma TakeRight<T>(a: seq<T>, b: seq<T>, n: nat)
    requires |a| <= n <= |a| + |b|
    ensures (a + b)[..n] == a + b[..n - |a|]
  {
  }

  lemma TakeAll<T>(a: seq<T>, n: nat)
    ensures n == |a| ==> a[..n] == a
  {
  }

  /** Cutting keeps every block but possibly the last one that is left, of which it keeps a
      non-empty beginning. */
  lemma {:induction false} CutKeepsBlocks(blocks: seq<seq<Payload>>, n: nat)
    requires forall i :: 0 <= i < |blocks| ==> blocks[i] != []
    ensures |CutBlocks(blocks, n)| <= |blocks|
    ensures forall i :: 0 <= i < |CutBlocks(blocks, n)| - 1 ==> CutBlocks(blocks, n)[i] == blocks[i]
    ensures forall i :: 0 <= i < |CutBlocks(blocks, n)| ==>
      CutBlocks(blocks, n)[i] != [] && CutBlocks(blocks, n)[i] <= blocks[i]
  {
    if blocks != [] {
      var front, last := blocks[..|blocks| - 1], blocks[|blocks| - 1];
      CutKeepsBlocks(front, n);
    }
  }

  // ----- every step keeps all of it -----

  predicate Consistent(s: Session) {
    && LogOk(s)
    && TasksOk(s.tasks, s.active)
    && PlanOk(s.tasks, s.book)
    && LoopOk(s.tasks, s.active, s.loop)
    && EarlierOk(s.book)
  }

  lemma LogStep(s: Session, a: Action)
    requires LogOk(s) && Possible(s, a)
    ensures LogOk(Next(s, a))
  {
    hide Recorded, Introduced, Fresh, Enabled, Advanced, Flat, Steered, Cancelled, Flushed, NewTask, LoopAfterInput,
      LoopAfterInterrupt;
    match a
    case Flush(k, time, size, ok) =>
      SameLog(s, s.(tasks := s.tasks[k := Flushed(s.tasks[k])]));
      LogRecorded(s.(tasks := s.tasks[k := Flushed(s.tasks[k])]), s.tasks[k].queue[0], time, size, ok);
    case Restart(cwd, time, size, ok) =>
      LogFresh(Opened(s.store.lines).value, Reopened(s));
      LogIntroduced(Fresh(Opened(s.store.lines).value, Reopened(s)), cwd, time, size, ok);
    case _ =>
      SameLog(s, Next(s, a));
  }

  lemma AdvancedRuns(t: Task, prompt: seq<ResponseItem>, a: TurnAction)
    requires Enabled(t, prompt, a)
    ensures !Retired(t) && !Retired(Advanced(t, prompt, a))
    ensures Advanced(t, prompt, a).id == t.id && Advanced(t, prompt, a).cancelled == t.cancelled
    ensures t.queue == [] && Advanced(t, prompt, a).queue == Records(t, prompt, a)
    ensures Advanced(t, prompt, a).block == t.block + Records(t, prompt, a)
  {
    hide Records, Noted;
    AccountsMove(t, prompt, a);
  }

  lemma OnlyRunningHasQueue(t: Task)
    requires TurnOk(t) && t.queue != []
    ensures !Retired(t)
  {
  }

  lemma TasksStep(s: Session, a: Action)
    requires Consistent(s) && Possible(s, a)
    ensures TasksOk(Next(s, a).tasks, Next(s, a).active)
  {
    hide TurnOk, LogOk, PlanOk, EarlierOk, Enabled, Advanced, Recorded, NewTask, LoopAfterInput, LoopAfterInterrupt,
      Normalized, Retired;
    match a
    case Deliver =>
      SteeredOk(s.tasks[s.loop.task], s.loop.input);
      SteeringKeeps(s.tasks[s.loop.task], s.loop.input);
      TaskReplaced(s.tasks, s.active, s.loop.task, Steered(s.tasks[s.loop.task], s.loop.input));
    case CancelTurn =>
      var k := s.loop.task;
      CancelledOk(s.tasks[k], s.loop.reason);
      CancellingKeeps(s.tasks[k], s.loop.reason);
      TaskReplaced(s.tasks, s.active, k, Cancelled(s.tasks[k], s.loop.reason));
    case Spawn(startedAt, instructions) =>
      NewTurnOk(s.loop.id, startedAt, s.loop.input, instructions);
      NewIsRunning(s.loop.id, startedAt, s.loop.input, instructions);
      TaskSpawned(s.tasks, NewTask(s.loop.id, startedAt, s.loop.input, instructions));
    case Turn(k, step) =>
      TurnStepOk(s.tasks[k], Normalized(s.history), step);
      AdvancedRuns(s.tasks[k], Normalized(s.history), step);
      TaskReplaced(s.tasks, s.active, k, Advanced(s.tasks[k], Normalized(s.history), step));
    case Flush(k, time, size, ok) =>
      FlushedOk(s.tasks[k]);
      FlushingKeeps(s.tasks[k]);
      TaskReplaced(s.tasks, s.active, k, Flushed(s.tasks[k]));
      RecordingKeepsTasks(s.(tasks := s.tasks[k := Flushed(s.tasks[k])]), s.tasks[k].queue[0], time, size, ok);
    case Clear(k) =>
      RetiredOk(s.tasks[k], Cleared);
      Retirement(s.tasks[k], Cleared);
      TaskRetires(s.tasks, s.active, k, s.tasks[k].(pc := Cleared));
    case Close(k) =>
      OverHasNoQueue(s.tasks[k]);
      RetiredOk(s.tasks[k], Gone);
      Retirement(s.tasks[k], Gone);
      TaskReplaced(s.tasks, s.active, k, s.tasks[k].(pc := Gone));
    case Restart(cwd, time, size, ok) =>
      IntroducingKeepsTasks(Fresh(Opened(s.store.lines).value, Reopened(s)), cwd, time, size, ok);
    case _ =>
  }

  lemma OverHasNoQueue(t: Task)
    requires TurnOk(t) && Retired(t)
    ensures t.queue == []
  {
  }

  lemma Retirement(t: Task, pc: Pc)
    ensures Retired(t.(pc := pc)) <==> pc.Cleared? || pc.Gone?
    ensures Retired(t) <==> t.pc.Cleared? || t.pc.Gone?
  {
  }

  lemma SteeringKeeps(t: Task, input: TurnInput)
    ensures var u := Steered(t, input);
      u.block == t.block && u.queue == t.queue && u.id == t.id && u.cancelled == t.cancelled && (Retired(u) <==> Retired(t))
  {
  }

  lemma CancellingKeeps(t: Task, reason: string)
    ensures var u := Cancelled(t, reason);
      u.block == t.block && u.queue == t.queue && u.id == t.id && u.cancelled && (Retired(u) <==> Retired(t))
  {
  }

  lemma FlushingKeeps(t: Task)
    requires t.queue != []
    ensures var u := Flushed(t);
      u.block == t.block && u.id == t.id && u.cancelled == t.cancelled && (Retired(u) <==> Retired(t))
  {
  }

  lemma NewIsRunning(id: string, startedAt: int, input: TurnInput, instructions: Option<string>)
    ensures var t := NewTask(id, startedAt, input, instructions); !Retired(t) && t.queue == t.block && t.id == id
  {
  }

  lemma RecordingKeepsTasks(s: Session, payload: Payload, time: int, size: nat, ok: bool)
    ensures var r := Recorded(s, payload, time, size, ok);
      && r.tasks == s.tasks && r.active == s.active && r.loop == s.loop
      && r.book.intent == s.book.intent + [payload]
      && r.book.base == s.book.base && r.book.lead == s.book.lead && r.book.earlier == s.book.earlier
      && r.book.ids == s.book.ids && r.book.restarts == s.book.restarts
  {
  }

  lemma IntroducingKeepsTasks(s: Session, cwd: string, time: int, size: nat, ok: bool)
    ensures var r := Introduced(s, cwd, time, size, ok);
      r.tasks == s.tasks && r.active == s.active && r.loop == s.loop
  {
  }

  lemma PlanStep(s: Session, a: Action)
    requires Consistent(s) && Possible(s, a) && !a.Restart?
    ensures PlanOk(Next(s, a).tasks, Next(s, a).book)
  {
    hide TurnOk, LogOk, PlanOk, LoopOk, EarlierOk, Enabled, Advanced, Recorded, NewTask, LoopAfterInput,
      LoopAfterInterrupt, Normalized, Retired, Steered, Cancelled;
    match a
    case Deliver =>
      SteeringKeeps(s.tasks[s.loop.task], s.loop.input);
      PlanKept(s.tasks, s.book, s.loop.task, Steered(s.tasks[s.loop.task], s.loop.input));
    case CancelTurn =>
      var k := s.loop.task;
      CancellingKeeps(s.tasks[k], s.loop.reason);
      PlanKept(s.tasks, s.book, k, Cancelled(s.tasks[k], s.loop.reason));
    case Spawn(startedAt, instructions) =>
      SpawningIsQuiet(s);
      NothingPending(s.tasks);
      NewIsRunning(s.loop.id, startedAt, s.loop.input, instructions);
      PlanSpawned(s.tasks, s.book, NewTask(s.loop.id, startedAt, s.loop.input, instructions));
    case Turn(k, step) =>
      AdvancedRuns(s.tasks[k], Normalized(s.history), step);
      RunningIsNewest(s.tasks, s.active, k);
      PlanExtended(s.tasks, s.book, Advanced(s.tasks[k], Normalized(s.history), step), Records(s.tasks[k], Normalized(s.history), step));
    case Flush(k, time, size, ok) =>
      OnlyRunningHasQueue(s.tasks[k]);
      RunningIsNewest(s.tasks, s.active, k);
      RecordingKeepsTasks(s.(tasks := s.tasks[k := Flushed(s.tasks[k])]), s.tasks[k].queue[0], time, size, ok);
      PlanFlushed(s.tasks, s.book, Next(s, a).book);
    case Clear(k) =>
      PlanKept(s.tasks, s.book, k, s.tasks[k].(pc := Cleared));
    case Close(k) =>
      PlanKept(s.tasks, s.book, k, s.tasks[k].(pc := Gone));
    case _ =>
  }

  lemma SpawningIsQuiet(s: Session)
    requires LoopOk(s.tasks, s.active, s.loop) && s.loop.Spawning?
    ensures s.active == None
  {
  }

  /** The same turns, perhaps aborted, and the same active one or none. */
  predicate Onward(tasks: seq<Task>, active: Option<nat>, tasks': seq<Task>, active': Option<nat>) {
    && |tasks'| == |tasks|
    && (forall k :: 0 <= k < |tasks| ==> tasks'[k].id == tasks[k].id && (tasks[k].cancelled ==> tasks'[k].cancelled))
    && (active' == active || active' == None)
  }

  lemma LoopKept(tasks: seq<Task>, active: Option<nat>, tasks': seq<Task>, active': Option<nat>, loop: Loop)
    requires LoopOk(tasks, active, loop) && Onward(tasks, active, tasks', active')
    ensures LoopOk(tasks', active', loop)
  {
  }

  lemma OneOnward(tasks: seq<Task>, active: Option<nat>, k: nat, t: Task, active': Option<nat>)
    requires k < |tasks| && t.id == tasks[k].id && (tasks[k].cancelled ==> t.cancelled)
    requires active' == active || active' == None
    ensures Onward(tasks, active, tasks[k := t], active')
  {
  }

  lemma LoopStep(s: Session, a: Action)
    requires Consistent(s) && Possible(s, a) && !a.Restart?
    ensures LoopOk(Next(s, a).tasks, Next(s, a).active, Next(s, a).loop)
  {
    hide TurnOk, LogOk, PlanOk, EarlierOk, Enabled, Advanced, Recorded, NewTask, Normalized, Steered, Cancelled,
      Flushed;
    match a
    case Turn(k, step) =>
      hide LoopOk, Onward;
      AdvancedRuns(s.tasks[k], Normalized(s.history), step);
      OneOnward(s.tasks, s.active, k, Advanced(s.tasks[k], Normalized(s.history), step), s.active);
      LoopKept(s.tasks, s.active, Next(s, a).tasks, Next(s, a).active, s.loop);
    case Flush(k, time, size, ok) =>
      hide LoopOk, Onward;
      FlushingKeeps(s.tasks[k]);
      OneOnward(s.tasks, s.active, k, Flushed(s.tasks[k]), s.active);
      RecordingKeepsTasks(s.(tasks := s.tasks[k := Flushed(s.tasks[k])]), s.tasks[k].queue[0], time, size, ok);
      LoopKept(s.tasks, s.active, Next(s, a).tasks, Next(s, a).active, s.loop);
    case Clear(k) =>
      hide LoopOk, Onward;
      OneOnward(s.tasks, s.active, k, s.tasks[k].(pc := Cleared), Next(s, a).active);
      LoopKept(s.tasks, s.active, Next(s, a).tasks, Next(s, a).active, s.loop);
    case Close(k) =>
      hide LoopOk, Onward;
      OneOnward(s.tasks, s.active, k, s.tasks[k].(pc := Gone), s.active);
      LoopKept(s.tasks, s.active, Next(s, a).tasks, Next(s, a).active, s.loop);
    case LookBeforeAbort =>
      ActiveIsATask(s.tasks, s.active);
    case CancelTurn =>
      CancellingKeeps(s.tasks[s.loop.task], s.loop.reason);
    case AbortedTurnGone =>
      GoneIsNotActive(s.tasks, s.active, s.loop.task);
    case _ =>
  }

  lemma ActiveIsATask(tasks: seq<Task>, active: Option<nat>)
    requires TasksOk(tasks, active)
    ensures active.Some? ==> active.value < |tasks|
  {
    hide TurnOk, Retired;
  }

  lemma GoneIsNotActive(tasks: seq<Task>, active: Option<nat>, k: nat)
    requires TasksOk(tasks, active) && k < |tasks| && tasks[k].pc.Gone?
    ensures active != Some(k)
  {
    hide TurnOk;
  }

  lemma LedgerSame(book: Ledger, next: Ledger)
    requires EarlierOk(book)
    requires next.lead == book.lead && next.earlier == book.earlier && next.ids == book.ids
    requires next.restarts == book.restarts && next.base == book.base && (book.intent != [] ==> next.intent != [])
    ensures EarlierOk(next)
  {
  }

  lemma EarlierStep(s: Session, a: Action)
    requires EarlierOk(s.book) && Possible(s, a) && !a.Restart?
    ensures EarlierOk(Next(s, a).book)
  {
    hide EarlierOk, Recorded, Enabled, Advanced, NewTask, Steered, Cancelled, LoopAfterInput, LoopAfterInterrupt,
      LoopAfterAbort, Normalized;
    if a.Flush? {
      var k := a.task;
      RecordingKeepsTasks(s.(tasks := s.tasks[k := Flushed(s.tasks[k])]), s.tasks[k].queue[0], a.time, a.size, a.ok);
    }
    LedgerSame(s.book, Next(s, a).book);
  }

  // ----- restarting -----

  /** All blocks of the thread so far, with their turns' identifiers. */
  function AllBlocks(s: Session): seq<seq<Payload>> {
    s.book.earlier + BlocksOf(s.tasks)
  }

  function AllIds(s: Session): seq<string> {
    s.book.ids + IdsOf(s.tasks)
  }

  lemma TaskBlock(tasks: seq<Task>, active: Option<nat>, k: nat)
    requires TasksOk(tasks, active) && k < |tasks|
    ensures Block(tasks[k].block, tasks[k].id)
    ensures k < |tasks| - 1 ==> ClosedBlock(tasks[k].block, tasks[k].id)
  {
    hide InboxOk, UsersOk, CallsOk, BroughtOk, Reported, OwingOk, Block, ClosedBlock, Tells, SlotsOk;
    assert TurnOk(tasks[k]);
  }

  lemma AllAreBlocks(s: Session)
    requires Consistent(s)
    ensures Blocks(AllBlocks(s), AllIds(s))
    ensures forall j :: 0 <= j < |AllBlocks(s)| - 1 && !ClosedBlock(AllBlocks(s)[j], AllIds(s)[j]) ==> j + 1 in s.book.restarts
  {
    hide TasksOk, Block, ClosedBlock, LogOk, PlanOk, LoopOk;
    var n := |s.book.earlier|;
    forall j | 0 <= j < |AllBlocks(s)|
      ensures Block(AllBlocks(s)[j], AllIds(s)[j])
      ensures j < |AllBlocks(s)| - 1 && !ClosedBlock(AllBlocks(s)[j], AllIds(s)[j]) ==> j + 1 in s.book.restarts
    {
      if j >= n {
        TaskBlock(s.tasks, s.active, j - n);
      }
    }
  }

  /** Where the log ends in the plan of all processes. */
  lemma LogInPlan(s: Session)
    requires Consistent(s)
    ensures var n := |s.store.lines|;
      && n <= |s.book.lead + Flat(AllBlocks(s))|
      && Payloads(s.store.lines) == (s.book.lead + Flat(AllBlocks(s)))[..n]
      && (|s.book.lead| <= n || (n == 0 && |s.book.lead| == 1))
  {
    hide Flat, TasksOk, LoopOk, Blocks;
    var whole := s.book.lead + Flat(AllBlocks(s));
    var kept := s.book.intent[..s.book.kept];
    assert s.book.intent == kept + s.book.intent[s.book.kept..];
    Prefixes(s.book.base, kept, s.book.intent[s.book.kept..], Pending(s.tasks));
    assert |Payloads(s.store.lines)| == |s.store.lines|;
  }

  lemma Prefixes<T>(a: seq<T>, b: seq<T>, c: seq<T>, d: seq<T>)
    ensures var whole := a + (b + c) + d; |a + b| <= |whole| && whole[..|a + b|] == a + b
  {
  }

  lemma OpenedOrdinal(lines: seq<Line>)
    ensures NextOrdinal(lines) == 0 <==> lines == []
  {
  }

  /** What is in the log after a restart: the beginning, and the blocks, the last one perhaps cut. */
  lemma RestartedLog(s: Session)
    requires Consistent(s)
    ensures var n := |s.store.lines|;
      && (|s.book.lead| <= n ==> Payloads(s.store.lines) == s.book.lead + Flat(Reopened(s).earlier))
      && (|s.book.lead| > n ==> n == 0 && Payloads(s.store.lines) == [] && Reopened(s).earlier == [])
  {
    hide Flat, LogOk, TasksOk, PlanOk, LoopOk, EarlierOk, CutBlocks;
    var n := |s.store.lines|;
    LogInPlan(s);
    if |s.book.lead| <= n {
      CutIsPrefix(AllBlocks(s), n - |s.book.lead|);
      TakeRight(s.book.lead, Flat(AllBlocks(s)), n);
    }
  }

  lemma RestartedBlocks(s: Session)
    requires Consistent(s)
    ensures var book := Reopened(s);
      && Blocks(book.earlier, book.ids)
      && forall j :: 0 <= j < |book.earlier| && !ClosedBlock(book.earlier[j], book.ids[j]) ==> j + 1 in book.restarts
  {
    hide Block, ClosedBlock, LogOk, TasksOk, PlanOk, LoopOk, EarlierOk, CutBlocks;
    AllAreBlocks(s);
    BlocksAreNotEmpty(AllBlocks(s), AllIds(s));
    var book := Reopened(s);
    if |s.book.lead| <= |s.store.lines| {
      CutKeepsBlocks(AllBlocks(s), |s.store.lines| - |s.book.lead|);
      forall j | 0 <= j < |book.earlier|
        ensures Block(book.earlier[j], book.ids[j])
        ensures !ClosedBlock(book.earlier[j], book.ids[j]) ==> j + 1 in book.restarts
      {
        var all, ids := AllBlocks(s), AllIds(s);
        assert book.ids[j] == ids[j];
        assert book.earlier[j] == all[j][..|book.earlier[j]|];
        BlockPrefix(all[j], ids[j], |book.earlier[j]|);
      }
    }
  }

  lemma BlocksAreNotEmpty(blocks: seq<seq<Payload>>, ids: seq<string>)
    requires Blocks(blocks, ids)
    ensures forall i :: 0 <= i < |blocks| ==> blocks[i] != []
  {
  }

  lemma FreshConsistent(file: Store, book: Ledger)
    requires !file.failed && Blocks(book.earlier, book.ids)
    requires forall j :: 0 <= j < |book.earlier| && !ClosedBlock(book.earlier[j], book.ids[j]) ==> j + 1 in book.restarts
    requires Payloads(file.lines) == book.lead + Flat(book.earlier)
    ensures Consistent(Fresh(file, book))
  {
    hide LogOk, PlanOk, Block, ClosedBlock, Flat, Replayed, Filtered, Payloads;
    LogFresh(file, book);
    FreshPlan(Fresh(file, book).book);
    LeadIsPrefix(file, book);
  }

  lemma FreshPlan(book: Ledger)
    requires book.intent == [] && book.base == book.lead + Flat(book.earlier)
    ensures PlanOk([], book)
  {
    hide Flat;
    assert BlocksOf([]) == [];
    EmptyUnit(book.earlier);
    EmptyUnit(book.base);
  }

  lemma LeadIsPrefix(file: Store, book: Ledger)
    requires Payloads(file.lines) == book.lead + Flat(book.earlier)
    ensures |book.lead| <= |Fresh(file, book).book.base|
  {
    hide Flat, Replayed, Filtered;
  }

  lemma NewLogConsistent(s: Session, cwd: string, time: int, size: nat, ok: bool)
    requires LogOk(s) && s.tasks == [] && s.active == None && s.loop == Idle
    requires s.book.base == s.book.intent == [] && s.book.earlier == [] && s.book.ids == []
    ensures Consistent(Recorded(s.(book := s.book.(lead := [SessionMeta(cwd)])), SessionMeta(cwd), time, size, ok))
  {
    hide LogOk, Recorded;
    var named := s.(book := s.book.(lead := [SessionMeta(cwd)]));
    SameLog(s, named);
    LogRecorded(named, SessionMeta(cwd), time, size, ok);
    RecordingKeepsTasks(named, SessionMeta(cwd), time, size, ok);
    assert BlocksOf([]) == [];
    assert Flat([]) == [];
  }

  lemma RestartStep(s: Session, a: Action)
    requires Consistent(s) && Possible(s, a) && a.Restart?
    ensures Consistent(Next(s, a))
  {
    hide Consistent, LogOk, Blocks, ClosedBlock, Reopened, AllFit, Flat, NextOrdinal, Recorded, Replayed, Filtered;
    var file, book := Opened(s.store.lines).value, Reopened(s);
    RestartedLog(s);
    RestartedBlocks(s);
    OpenedOrdinal(s.store.lines);
    ReopenedKeepsLead(s);
    if s.store.lines == [] {
      LogFresh(file, book);
      NothingReopened(s);
      NewLogConsistent(Fresh(file, book), a.cwd, a.time, a.size, a.ok);
    } else {
      LeadWasWritten(s);
      FreshConsistent(file, book);
    }
  }

  lemma ReopenedKeepsLead(s: Session)
    ensures Reopened(s).lead == s.book.lead
  {
  }

  lemma LeadWasWritten(s: Session)
    requires Consistent(s) && s.store.lines != []
    ensures |s.book.lead| <= |s.store.lines|
  {
    hide Consistent;
    LogInPlan(s);
  }

  lemma {:induction false} CutNothing(blocks: seq<seq<Payload>>)
    ensures CutBlocks(blocks, 0) == []
  {
    if blocks != [] {
      CutNothing(blocks[..|blocks| - 1]);
    }
  }

  lemma NothingReopened(s: Session)
    requires s.store.lines == []
    ensures Reopened(s).earlier == [] && Reopened(s).ids == []
  {
    CutNothing(AllBlocks(s));
  }

  lemma StepConsistent(s: Session, a: Action)
    requires Consistent(s) && Possible(s, a)
    ensures Consistent(Next(s, a))
  {
    hide Possible, Next;
    if a.Restart? {
      RestartStep(s, a);
    } else {
      hide LogOk, TasksOk, PlanOk, LoopOk, EarlierOk;
      LogStep(s, a);
      TasksStep(s, a);
      PlanStep(s, a);
      LoopStep(s, a);
      EarlierStep(s, a);
    }
  }

  /** Opening any readable log for the first time. */
  lemma BootConsistent(lines: seq<Line>, cwd: string, time: int, size: nat, ok: bool)
    requires Opened(lines).Some?
    ensures Consistent(Booted(Opened(lines).value, cwd, time, size, ok))
  {
    hide Consistent, LogOk, Blocks, ClosedBlock, AllFit, NextOrdinal, Recorded, Replayed, Filtered;
    var file := Opened(lines).value;
    var book := Ledger(Payloads(lines), [], [], {}, [], [], 0, []);
    OpenedOrdinal(lines);
    NoBlocks();
    LogFresh(file, book);
    EmptyUnit(Payloads(lines));
    if lines == [] {
      NewLogConsistent(Fresh(file, book), cwd, time, size, ok);
    } else {
      FreshConsistent(file, book);
    }
  }

  lemma NoBlocks()
    ensures Blocks([], []) && Flat([]) == []
  {
  }

  lemma {:induction false} RunConsistent(s: Session, actions: seq<Action>)
    requires Consistent(s)
    ensures Consistent(Run(s, actions))
    decreases |actions|
  {
    hide Consistent, Possible, Next;
    if actions != [] {
      if Possible(s, actions[0]) {
        StepConsistent(s, actions[0]);
        RunConsistent(Next(s, actions[0]), actions[1..]);
      } else {
        RunConsistent(s, actions[1..]);
      }
    }
  }
}
