/** The session: one submission loop and the goroutines of its turns, interleaved at the places
    where they touch what they share. */
module TurnEngine {
  import opened Seqs
  import opened Wrappers
  import opened Protocol
  import opened History
  import opened Text
  import opened Rollout
  import opened RolloutTurns
  import opened TurnTask

  // ----- the state -----

  /** What the submission loop does once the turn it aborted is gone. */
  datatype After = ThenIdle | ThenStop | ThenStart(id: string, input: TurnInput)

  /** Where the submission loop stands between its looks at the shared state. */
  datatype Loop =
    | Idle
    | Steering(task: nat, expected: string, input: TurnInput)
    | Spawning(id: string, input: TurnInput)
    | Interrupting(expected: string, reason: string, after: After)
    | Cancelling(task: nat, expected: string, reason: string, after: After)
    | Aborting(task: nat, after: After)
    | Stopped

  /** An account of the log over the life of the thread. `lead` is what it held before any turn,
      `earlier` the blocks that earlier processes left in it and `restarts` how many there were
      each time the log was reopened. `base` is the log as this process found it, `intent` what
      it has set out to write since, `kept` how much of that was written, and `snapshot` the
      history as it was then. */
  datatype Ledger = Ledger(
    lead: seq<Payload>,
    earlier: seq<seq<Payload>>,
    ids: seq<string>,
    restarts: set<nat>,
    base: seq<Payload>,
    intent: seq<Payload>,
    kept: nat,
    snapshot: seq<ResponseItem>)

  datatype Session = Session(
    store: Store,
    history: seq<ResponseItem>,
    tasks: seq<Task>,
    active: Option<nat>,
    loop: Loop,
    book: Ledger)

  function BlocksOf(tasks: seq<Task>): seq<seq<Payload>> {
    seq(|tasks|, i requires 0 <= i < |tasks| => tasks[i].block)
  }

  function IdsOf(tasks: seq<Task>): seq<string> {
    seq(|tasks|, i requires 0 <= i < |tasks| => tasks[i].id)
  }

  // ----- recording -----

  /** Recording one payload: the live history changes in any case, the log only while the
      recorder works. */
  function Recorded(s: Session, payload: Payload, time: int, size: nat, ok: bool): Session {
    var history := LiveStep(s.history, payload);
    var intent := s.book.intent + [payload];
    var written := !s.store.failed && ok;
    s.(store := Appended(s.store, time, size, payload, ok),
       history := history,
       book := if written then s.book.(intent := intent, kept := |intent|, snapshot := history)
               else s.book.(intent := intent))
  }

  // ----- opening -----

  /** The first `n` payloads of some blocks, as blocks. */
  function CutBlocks(blocks: seq<seq<Payload>>, n: nat): seq<seq<Payload>> {
    if blocks == [] then []
    else
      var front, last := blocks[..|blocks| - 1], blocks[|blocks| - 1];
      if n <= |Flat(front)| then CutBlocks(front, n)
      else if n >= |Flat(front)| + |last| then blocks
      else front + [last[..n - |Flat(front)|]]
  }

  /** A session on an opened log. */
  function Fresh(file: Store, book: Ledger): Session {
    var log := Payloads(file.lines);
    var history := Filtered(Replayed(log));
    Session(file, history, [], None, Idle, book.(base := log, intent := [], kept := 0, snapshot := history))
  }

  function Introduced(s: Session, cwd: string, time: int, size: nat, ok: bool): Session {
    if s.store.ordinal == 0 then Recorded(s.(book := s.book.(lead := [SessionMeta(cwd)])), SessionMeta(cwd), time, size, ok)
    else s
  }

  /** The first session on a log, which may be new, or hold anything. */
  function Booted(file: Store, cwd: string, time: int, size: nat, ok: bool): Session {
    Introduced(Fresh(file, Ledger(Payloads(file.lines), [], [], {}, [], [], 0, [])), cwd, time, size, ok)
  }

  /** The account after the process ends, at any moment, and another one opens the log. */
  function Reopened(s: Session): Ledger {
    var n := |s.store.lines|;
    var earlier := if n < |s.book.lead| then [] else CutBlocks(s.book.earlier + BlocksOf(s.tasks), n - |s.book.lead|);
    var ids := s.book.ids + IdsOf(s.tasks);
    s.book.(earlier := earlier,
            ids := if |earlier| <= |ids| then ids[..|earlier|] else ids,
            restarts := s.book.restarts + {|earlier|})
  }

  // ----- the steps -----

  datatype Action =
    // a client submits something, and the loop looks at the active turn
    | SubmitInput(id: string, input: TurnInput, expected: string)
    | SubmitInterrupt(expected: string)
    | SubmitShutdown
    // the loop goes on
    | Deliver
    | Spawn(startedAt: int, instructions: Option<string>)
    | LookBeforeAbort
    | CancelTurn
    | AbortedTurnGone
    // the goroutine of a turn goes on
    | Turn(task: nat, step: TurnAction)
    | Flush(task: nat, time: int, size: nat, ok: bool)
    | Clear(task: nat)
    | Close(task: nat)
    // the process ends and another one resumes
    | Restart(cwd: string, time: int, size: nat, ok: bool)

  predicate Possible(s: Session, a: Action) {
    match a
    case SubmitInput(_, _, _) => s.loop.Idle?
    case SubmitInterrupt(_) => s.loop.Idle?
    case SubmitShutdown => s.loop.Idle?
    case Deliver => s.loop.Steering? && s.loop.task < |s.tasks|
    case Spawn(_, _) => s.loop.Spawning?
    case LookBeforeAbort => s.loop.Interrupting? && (s.active.Some? ==> s.active.value < |s.tasks|)
    case CancelTurn => s.loop.Cancelling? && s.loop.task < |s.tasks|
    case AbortedTurnGone => s.loop.Aborting? && s.loop.task < |s.tasks| && s.tasks[s.loop.task].pc.Gone?
    case Turn(k, step) => k < |s.tasks| && Enabled(s.tasks[k], Normalized(s.history), step)
    case Flush(k, _, _, _) => k < |s.tasks| && s.tasks[k].queue != []
    case Clear(k) => k < |s.tasks| && s.tasks[k].pc.Ended? && s.tasks[k].queue == []
    case Close(k) => k < |s.tasks| && s.tasks[k].pc.Cleared?
    case Restart(_, _, _, _) => Opened(s.store.lines).Some?
  }

  function ActiveId(s: Session): string {
    if s.active.Some? && s.active.value < |s.tasks| then s.tasks[s.active.value].id else ""
  }

  /** Input with neither text nor an image is refused. */
  predicate ValidInput(input: TurnInput) {
    !Blank(input.text) || input.imageUrls != []
  }

  function LoopAfterInput(s: Session, id: string, input: TurnInput, expected: string): Loop {
    if !ValidInput(input) then Idle
    else if s.active.Some? then
      if expected != "" && expected != ActiveId(s) then Idle else Steering(s.active.value, expected, input)
    else if expected != "" then Idle
    else Interrupting("", "replaced", ThenStart(id, input))
  }

  function LoopAfterInterrupt(s: Session, expected: string): Loop {
    if expected != "" && ActiveId(s) != expected then Idle else Interrupting(expected, "interrupted", ThenIdle)
  }

  function LoopAfterAbort(after: After): Loop {
    match after
    case ThenIdle => Idle
    case ThenStop => Stopped
    case ThenStart(id, input) => Spawning(id, input)
  }

  function Next(s: Session, a: Action): Session
    requires Possible(s, a)
  {
    match a
    case SubmitInput(id, input, expected) => s.(loop := LoopAfterInput(s, id, input, expected))
    case SubmitInterrupt(expected) => s.(loop := LoopAfterInterrupt(s, expected))
    case SubmitShutdown => s.(loop := Interrupting("", "shutdown", ThenStop))
    case Deliver =>
      var k := s.loop.task;
      s.(tasks := s.tasks[k := Steered(s.tasks[k], s.loop.input)], loop := Idle)
    case Spawn(startedAt, instructions) =>
      s.(tasks := s.tasks + [NewTask(s.loop.id, startedAt, s.loop.input, instructions)],
         active := Some(|s.tasks|),
         loop := Idle)
    case LookBeforeAbort =>
      s.(loop := if s.active.Some? then Cancelling(s.active.value, s.loop.expected, s.loop.reason, s.loop.after)
                 else LoopAfterAbort(s.loop.after))
    case CancelTurn =>
      var k := s.loop.task;
      s.(tasks := s.tasks[k := Cancelled(s.tasks[k], s.loop.reason)], loop := Aborting(k, s.loop.after))
    case AbortedTurnGone => s.(loop := LoopAfterAbort(s.loop.after))
    case Turn(k, step) => s.(tasks := s.tasks[k := Advanced(s.tasks[k], Normalized(s.history), step)])
    case Flush(k, time, size, ok) =>
      Recorded(s.(tasks := s.tasks[k := Flushed(s.tasks[k])]), s.tasks[k].queue[0], time, size, ok)
    case Clear(k) =>
      s.(tasks := s.tasks[k := s.tasks[k].(pc := Cleared)], active := if s.active == Some(k) then None else s.active)
    case Close(k) => s.(tasks := s.tasks[k := s.tasks[k].(pc := Gone)])
    case Restart(cwd, time, size, ok) => Introduced(Fresh(Opened(s.store.lines).value, Reopened(s)), cwd, time, size, ok)
  }

  /** A run does one thing after another; what is not possible does not happen. */
  function Run(s: Session, actions: seq<Action>): Session
    decreases |actions|
  {
    if actions == [] then s
    else Run(if Possible(s, actions[0]) then Next(s, actions[0]) else s, actions[1..])
  }

  lemma {:induction false} RunInParts(s: Session, a: seq<Action>, b: seq<Action>)
    ensures Run(s, a + b) == Run(Run(s, a), b)
    decreases |a|
  {
    hide Next, Possible;
    if a == [] {
      EmptyUnit(b);
    } else {
      assert (a + b)[1..] == a[1..] + b;
      RunInParts(if Possible(s, a[0]) then Next(s, a[0]) else s, a[1..], b);
    }
  }
}
