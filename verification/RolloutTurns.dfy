/** Rebuilding turns from the rollout log. */
module RolloutTurns {
  import opened Seqs
  import opened Wrappers
  import opened Protocol

  datatype Status = InProgress | Completed | FailedTurn | Interrupted

  datatype StoredTurn = StoredTurn(
    id: string,
    status: Status,
    items: seq<ResponseItem>,
    startedAt: int,
    completedAt: int,
    error: Option<string>,
    usage: Option<Usage>,
    lastAgentMessage: Option<string>,
    responseId: string)

  // ----- the reader -----

  function Started(id: string, startedAt: int): StoredTurn {
    StoredTurn(id, InProgress, [], startedAt, 0, None, None, None, "")
  }

  /** What one payload does to the turn that is being rebuilt. */
  function TurnStep(turn: StoredTurn, payload: Payload): StoredTurn {
    match payload
    case Item(item) => turn.(items := turn.items + [item])
    case Event(TurnComplete(_, c)) =>
      turn.(status := if c.error.Some? then FailedTurn else Completed,
            completedAt := c.completedAt,
            error := c.error,
            usage := c.usage,
            lastAgentMessage := c.lastAgentMessage,
            responseId := c.responseId)
    case Event(TurnAborted(_, _, completedAt)) => turn.(status := Interrupted, completedAt := completedAt)
    case _ => turn
  }

  predicate IsStart(payload: Payload) {
    payload.Event? && payload.msg.TurnStarted?
  }

  function TurnsStep(turns: seq<StoredTurn>, payload: Payload): seq<StoredTurn> {
    if IsStart(payload) then turns + [Started(payload.msg.turnId, payload.msg.startedAt)]
    else if turns == [] then turns
    else turns[|turns| - 1 := TurnStep(turns[|turns| - 1], payload)]
  }

  function TurnsOf(payloads: seq<Payload>): seq<StoredTurn> {
    if payloads == [] then []
    else TurnsStep(TurnsOf(payloads[..|payloads| - 1]), payloads[|payloads| - 1])
  }

  lemma TurnsOfAppend(payloads: seq<Payload>, payload: Payload)
    ensures TurnsOf(payloads + [payload]) == TurnsStep(TurnsOf(payloads), payload)
  {
    assert (payloads + [payload])[..|payloads|] == payloads;
  }

  method ReadRolloutTurns(events: seq<Payload>) returns (turns: seq<StoredTurn>)
    ensures turns == TurnsOf(events)
  {
    turns := [];
    var current := -1;
    for i := 0 to |events|
      invariant turns == TurnsOf(events[..i])
      invariant current == |turns| - 1
    {
      assert events[..i + 1] == events[..i] + [events[i]];
      TurnsOfAppend(events[..i], events[i]);
      match events[i]
      case Event(msg) =>
        if msg.TurnStarted? {
          turns := turns + [Started(msg.turnId, msg.startedAt)];
          current := |turns| - 1;
        }
        if current >= 0 && msg.TurnComplete? {
          var status := Completed;
          if msg.completion.error.Some? {
            status := FailedTurn;
          }
          turns := turns[current := turns[current].(
                           status := status,
                           completedAt := msg.completion.completedAt,
                           error := msg.completion.error,
                           usage := msg.completion.usage,
                           lastAgentMessage := msg.completion.lastAgentMessage,
                           responseId := msg.completion.responseId)];
        }
        if current >= 0 && msg.TurnAborted? {
          turns := turns[current := turns[current].(status := Interrupted, completedAt := msg.completedAt)];
        }
      case Item(item) =>
        if current >= 0 {
          turns := turns[current := turns[current].(items := turns[current].items + [item])];
        }
      case _ =>
    }
    assert events[..|events|] == events;
  }

  // ----- blocks -----

  predicate IsTerminal(payload: Payload) {
    payload.Event? && (payload.msg.TurnComplete? || payload.msg.TurnAborted?)
  }

  /** The stretch of the log written by one turn: it starts with the turn's start event, has
      no other one, and only its last payload may be a terminal event, of the same turn. */
  predicate Block(payloads: seq<Payload>, id: string) {
    && payloads != []
    && IsStart(payloads[0]) && payloads[0].msg.turnId == id
    && (forall i :: 1 <= i < |payloads| ==> !IsStart(payloads[i]))
    && (forall i :: 1 <= i < |payloads| && IsTerminal(payloads[i]) ==>
          i == |payloads| - 1 && payloads[i].msg.turnId == id)
  }

  predicate ClosedBlock(payloads: seq<Payload>, id: string) {
    Block(payloads, id) && IsTerminal(payloads[|payloads| - 1])
  }

  function ItemsOf(payloads: seq<Payload>): seq<ResponseItem> {
    if payloads == [] then []
    else
      var last := payloads[|payloads| - 1];
      ItemsOf(payloads[..|payloads| - 1]) + (if last.Item? then [last.item] else [])
  }

  lemma ItemsOfAppend(payloads: seq<Payload>, payload: Payload)
    ensures ItemsOf(payloads + [payload]) == ItemsOf(payloads) + (if payload.Item? then [payload.item] else [])
  {
    assert (payloads + [payload])[..|payloads|] == payloads;
  }

  /** What a block says about its turn, read off its first and last payload. */
  function Summary(payloads: seq<Payload>): StoredTurn
    requires payloads != [] && IsStart(payloads[0])
  {
    var start, last := payloads[0].msg, payloads[|payloads| - 1];
    var open := Started(start.turnId, start.startedAt).(items := ItemsOf(payloads));
    if !IsTerminal(last) then open
    else if last.msg.TurnAborted? then open.(status := Interrupted, completedAt := last.msg.completedAt)
    else
      var c := last.msg.completion;
      open.(status := if c.error.Some? then FailedTurn else Completed,
            completedAt := c.completedAt, error := c.error, usage := c.usage,
            lastAgentMessage := c.lastAgentMessage, responseId := c.responseId)
  }

  /** Cutting a block anywhere behind its first payload leaves a block, and an open one
      unless nothing was cut. */
  lemma BlockPrefix(payloads: seq<Payload>, id: string, n: nat)
    requires Block(payloads, id) && 1 <= n <= |payloads|
    ensures Block(payloads[..n], id)
    ensures n < |payloads| ==> !ClosedBlock(payloads[..n], id)
  {
  }

  lemma SummaryStep(payloads: seq<Payload>, payload: Payload)
    requires payloads != [] && IsStart(payloads[0])
    requires !IsTerminal(payloads[|payloads| - 1]) && !IsStart(payload)
    ensures Summary(payloads + [payload]) == TurnStep(Summary(payloads), payload)
  {
    hide ItemsOf;
    ItemsOfAppend(payloads, payload);
    EmptyUnit(ItemsOf(payloads));
  }

  lemma SummaryStart(start: Payload)
    requires IsStart(start)
    ensures Summary([start]) == Started(start.msg.turnId, start.msg.startedAt)
  {
    assert [start][..0] == [];
    assert ItemsOf([start]) == [];
  }

  /** Reading a block after any log adds one turn, the block's own. */
  lemma {:induction false} BlockAddsItsTurn(log: seq<Payload>, block: seq<Payload>, id: string)
    requires Block(block, id)
    ensures TurnsOf(log + block) == TurnsOf(log) + [Summary(block)]
    decreases |block|
  {
    hide TurnsOf, Summary, ItemsOf, TurnStep;
    var last := block[|block| - 1];
    var front := block[..|block| - 1];
    assert block == front + [last];
    if front == [] {
      EmptyUnit(block);
      SummaryStart(last);
      assert block == [last];
      TurnsOfAppend(log, last);
    } else {
      BlockPrefix(block, id, |block| - 1);
      BlockAddsItsTurn(log, front, id);
      Associative(log, front, [last]);
      TurnsOfAppend(log + front, last);
      SummaryStep(front, last);
    }
  }

  function Flat(blocks: seq<seq<Payload>>): seq<Payload> {
    if blocks == [] then [] else Flat(blocks[..|blocks| - 1]) + blocks[|blocks| - 1]
  }

  function Summaries(blocks: seq<seq<Payload>>): seq<StoredTurn>
    requires forall i :: 0 <= i < |blocks| ==> blocks[i] != [] && IsStart(blocks[i][0])
  {
    if blocks == [] then [] else Summaries(blocks[..|blocks| - 1]) + [Summary(blocks[|blocks| - 1])]
  }

  predicate Blocks(blocks: seq<seq<Payload>>, ids: seq<string>) {
    |blocks| == |ids| && forall i :: 0 <= i < |blocks| ==> Block(blocks[i], ids[i])
  }

  /** Reading any sequence of blocks gives one turn per block, in order. */
  lemma {:induction false} ReadingBlocks(log: seq<Payload>, blocks: seq<seq<Payload>>, ids: seq<string>)
    requires Blocks(blocks, ids)
    ensures TurnsOf(log + Flat(blocks)) == TurnsOf(log) + Summaries(blocks)
    decreases |blocks|
  {
    hide TurnsOf, Summary, Block;
    if blocks == [] {
      EmptyUnit(log);
      EmptyUnit(TurnsOf(log));
    } else {
      var n := |blocks| - 1;
      BlockStarts(blocks, ids);
      ReadingBlocks(log, blocks[..n], ids[..n]);
      BlockAddsItsTurn(log + Flat(blocks[..n]), blocks[n], ids[n]);
      Associative(log, Flat(blocks[..n]), blocks[n]);
      Associative(TurnsOf(log), Summaries(blocks[..n]), [Summary(blocks[n])]);
    }
  }

  lemma BlockStarts(blocks: seq<seq<Payload>>, ids: seq<string>)
    requires Blocks(blocks, ids)
    ensures forall i :: 0 <= i < |blocks| ==> blocks[i] != [] && IsStart(blocks[i][0])
  {
  }

  /** A forked log holds history but no turns. */
  lemma {:induction false} ForkHasNoTurns(payloads: seq<Payload>)
    requires forall i :: 0 <= i < |payloads| ==> !IsStart(payloads[i])
    ensures TurnsOf(payloads) == []
  {
    if payloads != [] {
      ForkHasNoTurns(payloads[..|payloads| - 1]);
    }
  }
}
