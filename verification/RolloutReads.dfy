/** What the readers of the log make of any log, also of one no session would write. */
module RolloutReads {
  import opened Seqs
  import opened Wrappers
  import opened Protocol
  import opened Rollout
  import opened RolloutTurns

  // ----- items and history -----

  /** The items of a log, in order and nothing else. */
  lemma {:induction false} ItemsInOrder(before: seq<Payload>, payload: Payload, after: seq<Payload>)
    ensures ItemsOf([]) == []
    ensures ItemsOf(before + [payload] + after) ==
      ItemsOf(before) + (if payload.Item? then [payload.item] else []) + ItemsOf(after)
    decreases |after|
  {
    if after == [] {
      EmptyUnit(before + [payload]);
      ItemsOfAppend(before, payload);
      EmptyUnit(ItemsOf(before + [payload]));
    } else {
      var n := |after| - 1;
      ItemsInOrder(before, payload, after[..n]);
      Associative(before + [payload], after[..n], [after[n]]);
      assert after == after[..n] + [after[n]];
      ItemsOfAppend(before + [payload] + after[..n], after[n]);
      ItemsOfAppend(after[..n], after[n]);
      hide ItemsOf;
      Associative(ItemsOf(before) + (if payload.Item? then [payload.item] else []), ItemsOf(after[..n]),
                  if after[n].Item? then [after[n].item] else []);
    }
  }

  lemma ItemsOne(payload: Payload)
    ensures ItemsOf([payload]) == if payload.Item? then [payload.item] else []
  {
    EmptyUnit([payload]);
    EmptyUnit(if payload.Item? then [payload.item] else []);
    ItemsInOrder([], payload, []);
  }

  /** The conversation a log tells: all its items, if it was never compacted. */
  lemma {:induction false} ReplayedUncompacted(log: seq<Payload>)
    requires forall i :: 0 <= i < |log| ==> !log[i].Compacted?
    ensures Replayed(log) == ItemsOf(log)
  {
    if log != [] {
      ReplayedUncompacted(log[..|log| - 1]);
    }
  }

  /** And else what the newest compaction, `j`, left, and the items since. */
  lemma {:induction false} ReplayedSinceCompaction(log: seq<Payload>, j: nat)
    requires j < |log| && log[j].Compacted? && forall i :: j < i < |log| ==> !log[i].Compacted?
    ensures Replayed(log) == log[j].replacement + ItemsOf(log[j + 1..])
  {
    hide ItemsOf, Replayed;
    var n := |log| - 1;
    ReplayedStep(log);
    if j == n {
      NoItems();
      assert log[j + 1..] == [];
      EmptyUnit(log[j].replacement);
    } else {
      var front, last := log[..n], log[n];
      ReplayedSinceCompaction(front, j);
      assert log[j + 1..] == front[j + 1..] + [last];
      ItemsOfAppend(front[j + 1..], last);
      EmptyUnit(ItemsOf(front[j + 1..]));
      Associative(log[j].replacement, ItemsOf(front[j + 1..]), if last.Item? then [last.item] else []);
    }
  }

  lemma NoItems()
    ensures ItemsOf([]) == []
  {
  }

  lemma ReplayedStep(log: seq<Payload>)
    requires log != []
    ensures var before, last := Replayed(log[..|log| - 1]), log[|log| - 1];
      Replayed(log) == if last.Compacted? then last.replacement else if last.Item? then before + [last.item] else before
  {
  }

  // ----- numbers and pages -----

  /** The next number is the least one beyond all numbers of the log. */
  lemma {:induction false} NextOrdinalIs(lines: seq<Line>)
    ensures forall i :: 0 <= i < |lines| ==> lines[i].ordinal < NextOrdinal(lines)
    ensures NextOrdinal(lines) == 0 || exists i :: 0 <= i < |lines| && NextOrdinal(lines) == lines[i].ordinal + 1
  {
    if lines != [] {
      var n := |lines| - 1;
      NextOrdinalIs(lines[..n]);
      assert forall i :: 0 <= i < n ==> lines[..n][i] == lines[i];
    }
  }

  /** A page holds the lines from the cursor on, in order; the next cursor is the least one that
      is beyond all of them and not before the last. */
  lemma {:induction false} PageHolds(before: seq<Line>, line: Line, more: seq<Line>, after: nat)
    ensures EventsFrom([], after) == []
    ensures EventsFrom(before + [line] + more, after) ==
      EventsFrom(before, after) + (if line.ordinal >= after then [line] else []) + EventsFrom(more, after)
    decreases |more|
  {
    var all := before + [line] + more;
    if more == [] {
      EmptyUnit(before + [line]);
      assert all[..|all| - 1] == before;
      EmptyUnit(EventsFrom(before, after) + (if line.ordinal >= after then [line] else []));
    } else {
      var n := |more| - 1;
      assert all[..|all| - 1] == before + [line] + more[..n];
      PageHolds(before, line, more[..n], after);
      Associative(EventsFrom(before, after) + (if line.ordinal >= after then [line] else []), EventsFrom(more[..n], after),
                  if more[n].ordinal < after then [] else [more[n]]);
    }
  }

  lemma {:induction false} CursorIs(lines: seq<Line>, after: nat)
    ensures var next := CursorAfter(lines, after);
      && after <= next && (forall i :: 0 <= i < |lines| ==> lines[i].ordinal < next)
      && (next == after || exists i :: 0 <= i < |lines| && next == lines[i].ordinal + 1)
  {
    if lines != [] {
      var n := |lines| - 1;
      CursorIs(lines[..n], after);
      assert forall i :: 0 <= i < n ==> lines[..n][i] == lines[i];
    }
  }

  /** A reader gets to the first line of four megabytes or more. */
  lemma {:induction false} ReadableIs(lines: seq<Line>) returns (n: nat)
    ensures n <= |lines| && Readable(lines) == lines[..n]
    ensures forall i :: 0 <= i < n ==> lines[i].size < 4 * 1024 * 1024
    ensures n < |lines| ==> lines[n].size >= 4 * 1024 * 1024
  {
    n := 0;
    if lines != [] && Fits(lines[0]) {
      n := ReadableIs(lines[1..]);
      n := n + 1;
    }
  }

  // ----- turns -----

  /** The stretch of any log from one start event to the next. */
  predicate Stretch(payloads: seq<Payload>) {
    payloads != [] && IsStart(payloads[0]) && forall i :: 1 <= i < |payloads| ==> !IsStart(payloads[i])
  }

  predicate LastOf(payloads: seq<Payload>, j: nat, which: Payload -> bool) {
    j < |payloads| && which(payloads[j]) && forall i :: j < i < |payloads| ==> !which(payloads[i])
  }

  predicate IsCompletion(payload: Payload) {
    payload.Event? && payload.msg.TurnComplete?
  }

  predicate Without(payloads: seq<Payload>, which: Payload -> bool) {
    forall i :: 0 <= i < |payloads| ==> !which(payloads[i])
  }

  /** What a stretch tells about its turn: how it started, all its items, how the last closing
      event says it ended, and what the last completion reports. */
  ghost predicate StretchTells(payloads: seq<Payload>, turn: StoredTurn)
    requires Stretch(payloads)
  {
    && turn.id == payloads[0].msg.turnId && turn.startedAt == payloads[0].msg.startedAt
    && turn.items == ItemsOf(payloads)
    && (Without(payloads, IsTerminal) ==> turn.status == InProgress && turn.completedAt == 0)
    && (forall j: nat :: LastOf(payloads, j, IsTerminal) ==> EndsLike(turn, payloads[j].msg))
    && (Without(payloads, IsCompletion) ==>
        turn.error == turn.lastAgentMessage == None && turn.usage == None && turn.responseId == "")
    && (forall j: nat :: LastOf(payloads, j, IsCompletion) ==> Reports(turn, payloads[j].msg.completion))
  }

  predicate EndsLike(turn: StoredTurn, msg: EventMsg)
    requires msg.TurnComplete? || msg.TurnAborted?
  {
    match msg
    case TurnAborted(_, _, completedAt) => turn.status == Interrupted && turn.completedAt == completedAt
    case TurnComplete(_, c) =>
      turn.status == (if c.error.Some? then FailedTurn else Completed) && turn.completedAt == c.completedAt
  }

  predicate Reports(turn: StoredTurn, c: Completion) {
    turn.error == c.error && turn.usage == c.usage && turn.lastAgentMessage == c.lastAgentMessage && turn.responseId == c.responseId
  }

  lemma TellsStart(start: Payload)
    requires IsStart(start)
    ensures Stretch([start]) && StretchTells([start], Started(start.msg.turnId, start.msg.startedAt))
  {
    ItemsOne(start);
  }

  lemma LastMoves(payloads: seq<Payload>, last: Payload, which: Payload -> bool)
    ensures var more := payloads + [last];
      && (which(last) ==> forall j: nat :: LastOf(more, j, which) <==> j == |payloads|)
      && (!which(last) ==> forall j: nat :: LastOf(more, j, which) ==> j < |payloads| && LastOf(payloads, j, which))
      && (Without(more, which) <==> Without(payloads, which) && !which(last))
  {
    var more := payloads + [last];
    assert more[|payloads|] == last && forall i :: 0 <= i < |payloads| ==> more[i] == payloads[i];
  }

  lemma TellsMore(payloads: seq<Payload>, last: Payload, turn: StoredTurn)
    requires Stretch(payloads) && StretchTells(payloads, turn) && !IsStart(last)
    ensures Stretch(payloads + [last]) && StretchTells(payloads + [last], TurnStep(turn, last))
  {
    hide LastOf, Without, ItemsOf;
    var more := payloads + [last];
    assert more[0] == payloads[0] && forall i :: 1 <= i < |payloads| ==> more[i] == payloads[i];
    ItemsOfAppend(payloads, last);
    EmptyUnit(ItemsOf(payloads));
    LastMoves(payloads, last, IsTerminal);
    LastMoves(payloads, last, IsCompletion);
  }

  /** A beginning without start events, and then stretches, whose turns are those of the log. */
  ghost predicate ReadsAs(log: seq<Payload>, lead: seq<Payload>, stretches: seq<seq<Payload>>) {
    && log == lead + Flat(stretches)
    && (forall i :: 0 <= i < |lead| ==> !IsStart(lead[i]))
    && (forall i :: 0 <= i < |stretches| ==> Stretch(stretches[i]))
    && |TurnsOf(log)| == |stretches|
    && forall i :: 0 <= i < |stretches| ==> StretchTells(stretches[i], TurnsOf(log)[i])
  }

  lemma ReadsStart(log: seq<Payload>, start: Payload, lead: seq<Payload>, stretches: seq<seq<Payload>>)
    requires ReadsAs(log, lead, stretches) && IsStart(start)
    ensures ReadsAs(log + [start], lead, stretches + [[start]])
  {
    hide Stretch, StretchTells, Flat, TurnsOf;
    TurnsOfAppend(log, start);
    TellsStart(start);
    FlatMore(stretches, [start]);
    Associative(lead, Flat(stretches), [start]);
  }

  lemma ReadsLead(log: seq<Payload>, last: Payload, lead: seq<Payload>)
    requires ReadsAs(log, lead, []) && !IsStart(last)
    ensures ReadsAs(log + [last], lead + [last], [])
  {
    TurnsOfAppend(log, last);
    EmptyUnit(lead);
    EmptyUnit(lead + [last]);
  }

  lemma ReadsMore(log: seq<Payload>, last: Payload, lead: seq<Payload>, others: seq<seq<Payload>>, stretch: seq<Payload>)
    requires ReadsAs(log, lead, others + [stretch]) && !IsStart(last)
    ensures ReadsAs(log + [last], lead, others + [stretch + [last]])
  {
    hide Stretch, StretchTells, Flat, TurnsOf, TurnStep;
    var m := |others|;
    assert (others + [stretch])[m] == stretch && forall i :: 0 <= i < m ==> (others + [stretch])[i] == others[i];
    TurnsOfAppend(log, last);
    TellsMore(stretch, last, TurnsOf(log)[m]);
    FlatMore(others, stretch);
    FlatMore(others, stretch + [last]);
    Associative(Flat(others), stretch, [last]);
    Associative(lead, Flat(others) + stretch, [last]);
  }

  /** Whatever the log holds, it is cut at its start events into stretches, behind a beginning
      without any, and its turns are what the stretches tell, one each. */
  lemma {:induction false} AnyLogReads(log: seq<Payload>) returns (lead: seq<Payload>, stretches: seq<seq<Payload>>)
    ensures ReadsAs(log, lead, stretches)
  {
    if log == [] {
      lead, stretches := [], [];
    } else {
      hide ReadsAs;
      var n := |log| - 1;
      lead, stretches := AnyLogReads(log[..n]);
      assert log == log[..n] + [log[n]];
      if IsStart(log[n]) {
        ReadsStart(log[..n], log[n], lead, stretches);
        stretches := stretches + [[log[n]]];
      } else if stretches == [] {
        ReadsLead(log[..n], log[n], lead);
        lead := lead + [log[n]];
      } else {
        var m := |stretches| - 1;
        assert stretches == stretches[..m] + [stretches[m]];
        ReadsMore(log[..n], log[n], lead, stretches[..m], stretches[m]);
        stretches := stretches[..m] + [stretches[m] + [log[n]]];
      }
    }
  }

  lemma FlatMore(blocks: seq<seq<Payload>>, block: seq<Payload>)
    ensures Flat(blocks + [block]) == Flat(blocks) + block
  {
    assert (blocks + [block])[..|blocks|] == blocks;
  }
}
