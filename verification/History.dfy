/** The live conversation history and the prompt it is turned into. */
module History {
  import opened Seqs
  import opened Protocol

  predicate Recordable(item: ResponseItem) {
    item.typ.Message? || item.typ.Reasoning? || item.typ.FunctionCall? || item.typ.FunctionCallOutput?
  }

  function Filtered(items: seq<ResponseItem>): seq<ResponseItem> {
    if items == [] then []
    else (if Recordable(items[0]) then [items[0]] else []) + Filtered(items[1..])
  }

  lemma {:induction false} FilteredAppend(a: seq<ResponseItem>, b: seq<ResponseItem>)
    ensures Filtered(a + b) == Filtered(a) + Filtered(b)
  {
    if a == [] {
      EmptyUnit(b);
      EmptyUnit(Filtered(b));
    } else {
      var head := if Recordable(a[0]) then [a[0]] else [];
      assert (a + b)[1..] == a[1..] + b;
      FilteredAppend(a[1..], b);
      Associative(head, Filtered(a[1..]), Filtered(b));
    }
  }

  lemma {:induction false} FilteredTwice(items: seq<ResponseItem>)
    ensures Filtered(Filtered(items)) == Filtered(items)
  {
    if items != [] {
      FilteredTwice(items[1..]);
      if Recordable(items[0]) {
        assert ([items[0]] + Filtered(items[1..]))[1..] == Filtered(items[1..]);
      } else {
        EmptyUnit(Filtered(items[1..]));
      }
    }
  }

  lemma FilteredOne(item: ResponseItem)
    ensures Filtered([item]) == if Recordable(item) then [item] else []
  {
    assert [item][1..] == [];
    EmptyUnit(if Recordable(item) then [item] else []);
  }

  // ----- the prompt -----

  function CallIds(items: seq<ResponseItem>): set<string> {
    set i | 0 <= i < |items| && items[i].typ.FunctionCall? && items[i].callId != "" :: items[i].callId
  }

  function OutputIds(items: seq<ResponseItem>): set<string> {
    set i | 0 <= i < |items| && items[i].typ.FunctionCallOutput? && items[i].callId != "" :: items[i].callId
  }

  const ABORTED := "aborted"

  /** What one item contributes to the prompt: an output nobody asked for is dropped, a call
      nobody answered gets an output of its own. */
  function Repaired(item: ResponseItem, calls: set<string>, outputs: set<string>): seq<ResponseItem> {
    if item.typ.FunctionCallOutput? && item.callId !in calls then []
    else if item.typ.FunctionCall? && item.callId !in outputs then
      [item, NewFunctionCallOutput(item.callId, ABORTED)]
    else [item]
  }

  function RepairedAll(items: seq<ResponseItem>, calls: set<string>, outputs: set<string>): seq<ResponseItem> {
    if items == [] then [] else Repaired(items[0], calls, outputs) + RepairedAll(items[1..], calls, outputs)
  }

  function Normalized(items: seq<ResponseItem>): seq<ResponseItem> {
    RepairedAll(items, CallIds(items), OutputIds(items))
  }

  lemma {:induction false} RepairedAppend(a: seq<ResponseItem>, b: seq<ResponseItem>, calls: set<string>, outputs: set<string>)
    ensures RepairedAll(a + b, calls, outputs) == RepairedAll(a, calls, outputs) + RepairedAll(b, calls, outputs)
  {
    if a == [] {
      EmptyUnit(b);
      EmptyUnit(RepairedAll(b, calls, outputs));
    } else {
      assert (a + b)[1..] == a[1..] + b;
      RepairedAppend(a[1..], b, calls, outputs);
      Associative(Repaired(a[0], calls, outputs), RepairedAll(a[1..], calls, outputs), RepairedAll(b, calls, outputs));
    }
  }

  lemma RepairedOne(item: ResponseItem, calls: set<string>, outputs: set<string>)
    ensures RepairedAll([item], calls, outputs) == Repaired(item, calls, outputs)
  {
    assert [item][1..] == [];
    EmptyUnit(Repaired(item, calls, outputs));
  }

  method NormalizeForPrompt(items: seq<ResponseItem>) returns (normalized: seq<ResponseItem>)
    ensures normalized == Normalized(items)
  {
    var callIds: set<string> := {};
    var outputIds: set<string> := {};
    for i := 0 to |items|
      invariant callIds == CallIds(items[..i])
      invariant outputIds == OutputIds(items[..i])
    {
      var item := items[i];
      IdsOneMore(items, i);
      if item.typ.FunctionCall? && item.callId != "" {
        callIds := callIds + {item.callId};
      } else if item.typ.FunctionCallOutput? && item.callId != "" {
        outputIds := outputIds + {item.callId};
      }
    }
    assert items[..|items|] == items;

    normalized := [];
    for i := 0 to |items|
      invariant normalized == RepairedAll(items[..i], callIds, outputIds)
    {
      var item := items[i];
      assert items[..i + 1] == items[..i] + [item];
      RepairedAppend(items[..i], [item], callIds, outputIds);
      RepairedOne(item, callIds, outputIds);
      if item.typ.FunctionCallOutput? && item.callId !in callIds {
        EmptyUnit(normalized);
        continue;
      }
      ghost var before := normalized;
      normalized := normalized + [item];
      if item.typ.FunctionCall? && item.callId !in outputIds {
        normalized := normalized + [NewFunctionCallOutput(item.callId, ABORTED)];
        assert normalized == before + [item, NewFunctionCallOutput(item.callId, ABORTED)];
      }
    }
  }

  lemma IdsOneMore(items: seq<ResponseItem>, i: nat)
    requires i < |items|
    ensures CallIds(items[..i + 1]) == CallIds(items[..i]) +
      (if items[i].typ.FunctionCall? && items[i].callId != "" then {items[i].callId} else {})
    ensures OutputIds(items[..i + 1]) == OutputIds(items[..i]) +
      (if items[i].typ.FunctionCallOutput? && items[i].callId != "" then {items[i].callId} else {})
  {
    var a, b := items[..i], items[..i + 1];
    assert forall k :: 0 <= k < i ==> a[k] == b[k] == items[k];
    assert b[i] == items[i];
    if items[i].typ.FunctionCall? && items[i].callId != "" {
      assert items[i].callId in CallIds(b);
    }
    if items[i].typ.FunctionCallOutput? && items[i].callId != "" {
      assert items[i].callId in OutputIds(b);
    }
    assert forall id :: id in CallIds(a) ==> id in CallIds(b);
    assert forall id :: id in OutputIds(a) ==> id in OutputIds(b);
  }

  // ----- what a prompt guarantees -----

  predicate Answered(items: seq<ResponseItem>) {
    forall i :: 0 <= i < |items| && items[i].typ.FunctionCall? ==>
      exists j :: 0 <= j < |items| && items[j].typ.FunctionCallOutput? && items[j].callId == items[i].callId
  }

  predicate Matched(items: seq<ResponseItem>) {
    forall j :: 0 <= j < |items| && items[j].typ.FunctionCallOutput? ==>
      exists i :: 0 <= i < |items| && items[i].typ.FunctionCall? && items[i].callId == items[j].callId
  }

  /** Where the contribution of item `k` sits in the prompt. */
  lemma {:induction false} ContributionAt(items: seq<ResponseItem>, k: nat, calls: set<string>, outputs: set<string>)
    requires k < |items|
    ensures RepairedAll(items, calls, outputs)
         == RepairedAll(items[..k], calls, outputs) + (Repaired(items[k], calls, outputs) + RepairedAll(items[k + 1..], calls, outputs))
  {
    assert items == items[..k] + ([items[k]] + items[k + 1..]);
    RepairedAppend(items[..k], [items[k]] + items[k + 1..], calls, outputs);
    RepairedAppend([items[k]], items[k + 1..], calls, outputs);
    RepairedOne(items[k], calls, outputs);
  }

  lemma ContributionIn(items: seq<ResponseItem>, k: nat, x: ResponseItem, calls: set<string>, outputs: set<string>)
    requires k < |items| && x in Repaired(items[k], calls, outputs)
    ensures x in RepairedAll(items, calls, outputs)
  {
    ContributionAt(items, k, calls, outputs);
  }

  lemma {:induction false} OriginOf(items: seq<ResponseItem>, x: ResponseItem, calls: set<string>, outputs: set<string>)
    returns (k: nat)
    requires x in RepairedAll(items, calls, outputs)
    ensures k < |items| && x in Repaired(items[k], calls, outputs)
  {
    if x in Repaired(items[0], calls, outputs) {
      k := 0;
    } else {
      k := OriginOf(items[1..], x, calls, outputs);
      k := k + 1;
    }
  }

  lemma PromptAnswersCalls(items: seq<ResponseItem>)
    ensures Answered(Normalized(items))
  {
    hide Repaired, RepairedAll;
    var calls, outputs, prompt := CallIds(items), OutputIds(items), Normalized(items);
    forall i | 0 <= i < |prompt| && prompt[i].typ.FunctionCall?
      ensures exists j :: 0 <= j < |prompt| && prompt[j].typ.FunctionCallOutput? && prompt[j].callId == prompt[i].callId
    {
      var k := OriginOf(items, prompt[i], calls, outputs);
      var reply := ReplyTo(items, k, prompt[i]);
      var j :| 0 <= j < |prompt| && prompt[j] == reply;
    }
  }

  /** The output that answers a call of the prompt: one that was recorded, or the repair. */
  lemma ReplyTo(items: seq<ResponseItem>, k: nat, call: ResponseItem) returns (reply: ResponseItem)
    requires k < |items| && call.typ.FunctionCall? && call in Repaired(items[k], CallIds(items), OutputIds(items))
    ensures reply in Normalized(items) && reply.typ.FunctionCallOutput? && reply.callId == call.callId
  {
    var calls, outputs := CallIds(items), OutputIds(items);
    assert items[k] == call;
    if call.callId in outputs {
      var m :| 0 <= m < |items| && items[m].typ.FunctionCallOutput? && items[m].callId == call.callId != "";
      assert call.callId in calls;
      reply := items[m];
      ContributionIn(items, m, reply, calls, outputs);
    } else {
      reply := NewFunctionCallOutput(call.callId, ABORTED);
      ContributionIn(items, k, reply, calls, outputs);
    }
  }

  lemma PromptMatchesOutputs(items: seq<ResponseItem>)
    ensures Matched(Normalized(items))
  {
    hide RepairedAll;
    var calls, outputs, prompt := CallIds(items), OutputIds(items), Normalized(items);
    forall j | 0 <= j < |prompt| && prompt[j].typ.FunctionCallOutput?
      ensures exists i :: 0 <= i < |prompt| && prompt[i].typ.FunctionCall? && prompt[i].callId == prompt[j].callId
    {
      var k := OriginOf(items, prompt[j], calls, outputs);
      var m: nat := k;
      if items[k].typ.FunctionCallOutput? {
        m :| 0 <= m < |items| && items[m].typ.FunctionCall? && items[m].callId == items[k].callId;
      }
      ContributionIn(items, m, items[m], calls, outputs);
      var i :| 0 <= i < |prompt| && prompt[i] == items[m];
    }
  }

  /** Histories the repair leaves alone. */
  predicate Paired(items: seq<ResponseItem>) {
    forall i :: 0 <= i < |items| ==>
      && (items[i].typ.FunctionCall? ==> items[i].callId in OutputIds(items))
      && (items[i].typ.FunctionCallOutput? ==> items[i].callId in CallIds(items))
  }

  lemma {:induction false} RepairIsIdentity(items: seq<ResponseItem>, calls: set<string>, outputs: set<string>)
    requires forall i :: 0 <= i < |items| ==>
      && (items[i].typ.FunctionCall? ==> items[i].callId in outputs)
      && (items[i].typ.FunctionCallOutput? ==> items[i].callId in calls)
    ensures RepairedAll(items, calls, outputs) == items
  {
    if items != [] {
      RepairIsIdentity(items[1..], calls, outputs);
      assert [items[0]] + items[1..] == items;
    }
  }

  lemma PairedHistoryUnchanged(items: seq<ResponseItem>)
    requires Paired(items)
    ensures Normalized(items) == items
  {
    RepairIsIdentity(items, CallIds(items), OutputIds(items));
  }

  lemma PromptKeepsCall(items: seq<ResponseItem>, id: string)
    requires id in CallIds(items)
    ensures id in CallIds(Normalized(items))
  {
    hide RepairedAll;
    var prompt := Normalized(items);
    var k :| 0 <= k < |items| && items[k].typ.FunctionCall? && items[k].callId == id != "";
    ContributionIn(items, k, items[k], CallIds(items), OutputIds(items));
    var i :| 0 <= i < |prompt| && prompt[i] == items[k];
  }

  lemma PromptAddsNoCall(items: seq<ResponseItem>, id: string)
    requires id in CallIds(Normalized(items))
    ensures id in CallIds(items)
  {
    hide RepairedAll;
    var prompt := Normalized(items);
    var i :| 0 <= i < |prompt| && prompt[i].typ.FunctionCall? && prompt[i].callId == id != "";
    var k := OriginOf(items, prompt[i], CallIds(items), OutputIds(items));
    assert items[k] == prompt[i];
  }

  lemma AnsweredIds(prompt: seq<ResponseItem>)
    requires Answered(prompt)
    ensures CallIds(prompt) <= OutputIds(prompt)
  {
    forall id | id in CallIds(prompt)
      ensures id in OutputIds(prompt)
    {
      var i :| 0 <= i < |prompt| && prompt[i].typ.FunctionCall? && prompt[i].callId == id != "";
      var j :| 0 <= j < |prompt| && prompt[j].typ.FunctionCallOutput? && prompt[j].callId == id;
    }
  }

  lemma MatchedIds(prompt: seq<ResponseItem>)
    requires Matched(prompt)
    ensures OutputIds(prompt) <= CallIds(prompt)
  {
    forall id | id in OutputIds(prompt)
      ensures id in CallIds(prompt)
    {
      var j :| 0 <= j < |prompt| && prompt[j].typ.FunctionCallOutput? && prompt[j].callId == id != "";
      var i :| 0 <= i < |prompt| && prompt[i].typ.FunctionCall? && prompt[i].callId == id;
    }
  }

  /** The identifiers of a prompt: the calls stay, and afterwards every one is answered. */
  lemma PromptIds(items: seq<ResponseItem>)
    ensures CallIds(Normalized(items)) == CallIds(items)
    ensures OutputIds(Normalized(items)) == CallIds(items)
  {
    hide *;
    var prompt := Normalized(items);
    forall id | id in CallIds(items) ensures id in CallIds(prompt) {
      PromptKeepsCall(items, id);
    }
    forall id | id in CallIds(prompt) ensures id in CallIds(items) {
      PromptAddsNoCall(items, id);
    }
    PromptAnswersCalls(items);
    PromptMatchesOutputs(items);
    AnsweredIds(prompt);
    MatchedIds(prompt);
  }

  /** Repairing one item's contribution again, with every call answered, changes nothing. */
  lemma RepairedTwice(item: ResponseItem, calls: set<string>, outputs: set<string>)
    requires "" !in calls && "" !in outputs
    requires item.typ.FunctionCall? && item.callId != "" ==> item.callId in calls
    ensures RepairedAll(Repaired(item, calls, outputs), calls, calls) == Repaired(item, calls, outputs)
  {
    var once := Repaired(item, calls, outputs);
    if once == [item] {
      RepairedOne(item, calls, calls);
    } else if once != [] {
      var reply := NewFunctionCallOutput(item.callId, ABORTED);
      RepairedAppend([item], [reply], calls, calls);
      RepairedOne(item, calls, calls);
      RepairedOne(reply, calls, calls);
      assert once == [item] + [reply];
    }
  }

  lemma {:induction false} RepairedAllTwice(items: seq<ResponseItem>, calls: set<string>, outputs: set<string>)
    requires "" !in calls && "" !in outputs
    requires forall i :: 0 <= i < |items| && items[i].typ.FunctionCall? && items[i].callId != "" ==> items[i].callId in calls
    ensures RepairedAll(RepairedAll(items, calls, outputs), calls, calls) == RepairedAll(items, calls, outputs)
  {
    hide Repaired;
    if items != [] {
      RepairedTwice(items[0], calls, outputs);
      RepairedAllTwice(items[1..], calls, outputs);
      RepairedAppend(Repaired(items[0], calls, outputs), RepairedAll(items[1..], calls, outputs), calls, calls);
    }
  }

  /** Preparing a prompt twice is preparing it once, for any history. */
  lemma NormalizationIdempotent(items: seq<ResponseItem>)
    ensures Normalized(Normalized(items)) == Normalized(items)
  {
    hide RepairedAll;
    PromptIds(items);
    RepairedAllTwice(items, CallIds(items), OutputIds(items));
  }

  /** Everything that is not an output keeps its place among its kind. */
  function NonOutputs(items: seq<ResponseItem>): seq<ResponseItem> {
    if items == [] then []
    else (if items[0].typ.FunctionCallOutput? then [] else [items[0]]) + NonOutputs(items[1..])
  }

  /** The outputs for the given calls, in order. */
  function OutputsFor(items: seq<ResponseItem>, ids: set<string>): seq<ResponseItem> {
    if items == [] then []
    else (if items[0].typ.FunctionCallOutput? && items[0].callId in ids then [items[0]] else []) + OutputsFor(items[1..], ids)
  }

  lemma {:induction false} NonOutputsAppend(a: seq<ResponseItem>, b: seq<ResponseItem>)
    ensures NonOutputs(a + b) == NonOutputs(a) + NonOutputs(b)
  {
    if a == [] {
      EmptyUnit(b);
      EmptyUnit(NonOutputs(b));
    } else {
      assert (a + b)[1..] == a[1..] + b;
      NonOutputsAppend(a[1..], b);
      Associative(if a[0].typ.FunctionCallOutput? then [] else [a[0]], NonOutputs(a[1..]), NonOutputs(b));
    }
  }

  lemma {:induction false} OutputsForAppend(a: seq<ResponseItem>, b: seq<ResponseItem>, ids: set<string>)
    ensures OutputsFor(a + b, ids) == OutputsFor(a, ids) + OutputsFor(b, ids)
  {
    if a == [] {
      EmptyUnit(b);
      EmptyUnit(OutputsFor(b, ids));
    } else {
      assert (a + b)[1..] == a[1..] + b;
      OutputsForAppend(a[1..], b, ids);
      Associative(if a[0].typ.FunctionCallOutput? && a[0].callId in ids then [a[0]] else [], OutputsFor(a[1..], ids), OutputsFor(b, ids));
    }
  }

  lemma RepairedParts(item: ResponseItem, calls: set<string>, outputs: set<string>)
    ensures NonOutputs(Repaired(item, calls, outputs)) == NonOutputs([item])
    ensures OutputsFor(Repaired(item, calls, outputs), outputs) == OutputsFor([item], outputs * calls)
  {
    var once := Repaired(item, calls, outputs);
    assert [item][1..] == [];
    if |once| == 2 {
      assert once[1..] == [once[1]];
      assert once[1..][1..] == [];
      assert OutputsFor(once[1..], outputs) == [];
    }
  }

  /** Beyond dropping outputs without a call and adding outputs for unanswered calls, the
      repair keeps every item in its order: all items that are not outputs, and all recorded
      outputs of recorded calls. */
  lemma {:induction false} RepairKeepsTheRest(items: seq<ResponseItem>, calls: set<string>, outputs: set<string>)
    ensures NonOutputs(RepairedAll(items, calls, outputs)) == NonOutputs(items)
    ensures OutputsFor(RepairedAll(items, calls, outputs), outputs) == OutputsFor(items, outputs * calls)
  {
    hide Repaired;
    if items != [] {
      RepairedParts(items[0], calls, outputs);
      RepairKeepsTheRest(items[1..], calls, outputs);
      NonOutputsAppend(Repaired(items[0], calls, outputs), RepairedAll(items[1..], calls, outputs));
      OutputsForAppend(Repaired(items[0], calls, outputs), RepairedAll(items[1..], calls, outputs), outputs);
      NonOutputsAppend([items[0]], items[1..]);
      OutputsForAppend([items[0]], items[1..], outputs * calls);
      assert [items[0]] + items[1..] == items;
    }
  }

  // ----- unroutable calls -----

  const INVALID_CALL := "invalid_function_call"

  /** The identifier under which the error of an unroutable call is recorded. */
  function ReplyId(callId: string): string {
    if callId == "" then INVALID_CALL else callId
  }

  /** The error recorded for a call without a usable name or identifier reaches a prompt,
      whatever the response and its tools add in between, exactly when the call has an
      identifier or some other call has the stand-in for one. */
  lemma ErrorReachesPromptIff(items: seq<ResponseItem>, call: ResponseItem, error: string, more: seq<ResponseItem>)
    requires call.typ.FunctionCall?
    ensures var reply := NewFunctionCallOutput(ReplyId(call.callId), error);
      reply in Normalized(items + [call, reply] + more) <==>
        call.callId != "" || INVALID_CALL in CallIds(items) || INVALID_CALL in CallIds(more)
  {
    hide RepairedAll;
    var reply := NewFunctionCallOutput(ReplyId(call.callId), error);
    var all := items + [call, reply] + more;
    var n := |items|;
    CallIdsAround(items, call, reply, more);
    assert all[n] == call && all[n + 1] == reply;
    if reply.callId in CallIds(all) {
      ContributionIn(all, n + 1, reply, CallIds(all), OutputIds(all));
    } else if reply in Normalized(all) {
      var k := OriginOf(all, reply, CallIds(all), OutputIds(all));
    }
  }

  lemma CallIdsAround(items: seq<ResponseItem>, call: ResponseItem, reply: ResponseItem, more: seq<ResponseItem>)
    requires call.typ.FunctionCall? && !reply.typ.FunctionCall?
    ensures CallIds(items + [call, reply] + more) ==
      CallIds(items) + (if call.callId != "" then {call.callId} else {}) + CallIds(more)
  {
    var all, n := items + [call, reply] + more, |items|;
    assert all[n] == call && all[n + 1] == reply;
    assert forall k :: 0 <= k < n ==> items[k] == all[k];
    assert forall k :: 0 <= k < |more| ==> more[k] == all[n + 2 + k];
    assert forall k :: n + 2 <= k < |all| ==> all[k] == more[k - (n + 2)];
    forall id
      ensures id in CallIds(all) <==> id in CallIds(items) || id in CallIds(more) || (id == call.callId && id != "")
    {
      if id in CallIds(items) {
        var k :| 0 <= k < n && items[k].typ.FunctionCall? && items[k].callId == id != "";
        assert all[k].callId == id;
      }
      if id in CallIds(more) {
        var k :| 0 <= k < |more| && more[k].typ.FunctionCall? && more[k].callId == id != "";
        assert all[n + 2 + k].callId == id;
      }
    }
  }

  // ----- the live history -----

  class ConversationHistory {
    var items: seq<ResponseItem>

    constructor ()
      ensures items == []
    {
      items := [];
    }

    method RecordItems(more: seq<ResponseItem>)
      modifies this
      ensures items == old(items) + Filtered(more)
    {
      EmptyUnit(items);
      for i := 0 to |more|
        invariant items == old(items) + Filtered(more[..i])
      {
        assert more[..i + 1] == more[..i] + [more[i]];
        FilteredAppend(more[..i], [more[i]]);
        FilteredOne(more[i]);
        Associative(old(items), Filtered(more[..i]), Filtered([more[i]]));
        EmptyUnit(items);
        if Recordable(more[i]) {
          items := items + [more[i]];
        }
      }
      assert more[..|more|] == more;
    }

    /** Replaces the whole history, on compaction and on resume. */
    method Restore(replacement: seq<ResponseItem>)
      modifies this
      ensures items == Filtered(replacement)
    {
      items := [];
      RecordItems(replacement);
      EmptyUnit(Filtered(replacement));
    }

    method ForPrompt() returns (prompt: seq<ResponseItem>)
      ensures prompt == Normalized(items)
      ensures Answered(prompt) && Matched(prompt)
    {
      PromptAnswersCalls(items);
      PromptMatchesOutputs(items);
      hide Normalized, Answered, Matched;
      prompt := NormalizeForPrompt(items);
    }
  }
}
