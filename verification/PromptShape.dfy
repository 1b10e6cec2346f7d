/** Where each item of a history stands in its prompt, told by positions and identifiers alone. */
module PromptShape {
  import opened Seqs
  import opened Protocol
  import opened History

  /** Some item of kind `typ` has the identifier; the empty one identifies nothing. */
  predicate Identified(items: seq<ResponseItem>, typ: ItemType, id: string) {
    id != "" && exists i :: 0 <= i < |items| && items[i].typ == typ && items[i].callId == id
  }

  /** An output nobody asked for. */
  predicate Orphan(items: seq<ResponseItem>, k: nat)
    requires k < |items|
  {
    items[k].typ == FunctionCallOutput && !Identified(items, FunctionCall, items[k].callId)
  }

  /** A call nobody answered. */
  predicate Unanswered(items: seq<ResponseItem>, k: nat)
    requires k < |items|
  {
    items[k].typ == FunctionCall && !Identified(items, FunctionCallOutput, items[k].callId)
  }

  /** Item `k` of the history fills the places from `start` on, up to `end`. */
  predicate Placed(items: seq<ResponseItem>, prompt: seq<ResponseItem>, k: nat, start: nat, end: nat)
    requires k < |items|
  {
    && end <= |prompt|
    && (if Orphan(items, k) then end == start
        else if Unanswered(items, k) then
          && end == start + 2
          && prompt[start] == items[k]
          && prompt[start + 1] == NewFunctionCallOutput(items[k].callId, "aborted")
        else end == start + 1 && prompt[start] == items[k])
  }

  /** `starts` cuts the prompt into the places of the first `n` items, in their order. */
  ghost predicate Layout(items: seq<ResponseItem>, prompt: seq<ResponseItem>, starts: seq<nat>, n: nat)
    requires n <= |items|
  {
    && |starts| == n + 1 && starts[0] == 0 && starts[n] == |prompt|
    && forall k :: 0 <= k < n ==> Placed(items, prompt, k, starts[k], starts[k + 1])
  }

  lemma IdsAreIdentified(items: seq<ResponseItem>, id: string)
    ensures id in CallIds(items) <==> Identified(items, FunctionCall, id)
    ensures id in OutputIds(items) <==> Identified(items, FunctionCallOutput, id)
  {
  }

  lemma {:induction false} LayoutOf(items: seq<ResponseItem>, n: nat) returns (starts: seq<nat>)
    requires n <= |items|
    ensures Layout(items, RepairedAll(items[..n], CallIds(items), OutputIds(items)), starts, n)
  {
    var calls, outputs := CallIds(items), OutputIds(items);
    if n == 0 {
      starts := [0];
    } else {
      var before := LayoutOf(items, n - 1);
      var shorter := RepairedAll(items[..n - 1], calls, outputs);
      assert items[..n] == items[..n - 1] + [items[n - 1]];
      RepairedAppend(items[..n - 1], [items[n - 1]], calls, outputs);
      RepairedOne(items[n - 1], calls, outputs);
      IdsAreIdentified(items, items[n - 1].callId);
      var one := Repaired(items[n - 1], calls, outputs);
      starts := before + [|shorter + one|];
      LayoutGrows(items, shorter, one, before, n - 1);
    }
  }

  lemma LayoutGrows(items: seq<ResponseItem>, shorter: seq<ResponseItem>, one: seq<ResponseItem>, before: seq<nat>, n: nat)
    requires n < |items| && Layout(items, shorter, before, n)
    requires Placed(items, shorter + one, n, |shorter|, |shorter + one|)
    ensures Layout(items, shorter + one, before + [|shorter + one|], n + 1)
  {
    hide Orphan, Unanswered;
    var starts := before + [|shorter + one|];
    forall k | 0 <= k < n + 1
      ensures Placed(items, shorter + one, k, starts[k], starts[k + 1])
    {
      if k < n {
        assert Placed(items, shorter, k, before[k], before[k + 1]);
      }
    }
  }

  /** The prompt is the history in its order, without the outputs nobody asked for, and with an
      output "aborted" directly behind every call nobody answered. */
  lemma PromptLayout(items: seq<ResponseItem>) returns (starts: seq<nat>)
    ensures Layout(items, Normalized(items), starts, |items|)
  {
    starts := LayoutOf(items, |items|);
    assert items[..|items|] == items;
  }

  lemma {:induction false} LayoutPrefix(items: seq<ResponseItem>, a: seq<ResponseItem>, b: seq<ResponseItem>,
                      s: seq<nat>, t: seq<nat>, n: nat)
    requires n <= |items| && |s| == |t| == |items| + 1 && s[0] == t[0] == 0
    requires forall k :: 0 <= k < |items| ==> Placed(items, a, k, s[k], s[k + 1])
    requires forall k :: 0 <= k < |items| ==> Placed(items, b, k, t[k], t[k + 1])
    ensures s[n] == t[n] && s[n] <= |a| && s[n] <= |b| && a[..s[n]] == b[..s[n]]
  {
    if n > 0 {
      LayoutPrefix(items, a, b, s, t, n - 1);
      assert Placed(items, a, n - 1, s[n - 1], s[n]);
      assert Placed(items, b, n - 1, t[n - 1], t[n]);
      forall i | 0 <= i < s[n]
        ensures a[i] == b[i]
      {
        if i < s[n - 1] {
          assert a[i] == a[..s[n - 1]][i] == b[..s[n - 1]][i];
        }
      }
    }
  }

  /** No other sequence has that layout. */
  lemma LayoutIsPrompt(items: seq<ResponseItem>, prompt: seq<ResponseItem>, starts: seq<nat>)
    requires Layout(items, prompt, starts, |items|)
    ensures prompt == Normalized(items)
  {
    var own := PromptLayout(items);
    LayoutPrefix(items, prompt, Normalized(items), starts, own, |items|);
    assert prompt[..|prompt|] == prompt;
    assert Normalized(items)[..|Normalized(items)|] == Normalized(items);
  }

  lemma {:induction false} StartsAscend(items: seq<ResponseItem>, prompt: seq<ResponseItem>, starts: seq<nat>, i: nat, k: nat)
    requires Layout(items, prompt, starts, |items|) && i <= k <= |items|
    ensures starts[i] <= starts[k]
  {
    hide Orphan, Unanswered;
    if i < k {
      StartsAscend(items, prompt, starts, i, k - 1);
      assert Placed(items, prompt, k - 1, starts[k - 1], starts[k]);
    }
  }

  /** Every place of the prompt belongs to one item. */
  lemma {:induction false} OwnerOf(items: seq<ResponseItem>, prompt: seq<ResponseItem>, starts: seq<nat>, j: nat, n: nat)
    returns (k: nat)
    requires Layout(items, prompt, starts, |items|) && n <= |items| && j < starts[n]
    ensures k < n && starts[k] <= j < starts[k + 1]
  {
    hide Placed;
    if starts[n - 1] <= j {
      k := n - 1;
    } else {
      k := OwnerOf(items, prompt, starts, j, n - 1);
    }
  }

  /** A call of the prompt that no recorded output answers is followed at once by the output
      "aborted"; for calls without an identifier this is always so. */
  lemma UnansweredCallIsAborted(items: seq<ResponseItem>, j: nat)
    requires j < |Normalized(items)| && Normalized(items)[j].typ == FunctionCall
    requires !Identified(items, FunctionCallOutput, Normalized(items)[j].callId)
    ensures j + 1 < |Normalized(items)|
    ensures Normalized(items)[j + 1] == NewFunctionCallOutput(Normalized(items)[j].callId, "aborted")
  {
    hide Normalized, Identified;
    var starts := PromptLayout(items);
    var k := OwnerOf(items, Normalized(items), starts, j, |items|);
    assert Placed(items, Normalized(items), k, starts[k], starts[k + 1]);
  }

  predicate CalledBefore(items: seq<ResponseItem>, j: nat)
    requires j < |items|
  {
    exists i :: 0 <= i < j && items[i].typ == FunctionCall && items[i].callId == items[j].callId
  }

  /** Every output of a recorded call stands behind such a call. */
  predicate OutputsFollowCalls(items: seq<ResponseItem>) {
    forall j :: 0 <= j < |items| && items[j].typ == FunctionCallOutput && !Orphan(items, j) ==> CalledBefore(items, j)
  }

  /** Every output, whatever its identifier, stands behind a call of that identifier. */
  predicate EveryOutputFollowsCall(prompt: seq<ResponseItem>) {
    forall j :: 0 <= j < |prompt| && prompt[j].typ == FunctionCallOutput ==> CalledBefore(prompt, j)
  }

  lemma KeptPlace(items: seq<ResponseItem>, starts: seq<nat>, k: nat)
    requires Layout(items, Normalized(items), starts, |items|) && k < |items| && !Orphan(items, k)
    ensures starts[k] < starts[k + 1] <= |Normalized(items)| && Normalized(items)[starts[k]] == items[k]
  {
    hide Normalized, Orphan, Unanswered;
    assert Placed(items, Normalized(items), k, starts[k], starts[k + 1]);
  }

  lemma CalledBeforeInPrompt(items: seq<ResponseItem>, starts: seq<nat>, k: nat)
    requires Layout(items, Normalized(items), starts, |items|) && k < |items| && !Orphan(items, k)
    requires CalledBefore(items, k)
    ensures starts[k] < |Normalized(items)| && CalledBefore(Normalized(items), starts[k])
  {
    hide Normalized, Unanswered, Placed;
    KeptPlace(items, starts, k);
    var i :| 0 <= i < k && items[i].typ == FunctionCall && items[i].callId == items[k].callId;
    KeptPlace(items, starts, i);
    StartsAscend(items, Normalized(items), starts, i + 1, k);
  }

  lemma CalledBeforeInHistory(items: seq<ResponseItem>, starts: seq<nat>, k: nat)
    requires Layout(items, Normalized(items), starts, |items|) && k < |items| && !Orphan(items, k)
    requires starts[k] < |Normalized(items)| && CalledBefore(Normalized(items), starts[k])
    ensures CalledBefore(items, k)
  {
    hide Normalized, Unanswered;
    var prompt := Normalized(items);
    KeptPlace(items, starts, k);
    var i :| 0 <= i < starts[k] && prompt[i].typ == FunctionCall && prompt[i].callId == prompt[starts[k]].callId;
    var m := OwnerOf(items, prompt, starts, i, k);
    assert Placed(items, prompt, m, starts[m], starts[m + 1]);
  }

  lemma OutputPlace(items: seq<ResponseItem>, starts: seq<nat>, j: nat)
    requires Layout(items, Normalized(items), starts, |items|) && OutputsFollowCalls(items)
    requires j < |Normalized(items)| && Normalized(items)[j].typ == FunctionCallOutput
    ensures CalledBefore(Normalized(items), j)
  {
    hide Normalized, OutputsFollowCalls;
    var prompt := Normalized(items);
    var k := OwnerOf(items, prompt, starts, j, |items|);
    assert Placed(items, prompt, k, starts[k], starts[k + 1]);
    if j == starts[k] {
      assert CalledBefore(items, k) by { Follows(items, k); }
      CalledBeforeInPrompt(items, starts, k);
    } else {
      assert prompt[starts[k]].typ == FunctionCall;
    }
  }

  lemma Follows(items: seq<ResponseItem>, k: nat)
    requires OutputsFollowCalls(items) && k < |items| && items[k].typ == FunctionCallOutput && !Orphan(items, k)
    ensures CalledBefore(items, k)
  {
  }

  /** In a prompt every output stands behind its call exactly when, in the history, every output
      of a recorded call does. */
  lemma PromptOrderIff(items: seq<ResponseItem>)
    ensures EveryOutputFollowsCall(Normalized(items)) <==> OutputsFollowCalls(items)
  {
    hide Normalized, Orphan, CalledBefore, Layout;
    var prompt := Normalized(items);
    var starts := PromptLayout(items);
    if OutputsFollowCalls(items) {
      forall j | 0 <= j < |prompt| && prompt[j].typ == FunctionCallOutput
        ensures CalledBefore(prompt, j)
      {
        OutputPlace(items, starts, j);
      }
    }
    if EveryOutputFollowsCall(prompt) {
      forall k | 0 <= k < |items| && items[k].typ == FunctionCallOutput && !Orphan(items, k)
        ensures CalledBefore(items, k)
      {
        KeptPlace(items, starts, k);
        CalledBeforeInHistory(items, starts, k);
      }
    }
  }

  // ----- what is recorded -----

  /** Recording keeps items of the four kinds and drops the others; together with concatenation
      this determines what is recorded. */
  lemma RecordedKinds(before: seq<ResponseItem>, item: ResponseItem, after: seq<ResponseItem>)
    ensures Filtered([]) == []
    ensures Filtered(before + [item] + after) == if item.typ in {Message, Reasoning, FunctionCall, FunctionCallOutput}
      then Filtered(before) + [item] + Filtered(after) else Filtered(before + after)
  {
    FilteredAppend(before + [item], after);
    FilteredAppend(before, [item]);
    FilteredAppend(before, after);
    FilteredOne(item);
    EmptyUnit(Filtered(before));
  }

  function ImageUrls(content: seq<ContentItem>): seq<string> {
    if content == [] then []
    else (if content[0].kind == "input_image" then [content[0].imageUrl] else []) + ImageUrls(content[1..])
  }

  lemma {:induction false} ImagesCarry(imageUrls: seq<string>)
    ensures ContentText(ImageContents(imageUrls)) == "" && ImageUrls(ImageContents(imageUrls)) == imageUrls
  {
    if imageUrls != [] {
      ImagesCarry(imageUrls[1..]);
      assert ImageContents(imageUrls)[1..] == ImageContents(imageUrls[1..]);
      assert imageUrls == [imageUrls[0]] + imageUrls[1..];
    }
  }

  /** A user message carries its text and its images, in order, and nothing else. */
  lemma UserMessageCarries(text: string, imageUrls: seq<string>)
    ensures var message := NewUserMessage(text, imageUrls);
      && message.typ == Message && message.role == User
      && Text(message) == text && ImageUrls(message.content) == imageUrls
  {
    hide ImageContents;
    ImagesCarry(imageUrls);
    var images := ImageContents(imageUrls);
    if text != "" {
      assert ([ContentItem("input_text", text, "")] + images)[1..] == images;
      EmptyUnit(text);
      EmptyUnit(imageUrls);
    } else {
      EmptyUnit(images);
    }
  }
}
