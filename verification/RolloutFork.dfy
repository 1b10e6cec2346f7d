/** Writing a history prefix into a log of its own. */
module RolloutFork {
  import opened Seqs
  import opened Protocol
  import opened Rollout
  import opened RolloutTurns

  function Items(items: seq<ResponseItem>): seq<Payload> {
    seq(|items|, i requires 0 <= i < |items| => Item(items[i]))
  }

  /** What a fork writes into a log that holds no items yet. */
  function Forked(lines: seq<Line>, cwd: string, items: seq<ResponseItem>): seq<Payload> {
    Introduction(NextOrdinal(lines), cwd) + Items(items)
  }

  function Introduction(ordinal: nat, cwd: string): seq<Payload> {
    if ordinal == 0 then [SessionMeta(cwd)] else []
  }

  /** The recorder's state after more payloads; `written(n)` says whether line `n` can be written. */
  function AppendedAll(store: Store, payloads: seq<Payload>, size: Payload -> nat, written: nat -> bool): Store {
    if payloads == [] then store
    else
      var n := |payloads| - 1;
      var before := AppendedAll(store, payloads[..n], size, written);
      Appended(before, 0, size(payloads[n]), payloads[n], written(before.ordinal))
  }

  lemma AppendedAllSnoc(store: Store, payloads: seq<Payload>, payload: Payload, size: Payload -> nat, written: nat -> bool)
    ensures AppendedAll(store, payloads + [payload], size, written) ==
      var before := AppendedAll(store, payloads, size, written);
      Appended(before, 0, size(payload), payload, written(before.ordinal))
  {
    assert (payloads + [payload])[..|payloads|] == payloads;
  }

  /** What was written is a beginning of what was meant to be, and all of it without a failure. */
  lemma {:induction false} AppendedIsPrefix(store: Store, payloads: seq<Payload>, size: Payload -> nat, written: nat -> bool)
    returns (n: nat)
    requires !store.failed
    ensures n <= |payloads|
    ensures Payloads(AppendedAll(store, payloads, size, written).lines) == Payloads(store.lines) + payloads[..n]
    ensures !AppendedAll(store, payloads, size, written).failed ==> n == |payloads|
  {
    if payloads == [] {
      n := 0;
      EmptyUnit(Payloads(store.lines));
    } else {
      var m := |payloads| - 1;
      n := AppendedIsPrefix(store, payloads[..m], size, written);
      assert payloads[..m][..n] == payloads[..n];
      var before := AppendedAll(store, payloads[..m], size, written);
      if !before.failed && written(before.ordinal) {
        OneMore(before.lines, Line(before.ordinal, 0, size(payloads[m]), payloads[m]));
        assert payloads[..m] + [payloads[m]] == payloads[..m + 1];
        Associative(Payloads(store.lines), payloads[..m], [payloads[m]]);
        n := m + 1;
      }
    }
  }

  lemma OneMore(lines: seq<Line>, line: Line)
    ensures Payloads(lines + [line]) == Payloads(lines) + [line.payload]
  {
  }

  lemma {:induction false} ReplayItems(log: seq<Payload>, items: seq<ResponseItem>)
    ensures Replayed(log + Items(items)) == Replayed(log) + items
    decreases |items|
  {
    if items == [] {
      EmptyUnit(log);
      EmptyUnit(Replayed(log));
    } else {
      var n := |items| - 1;
      hide Replayed, Items;
      ReplayItems(log, items[..n]);
      ItemsSnoc(items);
      Associative(log, Items(items[..n]), [Item(items[n])]);
      ReplayedItem(log + Items(items[..n]), items[n]);
      Associative(Replayed(log), items[..n], [items[n]]);
      assert items == items[..n] + [items[n]];
    }
  }

  lemma ItemsSnoc(items: seq<ResponseItem>)
    requires items != []
    ensures var n := |items| - 1; Items(items) == Items(items[..n]) + [Item(items[n])]
  {
  }

  lemma ReplayedItem(log: seq<Payload>, item: ResponseItem)
    ensures Replayed(log + [Item(item)]) == Replayed(log) + [item]
  {
    assert (log + [Item(item)])[..|log|] == log;
  }

  /** Records the introduction of a new log and the items, one after the other. */
  method RecordFork(recorder: RolloutRecorder, cwd: string, items: seq<ResponseItem>, size: Payload -> nat, written: nat -> bool)
    modifies recorder
    ensures recorder.State() == AppendedAll(old(recorder.State()), Introduction(old(recorder.ordinal), cwd) + Items(items), size, written)
  {
    hide AppendedAll;
    ghost var start, intro := recorder.State(), Introduction(recorder.ordinal, cwd);
    NothingAppended(start, size, written);
    if recorder.ordinal == 0 {
      AppendedAllSnoc(start, [], SessionMeta(cwd), size, written);
      assert [] + [SessionMeta(cwd)] == intro;
    }
    recorder.RecordSessionMeta(0, size(SessionMeta(cwd)), cwd, written(recorder.ordinal));
    assert Items(items[..0]) == [];
    EmptyUnit(intro);
    for i := 0 to |items|
      invariant recorder.State() == AppendedAll(start, intro + Items(items[..i]), size, written)
    {
      var item := Item(items[i]);
      AppendedAllSnoc(start, intro + Items(items[..i]), item, size, written);
      assert Items(items[..i + 1]) == Items(items[..i]) + [item];
      Associative(intro, Items(items[..i]), [item]);
      recorder.RecordItem(0, size(item), item, written(recorder.ordinal));
    }
    assert items[..|items|] == items;
  }

  lemma NothingAppended(store: Store, size: Payload -> nat, written: nat -> bool)
    ensures AppendedAll(store, [], size, written) == store
  {
  }

  /** A fork that reports no error resumes with exactly its items, and a new log shows no turns; on a
      log that is unreadable or holds items already it writes nothing. */
  method WriteRollout(lines: seq<Line>, cwd: string, items: seq<ResponseItem>, size: Payload -> nat, written: nat -> bool)
    returns (after: seq<Line>, ok: bool)
    ensures !AllFit(lines) || Replayed(Payloads(lines)) != [] ==> !ok && after == lines
    ensures ok ==>
      && Payloads(after) == Payloads(lines) + Forked(lines, cwd, items)
      && Replayed(Payloads(after)) == items
      && (lines == [] ==> TurnsOf(Payloads(after)) == [])
    ensures exists n: nat :: n <= |Forked(lines, cwd, items)| && Payloads(after) == Payloads(lines) + Forked(lines, cwd, items)[..n]
  {
    hide AllFit, Replayed, TurnsOf, AppendedAll, Items, NextOrdinal;
    EmptyUnit(Payloads(lines));
    assert Forked(lines, cwd, items)[..0] == [];
    var existing := ReadRollout(lines);
    if existing.Err? || |existing.value.0| != 0 {
      return lines, false;
    }
    var recorder := new RolloutRecorder(lines, existing.value.1);
    ghost var start := recorder.State();
    RecordFork(recorder, cwd, items, size, written);
    after, ok := recorder.lines, !recorder.failed;
    ForkMeans(lines, cwd, items);
    ghost var n := AppendedIsPrefix(start, Forked(lines, cwd, items), size, written);
    var meant := Forked(lines, cwd, items);
    assert meant[..|meant|] == meant;
  }

  lemma ForkMeans(lines: seq<Line>, cwd: string, items: seq<ResponseItem>)
    requires Replayed(Payloads(lines)) == []
    ensures Replayed(Payloads(lines) + Forked(lines, cwd, items)) == items
    ensures lines == [] ==> TurnsOf(Payloads(lines) + Forked(lines, cwd, items)) == []
  {
    hide TurnsOf;
    var meant := Forked(lines, cwd, items);
    if NextOrdinal(lines) == 0 {
      assert Payloads(lines) == [];
      EmptyUnit(meant);
      ReplayItems([SessionMeta(cwd)], items);
      assert [SessionMeta(cwd)][..0] == [];
      EmptyUnit(items);
      ForkHasNoTurns(meant);
    } else {
      EmptyUnit(Items(items));
      ReplayItems(Payloads(lines), items);
      EmptyUnit(items);
    }
  }
}
