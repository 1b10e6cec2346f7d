/** The append-only rollout log: the recorder that writes it, and the readers that replay it,
    page through it and rebuild its turns. */
module Rollout {
  import opened Seqs
  import opened Wrappers
  import opened Protocol
  import opened History

  /** One line of the log; `size` is its length in bytes without the newline. */
  datatype Line = Line(ordinal: nat, timestamp: int, size: nat, payload: Payload)

  const MAX_LINE: nat := 0x40_0000

  /** The readers' scanner gives up on a line that does not fit its buffer. */
  predicate Fits(line: Line) {
    line.size < MAX_LINE
  }

  predicate AllFit(lines: seq<Line>) {
    forall i :: 0 <= i < |lines| ==> Fits(lines[i])
  }

  function Payloads(lines: seq<Line>): seq<Payload> {
    seq(|lines|, i requires 0 <= i < |lines| => lines[i].payload)
  }

  // ----- the recorder -----

  /** The file and the recorder on it. */
  datatype Store = Store(lines: seq<Line>, ordinal: nat, failed: bool)

  /** One record: dropped after an earlier failure, otherwise appended, or failing itself. */
  function Appended(store: Store, timestamp: int, size: nat, payload: Payload, ok: bool): Store {
    if store.failed then store
    else if !ok then store.(failed := true)
    else store.(lines := store.lines + [Line(store.ordinal, timestamp, size, payload)], ordinal := store.ordinal + 1)
  }

  class RolloutRecorder {
    var lines: seq<Line>
    var ordinal: nat
    var failed: bool

    function State(): Store
      reads this
    {
      Store(lines, ordinal, failed)
    }

    constructor (existing: seq<Line>, next: nat)
      ensures State() == Store(existing, next, false)
    {
      lines, ordinal, failed := existing, next, false;
    }

    /** `written` says whether encoding and appending the line succeed. */
    method RecordItem(timestamp: int, size: nat, payload: Payload, written: bool)
      modifies this
      ensures State() == Appended(old(State()), timestamp, size, payload, written)
    {
      if failed {
        return;
      }
      if !written {
        failed := true;
        return;
      }
      lines := lines + [Line(ordinal, timestamp, size, payload)];
      ordinal := ordinal + 1;
    }

    /** Streaming deltas are not recorded. */
    method RecordEvent(timestamp: int, size: nat, msg: EventMsg, written: bool)
      modifies this
      ensures State() == if msg.AgentMessageDelta? || msg.CommandOutputDelta? then old(State())
                         else Appended(old(State()), timestamp, size, Event(msg), written)
    {
      if !(msg.AgentMessageDelta? || msg.CommandOutputDelta?) {
        RecordItem(timestamp, size, Event(msg), written);
      }
    }

    /** The session line is written only into a new log. */
    method RecordSessionMeta(timestamp: int, size: nat, cwd: string, written: bool)
      modifies this
      ensures State() == if old(ordinal) != 0 then old(State())
                         else Appended(old(State()), timestamp, size, SessionMeta(cwd), written)
    {
      if ordinal == 0 {
        RecordItem(timestamp, size, SessionMeta(cwd), written);
      }
    }
  }

  // ----- replay -----

  /** What the log says the conversation is, up to and including its last payload. */
  function Replayed(payloads: seq<Payload>): seq<ResponseItem> {
    if payloads == [] then []
    else
      var before := Replayed(payloads[..|payloads| - 1]);
      match payloads[|payloads| - 1]
      case Item(item) => before + [item]
      case Compacted(_, replacement) => replacement
      case _ => before
  }

  /** The effect of one payload on the live history. */
  function LiveStep(history: seq<ResponseItem>, payload: Payload): seq<ResponseItem> {
    match payload
    case Item(item) => history + Filtered([item])
    case Compacted(_, replacement) => Filtered(replacement)
    case _ => history
  }

  lemma {:induction false} ReplayedAppend(payloads: seq<Payload>, payload: Payload)
    ensures Filtered(Replayed(payloads + [payload])) == LiveStep(Filtered(Replayed(payloads)), payload)
  {
    var more := payloads + [payload];
    assert more[..|more| - 1] == payloads;
    if payload.Item? {
      FilteredAppend(Replayed(payloads), [payload.item]);
    }
  }

  function NextOrdinal(lines: seq<Line>): nat {
    if lines == [] then 0
    else
      var before := NextOrdinal(lines[..|lines| - 1]);
      var ordinal := lines[|lines| - 1].ordinal;
      if ordinal >= before then ordinal + 1 else before
  }

  datatype ReadError = TooLong

  method ReadRollout(lines: seq<Line>) returns (result: Result<(seq<ResponseItem>, nat), ReadError>)
    ensures result == if AllFit(lines) then Ok((Replayed(Payloads(lines)), NextOrdinal(lines))) else Err(TooLong)
  {
    var items: seq<ResponseItem> := [];
    var nextOrdinal: nat := 0;
    assert Payloads(lines[..0]) == [];
    for i := 0 to |lines|
      invariant AllFit(lines[..i])
      invariant items == Replayed(Payloads(lines[..i]))
      invariant nextOrdinal == NextOrdinal(lines[..i])
    {
      if !Fits(lines[i]) {
        return Err(TooLong);
      }
      var line := lines[i];
      OneLineMore(lines, i);
      if line.ordinal >= nextOrdinal {
        nextOrdinal := line.ordinal + 1;
      }
      if line.payload.Item? {
        items := items + [line.payload.item];
      } else if line.payload.Compacted? {
        items := line.payload.replacement;
      }
    }
    assert lines[..|lines|] == lines;
    return Ok((items, nextOrdinal));
  }

  lemma OneLineMore(lines: seq<Line>, i: nat)
    requires i < |lines|
    ensures lines[..i + 1][..i] == lines[..i]
    ensures Payloads(lines[..i + 1])[..i] == Payloads(lines[..i])
    ensures |Payloads(lines[..i + 1])| == i + 1 && Payloads(lines[..i + 1])[i] == lines[i].payload
    ensures AllFit(lines[..i + 1]) <==> AllFit(lines[..i]) && Fits(lines[i])
    ensures AllFit(lines) ==> Fits(lines[i])
  {
    var a, b := lines[..i], lines[..i + 1];
    assert forall k :: 0 <= k < i ==> a[k] == b[k];
    assert b[i] == lines[i];
  }

  /** Opening a log: it can be opened exactly when every line can be read back. */
  function Opened(lines: seq<Line>): Option<Store> {
    if AllFit(lines) then Some(Store(lines, NextOrdinal(lines), false)) else None
  }

  // ----- ordinals -----

  /** Lines are numbered from zero without gaps. */
  predicate Numbered(store: Store) {
    store.ordinal == |store.lines| && forall i :: 0 <= i < |store.lines| ==> store.lines[i].ordinal == i
  }

  lemma {:induction false} NextOrdinalIsLength(lines: seq<Line>)
    requires forall i :: 0 <= i < |lines| ==> lines[i].ordinal == i
    ensures NextOrdinal(lines) == |lines|
  {
    if lines != [] {
      NextOrdinalIsLength(lines[..|lines| - 1]);
    }
  }

  lemma AppendKeepsNumbers(store: Store, timestamp: int, size: nat, payload: Payload, ok: bool)
    requires Numbered(store)
    ensures Numbered(Appended(store, timestamp, size, payload, ok))
    ensures store.lines <= Appended(store, timestamp, size, payload, ok).lines
  {
  }

  lemma ReopenKeepsNumbers(store: Store)
    requires Numbered(store) && AllFit(store.lines)
    ensures Opened(store.lines) == Some(Store(store.lines, store.ordinal, false))
  {
    NextOrdinalIsLength(store.lines);
  }

  // ----- paging -----

  function EventsFrom(lines: seq<Line>, after: nat): seq<Line> {
    if lines == [] then []
    else
      var last := lines[|lines| - 1];
      EventsFrom(lines[..|lines| - 1], after) + (if last.ordinal < after then [] else [last])
  }

  function CursorAfter(lines: seq<Line>, after: nat): nat {
    if lines == [] then after
    else
      var before := CursorAfter(lines[..|lines| - 1], after);
      if lines[|lines| - 1].ordinal >= before then lines[|lines| - 1].ordinal + 1 else before
  }

  /** The lines before the first one that does not fit. */
  function Readable(lines: seq<Line>): seq<Line> {
    if lines == [] || !Fits(lines[0]) then [] else [lines[0]] + Readable(lines[1..])
  }

  lemma {:induction false} ReadableUpTo(lines: seq<Line>, n: nat)
    requires n <= |lines| && AllFit(lines[..n]) && (n < |lines| ==> !Fits(lines[n]))
    ensures Readable(lines) == lines[..n]
  {
    if n > 0 {
      var rest := lines[1..];
      assert Fits(lines[..n][0]);
      assert rest[..n - 1] == lines[..n][1..];
      ReadableUpTo(rest, n - 1);
      assert [lines[0]] + rest[..n - 1] == lines[..n];
    }
  }

  /** On a line that does not fit, the page so far is returned beside the error. */
  method ReadRolloutEvents(lines: seq<Line>, after: nat)
    returns (events: seq<Line>, next: nat, error: Option<ReadError>)
    ensures error == None <==> AllFit(lines)
    ensures events == EventsFrom(Readable(lines), after) && next == CursorAfter(Readable(lines), after)
    ensures error == None ==> Readable(lines) == lines
  {
    hide Fits, Readable;
    events := [];
    next := after;
    for i := 0 to |lines|
      invariant AllFit(lines[..i])
      invariant events == EventsFrom(lines[..i], after)
      invariant next == CursorAfter(lines[..i], after)
    {
      OneLineMore(lines, i);
      if !Fits(lines[i]) {
        ReadableUpTo(lines, i);
        return events, next, Some(TooLong);
      }
      SkippedBelow(lines[..i], after);
      EmptyUnit(events);
      if lines[i].ordinal < after {
        continue;
      }
      events := events + [lines[i]];
      if lines[i].ordinal >= next {
        next := lines[i].ordinal + 1;
      }
    }
    assert lines[..|lines|] == lines;
    ReadableUpTo(lines, |lines|);
    return events, next, None;
  }

  lemma {:induction false} SkippedBelow(lines: seq<Line>, after: nat)
    ensures CursorAfter(lines, after) >= after
  {
    if lines != [] {
      SkippedBelow(lines[..|lines| - 1], after);
    }
  }

  /** On a numbered log a page is the rest of the log, and the cursor its end. */
  lemma {:induction false} PageIsTheRest(lines: seq<Line>, after: nat)
    requires forall i :: 0 <= i < |lines| ==> lines[i].ordinal == i
    ensures after <= |lines| ==> EventsFrom(lines, after) == lines[after..] && CursorAfter(lines, after) == |lines|
    ensures after > |lines| ==> EventsFrom(lines, after) == [] && CursorAfter(lines, after) == after
  {
    if lines != [] {
      var n := |lines| - 1;
      PageIsTheRest(lines[..n], after);
      EmptyUnit(EventsFrom(lines[..n], after));
      if after <= n {
        RestOfFront(lines, after);
      }
    }
  }

  lemma RestOfFront<T>(s: seq<T>, k: nat)
    requires k < |s|
    ensures s[k..] == s[..|s| - 1][k..] + [s[|s| - 1]]
  {
  }

  /** A log and one client that pages through it while it grows. */
  datatype Feed = Feed(store: Store, cursor: nat, received: seq<Line>)

  datatype FeedStep = Write(timestamp: int, size: nat, payload: Payload, ok: bool) | Reopen | Poll

  function FeedNext(feed: Feed, step: FeedStep): Feed {
    match step
    case Write(timestamp, size, payload, ok) =>
      feed.(store := Appended(feed.store, timestamp, size, payload, ok))
    case Reopen =>
      (match Opened(feed.store.lines)
       case None => feed
       case Some(store) => feed.(store := store))
    case Poll =>
      if AllFit(feed.store.lines) then
        feed.(cursor := CursorAfter(feed.store.lines, feed.cursor),
              received := feed.received + EventsFrom(feed.store.lines, feed.cursor))
      else feed
  }

  function FeedRun(feed: Feed, steps: seq<FeedStep>): Feed
    decreases |steps|
  {
    if steps == [] then feed else FeedRun(FeedNext(feed, steps[0]), steps[1..])
  }

  predicate FeedOk(feed: Feed) {
    && Numbered(feed.store)
    && feed.cursor <= |feed.store.lines|
    && feed.received == feed.store.lines[..feed.cursor]
  }

  lemma FeedStepOk(feed: Feed, step: FeedStep)
    requires FeedOk(feed)
    ensures FeedOk(FeedNext(feed, step))
    ensures feed.store.lines <= FeedNext(feed, step).store.lines
    ensures step.Poll? && AllFit(feed.store.lines) ==> FeedNext(feed, step).received == feed.store.lines
  {
    match step
    case Write(timestamp, size, payload, ok) => AppendKeepsNumbers(feed.store, timestamp, size, payload, ok);
    case Reopen =>
      if AllFit(feed.store.lines) {
        ReopenKeepsNumbers(feed.store);
      }
    case Poll =>
      PageIsTheRest(feed.store.lines, feed.cursor);
      assert feed.store.lines[..feed.cursor] + feed.store.lines[feed.cursor..] == feed.store.lines;
  }

  /** Over any run of writes, failures, reopenings and polls that starts with an empty log,
      ordinals count the lines, and the client has received exactly the lines before its
      cursor, each once and in order. */
  lemma {:induction false} EveryLineReceivedOnce(feed: Feed, steps: seq<FeedStep>)
    requires FeedOk(feed)
    ensures FeedOk(FeedRun(feed, steps))
    ensures feed.store.lines <= FeedRun(feed, steps).store.lines
    decreases |steps|
  {
    hide FeedOk, FeedNext;
    if steps != [] {
      FeedStepOk(feed, steps[0]);
      EveryLineReceivedOnce(FeedNext(feed, steps[0]), steps[1..]);
    }
  }

  /** In particular from an empty log on: the client holds the lines before its cursor, and the
      next poll of a readable log brings it the rest. */
  lemma EveryLineFromTheStart(steps: seq<FeedStep>)
    ensures var feed := FeedRun(Feed(Store([], 0, false), 0, []), steps);
      && feed.cursor <= |feed.store.lines| && feed.received == feed.store.lines[..feed.cursor]
      && (AllFit(feed.store.lines) ==> FeedNext(feed, Poll).received == feed.store.lines)
  {
    hide FeedRun, FeedNext;
    var start := Feed(Store([], 0, false), 0, []);
    EveryLineReceivedOnce(start, steps);
    FeedStepOk(FeedRun(start, steps), Poll);
  }

  /** A line too long for the readers is written without complaint, and from then on the log
      can neither be resumed nor paged through, whatever is written after it. */
  lemma {:induction false} OverlongLineBlocksReaders(feed: Feed, steps: seq<FeedStep>)
    requires !AllFit(feed.store.lines)
    ensures var after := FeedRun(feed, steps);
      && Opened(after.store.lines) == None
      && after.cursor == feed.cursor && after.received == feed.received
    decreases |steps|
  {
    if steps != [] {
      var i :| 0 <= i < |feed.store.lines| && !Fits(feed.store.lines[i]);
      var next := FeedNext(feed, steps[0]);
      assert next.store.lines[i] == feed.store.lines[i];
      OverlongLineBlocksReaders(next, steps[1..]);
    }
  }
}
