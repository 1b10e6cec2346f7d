/** Updates whose windows are not ordered: when the in-place splice stops, and which edits it
    loses. */
module SpliceLimits {
  import opened Seqs
  import opened Wrappers
  import opened Numbers
  import opened Seek
  import opened Replace
  import opened Splice

  // ----- splicing in two parts -----

  function Then<T>(first: Outcome<T>, rs: seq<Swap<T>>): Outcome<T> {
    match first
    case Panic => Panic
    case Done(updated) => RightToLeft(updated, rs)
  }

  /** The splice of two lists is the splice of the second, and then of the first. */
  lemma {:induction false} SpliceParts<T>(lines: seq<T>, a: seq<Swap<T>>, b: seq<Swap<T>>)
    ensures RightToLeft(lines, a + b) == Then(RightToLeft(lines, b), a)
  {
    if a == [] {
      EmptyUnit(b);
    } else {
      assert (a + b)[1..] == a[1..] + b;
      SpliceParts(lines, a[1..], b);
    }
  }

  lemma SpliceLast<T>(lines: seq<T>, a: seq<Swap<T>>, r: Swap<T>)
    ensures RightToLeft(lines, a + [r]) == Then(Spliced(lines, r), a)
  {
    SpliceParts(lines, a, [r]);
    assert [r][1..] == [];
    assert RightToLeft(lines, [r]) == Spliced(lines, r);
  }

  // ----- when the splice stops -----

  /** How many lines there are after a splice from `n` lines. */
  function Height<T>(n: nat, rs: seq<Swap<T>>): nat {
    if rs == [] then n
    else
      var h := Height(n, rs[1..]);
      Max(h - rs[0].oldLen, Min(h, rs[0].start)) + |rs[0].newLines|
  }

  /** For any replacements at all: the splice stops exactly when one of them starts beyond the
      lines that those after it leave. Nothing but lengths decides it. */
  lemma {:induction false} PanicsIffTooShort<T>(lines: seq<T>, rs: seq<Swap<T>>)
    ensures RightToLeft(lines, rs) == Panic <==> exists i :: 0 <= i < |rs| && rs[i].start > Height(|lines|, rs[i + 1..])
    ensures RightToLeft(lines, rs).Done? ==> |RightToLeft(lines, rs).lines| == Height(|lines|, rs)
  {
    if rs != [] {
      var rest := rs[1..];
      PanicsIffTooShort(lines, rest);
      forall i | 0 <= i < |rest|
        ensures rest[i] == rs[i + 1] && rest[i + 1..] == rs[i + 2..]
      {
      }
      if i :| 0 <= i < |rest| && rest[i].start > Height(|lines|, rest[i + 1..]) {
        assert rs[i + 1].start > Height(|lines|, rs[i + 1 + 1..]);
      }
      if i :| 0 <= i < |rs| && rs[i].start > Height(|lines|, rs[i + 1..]) {
        if i > 0 {
          assert rest[i - 1].start > Height(|lines|, rest[i - 1 + 1..]);
        }
      }
    }
  }

  lemma {:induction false} StartsGrow<T>(rs: seq<Swap<T>>, from: nat, n: nat)
    requires rs != [] && Ordered(rs, from, n)
    ensures from <= rs[|rs| - 1].start
  {
    if |rs| > 1 {
      StartsGrow(rs[1..], rs[0].start + rs[0].oldLen, n);
    }
  }

  /** Ordered windows on lines of any length: only the last window can be out of reach, and what
      lies before the first one is untouched. */
  lemma {:induction false} OrderedOnAny<T>(u: seq<T>, rs: seq<Swap<T>>, from: nat, n: nat)
    requires Ordered(rs, from, n)
    ensures RightToLeft(u, rs) == Panic <==> rs != [] && rs[|rs| - 1].start > |u|
    ensures var done := RightToLeft(u, rs); done.Done? && from <= |u| ==>
      from <= |done.lines| && done.lines[..from] == u[..from]
  {
    if rs != [] {
      var r, rest := rs[0], rs[1..];
      var end := r.start + r.oldLen;
      OrderedOnAny(u, rest, end, n);
      StartsGrow(rs, from, n);
      if rest == [] {
        if r.start <= |u| {
          SpliceKeepsFront(u, r, from);
        }
      } else {
        StartsGrow(rest, end, n);
        if RightToLeft(u, rest).Done? {
          var v := RightToLeft(u, rest).lines;
          SpliceKeepsFront(v, r, from);
          assert v[..end][..from] == v[..from] && u[..end][..from] == u[..from];
        }
      }
    }
  }

  lemma SpliceKeepsFront<T>(u: seq<T>, r: Swap<T>, from: nat)
    requires from <= r.start <= |u|
    ensures var v := Spliced(u, r).lines; from <= |v| && v[..from] == u[..from]
  {
  }

  /** After ordered windows, one more replacement of any kind: the splice stops exactly when the
      last of the windows starts beyond the lines that it leaves. */
  lemma LastEditPanicsIff<T>(lines: seq<T>, before: seq<Swap<T>>, r: Swap<T>)
    requires Ordered(before, 0, |lines|) && r.start + r.oldLen <= |lines|
    ensures RightToLeft(lines, before + [r]) == Panic <==>
      before != [] && before[|before| - 1].start > |lines| - r.oldLen + |r.newLines|
  {
    SpliceLast(lines, before, r);
    OrderedOnAny(Spliced(lines, r).lines, before, 0, |lines|);
  }

  // ----- what becomes of a line -----

  /** A line, and whether it is the one being followed. */
  datatype Marked = Marked(line: string, mine: bool)

  function Marks(lines: seq<string>, place: int): seq<Marked> {
    seq(|lines|, i requires 0 <= i < |lines| => Marked(lines[i], i == place))
  }

  function MarkedSwap(r: Replacement, place: int): Swap<Marked> {
    Replacement(r.start, r.oldLen, Marks(r.newLines, place))
  }

  /** The replacements, with new line `k` of number `j` marked. */
  function MarkedSwaps(rs: seq<Replacement>, j: int, k: int): seq<Swap<Marked>> {
    seq(|rs|, i requires 0 <= i < |rs| => MarkedSwap(rs[i], if i == j then k else -1))
  }

  function Unmarked(lines: seq<Marked>): seq<string> {
    seq(|lines|, i requires 0 <= i < |lines| => lines[i].line)
  }

  /** The splice on marked lines. */
  function Traced(lines: seq<string>, rs: seq<Replacement>, j: int, k: int): Outcome<Marked> {
    RightToLeft(Marks(lines, -1), MarkedSwaps(rs, j, k))
  }

  lemma SplicedUnmarked(u: seq<Marked>, r: Replacement, place: int)
    ensures Spliced(Unmarked(u), r) ==
      match Spliced(u, MarkedSwap(r, place))
      case Panic => Panic
      case Done(v) => Done(Unmarked(v))
  {
  }

  /** The marks do not change what the splice does. */
  lemma {:induction false} MarksAreInvisible(lines: seq<string>, rs: seq<Replacement>, j: int, k: int)
    ensures RightToLeft(lines, rs) ==
      match Traced(lines, rs, j, k)
      case Panic => Panic
      case Done(v) => Done(Unmarked(v))
  {
    if rs == [] {
      assert Unmarked(Marks(lines, -1)) == lines;
    } else {
      hide Spliced, MarkedSwap, Unmarked;
      MarksAreInvisible(lines, rs[1..], j - 1, k);
      assert MarkedSwaps(rs, j, k)[1..] == MarkedSwaps(rs[1..], j - 1, k);
      if Traced(lines, rs[1..], j - 1, k).Done? {
        SplicedUnmarked(Traced(lines, rs[1..], j - 1, k).lines, rs[0], if j == 0 then k else -1);
      }
    }
  }

  /** The new line `k` of replacement `j` is still there when the splice is done. */
  ghost predicate Survives(lines: seq<string>, rs: seq<Replacement>, j: nat, k: nat) {
    var traced := Traced(lines, rs, j, k);
    traced.Done? && exists i :: 0 <= i < |traced.lines| && traced.lines[i].mine
  }

  /** Where a replacement moves the line at `p`, unless it takes it out. */
  function Shifted<T>(p: nat, w: Swap<T>): nat {
    if p >= w.start + w.oldLen then p - w.oldLen + |w.newLines| else p
  }

  predicate Takes<T>(w: Swap<T>, p: nat) {
    w.start <= p < w.start + w.oldLen
  }

  /** The line at `p` outlives the given replacements, the last of which comes first. */
  predicate Stays<T>(p: nat, rs: seq<Swap<T>>)
    decreases |rs|
  {
    rs == [] || var n := |rs| - 1; !Takes(rs[n], p) && Stays(Shifted(p, rs[n]), rs[..n])
  }

  predicate NoneMine(u: seq<Marked>) {
    forall i :: 0 <= i < |u| ==> !u[i].mine
  }

  predicate OnlyMine(u: seq<Marked>, p: nat) {
    p < |u| && forall i :: 0 <= i < |u| ==> (u[i].mine <==> i == p)
  }

  lemma SpliceMovesMark(u: seq<Marked>, w: Swap<Marked>, p: nat)
    requires NoneMine(w.newLines) && Spliced(u, w).Done?
    ensures NoneMine(u) ==> NoneMine(Spliced(u, w).lines)
    ensures OnlyMine(u, p) && Takes(w, p) ==> NoneMine(Spliced(u, w).lines)
    ensures OnlyMine(u, p) && !Takes(w, p) ==> OnlyMine(Spliced(u, w).lines, Shifted(p, w))
  {
    var v := Spliced(u, w).lines;
    var cut := w.start + Min(w.oldLen, |u| - w.start);
    var head := w.start + |w.newLines|;
    forall i | 0 <= i < |v|
      ensures v[i] == if i < w.start then u[i] else if i < head then w.newLines[i - w.start] else u[cut + (i - head)]
    {
    }
  }

  lemma {:induction false} MarkStaysIff(u: seq<Marked>, rs: seq<Swap<Marked>>, p: nat)
    requires forall i :: 0 <= i < |rs| ==> NoneMine(rs[i].newLines)
    requires RightToLeft(u, rs).Done?
    ensures NoneMine(u) ==> NoneMine(RightToLeft(u, rs).lines)
    ensures OnlyMine(u, p) && !Stays(p, rs) ==> NoneMine(RightToLeft(u, rs).lines)
    ensures OnlyMine(u, p) && Stays(p, rs) ==> exists q: nat :: OnlyMine(RightToLeft(u, rs).lines, q)
    decreases |rs|
  {
    hide NoneMine, OnlyMine, Spliced, Takes;
    if rs != [] {
      var n := |rs| - 1;
      assert rs == rs[..n] + [rs[n]];
      SpliceLast(u, rs[..n], rs[n]);
      SpliceMovesMark(u, rs[n], p);
      MarkStaysIff(Spliced(u, rs[n]).lines, rs[..n], Shifted(p, rs[n]));
    }
  }

  lemma {:induction false} StaysUnmarked(p: nat, rs: seq<Replacement>, j: int, k: int)
    ensures Stays(p, MarkedSwaps(rs, j, k)) == Stays(p, rs)
    decreases |rs|
  {
    if rs != [] {
      var n := |rs| - 1;
      assert MarkedSwaps(rs, j, k)[..n] == MarkedSwaps(rs[..n], j, k);
      StaysUnmarked(Shifted(p, rs[n]), rs[..n], j, k);
    }
  }

  /** For any replacements at all: a new line is in the result exactly when no replacement that
      is applied later takes out the place where it then is. */
  lemma NewLineSurvivesIff(lines: seq<string>, rs: seq<Replacement>, j: nat, k: nat)
    requires j < |rs| && k < |rs[j].newLines| && RightToLeft(lines, rs).Done?
    ensures Survives(lines, rs, j, k) <==> Stays(rs[j].start + k, rs[..j])
  {
    hide RightToLeft, Stays, NoneMine, OnlyMine;
    var all := MarkedSwaps(rs, j, k);
    var first, rest := all[..j], all[j + 1..];
    MarksAreInvisible(lines, rs, j, k);
    assert all == first + ([all[j]] + rest);
    SpliceParts(Marks(lines, -1), first, [all[j]] + rest);
    SpliceParts(Marks(lines, -1), [all[j]], rest);
    MarkIsMade(lines, rs, j, k);
    var made := Then(RightToLeft(Marks(lines, -1), rest), [all[j]]).lines;
    assert forall i :: 0 <= i < |first| ==> NoneMine(first[i].newLines) by {
      UnmarkedElsewhere(rs, j, k);
    }
    MarkStaysIff(made, first, rs[j].start + k);
    assert first == MarkedSwaps(rs[..j], j, k);
    StaysUnmarked(rs[j].start + k, rs[..j], j, k);
    SomeOrNone(Traced(lines, rs, j, k).lines);
  }

  lemma UnmarkedElsewhere(rs: seq<Replacement>, j: nat, k: nat)
    ensures forall i :: 0 <= i < |rs| && i != j ==> NoneMine(MarkedSwaps(rs, j, k)[i].newLines)
  {
  }

  lemma SomeOrNone(u: seq<Marked>)
    ensures NoneMine(u) ==> !exists i :: 0 <= i < |u| && u[i].mine
    ensures (exists q: nat :: OnlyMine(u, q)) ==> exists i :: 0 <= i < |u| && u[i].mine
  {
    if q: nat :| OnlyMine(u, q) {
      assert u[q].mine;
    }
  }

  lemma MarkIsMade(lines: seq<string>, rs: seq<Replacement>, j: nat, k: nat)
    requires j < |rs| && k < |rs[j].newLines|
    ensures var all := MarkedSwaps(rs, j, k);
      var made := Then(RightToLeft(Marks(lines, -1), all[j + 1..]), [all[j]]);
      made.Done? ==> OnlyMine(made.lines, rs[j].start + k)
  {
    hide RightToLeft;
    var all := MarkedSwaps(rs, j, k);
    var rest := all[j + 1..];
    var after := RightToLeft(Marks(lines, -1), rest);
    if after.Done? {
      assert forall i :: 0 <= i < |rest| ==> NoneMine(rest[i].newLines);
      MarkStaysIff(Marks(lines, -1), rest, 0);
      SpliceParts(after.lines, [], [all[j]]);
      SpliceLast(after.lines, [], all[j]);
      assert [] + [all[j]] == [all[j]];
      SpliceMarks(after.lines, rs[j], k);
      NothingMore(Spliced(after.lines, all[j]));
    }
  }

  lemma NothingMore<T>(outcome: Outcome<T>)
    ensures Then(outcome, []) == outcome
  {
  }

  lemma SpliceMarks(u: seq<Marked>, r: Replacement, k: nat)
    requires NoneMine(u) && k < |r.newLines|
    ensures var v := Spliced(u, MarkedSwap(r, k)); v.Done? ==> OnlyMine(v.lines, r.start + k)
  {
  }

  /** On ordered windows the lines that stay are those in no window. */
  lemma {:induction false} OrderedStaysIff<T>(p: nat, rs: seq<Swap<T>>, n: nat)
    requires Ordered(rs, 0, n)
    ensures Stays(p, rs) <==> UntakenBy(rs, p)
    ensures End(rs, 0) <= p ==> Stays(p, rs)
    decreases |rs|
  {
    if rs != [] {
      var m := |rs| - 1;
      var front, w := rs[..m], rs[m];
      assert rs == front + [w];
      OrderedAppend(front, w, 0, n);
      EndAppend(front, w, 0);
      OrderedStaysIff(Shifted(p, w), front, n);
      OrderedStaysIff(p, front, n);
      assert forall i :: 0 <= i < m ==> front[i] == rs[i];
    }
  }

  lemma {:induction false} EndAppend<T>(a: seq<Swap<T>>, r: Swap<T>, from: nat)
    ensures End(a + [r], from) == r.start + r.oldLen
  {
    if a == [] {
      assert (a + [r])[1..] == [];
    } else {
      assert (a + [r])[1..] == a[1..] + [r];
      EndAppend(a[1..], r, a[0].start + a[0].oldLen);
    }
  }

  /** The window takes none of the `k` lines from `start` on. */
  predicate Apart<T>(w: Swap<T>, start: nat, k: nat) {
    w.oldLen == 0 || k == 0 || w.start + w.oldLen <= start || start + k <= w.start
  }

  lemma ApartIff<T>(w: Swap<T>, start: nat, k: nat)
    ensures Apart(w, start, k) <==> forall p: nat :: start <= p < start + k ==> !Takes(w, p)
  {
    if !Apart(w, start, k) {
      assert Takes(w, Max(w.start, start));
    }
  }

  /** After ordered windows, one more replacement of any kind: unless the splice stops, all its
      new lines are in the result exactly when no window takes one of their places. */
  lemma LastEditKeptIff(lines: seq<string>, before: seq<Replacement>, r: Replacement)
    requires Ordered(before, 0, |lines|) && RightToLeft(lines, before + [r]).Done?
    ensures (forall k: nat :: k < |r.newLines| ==> Survives(lines, before + [r], |before|, k)) <==>
      forall i :: 0 <= i < |before| ==> Apart(before[i], r.start, |r.newLines|)
  {
    hide RightToLeft, Stays, Survives, UntakenBy, Apart, Ordered;
    var all := before + [r];
    assert all[|before|] == r && all[..|before|] == before;
    forall k: nat | k < |r.newLines|
      ensures Survives(lines, all, |before|, k) <==> PlaceUntaken(before, r.start, k)
    {
      NewLineSurvivesIff(lines, all, |before|, k);
      OrderedStaysIff(r.start + k, before, |lines|);
    }
    PlacesUntakenIff(before, r.start, |r.newLines|);
  }

  predicate UntakenBy<T>(windows: seq<Swap<T>>, p: nat) {
    forall i :: 0 <= i < |windows| ==> !Takes(windows[i], p)
  }

  predicate PlaceUntaken<T>(windows: seq<Swap<T>>, start: nat, k: nat) {
    UntakenBy(windows, start + k)
  }

  lemma PlacesUntakenIff<T>(windows: seq<Swap<T>>, start: nat, k: nat)
    ensures (forall i: nat :: i < k ==> PlaceUntaken(windows, start, i)) <==>
      forall i :: 0 <= i < |windows| ==> Apart(windows[i], start, k)
  {
    hide Apart, Takes;
    if forall i: nat :: i < k ==> PlaceUntaken(windows, start, i) {
      forall i, p: nat | 0 <= i < |windows| && start <= p < start + k
        ensures !Takes(windows[i], p)
      {
        assert PlaceUntaken(windows, start, p - start);
      }
    }
    forall i | 0 <= i < |windows|
      ensures Apart(windows[i], start, k) <==> forall p: nat :: start <= p < start + k ==> !Takes(windows[i], p)
    {
      ApartIff(windows[i], start, k);
    }
  }

  // ----- End-of-File chunks -----

  /** What an End-of-File chunk is replaced by, when its last old line is not the optional blank. */
  function AtTheEnd(lines: seq<string>, chunk: UpdateChunk): Replacement
    requires |chunk.oldLines| <= |lines|
  {
    Replacement(|lines| - |chunk.oldLines|, |chunk.oldLines|, chunk.newLines)
  }

  lemma EndOfFileLands(lines: seq<string>, chunk: UpdateChunk, lineIndex: nat)
    requires chunk.oldLines != [] && chunk.endOfFile && lineIndex <= |lines| && Step(lines, chunk, lineIndex).Ok?
    ensures var r := Step(lines, chunk, lineIndex).value.0;
      && r.start + r.oldLen <= |lines|
      && (chunk.oldLines[|chunk.oldLines| - 1] != "" ==> |chunk.oldLines| <= |lines| && r == AtTheEnd(lines, chunk))
  {
    hide Sought, AfterContext, WindowMatch;
    StepLands(lines, chunk, lineIndex);
  }

  /** Searched chunks and then an End-of-File chunk, all of them found. The splice stops exactly
      when the last of the searched windows starts beyond the lines that the End-of-File chunk
      leaves; otherwise all its new lines are in the file exactly when no searched window takes
      one of their places. */
  lemma EndOfFileEditIff(lines: seq<string>, chunks: seq<UpdateChunk>, last: UpdateChunk)
    requires forall i :: 0 <= i < |chunks| ==> Searched(chunks[i])
    requires last.oldLines != [] && last.endOfFile && Computed(lines, chunks + [last], 0).Ok?
    ensures Computed(lines, chunks, 0).Ok?
    ensures var before, all := Computed(lines, chunks, 0).value, Computed(lines, chunks + [last], 0).value;
      && |all| == |before| + 1 && all == before + [all[|before|]]
      && var r := all[|before|];
      && (last.oldLines[|last.oldLines| - 1] != "" ==> |last.oldLines| <= |lines| && r == AtTheEnd(lines, last))
      && (RightToLeft(lines, all) == Panic <==>
            before != [] && before[|before| - 1].start > |lines| - r.oldLen + |r.newLines|)
      && (RightToLeft(lines, all).Done? ==>
            ((forall k: nat :: k < |r.newLines| ==> Survives(lines, all, |before|, k)) <==>
             forall i :: 0 <= i < |before| ==> Apart(before[i], r.start, |r.newLines|)))
  {
    hide Step, Explains, RightToLeft, Survives, Apart, AtTheEnd;
    ComputedAppend(lines, chunks, last, 0);
    SearchedWindowsOrdered(lines, chunks, 0);
    var before := Computed(lines, chunks, 0).value;
    EndInside(before, 0, |lines|);
    EndOfFileLands(lines, last, End(before, 0));
    var r := Step(lines, last, End(before, 0)).value.0;
    LastEditPanicsIff(lines, before, r);
    if RightToLeft(lines, before + [r]).Done? {
      LastEditKeptIff(lines, before, r);
    }
  }

  lemma ComputedTwo(lines: seq<string>, a: UpdateChunk, b: UpdateChunk, lineIndex: nat)
    requires Step(lines, a, lineIndex).Ok? && Step(lines, b, Step(lines, a, lineIndex).value.1).Ok?
    ensures var (r, next) := Step(lines, a, lineIndex).value;
      Computed(lines, [a, b], lineIndex) == Ok([r, Step(lines, b, next).value.0])
  {
    hide Step;
    var (r, next) := Step(lines, a, lineIndex).value;
    var (r', next') := Step(lines, b, next).value;
    var one, two := [b], [a, b];
    assert one[1..] == [] && two[1..] == one;
    assert [r'] + [] == [r'] && [r] + [r'] == [r, r'];
    assert Computed(lines, one[1..], next') == Ok([]);
    assert Computed(lines, one, next) == Ok([Step(lines, b, next).value.0]);
  }

  /** An End-of-File chunk that overlaps an earlier window loses its edit: the earlier window,
      applied later, takes the new line out again. */
  lemma EndOfFileEditCanBeLost()
    ensures var both := UpdateChunk("", ["a", "b"], ["x"], false);
      var tail := UpdateChunk("", ["b"], ["c"], true);
      && Computed(["a", "b"], [both, tail], 0) == Ok([Replacement(0, 2, ["x"]), Replacement(1, 1, ["c"])])
      && RightToLeft(["a", "b"], [Replacement(0, 2, ["x"]), Replacement(1, 1, ["c"])]) == Done(["x"])
  {
    var lines := ["a", "b"];
    var both := UpdateChunk("", ["a", "b"], ["x"], false);
    var tail := UpdateChunk("", ["b"], ["c"], true);
    assert FirstMatch(Exact, lines, ["a", "b"], 0) == Some(0);
    assert Step(lines, both, 0) == Ok((Replacement(0, 2, ["x"]), 2));
    assert FirstMatch(Exact, lines, ["b"], 1) == Some(1);
    assert Step(lines, tail, 2) == Ok((Replacement(1, 1, ["c"]), 2));
    ComputedTwo(lines, both, tail, 0);
    var rs := [Replacement(0, 2, ["x"]), Replacement(1, 1, ["c"])];
    assert rs[1..] == [Replacement(1, 1, ["c"])];
    assert rs[1..][1..] == [];
    assert RightToLeft(lines, rs[1..]) == Done(["a", "c"]);
  }

  /** And one that takes out more than it leaves can stop the splice. */
  lemma EndOfFileChunkCanPanic()
    ensures var lines := ["a", "b", "c"];
      var change := UpdateChunk("", ["c"], ["x"], false);
      var removal := UpdateChunk("", ["a", "b", "c"], [], true);
      && Computed(lines, [change, removal], 0) == Ok([Replacement(2, 1, ["x"]), Replacement(0, 3, [])])
      && RightToLeft(lines, [Replacement(2, 1, ["x"]), Replacement(0, 3, [])]) == Panic
  {
    var lines := ["a", "b", "c"];
    var change := UpdateChunk("", ["c"], ["x"], false);
    var removal := UpdateChunk("", ["a", "b", "c"], [], true);
    var first, second := Replacement(2, 1, ["x"]), Replacement(0, 3, []);
    assert !WindowMatch(Exact, lines, ["c"], 0) && !WindowMatch(Exact, lines, ["c"], 1) by {
      assert !LineMatch(Exact, lines[0 + 0], ["c"][0]) && !LineMatch(Exact, lines[1 + 0], ["c"][0]);
    }
    assert FirstMatch(Exact, lines, ["c"], 2) == Some(2);
    assert FirstMatch(Exact, lines, ["c"], 1) == Some(2);
    assert FirstMatch(Exact, lines, ["c"], 0) == Some(2);
    assert Step(lines, change, 0) == Ok((first, 3));
    assert FirstMatch(Exact, lines, ["a", "b", "c"], 0) == Some(0);
    assert Step(lines, removal, 3) == Ok((second, 3));
    ComputedTwo(lines, change, removal, 0);
    var rs := [first, second];
    assert rs[1..] == [second];
    assert rs[1..][1..] == [];
    assert RightToLeft(lines, rs[1..]) == Done([]);
  }

  // ----- chunks that only insert -----

  /** Windows in order, between them insertions at `point`; `inserts` tells which are which. */
  predicate Mixed<T>(rs: seq<Swap<T>>, inserts: seq<bool>, from: nat, n: nat, point: nat) {
    && |rs| == |inserts|
    && if rs == [] then from <= n
       else
         var r := rs[0];
         if inserts[0] then r.oldLen == 0 && r.start == point && Mixed(rs[1..], inserts[1..], from, n, point)
         else from <= r.start && r.start + r.oldLen <= n && Mixed(rs[1..], inserts[1..], r.start + r.oldLen, n, point)
  }

  /** Insertion `j` finds fewer lines than it needs. */
  predicate OutOfReach<T>(rs: seq<Swap<T>>, inserts: seq<bool>, n: nat, point: nat, j: nat)
    requires |rs| == |inserts|
  {
    j < |rs| && inserts[j] && n + Growth(rs[j + 1..]) < point
  }

  ghost predicate SomeOutOfReach<T>(rs: seq<Swap<T>>, inserts: seq<bool>, n: nat, point: nat)
    requires |rs| == |inserts|
  {
    exists j: nat :: OutOfReach(rs, inserts, n, point, j)
  }

  lemma OutOfReachCases<T>(rs: seq<Swap<T>>, inserts: seq<bool>, n: nat, point: nat)
    requires rs != [] && |rs| == |inserts|
    ensures SomeOutOfReach(rs, inserts, n, point) <==>
      SomeOutOfReach(rs[1..], inserts[1..], n, point) || (inserts[0] && n + Growth(rs[1..]) < point)
  {
    hide Growth;
    forall j: nat
      ensures OutOfReach(rs[1..], inserts[1..], n, point, j) <==> OutOfReach(rs, inserts, n, point, j + 1)
    {
      if j < |rs| - 1 {
        assert rs[1..][j + 1..] == rs[j + 2..];
      }
    }
    if inserts[0] && n + Growth(rs[1..]) < point {
      assert OutOfReach(rs, inserts, n, point, 0);
    }
    if j: nat :| OutOfReach(rs, inserts, n, point, j) {
      if j > 0 {
        assert OutOfReach(rs[1..], inserts[1..], n, point, j - 1);
      }
    }
  }

  lemma {:induction false} MixedPanicsIff<T>(u: seq<T>, rs: seq<Swap<T>>, inserts: seq<bool>, from: nat, point: nat)
    requires Mixed(rs, inserts, from, |u|, point)
    ensures RightToLeft(u, rs) == Panic <==> SomeOutOfReach(rs, inserts, |u|, point)
    ensures var done := RightToLeft(u, rs); done.Done? ==> |done.lines| == |u| + Growth(rs) && |done.lines| >= from
    decreases |rs|
  {
    hide OutOfReach, SomeOutOfReach;
    if rs == [] {
      NoneOutOfReach(rs, inserts, |u|, point);
    } else {
      var r, rest := rs[0], rs[1..];
      MixedPanicsIff(u, rest, inserts[1..], if inserts[0] then from else r.start + r.oldLen, point);
      OutOfReachCases(rs, inserts, |u|, point);
    }
  }

  lemma NoneOutOfReach<T>(rs: seq<Swap<T>>, inserts: seq<bool>, n: nat, point: nat)
    requires rs == [] && inserts == []
    ensures !SomeOutOfReach(rs, inserts, n, point)
  {
  }

  function Inserts(chunks: seq<UpdateChunk>): seq<bool> {
    seq(|chunks|, i requires 0 <= i < |chunks| => chunks[i].oldLines == [])
  }

  lemma {:induction false} ComputedIsMixed(lines: seq<string>, chunks: seq<UpdateChunk>, lineIndex: nat)
    requires lineIndex <= |lines| && forall i :: 0 <= i < |chunks| ==> !chunks[i].endOfFile
    requires Computed(lines, chunks, lineIndex).Ok?
    ensures Mixed(Computed(lines, chunks, lineIndex).value, Inserts(chunks), lineIndex, |lines|, InsertionPoint(lines))
    decreases |chunks|
  {
    hide Step, Explains, InsertionPoint;
    if chunks != [] {
      StepLands(lines, chunks[0], lineIndex);
      var (r, next) := Step(lines, chunks[0], lineIndex).value;
      ComputedIsMixed(lines, chunks[1..], next);
      var rest := Computed(lines, chunks[1..], next).value;
      assert ([r] + rest)[1..] == rest && ([r] + rest)[0] == r;
      assert Inserts(chunks)[1..] == Inserts(chunks[1..]);
      if chunks[0].oldLines == [] {
        MixedFromEarlier(rest, Inserts(chunks[1..]), lineIndex, next, |lines|, InsertionPoint(lines));
      }
    }
  }

  lemma {:induction false} MixedFromEarlier<T>(rs: seq<Swap<T>>, inserts: seq<bool>, from: nat, later: nat, n: nat, point: nat)
    requires from <= later && Mixed(rs, inserts, later, n, point)
    ensures Mixed(rs, inserts, from, n, point)
    decreases |rs|
  {
    if rs != [] && inserts[0] {
      MixedFromEarlier(rs[1..], inserts[1..], from, later, n, point);
    }
  }

  /** A chunk without old lines goes to the end of the file but does not move the search, so
      chunks after it can land before it. For any chunks without an End-of-File mark, all of
      them found, the splice runs past the end of the shortened lines exactly when some
      insertion is followed by chunks that leave fewer lines than its place needs. */
  lemma InsertionPanicsIff(lines: seq<string>, chunks: seq<UpdateChunk>)
    requires forall i :: 0 <= i < |chunks| ==> !chunks[i].endOfFile
    requires Computed(lines, chunks, 0).Ok?
    ensures var rs := Computed(lines, chunks, 0).value;
      && |rs| == |chunks|
      && (RightToLeft(lines, rs) == Panic <==>
            exists j :: 0 <= j < |chunks| && chunks[j].oldLines == []
              && |lines| + Growth(rs[j + 1..]) < InsertionPoint(lines))
  {
    hide Growth, RightToLeft, InsertionPoint, Computed;
    ComputedIsMixed(lines, chunks, 0);
    var rs := Computed(lines, chunks, 0).value;
    MixedPanicsIff(lines, rs, Inserts(chunks), 0, InsertionPoint(lines));
    var point := InsertionPoint(lines);
    if j: nat :| OutOfReach(rs, Inserts(chunks), |lines|, point, j) {
      assert chunks[j].oldLines == [] && |lines| + Growth(rs[j + 1..]) < point;
    }
    if j :| 0 <= j < |chunks| && chunks[j].oldLines == [] && |lines| + Growth(rs[j + 1..]) < point {
      assert OutOfReach(rs, Inserts(chunks), |lines|, point, j);
    }
  }

  /** The same growth, read off the chunks. */
  function ChunkGrowth(chunks: seq<UpdateChunk>): int {
    if chunks == [] then 0 else |chunks[0].newLines| - |chunks[0].oldLines| + ChunkGrowth(chunks[1..])
  }

  /** No old lines end in the optional blank. */
  predicate NoOptionalBlank(chunks: seq<UpdateChunk>) {
    forall i :: 0 <= i < |chunks| && chunks[i].oldLines != [] ==> chunks[i].oldLines[|chunks[i].oldLines| - 1] != ""
  }

  lemma {:induction false} GrowthOfChunks(lines: seq<string>, chunks: seq<UpdateChunk>, lineIndex: nat, j: nat)
    requires NoOptionalBlank(chunks) && Computed(lines, chunks, lineIndex).Ok? && j <= |chunks|
    ensures var rs := Computed(lines, chunks, lineIndex).value; |rs| == |chunks| && Growth(rs[j..]) == ChunkGrowth(chunks[j..])
    decreases |chunks|
  {
    hide Step;
    if chunks != [] {
      var (r, next) := Step(lines, chunks[0], lineIndex).value;
      StepGrowth(lines, chunks[0], lineIndex);
      var rest := Computed(lines, chunks[1..], next).value;
      assert ([r] + rest)[1..] == rest;
      GrowthOfChunks(lines, chunks[1..], next, if j == 0 then 0 else j - 1);
      assert rest[0..] == rest && chunks[1..][0..] == chunks[1..];
      if j == 0 {
        assert ([r] + rest)[0..] == [r] + rest && chunks[0..] == chunks;
      } else {
        assert ([r] + rest)[j..] == rest[j - 1..] && chunks[j..] == chunks[1..][j - 1..];
      }
    }
  }

  lemma StepGrowth(lines: seq<string>, chunk: UpdateChunk, lineIndex: nat)
    requires Step(lines, chunk, lineIndex).Ok?
    requires chunk.oldLines != [] ==> chunk.oldLines[|chunk.oldLines| - 1] != ""
    ensures var r := Step(lines, chunk, lineIndex).value.0;
      r.oldLen == |chunk.oldLines| && r.newLines == chunk.newLines
  {
    hide Sought, AfterContext;
  }

  /** So for chunks without optional blanks, counting lines tells beforehand. */
  lemma CountsTellPanic(lines: seq<string>, chunks: seq<UpdateChunk>)
    requires forall i :: 0 <= i < |chunks| ==> !chunks[i].endOfFile
    requires NoOptionalBlank(chunks) && Computed(lines, chunks, 0).Ok?
    ensures RightToLeft(lines, Computed(lines, chunks, 0).value) == Panic <==>
      exists j :: 0 <= j < |chunks| && chunks[j].oldLines == []
        && |lines| + ChunkGrowth(chunks[j + 1..]) < InsertionPoint(lines)
  {
    hide Growth, ChunkGrowth, RightToLeft, InsertionPoint, Computed, NoOptionalBlank;
    InsertionPanicsIff(lines, chunks);
    var rs := Computed(lines, chunks, 0).value;
    forall j | 0 <= j < |chunks| && chunks[j].oldLines == []
      ensures Growth(rs[j + 1..]) == ChunkGrowth(chunks[j + 1..])
    {
      GrowthOfChunks(lines, chunks, 0, j + 1);
    }
  }

  /** The smallest such update: add a line at the end, then remove the only line there was. */
  lemma InsertionFirstCanPanic()
    ensures var insertion := UpdateChunk("", [], ["new"], false);
      var removal := UpdateChunk("", ["a"], [], false);
      && Computed(["a"], [insertion, removal], 0) == Ok([Replacement(1, 0, ["new"]), Replacement(0, 1, [])])
      && RightToLeft(["a"], [Replacement(1, 0, ["new"]), Replacement(0, 1, [])]) == Panic
  {
    var insertion := UpdateChunk("", [], ["new"], false);
    var removal := UpdateChunk("", ["a"], [], false);
    assert Step(["a"], insertion, 0) == Ok((Replacement(1, 0, ["new"]), 0));
    assert FirstMatch(Exact, ["a"], ["a"], 0) == Some(0);
    assert Step(["a"], removal, 0) == Ok((Replacement(0, 1, []), 1));
    ComputedTwo(["a"], insertion, removal, 0);
    var rs := [Replacement(1, 0, ["new"]), Replacement(0, 1, [])];
    assert rs[1..] == [Replacement(0, 1, [])];
    assert rs[1..][1..] == [];
  }
}
