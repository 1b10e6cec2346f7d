/** The in-place splice of an update, and the file contents it derives. */
module Splice {
  import opened Text
  import opened Numbers
  import opened Seqs
  import opened Replace

  /** An index beyond the end of the lines stops the program. */
  datatype Outcome<T> = Done(lines: seq<T>) | Panic

  /** One replacement in place: as many of the `oldLen` lines as there are leave, then the
      new ones come in. */
  function Spliced<T>(lines: seq<T>, r: Swap<T>): Outcome<T> {
    if r.start > |lines| then Panic
    else Done(lines[..r.start] + r.newLines + lines[r.start + Min(r.oldLen, |lines| - r.start)..])
  }

  /** The program's order: the last replacement first. */
  function RightToLeft<T>(lines: seq<T>, rs: seq<Swap<T>>): Outcome<T> {
    if rs == [] then Done(lines)
    else
      match RightToLeft(lines, rs[1..])
      case Panic => Panic
      case Done(updated) => Spliced(updated, rs[0])
  }

  /** The plain meaning: walk the original lines once and swap each window for its new lines. */
  function LeftToRight(lines: seq<string>, rs: seq<Replacement>, from: nat): seq<string>
    requires Ordered(rs, from, |lines|)
  {
    if rs == [] then lines[from..]
    else
      var r := rs[0];
      lines[from..r.start] + r.newLines + LeftToRight(lines, rs[1..], r.start + r.oldLen)
  }

  method RemoveAt(lines: seq<string>, start: nat, oldLen: nat) returns (updated: seq<string>)
    ensures updated == if start > |lines| then lines
                       else lines[..start] + lines[start + Min(oldLen, |lines| - start)..]
  {
    updated := lines;
    var removed := 0;
    while removed < oldLen
      invariant 0 <= removed <= oldLen
      invariant start > |lines| ==> updated == lines
      invariant start <= |lines| ==>
        updated == lines[..start] + lines[start + Min(removed, |lines| - start)..]
    {
      if start < |updated| {
        updated := updated[..start] + updated[start + 1..];
      }
      removed := removed + 1;
    }
  }

  method ApplyReplacements(lines: seq<string>, replacements: seq<Replacement>) returns (outcome: Outcome<string>)
    ensures outcome == RightToLeft(lines, replacements)
  {
    var updated := lines;
    var i := |replacements|;
    while i > 0
      invariant 0 <= i <= |replacements|
      invariant RightToLeft(lines, replacements[i..]) == Done(updated)
    {
      i := i - 1;
      var item := replacements[i];
      ghost var before := updated;
      assert replacements[i..][1..] == replacements[i + 1..];
      updated := RemoveAt(updated, item.start, item.oldLen);
      if item.start > |updated| {
        PanicSpreads(lines, replacements, i);
        return Panic;
      }
      var tail := updated[item.start..];
      updated := updated[..item.start] + item.newLines;
      updated := updated + tail;
      assert Spliced(before, item) == Done(updated);
    }
    assert replacements[0..] == replacements;
    return Done(updated);
  }

  lemma {:induction false} PanicSpreads(lines: seq<string>, rs: seq<Replacement>, i: nat)
    requires i <= |rs| && RightToLeft(lines, rs[i..]) == Panic
    ensures RightToLeft(lines, rs) == Panic
    decreases i
  {
    if i == 0 {
      assert rs[0..] == rs;
    } else {
      assert rs[i - 1..][1..] == rs[i..];
      PanicSpreads(lines, rs, i - 1);
    }
  }

  // ----- the two orders agree -----

  lemma SplicedInside(lines: seq<string>, updated: seq<string>, rest: seq<string>, from: nat, r: Replacement)
    requires from <= r.start && r.start + r.oldLen <= |lines|
    requires updated == lines[..r.start + r.oldLen] + rest
    ensures Spliced(updated, r) == Done(lines[..from] + (lines[from..r.start] + r.newLines + rest))
  {
    assert updated[..r.start] == lines[..r.start] == lines[..from] + lines[from..r.start];
    assert updated[r.start + r.oldLen..] == rest;
  }

  /** On ordered windows the in-place splice from the right is the plain left-to-right one:
      it does not stop, and everything before the first window is untouched. */
  lemma {:induction false} SpliceOrdersAgree(lines: seq<string>, rs: seq<Replacement>, from: nat)
    requires Ordered(rs, from, |lines|)
    ensures from <= |lines|
    ensures RightToLeft(lines, rs) == Done(lines[..from] + LeftToRight(lines, rs, from))
  {
    if rs == [] {
      assert lines[..from] + lines[from..] == lines;
    } else {
      var end := rs[0].start + rs[0].oldLen;
      SpliceOrdersAgree(lines, rs[1..], end);
      SplicedInside(lines, lines[..end] + LeftToRight(lines, rs[1..], end),
                    LeftToRight(lines, rs[1..], end), from, rs[0]);
    }
  }

  /** How many lines a list of replacements adds (or, when negative, removes). */
  function Growth<T>(rs: seq<Swap<T>>): int {
    if rs == [] then 0 else |rs[0].newLines| - rs[0].oldLen + Growth(rs[1..])
  }

  lemma {:induction false} UpdatedLength(lines: seq<string>, rs: seq<Replacement>, from: nat)
    requires Ordered(rs, from, |lines|)
    ensures |LeftToRight(lines, rs, from)| == |lines| - from + Growth(rs)
  {
    if rs != [] {
      UpdatedLength(lines, rs[1..], rs[0].start + rs[0].oldLen);
    }
  }

  /** The replacements that lie wholly before a line of the original. */
  function Before(rs: seq<Replacement>, line: nat): seq<Replacement> {
    if rs == [] || rs[0].start + rs[0].oldLen > line then [] else [rs[0]] + Before(rs[1..], line)
  }

  predicate InWindow(rs: seq<Replacement>, line: nat) {
    exists i :: 0 <= i < |rs| && rs[i].start <= line < rs[i].start + rs[i].oldLen
  }

  lemma OrderedParts(rs: seq<Replacement>, from: nat, n: nat)
    requires rs != [] && Ordered(rs, from, n)
    ensures var end := rs[0].start + rs[0].oldLen;
      from <= rs[0].start && end <= n && Ordered(rs[1..], end, n)
  {
  }

  lemma LineWithoutWindows(lines: seq<string>, from: nat, line: nat)
    requires from <= line < |lines|
    ensures Growth(Before([], line)) == 0
    ensures LeftToRight(lines, [], from) == lines[from..] && lines[from..][line - from] == lines[line]
  {
  }

  lemma NothingBefore(rs: seq<Replacement>, line: nat)
    requires rs != [] && line < rs[0].start
    ensures Before(rs, line) == [] && Growth(Before(rs, line)) == 0
  {
  }

  lemma InFirst<T>(a: seq<T>, b: seq<T>, k: nat)
    requires k < |a|
    ensures (a + b)[k] == a[k]
  {
  }

  lemma LineBeforeWindows(lines: seq<string>, rs: seq<Replacement>, from: nat, line: nat)
    requires rs != [] && Ordered(rs, from, |lines|) && from <= line < rs[0].start
    ensures var place := line - from + Growth(Before(rs, line));
      0 <= place < |LeftToRight(lines, rs, from)| && LeftToRight(lines, rs, from)[place] == lines[line]
  {
    OrderedParts(rs, from, |lines|);
    NothingBefore(rs, line);
    var gap, rest := lines[from..rs[0].start], LeftToRight(lines, rs[1..], rs[0].start + rs[0].oldLen);
    assert LeftToRight(lines, rs, from) == gap + (rs[0].newLines + rest) by {
      Associative(gap, rs[0].newLines, rest);
    }
    hide LeftToRight, Ordered;
    InFirst(gap, rs[0].newLines + rest, line - from);
  }

  /** The line is at `place` of what follows the first window. */
  lemma LineBehindWindow(lines: seq<string>, rs: seq<Replacement>, from: nat, line: nat, place: nat)
    requires rs != [] && Ordered(rs, from, |lines|) && Ordered(rs[1..], rs[0].start + rs[0].oldLen, |lines|)
    requires rs[0].start + rs[0].oldLen <= line
    requires place < |LeftToRight(lines, rs[1..], rs[0].start + rs[0].oldLen)|
    requires place == line - rs[0].start - rs[0].oldLen + Growth(Before(rs[1..], line))
    ensures var further := rs[0].start - from + |rs[0].newLines| + place;
      && further == line - from + Growth(Before(rs, line))
      && 0 <= further < |LeftToRight(lines, rs, from)|
      && LeftToRight(lines, rs, from)[further] == LeftToRight(lines, rs[1..], rs[0].start + rs[0].oldLen)[place]
  {
    hide Growth, Ordered;
    var r, end := rs[0], rs[0].start + rs[0].oldLen;
    OrderedParts(rs, from, |lines|);
    var head, rest := lines[from..r.start] + r.newLines, LeftToRight(lines, rs[1..], end);
    GrowthOfMore(r, Before(rs[1..], line));
    InSecond(head, rest, place);
  }

  lemma GrowthOfMore(r: Replacement, rest: seq<Replacement>)
    ensures Growth([r] + rest) == |r.newLines| - r.oldLen + Growth(rest)
  {
    assert ([r] + rest)[1..] == rest;
  }

  lemma InSecond<T>(a: seq<T>, b: seq<T>, k: nat)
    requires k < |b|
    ensures (a + b)[|a| + k] == b[k]
  {
  }

  /** Every line outside the windows survives, moved by the growth of what precedes it. */
  lemma {:induction false} UntouchedLineSurvives(lines: seq<string>, rs: seq<Replacement>, from: nat, line: nat)
    requires Ordered(rs, from, |lines|) && from <= line < |lines| && !InWindow(rs, line)
    ensures var place := line - from + Growth(Before(rs, line));
      0 <= place < |LeftToRight(lines, rs, from)| && LeftToRight(lines, rs, from)[place] == lines[line]
  {
    hide Ordered, LeftToRight, Before, Growth, InWindow;
    if rs == [] {
      LineWithoutWindows(lines, from, line);
    } else {
      OrderedParts(rs, from, |lines|);
      OutsideRest(rs, line);
      if line < rs[0].start {
        LineBeforeWindows(lines, rs, from, line);
      } else {
        var end := rs[0].start + rs[0].oldLen;
        UntouchedLineSurvives(lines, rs[1..], end, line);
        LineBehindWindow(lines, rs, from, line, line - end + Growth(Before(rs[1..], line)));
      }
    }
  }

  lemma OutsideRest(rs: seq<Replacement>, line: nat)
    requires rs != [] && !InWindow(rs, line)
    ensures !(rs[0].start <= line < rs[0].start + rs[0].oldLen) && !InWindow(rs[1..], line)
  {
    forall i | 0 <= i < |rs| - 1
      ensures !(rs[1..][i].start <= line < rs[1..][i].start + rs[1..][i].oldLen)
    {
      assert rs[1..][i] == rs[i + 1];
    }
  }

  // ----- file contents -----

  datatype Derived = Contents(text: string) | Failed(error: UpdateError) | Panicked

  function OriginalLines(original: string): seq<string> {
    WithoutFinalBlank(SplitLines(original))
  }

  /** The final newline rule: a missing one is added, a final blank line counts as it. */
  function Closed(updated: seq<string>): string {
    if updated == [] || updated[|updated| - 1] != "" then JoinLines(updated + [""]) else JoinLines(updated)
  }

  lemma {:induction false} TerminatedJoins(lines: seq<string>)
    requires lines != []
    ensures Terminated(lines) == JoinLines(lines) + "\n"
  {
    if |lines| > 1 {
      TerminatedJoins(lines[1..]);
      Associative(lines[0] + "\n", JoinLines(lines[1..]), "\n");
    } else {
      assert lines[1..] == [];
      EmptyUnit(lines[0] + "\n");
    }
  }

  /** The lines of a text: terminating each gives the text back, except that the last line, if
      it is not blank, may lack its newline. */
  lemma OriginalLinesIff(text: string, lines: seq<string>)
    ensures OriginalLines(text) == lines <==>
      && (forall i :: 0 <= i < |lines| ==> OneLine(lines[i]))
      && (|| text == Terminated(lines)
          || (lines != [] && lines[|lines| - 1] != "" && text + "\n" == Terminated(lines)))
  {
    hide SplitLines, JoinLines, Terminated, OneLine;
    var split := SplitLines(text);
    JoinSplit(text);
    JoinTerminated(lines);
    if OriginalLines(text) == lines {
      if split[|split| - 1] == "" {
        assert split == lines + [""];
      } else {
        TerminatedJoins(lines);
      }
    }
    if forall i :: 0 <= i < |lines| ==> OneLine(lines[i]) {
      SplitTerminated(lines);
      if text != Terminated(lines) && lines != [] && lines[|lines| - 1] != "" && text + "\n" == Terminated(lines) {
        TerminatedJoins(lines);
        CutNewline(text, JoinLines(lines));
        SplitJoin(lines);
      }
    }
  }

  lemma CutNewline(a: string, b: string)
    requires a + "\n" == b + "\n"
    ensures a == b
  {
    DropLeft(a, "\n");
    assert |a + "\n"| == |b + "\n"|;
    DropLeft(b, "\n");
  }

  method DeriveUpdatedContents(original: string, chunks: seq<UpdateChunk>) returns (derived: Derived)
    ensures match Computed(OriginalLines(original), chunks, 0)
      case Err(error) => derived == Failed(error)
      case Ok(rs) =>
        match RightToLeft(OriginalLines(original), rs)
        case Panic => derived == Panicked
        case Done(updated) => derived == Contents(Closed(updated))
  {
    hide Computed, RightToLeft;
    var originalLines := SplitLines(original);
    if |originalLines| > 0 && originalLines[|originalLines| - 1] == "" {
      originalLines := originalLines[..|originalLines| - 1];
    }
    var replacements := ComputeReplacements(originalLines, chunks);
    if replacements.Err? {
      return Failed(replacements.error);
    }
    var outcome := ApplyReplacements(originalLines, replacements.value);
    if outcome == Panic {
      return Panicked;
    }
    var updated := outcome.lines;
    if |updated| == 0 || updated[|updated| - 1] != "" {
      updated := updated + [""];
    }
    return Contents(JoinLines(updated));
  }

  lemma {:induction false} TerminatedBlank(lines: seq<string>)
    ensures Terminated(lines + [""]) == Terminated(lines) + "\n"
  {
    if lines == [] {
      assert [""][1..] == [];
    } else {
      TerminatedBlank(lines[1..]);
      assert (lines + [""])[1..] == lines[1..] + [""];
    }
  }

  lemma ClosedBlank(front: seq<string>)
    ensures Closed(front + [""]) == Terminated(front)
  {
    hide Terminated, JoinLines;
    JoinTerminated(front);
  }

  lemma ClosedText(updated: seq<string>)
    requires updated == [] || updated[|updated| - 1] != ""
    ensures Closed(updated) == Terminated(updated)
  {
    hide Terminated, JoinLines;
    JoinTerminated(updated);
  }

  lemma ClosedBytes(updated: seq<string>)
    ensures updated == [] || updated[|updated| - 1] != "" ==> Closed(updated) == Terminated(updated)
    ensures updated != [] && updated[|updated| - 1] == "" ==> Closed(updated) + "\n" == Terminated(updated)
  {
    hide Terminated, Closed;
    if updated == [] || updated[|updated| - 1] != "" {
      ClosedText(updated);
    } else {
      var front := updated[..|updated| - 1];
      assert updated == front + [""];
      ClosedBlank(front);
      TerminatedBlank(front);
    }
  }

  /** A file derived from ordered windows is byte for byte the left-to-right splice with every
      line terminated, exactly when that splice does not end in a blank line; a final blank
      line is absorbed by the newline rule. */
  lemma DerivedBytes(lines: seq<string>, rs: seq<Replacement>)
    requires Ordered(rs, 0, |lines|)
    ensures var updated := LeftToRight(lines, rs, 0);
      && RightToLeft(lines, rs) == Done(updated)
      && (Closed(updated) == Terminated(updated) <==> updated == [] || updated[|updated| - 1] != "")
      && (updated != [] && updated[|updated| - 1] == "" ==> Closed(updated) + "\n" == Terminated(updated))
  {
    hide RightToLeft, LeftToRight, Closed, Terminated;
    SpliceOrdersAgree(lines, rs, 0);
    var updated := LeftToRight(lines, rs, 0);
    assert lines[..0] + updated == updated;
    ClosedBytes(updated);
    if updated != [] && updated[|updated| - 1] == "" {
      assert |Closed(updated) + "\n"| != |Closed(updated)|;
    }
  }

  /** The whole update, for chunks that are searched for: once every chunk is found, the
      splice cannot fail and is the left-to-right one over ordered, disjoint windows. */
  lemma SearchedUpdateIsPlainSplice(lines: seq<string>, chunks: seq<UpdateChunk>)
    requires forall i :: 0 <= i < |chunks| ==> Searched(chunks[i])
    requires Computed(lines, chunks, 0).Ok?
    ensures var rs := Computed(lines, chunks, 0).value;
      Ordered(rs, 0, |lines|) && RightToLeft(lines, rs) == Done(LeftToRight(lines, rs, 0))
  {
    hide Computed, Explains;
    SearchedWindowsOrdered(lines, chunks, 0);
    DerivedBytes(lines, Computed(lines, chunks, 0).value);
  }
}
