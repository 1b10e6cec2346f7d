/** What the four levels of the search overlook, character by character. */
module LineLevels {
  import opened Seqs
  import opened Text
  import opened Seek

  const SPACES := "\t\n\U{000B}\U{000C}\r \U{0085}\U{00A0}\U{1680}"
    + "\U{2000}\U{2001}\U{2002}\U{2003}\U{2004}\U{2005}\U{2006}\U{2007}\U{2008}\U{2009}\U{200A}"
    + "\U{2028}\U{2029}\U{202F}\U{205F}\U{3000}"
  const DASHES := "-\U{2010}\U{2011}\U{2012}\U{2013}\U{2014}\U{2015}\U{2212}"
  const SINGLE_QUOTES := "'\U{2018}\U{2019}\U{201A}\U{201B}"
  const DOUBLE_QUOTES := "\"\U{201C}\U{201D}\U{201E}\U{201F}"
  const BLANKS := " \U{00A0}\U{2002}\U{2003}\U{2004}\U{2005}\U{2006}\U{2007}\U{2008}\U{2009}\U{200A}\U{202F}\U{205F}\U{3000}"

  predicate OneOf(c: char, kind: string) {
    c in kind
  }

  predicate AllSpaces(s: string) {
    forall i :: 0 <= i < |s| ==> OneOf(s[i], SPACES)
  }

  /** `core` is what is left of `s` once the white space at its end is gone. */
  ghost predicate RightCore(s: string, core: string) {
    && (core == "" || !OneOf(core[|core| - 1], SPACES))
    && exists tail :: s == core + tail && AllSpaces(tail)
  }

  /** `core` is what is left of `s` once the white space at both ends is gone. */
  ghost predicate Core(s: string, core: string) {
    && (core == "" || (!OneOf(core[0], SPACES) && !OneOf(core[|core| - 1], SPACES)))
    && exists head, tail :: s == head + core + tail && AllSpaces(head) && AllSpaces(tail)
  }

  /** Two characters that the weakest level does not tell apart. */
  predicate Alike(a: char, b: char) {
    || a == b
    || (OneOf(a, DASHES) && OneOf(b, DASHES))
    || (OneOf(a, SINGLE_QUOTES) && OneOf(b, SINGLE_QUOTES))
    || (OneOf(a, DOUBLE_QUOTES) && OneOf(b, DOUBLE_QUOTES))
    || (OneOf(a, BLANKS) && OneOf(b, BLANKS))
  }

  predicate AlikeAll(a: string, b: string) {
    |a| == |b| && forall i :: 0 <= i < |a| ==> Alike(a[i], b[i])
  }

  lemma SpacesAre(c: char)
    ensures IsSpace(c) <==> OneOf(c, SPACES)
  {
  }

  lemma ClassOf(c: char)
    ensures OneOf(c, DASHES) <==> PlainPunctuation(c) == '-'
    ensures OneOf(c, SINGLE_QUOTES) <==> PlainPunctuation(c) == '\''
    ensures OneOf(c, DOUBLE_QUOTES) <==> PlainPunctuation(c) == '"'
    ensures OneOf(c, BLANKS) <==> PlainPunctuation(c) == ' '
    ensures PlainPunctuation(c) in "-'\" " || PlainPunctuation(c) == c
  {
  }

  lemma AlikeIff(a: char, b: char)
    ensures PlainPunctuation(a) == PlainPunctuation(b) <==> Alike(a, b)
  {
    hide OneOf, PlainPunctuation;
    ClassOf(a);
    ClassOf(b);
  }

  lemma {:induction false} SplitRight(s: string) returns (tail: string)
    ensures s == TrimRight(s) + tail && AllSpaces(tail)
    ensures TrimRight(s) == "" || !OneOf(TrimRight(s)[|TrimRight(s)| - 1], SPACES)
  {
    hide IsSpace, OneOf;
    if s != "" && IsSpace(s[|s| - 1]) {
      var n := |s| - 1;
      tail := SplitRight(s[..n]);
      SpacesAre(s[n]);
      Associative(TrimRight(s), tail, [s[n]]);
      OneMoreSpace(tail, s[n]);
      tail := tail + [s[n]];
    } else {
      if s != "" {
        SpacesAre(s[|s| - 1]);
      }
      tail := "";
    }
  }

  lemma OneMoreSpace(tail: string, c: char)
    requires AllSpaces(tail) && OneOf(c, SPACES)
    ensures AllSpaces(tail + [c])
  {
  }

  lemma {:induction false} TrimRightAppend(core: string, tail: string)
    requires AllSpaces(tail) && (core == "" || !OneOf(core[|core| - 1], SPACES))
    ensures TrimRight(core + tail) == core
    decreases |tail|
  {
    hide IsSpace, OneOf;
    if tail == "" {
      EmptyUnit(core);
      if core != "" {
        SpacesAre(core[|core| - 1]);
      }
    } else {
      var n := |tail| - 1;
      SpacesAre(tail[n]);
      assert (core + tail)[..|core + tail| - 1] == core + tail[..n];
      TrimRightAppend(core, tail[..n]);
    }
  }

  lemma TrimRightIff(s: string, core: string)
    ensures TrimRight(s) == core <==> RightCore(s, core)
  {
    hide AllSpaces, IsSpace, OneOf;
    var own := SplitRight(s);
    if RightCore(s, core) {
      var tail :| s == core + tail && AllSpaces(tail);
      TrimRightAppend(core, tail);
    }
  }

  lemma {:induction false} SplitLeft(s: string) returns (head: string)
    ensures s == head + TrimLeft(s) && AllSpaces(head)
    ensures TrimLeft(s) == "" || !OneOf(TrimLeft(s)[0], SPACES)
    ensures TrimLeft(s) == "" || TrimLeft(s)[|TrimLeft(s)| - 1] == s[|s| - 1]
  {
    hide IsSpace, OneOf;
    if s != "" && IsSpace(s[0]) {
      SpacesAre(s[0]);
      head := SplitLeft(s[1..]);
      head := [s[0]] + head;
    } else {
      if s != "" {
        SpacesAre(s[0]);
      }
      head := "";
    }
  }

  lemma {:induction false} TrimLeftPrepend(head: string, core: string)
    requires AllSpaces(head) && (core == "" || !OneOf(core[0], SPACES))
    ensures TrimLeft(head + core) == core
  {
    hide IsSpace, OneOf;
    if head == "" {
      EmptyUnit(core);
      if core != "" {
        SpacesAre(core[0]);
      }
    } else {
      SpacesAre(head[0]);
      assert (head + core)[1..] == head[1..] + core;
      TrimLeftPrepend(head[1..], core);
    }
  }

  lemma TrimmedIsCore(s: string)
    ensures Core(s, TrimSpace(s))
  {
    hide AllSpaces, IsSpace, OneOf;
    var right := TrimRight(s);
    var tail := SplitRight(s);
    var head := SplitLeft(right);
  }

  lemma TrimAround(head: string, core: string, tail: string)
    requires AllSpaces(head) && AllSpaces(tail)
    requires core == "" || (!OneOf(core[0], SPACES) && !OneOf(core[|core| - 1], SPACES))
    ensures TrimSpace(head + core + tail) == core
  {
    hide AllSpaces, IsSpace, OneOf;
    if core == "" {
      BlankIsSpaces(head, tail);
      EmptyUnit(head);
      EmptyUnit(head + tail);
      TrimRightAppend("", head + tail);
    } else {
      TrimRightAppend(head + core, tail);
      TrimLeftPrepend(head, core);
    }
  }

  lemma TrimSpaceIff(s: string, core: string)
    ensures TrimSpace(s) == core <==> Core(s, core)
  {
    hide AllSpaces, IsSpace, OneOf, TrimSpace;
    TrimmedIsCore(s);
    if Core(s, core) {
      var head, tail :| s == head + core + tail && AllSpaces(head) && AllSpaces(tail);
      TrimAround(head, core, tail);
    }
  }

  lemma BlankIsSpaces(head: string, tail: string)
    requires AllSpaces(head) && AllSpaces(tail)
    ensures AllSpaces(head + tail)
  {
  }

  lemma NormalizedIff(left: string, right: string)
    ensures NormalizePatchPunctuation(left) == NormalizePatchPunctuation(right) <==> AlikeAll(TrimSpace(left), TrimSpace(right))
  {
    hide TrimSpace, PlainPunctuation, Alike;
    var a, b := TrimSpace(left), TrimSpace(right);
    var x, y := NormalizePatchPunctuation(left), NormalizePatchPunctuation(right);
    forall i | 0 <= i < |a| && i < |b| {
      AlikeIff(a[i], b[i]);
    }
    if x == y {
      assert forall i :: 0 <= i < |a| ==> x[i] == PlainPunctuation(a[i]) && y[i] == PlainPunctuation(b[i]);
    }
  }

  /** The four levels: the same characters; the same but for white space at the end; but for
      white space at both ends; and, beyond that, but for the kind of dash, quote or blank. */
  lemma LevelsOverlook(left: string, right: string)
    ensures LineMatch(Exact, left, right) <==> left == right
    ensures LineMatch(TrailingSpace, left, right) <==> exists core :: RightCore(left, core) && RightCore(right, core)
    ensures LineMatch(SurroundingSpace, left, right) <==> exists core :: Core(left, core) && Core(right, core)
    ensures LineMatch(Punctuation, left, right) <==> exists a, b :: Core(left, a) && Core(right, b) && AlikeAll(a, b)
  {
    hide TrimSpace, TrimRight, RightCore, Core, AlikeAll, NormalizePatchPunctuation;
    forall core
      ensures RightCore(left, core) <==> core == TrimRight(left)
      ensures RightCore(right, core) <==> core == TrimRight(right)
      ensures Core(left, core) <==> core == TrimSpace(left)
      ensures Core(right, core) <==> core == TrimSpace(right)
    {
      TrimRightIff(left, core);
      TrimRightIff(right, core);
      TrimSpaceIff(left, core);
      TrimSpaceIff(right, core);
    }
    NormalizedIff(left, right);
    assert RightCore(left, TrimRight(left)) && Core(left, TrimSpace(left)) && Core(right, TrimSpace(right));
  }
}
