/** Finding the lines of a patch chunk in a file: four levels of strictness, each tried
    over the whole file before the next one. */
module Seek {
  import opened Text
  import opened Wrappers

  /** The levels, strictest first. */
  datatype Level = Exact | TrailingSpace | SurroundingSpace | Punctuation

  function Rank(level: Level): nat {
    match level
    case Exact => 0
    case TrailingSpace => 1
    case SurroundingSpace => 2
    case Punctuation => 3
  }

  function PlainPunctuation(c: char): char {
    if '\U{2010}' <= c <= '\U{2015}' || c == '\U{2212}' then '-'
    else if '\U{2018}' <= c <= '\U{201B}' then '\''
    else if '\U{201C}' <= c <= '\U{201F}' then '"'
    else if c == '\U{00A0}' || '\U{2002}' <= c <= '\U{200A}' || c == '\U{202F}' || c == '\U{205F}' || c == '\U{3000}' then ' '
    else c
  }

  function NormalizePatchPunctuation(value: string): string {
    var trimmed := TrimSpace(value);
    seq(|trimmed|, i requires 0 <= i < |trimmed| => PlainPunctuation(trimmed[i]))
  }

  predicate LineMatch(level: Level, left: string, right: string) {
    match level
    case Exact => left == right
    case TrailingSpace => TrimRight(left) == TrimRight(right)
    case SurroundingSpace => TrimSpace(left) == TrimSpace(right)
    case Punctuation => NormalizePatchPunctuation(left) == NormalizePatchPunctuation(right)
  }

  /** Each level accepts whatever a stricter one accepts. */
  lemma LineMatchWeakens(strict: Level, level: Level, left: string, right: string)
    requires Rank(strict) <= Rank(level) && LineMatch(strict, left, right)
    ensures LineMatch(level, left, right)
  {
  }

  /** The window of the file at `i` matches the pattern line by line. */
  predicate WindowMatch(level: Level, lines: seq<string>, pattern: seq<string>, i: nat) {
    && i + |pattern| <= |lines|
    && forall j :: 0 <= j < |pattern| ==> LineMatch(level, lines[i + j], pattern[j])
  }

  lemma WindowMatchWeakens(strict: Level, level: Level, lines: seq<string>, pattern: seq<string>, i: nat)
    requires Rank(strict) <= Rank(level) && WindowMatch(strict, lines, pattern, i)
    ensures WindowMatch(level, lines, pattern, i)
  {
    forall j | 0 <= j < |pattern| ensures LineMatch(level, lines[i + j], pattern[j]) {
      LineMatchWeakens(strict, level, lines[i + j], pattern[j]);
    }
  }

  // ----- the search -----

  function FirstMatch(level: Level, lines: seq<string>, pattern: seq<string>, i: nat): Option<nat>
    requires |pattern| <= |lines|
    decreases |lines| - i
  {
    if i > |lines| - |pattern| then None
    else if WindowMatch(level, lines, pattern, i) then Some(i)
    else FirstMatch(level, lines, pattern, i + 1)
  }

  /** The first window of a level, or proof that there is none. */
  lemma {:induction false} FirstMatchIsFirst(level: Level, lines: seq<string>, pattern: seq<string>, i: nat)
    requires |pattern| <= |lines|
    ensures var r := FirstMatch(level, lines, pattern, i);
      && (r.None? ==> forall k: nat :: i <= k ==> !WindowMatch(level, lines, pattern, k))
      && (r.Some? ==>
          && i <= r.value
          && WindowMatch(level, lines, pattern, r.value)
          && forall k: nat :: i <= k < r.value ==> !WindowMatch(level, lines, pattern, k))
    decreases |lines| - i
  {
    hide WindowMatch;
    if i > |lines| - |pattern| {
      forall k: nat | i <= k ensures !WindowMatch(level, lines, pattern, k) {
        NoWindowBeyond(level, lines, pattern, k);
      }
    } else if !WindowMatch(level, lines, pattern, i) {
      FirstMatchIsFirst(level, lines, pattern, i + 1);
    }
  }

  lemma NoWindowBeyond(level: Level, lines: seq<string>, pattern: seq<string>, k: nat)
    requires k + |pattern| > |lines|
    ensures !WindowMatch(level, lines, pattern, k)
  {
  }

  function SearchStart(lines: seq<string>, pattern: seq<string>, start: nat, eof: bool): nat
    requires |pattern| <= |lines|
  {
    if eof then |lines| - |pattern| else start
  }

  /** The search as a value: the strictest level that matches anywhere decides. */
  function Sought(lines: seq<string>, pattern: seq<string>, start: nat, eof: bool): Option<nat> {
    if pattern == [] then Some(start)
    else if |pattern| > |lines| then None
    else
      var from := SearchStart(lines, pattern, start, eof);
      var exact := FirstMatch(Exact, lines, pattern, from);
      if exact.Some? then exact else
      var trailing := FirstMatch(TrailingSpace, lines, pattern, from);
      if trailing.Some? then trailing else
      var surrounding := FirstMatch(SurroundingSpace, lines, pattern, from);
      if surrounding.Some? then surrounding else
      FirstMatch(Punctuation, lines, pattern, from)
  }

  /** What the search promises of an index: the level matches there, no earlier window of
      that level does, and no window of a stricter level does anywhere. */
  ghost predicate Best(lines: seq<string>, pattern: seq<string>, from: nat, index: nat, level: Level) {
    && from <= index
    && WindowMatch(level, lines, pattern, index)
    && (forall k: nat :: from <= k < index ==> !WindowMatch(level, lines, pattern, k))
    && (forall stricter: Level, k: nat ::
          Rank(stricter) < Rank(level) && from <= k ==> !WindowMatch(stricter, lines, pattern, k))
  }

  lemma SoughtIsBest(lines: seq<string>, pattern: seq<string>, start: nat, eof: bool)
    requires pattern != [] && |pattern| <= |lines|
    requires Sought(lines, pattern, start, eof).Some?
    ensures exists level :: Best(lines, pattern, SearchStart(lines, pattern, start, eof),
                                 Sought(lines, pattern, start, eof).value, level)
  {
    hide WindowMatch;
    var from := SearchStart(lines, pattern, start, eof);
    var index := Sought(lines, pattern, start, eof).value;
    forall level: Level {
      FirstMatchIsFirst(level, lines, pattern, from);
    }
    if FirstMatch(Exact, lines, pattern, from).Some? {
      assert Best(lines, pattern, from, index, Exact);
    } else if FirstMatch(TrailingSpace, lines, pattern, from).Some? {
      assert Best(lines, pattern, from, index, TrailingSpace);
    } else if FirstMatch(SurroundingSpace, lines, pattern, from).Some? {
      assert Best(lines, pattern, from, index, SurroundingSpace);
    } else {
      assert Best(lines, pattern, from, index, Punctuation);
    }
  }

  /** The promise pins the answer down. */
  lemma BestIsUnique(lines: seq<string>, pattern: seq<string>, from: nat, i: nat, a: Level, j: nat, b: Level)
    requires Best(lines, pattern, from, i, a) && Best(lines, pattern, from, j, b)
    ensures i == j && a == b
  {
    hide WindowMatch;
    if Rank(a) == Rank(b) {
      assert a == b;
    }
  }

  /** The search fails exactly when no window it may use matches even at the weakest level. */
  lemma SoughtFailsExactly(lines: seq<string>, pattern: seq<string>, start: nat, eof: bool)
    requires pattern != []
    ensures Sought(lines, pattern, start, eof).None? <==>
      (|pattern| <= |lines| ==>
        forall k: nat :: SearchStart(lines, pattern, start, eof) <= k ==> !WindowMatch(Punctuation, lines, pattern, k))
  {
    hide FirstMatch, WindowMatch;
    if |pattern| <= |lines| {
      var from := SearchStart(lines, pattern, start, eof);
      if Sought(lines, pattern, start, eof).Some? {
        SoughtFits(lines, pattern, start, eof);
      } else {
        FirstMatchIsFirst(Punctuation, lines, pattern, from);
      }
    }
  }

  /** A hit lies inside the file, at or after the place the search started, and matches. */
  lemma SoughtFits(lines: seq<string>, pattern: seq<string>, start: nat, eof: bool)
    requires pattern != [] && Sought(lines, pattern, start, eof).Some?
    ensures |pattern| <= |lines|
    ensures var i := Sought(lines, pattern, start, eof).value;
      && SearchStart(lines, pattern, start, eof) <= i
      && i + |pattern| <= |lines|
      && WindowMatch(Punctuation, lines, pattern, i)
  {
    SoughtIsBest(lines, pattern, start, eof);
    var i := Sought(lines, pattern, start, eof).value;
    var level :| Best(lines, pattern, SearchStart(lines, pattern, start, eof), i, level);
    WindowMatchWeakens(level, Punctuation, lines, pattern, i);
  }

  method WindowMatches(level: Level, lines: seq<string>, pattern: seq<string>, i: nat) returns (ok: bool)
    requires i + |pattern| <= |lines|
    ensures ok == WindowMatch(level, lines, pattern, i)
  {
    for j := 0 to |pattern|
      invariant forall k :: 0 <= k < j ==> LineMatch(level, lines[i + k], pattern[k])
    {
      if !LineMatch(level, lines[i + j], pattern[j]) {
        return false;
      }
    }
    return true;
  }

  method SearchLevel(level: Level, lines: seq<string>, pattern: seq<string>, from: nat)
    returns (index: nat, ok: bool)
    requires |pattern| <= |lines|
    ensures (if ok then Some(index) else None) == FirstMatch(level, lines, pattern, from)
  {
    hide WindowMatch;
    index := from;
    var end := |lines| - |pattern|;
    while index <= end
      invariant FirstMatch(level, lines, pattern, index) == FirstMatch(level, lines, pattern, from)
      decreases end + 1 - index
    {
      ok := WindowMatches(level, lines, pattern, index);
      if ok {
        return;
      }
      index := index + 1;
    }
    return 0, false;
  }

  method SeekSequence(lines: seq<string>, pattern: seq<string>, start: nat, eof: bool)
    returns (index: nat, ok: bool)
    ensures (if ok then Some(index) else None) == Sought(lines, pattern, start, eof)
  {
    if |pattern| == 0 {
      return start, true;
    }
    if |pattern| > |lines| {
      return 0, false;
    }
    var searchStart := start;
    if eof && |lines| >= |pattern| {
      searchStart := |lines| - |pattern|;
    }
    hide FirstMatch;
    index, ok := SearchLevel(Exact, lines, pattern, searchStart);
    if ok {
      return;
    }
    index, ok := SearchLevel(TrailingSpace, lines, pattern, searchStart);
    if ok {
      return;
    }
    index, ok := SearchLevel(SurroundingSpace, lines, pattern, searchStart);
    if ok {
      return;
    }
    index, ok := SearchLevel(Punctuation, lines, pattern, searchStart);
  }
}
