/** Where the chunks of an update land, told by the lines that match and nothing else. */
module ChunkPlaces {
  import opened Wrappers
  import opened Seek
  import opened Replace

  /** The place of a pattern: the best match from `from` on, or at the very end of the file. */
  ghost predicate Found(lines: seq<string>, pattern: seq<string>, from: nat, endOfFile: bool, index: nat) {
    if pattern == [] then index == from
    else
      && |pattern| <= |lines|
      && var start: nat := if endOfFile then |lines| - |pattern| else from;
         exists level :: Best(lines, pattern, start, index, level)
  }

  /** No place from `from` on matches the pattern, even loosely. */
  ghost predicate Missing(lines: seq<string>, pattern: seq<string>, from: nat, endOfFile: bool) {
    && pattern != []
    && (|pattern| <= |lines| ==>
        var start: nat := if endOfFile then |lines| - |pattern| else from;
        forall k: nat :: start <= k ==> !WindowMatch(Punctuation, lines, pattern, k))
  }

  lemma SoughtIffFound(lines: seq<string>, pattern: seq<string>, from: nat, endOfFile: bool, index: nat)
    ensures Sought(lines, pattern, from, endOfFile) == Some(index) <==> Found(lines, pattern, from, endOfFile, index)
  {
    hide FirstMatch, WindowMatch, Best;
    if pattern != [] {
      var sought := Sought(lines, pattern, from, endOfFile);
      if sought.Some? {
        SoughtFits(lines, pattern, from, endOfFile);
        SoughtIsBest(lines, pattern, from, endOfFile);
        var own :| Best(lines, pattern, SearchStart(lines, pattern, from, endOfFile), sought.value, own);
        if Found(lines, pattern, from, endOfFile, index) {
          var level :| Best(lines, pattern, SearchStart(lines, pattern, from, endOfFile), index, level);
          BestIsUnique(lines, pattern, SearchStart(lines, pattern, from, endOfFile), sought.value, own, index, level);
        }
      } else if Found(lines, pattern, from, endOfFile, index) {
        var level :| Best(lines, pattern, SearchStart(lines, pattern, from, endOfFile), index, level);
        BestIsLoose(lines, pattern, SearchStart(lines, pattern, from, endOfFile), index, level);
        SoughtFailsExactly(lines, pattern, from, endOfFile);
      }
    }
  }

  lemma BestIsLoose(lines: seq<string>, pattern: seq<string>, from: nat, index: nat, level: Level)
    requires Best(lines, pattern, from, index, level)
    ensures from <= index && WindowMatch(Punctuation, lines, pattern, index)
  {
    hide WindowMatch;
    WindowMatchWeakens(level, Punctuation, lines, pattern, index);
  }

  lemma SoughtNoneIffMissing(lines: seq<string>, pattern: seq<string>, from: nat, endOfFile: bool)
    ensures Sought(lines, pattern, from, endOfFile).None? <==> Missing(lines, pattern, from, endOfFile)
  {
    hide FirstMatch, WindowMatch;
    if pattern != [] {
      SoughtFailsExactly(lines, pattern, from, endOfFile);
    }
  }

  // ----- one chunk -----

  /** Where the search stands once the context is passed: behind the best match of the context
      line, or where it stood if there is no context. */
  ghost predicate ContextPassed(lines: seq<string>, context: string, lineIndex: nat, from: nat) {
    if context == "" then from == lineIndex
    else exists c: nat, level :: Best(lines, [context], lineIndex, c, level) && from == c + 1
  }

  /** No line from `lineIndex` on matches the context, even loosely. */
  ghost predicate ContextMissing(lines: seq<string>, context: string, lineIndex: nat) {
    && context != ""
    && forall k: nat :: lineIndex <= k < |lines| ==> !LineMatch(Punctuation, lines[k], context)
  }

  /** A window for all old lines. */
  ghost predicate WholeWindow(lines: seq<string>, chunk: UpdateChunk, from: nat, r: Replacement) {
    && Found(lines, chunk.oldLines, from, chunk.endOfFile, r.start)
    && r.oldLen == |chunk.oldLines|
    && r.newLines == chunk.newLines
  }

  /** A window for the old lines without their final blank one, taken if there is none for all;
      a final blank new line is then left out as well. */
  ghost predicate ShorterWindow(lines: seq<string>, chunk: UpdateChunk, from: nat, r: Replacement) {
    && Missing(lines, chunk.oldLines, from, chunk.endOfFile)
    && r.oldLen == |chunk.oldLines| - 1
    && chunk.oldLines[r.oldLen] == ""
    && Found(lines, chunk.oldLines[..r.oldLen], from, chunk.endOfFile, r.start)
    && (chunk.newLines == r.newLines + [""]
        || (chunk.newLines == r.newLines && (r.newLines == [] || r.newLines[|r.newLines| - 1] != "")))
  }

  /** Where an insertion goes: behind the last line, or before it if it is blank. */
  predicate InsertedAt(lines: seq<string>, start: nat) {
    if lines != [] && lines[|lines| - 1] == "" then start == |lines| - 1 else start == |lines|
  }

  ghost predicate Lands(lines: seq<string>, chunk: UpdateChunk, lineIndex: nat, r: Replacement, next: nat) {
    exists from: nat :: ContextPassed(lines, chunk.changeContext, lineIndex, from) && LandsFrom(lines, chunk, from, r, next)
  }

  ghost predicate LandsFrom(lines: seq<string>, chunk: UpdateChunk, from: nat, r: Replacement, next: nat) {
    if chunk.oldLines == [] then
      InsertedAt(lines, r.start) && r.oldLen == 0 && r.newLines == chunk.newLines && next == from
    else
      && (WholeWindow(lines, chunk, from, r) || ShorterWindow(lines, chunk, from, r))
      && next == r.start + r.oldLen
  }

  /** Neither all old lines nor those before a final blank one are found. */
  ghost predicate LinesMissing(lines: seq<string>, chunk: UpdateChunk, lineIndex: nat) {
    exists from: nat ::
      && ContextPassed(lines, chunk.changeContext, lineIndex, from)
      && Missing(lines, chunk.oldLines, from, chunk.endOfFile)
      && (chunk.oldLines[|chunk.oldLines| - 1] == "" ==>
          Missing(lines, chunk.oldLines[..|chunk.oldLines| - 1], from, chunk.endOfFile))
  }

  ghost predicate Fails(lines: seq<string>, chunk: UpdateChunk, lineIndex: nat, error: UpdateError) {
    match error
    case ContextNotFound(context) => context == chunk.changeContext && ContextMissing(lines, context, lineIndex)
    case LinesNotFound(missing) => missing == chunk.oldLines && LinesMissing(lines, chunk, lineIndex)
  }

  lemma ContextMissingIff(lines: seq<string>, context: string, lineIndex: nat)
    ensures AfterContext(lines, context, lineIndex).None? <==> ContextMissing(lines, context, lineIndex)
  {
    hide Sought, LineMatch, WindowMatch;
    if context != "" {
      SoughtNoneIffMissing(lines, [context], lineIndex, false);
      OneLineWindows(lines, context);
    }
  }

  lemma ContextPassedIff(lines: seq<string>, context: string, lineIndex: nat, from: nat)
    ensures AfterContext(lines, context, lineIndex) == Some(from) <==> ContextPassed(lines, context, lineIndex, from)
  {
    hide Sought, Best;
    if context != "" && from > 0 {
      var c: nat := from - 1;
      SoughtIffFound(lines, [context], lineIndex, false, c);
      if level :| Best(lines, [context], lineIndex, c, level) {
        BestFits(lines, [context], lineIndex, c, level);
      }
    }
  }

  lemma ContextIff(lines: seq<string>, context: string, lineIndex: nat)
    ensures AfterContext(lines, context, lineIndex).None? <==> ContextMissing(lines, context, lineIndex)
    ensures forall from: nat ::
      AfterContext(lines, context, lineIndex) == Some(from) <==> ContextPassed(lines, context, lineIndex, from)
  {
    hide AfterContext, ContextMissing, ContextPassed;
    ContextMissingIff(lines, context, lineIndex);
    forall from: nat {
      ContextPassedIff(lines, context, lineIndex, from);
    }
  }

  lemma BestFits(lines: seq<string>, pattern: seq<string>, from: nat, index: nat, level: Level)
    requires Best(lines, pattern, from, index, level)
    ensures index + |pattern| <= |lines|
  {
    hide LineMatch;
  }

  lemma OneLineWindows(lines: seq<string>, context: string)
    ensures forall k: nat :: WindowMatch(Punctuation, lines, [context], k) <==>
      k < |lines| && LineMatch(Punctuation, lines[k], context)
  {
    hide LineMatch;
    forall k: nat | k < |lines|
      ensures WindowMatch(Punctuation, lines, [context], k) <==> LineMatch(Punctuation, lines[k], context)
    {
      if WindowMatch(Punctuation, lines, [context], k) {
        assert LineMatch(Punctuation, lines[k + 0], [context][0]);
      }
    }
  }

  lemma WindowLands(lines: seq<string>, chunk: UpdateChunk, from: nat, r: Replacement)
    requires chunk.oldLines != []
    ensures Window(lines, chunk, from) == Some(r) <==>
      WholeWindow(lines, chunk, from, r) || ShorterWindow(lines, chunk, from, r)
  {
    hide Sought, Found, Missing;
    var n := |chunk.oldLines| - 1;
    SoughtIffFound(lines, chunk.oldLines, from, chunk.endOfFile, r.start);
    SoughtNoneIffMissing(lines, chunk.oldLines, from, chunk.endOfFile);
    SoughtIffFound(lines, chunk.oldLines[..n], from, chunk.endOfFile, r.start);
    FinalBlankDropped(chunk.newLines, r.newLines);
    hide WithoutFinalBlank;
  }

  lemma FinalBlankDropped(lines: seq<string>, kept: seq<string>)
    ensures WithoutFinalBlank(lines) == kept <==>
      lines == kept + [""] || (lines == kept && (kept == [] || kept[|kept| - 1] != ""))
  {
    if lines != [] && lines[|lines| - 1] == "" {
      assert lines == lines[..|lines| - 1] + [""];
    }
  }

  lemma WindowMissing(lines: seq<string>, chunk: UpdateChunk, from: nat)
    requires chunk.oldLines != []
    ensures Window(lines, chunk, from).None? <==>
      && Missing(lines, chunk.oldLines, from, chunk.endOfFile)
      && (chunk.oldLines[|chunk.oldLines| - 1] == "" ==>
          Missing(lines, chunk.oldLines[..|chunk.oldLines| - 1], from, chunk.endOfFile))
  {
    hide Sought, Missing;
    SoughtNoneIffMissing(lines, chunk.oldLines, from, chunk.endOfFile);
    SoughtNoneIffMissing(lines, chunk.oldLines[..|chunk.oldLines| - 1], from, chunk.endOfFile);
  }

  /** One chunk gets a replacement exactly where the search rules say, and the next chunk is
      searched from where they say. */
  lemma StepIffLands(lines: seq<string>, chunk: UpdateChunk, lineIndex: nat, r: Replacement, next: nat)
    ensures Step(lines, chunk, lineIndex) == Ok((r, next)) <==> Lands(lines, chunk, lineIndex, r, next)
  {
    hide AfterContext, Window, ContextPassed, WholeWindow, ShorterWindow;
    ContextIff(lines, chunk.changeContext, lineIndex);
    hide ContextMissing;
    if chunk.oldLines != [] {
      forall from: nat {
        WindowLands(lines, chunk, from, r);
      }
    }
  }

  /** It fails exactly when its context, or else its lines, are nowhere. */
  lemma StepIffFails(lines: seq<string>, chunk: UpdateChunk, lineIndex: nat, error: UpdateError)
    ensures Step(lines, chunk, lineIndex) == Err(error) <==> Fails(lines, chunk, lineIndex, error)
  {
    hide AfterContext, Window, ContextPassed, ContextMissing, Missing;
    ContextIff(lines, chunk.changeContext, lineIndex);
    if chunk.oldLines != [] {
      forall from: nat {
        WindowMissing(lines, chunk, from);
      }
    } else {
      NothingToMiss(lines, chunk, lineIndex);
    }
  }

  lemma NothingToMiss(lines: seq<string>, chunk: UpdateChunk, lineIndex: nat)
    requires chunk.oldLines == []
    ensures !LinesMissing(lines, chunk, lineIndex)
  {
  }

  /** A change context moves the search: a chunk that is searched for lands behind the best
      match of its context, and a chunk that only inserts leaves the search there. */
  lemma ContextMovesSearch(lines: seq<string>, chunk: UpdateChunk, lineIndex: nat)
    requires chunk.changeContext != "" && Step(lines, chunk, lineIndex).Ok?
    ensures var (r, next) := Step(lines, chunk, lineIndex).value;
      exists c: nat, level ::
        && Best(lines, [chunk.changeContext], lineIndex, c, level)
        && (Searched(chunk) ==> c + 1 <= r.start)
        && (chunk.oldLines == [] ==> next == c + 1)
  {
    hide Step, WindowMatch, Missing;
    var (r, next) := Step(lines, chunk, lineIndex).value;
    StepIffLands(lines, chunk, lineIndex, r, next);
    var from: nat :| ContextPassed(lines, chunk.changeContext, lineIndex, from) && LandsFrom(lines, chunk, from, r, next);
    var c: nat, level :| Best(lines, [chunk.changeContext], lineIndex, c, level) && from == c + 1;
  }

  // ----- all chunks -----

  /** The replacements of the chunks, one each, where `at` are the places the search passes. */
  ghost predicate Chain(lines: seq<string>, chunks: seq<UpdateChunk>, rs: seq<Replacement>, at: seq<nat>) {
    && |rs| == |chunks| && |at| == |chunks| + 1
    && forall i :: 0 <= i < |chunks| ==> Lands(lines, chunks[i], at[i], rs[i], at[i + 1])
  }

  /** Chunk `n` is the first that fails. */
  ghost predicate FailsAfter(lines: seq<string>, chunks: seq<UpdateChunk>, rs: seq<Replacement>, at: seq<nat>, error: UpdateError) {
    && |rs| < |chunks|
    && Chain(lines, chunks[..|rs|], rs, at)
    && Fails(lines, chunks[|rs|], at[|rs|], error)
  }

  lemma ChainGrows(lines: seq<string>, chunks: seq<UpdateChunk>, lineIndex: nat, r: Replacement, rs: seq<Replacement>, at: seq<nat>)
    requires chunks != [] && Chain(lines, chunks[1..], rs, at) && Lands(lines, chunks[0], lineIndex, r, at[0])
    ensures Chain(lines, chunks, [r] + rs, [lineIndex] + at)
  {
    hide Lands;
    forall i | 0 <= i < |chunks|
      ensures Lands(lines, chunks[i], ([lineIndex] + at)[i], ([r] + rs)[i], ([lineIndex] + at)[i + 1])
    {
      if i > 0 {
        assert chunks[i] == chunks[1..][i - 1];
      }
    }
  }

  lemma ChainShrinks(lines: seq<string>, chunks: seq<UpdateChunk>, rs: seq<Replacement>, at: seq<nat>)
    requires chunks != [] && Chain(lines, chunks, rs, at)
    ensures Lands(lines, chunks[0], at[0], rs[0], at[1]) && Chain(lines, chunks[1..], rs[1..], at[1..])
  {
    hide Lands;
    forall i | 0 <= i < |chunks| - 1
      ensures Lands(lines, chunks[1..][i], at[1..][i], rs[1..][i], at[1..][i + 1])
    {
      assert Lands(lines, chunks[i + 1], at[i + 1], rs[i + 1], at[i + 2]);
    }
  }

  /** The places the search passes in a computation, up to the end or the first failure. */
  lemma {:induction false} Trace(lines: seq<string>, chunks: seq<UpdateChunk>, lineIndex: nat)
    returns (rs: seq<Replacement>, at: seq<nat>)
    ensures |at| > 0 && at[0] == lineIndex
    ensures match Computed(lines, chunks, lineIndex)
      case Ok(all) => rs == all && Chain(lines, chunks, rs, at)
      case Err(error) => FailsAfter(lines, chunks, rs, at, error)
    decreases |chunks|
  {
    hide Step, Lands, Fails;
    if chunks == [] {
      rs, at := [], [lineIndex];
    } else {
      match Step(lines, chunks[0], lineIndex)
      case Err(error) =>
        rs, at := [], [lineIndex];
        StepIffFails(lines, chunks[0], lineIndex, error);
      case Ok((r, next)) =>
        StepIffLands(lines, chunks[0], lineIndex, r, next);
        var more, places := Trace(lines, chunks[1..], next);
        rs, at := [r] + more, [lineIndex] + places;
        if Computed(lines, chunks[1..], next).Ok? {
          ChainGrows(lines, chunks, lineIndex, r, more, places);
        } else {
          assert chunks[1..][..|more|] == chunks[..|rs|][1..];
          ChainGrows(lines, chunks[..|rs|], lineIndex, r, more, places);
          assert chunks[|rs|] == chunks[1..][|more|];
        }
    }
  }

  lemma {:induction false} ChainIsComputed(lines: seq<string>, chunks: seq<UpdateChunk>, rs: seq<Replacement>, at: seq<nat>)
    requires Chain(lines, chunks, rs, at)
    ensures Computed(lines, chunks, at[0]) == Ok(rs)
    decreases |chunks|
  {
    hide Step, Lands;
    if chunks != [] {
      ChainShrinks(lines, chunks, rs, at);
      StepIffLands(lines, chunks[0], at[0], rs[0], at[1]);
      ChainIsComputed(lines, chunks[1..], rs[1..], at[1..]);
      assert [rs[0]] + rs[1..] == rs;
    }
  }

  /** An update gets exactly the replacements that its chunks, searched one after the other
      from the first line on, land on. */
  lemma ReplacementsIff(lines: seq<string>, chunks: seq<UpdateChunk>, rs: seq<Replacement>)
    ensures Computed(lines, chunks, 0) == Ok(rs) <==> exists at: seq<nat> :: at != [] && at[0] == 0 && Chain(lines, chunks, rs, at)
  {
    hide Computed, Chain;
    if Computed(lines, chunks, 0) == Ok(rs) {
      var own, at := Trace(lines, chunks, 0);
    }
    if at: seq<nat> :| at != [] && at[0] == 0 && Chain(lines, chunks, rs, at) {
      ChainIsComputed(lines, chunks, rs, at);
    }
  }

  lemma {:induction false} FailureIsComputed(lines: seq<string>, chunks: seq<UpdateChunk>, rs: seq<Replacement>, at: seq<nat>,
                            error: UpdateError)
    requires FailsAfter(lines, chunks, rs, at, error)
    ensures Computed(lines, chunks, at[0]) == Err(error)
    decreases |chunks|
  {
    hide Step, Lands, Fails;
    if rs == [] {
      StepIffFails(lines, chunks[0], at[0], error);
    } else {
      var n := |rs|;
      ChainShrinks(lines, chunks[..n], rs, at);
      StepIffLands(lines, chunks[0], at[0], rs[0], at[1]);
      assert chunks[..n][1..] == chunks[1..][..n - 1];
      FailureIsComputed(lines, chunks[1..], rs[1..], at[1..], error);
    }
  }

  /** It fails exactly with the error of the first chunk that does not land. */
  lemma UpdateFailsIff(lines: seq<string>, chunks: seq<UpdateChunk>, error: UpdateError)
    ensures Computed(lines, chunks, 0) == Err(error) <==>
      exists rs, at: seq<nat> :: at != [] && at[0] == 0 && FailsAfter(lines, chunks, rs, at, error)
  {
    hide Computed, FailsAfter;
    if Computed(lines, chunks, 0) == Err(error) {
      var rs, at := Trace(lines, chunks, 0);
    }
    if rs, at: seq<nat> :| at != [] && at[0] == 0 && FailsAfter(lines, chunks, rs, at, error) {
      FailureIsComputed(lines, chunks, rs, at, error);
    }
  }
}
