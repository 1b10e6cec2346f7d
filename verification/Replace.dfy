/** Where the chunks of one update hunk land in the original lines. */
module Replace {
  import opened Seqs
  import opened Wrappers
  import opened Seek

  datatype UpdateChunk = UpdateChunk(
    changeContext: string,
    oldLines: seq<string>,
    newLines: seq<string>,
    endOfFile: bool)

  datatype Swap<T> = Replacement(start: nat, oldLen: nat, newLines: seq<T>)

  type Replacement = Swap<string>

  datatype UpdateError = ContextNotFound(context: string) | LinesNotFound(lines: seq<string>)

  // ----- where chunks land -----

  function WithoutFinalBlank(lines: seq<string>): seq<string> {
    if lines != [] && lines[|lines| - 1] == "" then lines[..|lines| - 1] else lines
  }

  /** The search position after the chunk's context line, if the context is found. */
  function AfterContext(lines: seq<string>, context: string, lineIndex: nat): Option<nat> {
    if context == "" then Some(lineIndex)
    else
      match Sought(lines, [context], lineIndex, false)
      case None => None
      case Some(index) => Some(index + 1)
  }

  /** Where a chunk without old lines goes: the end of the file, before a final blank line. */
  function InsertionPoint(lines: seq<string>): nat {
    if lines != [] && lines[|lines| - 1] == "" then |lines| - 1 else |lines|
  }

  /** The window of a chunk with old lines; a final blank old line is optional. */
  function Window(lines: seq<string>, chunk: UpdateChunk, from: nat): Option<Replacement> {
    match Sought(lines, chunk.oldLines, from, chunk.endOfFile)
    case Some(start) => Some(Replacement(start, |chunk.oldLines|, chunk.newLines))
    case None =>
      if chunk.oldLines != [] && chunk.oldLines[|chunk.oldLines| - 1] == "" then
        var pattern := chunk.oldLines[..|chunk.oldLines| - 1];
        match Sought(lines, pattern, from, chunk.endOfFile)
        case Some(start) => Some(Replacement(start, |pattern|, WithoutFinalBlank(chunk.newLines)))
        case None => None
      else None
  }

  /** One chunk: its replacement and the line index the next chunk starts from. */
  function Step(lines: seq<string>, chunk: UpdateChunk, lineIndex: nat): Result<(Replacement, nat), UpdateError> {
    match AfterContext(lines, chunk.changeContext, lineIndex)
    case None => Err(ContextNotFound(chunk.changeContext))
    case Some(from) =>
      if chunk.oldLines == [] then
        Ok((Replacement(InsertionPoint(lines), 0, chunk.newLines), from))
      else
        match Window(lines, chunk, from)
        case None => Err(LinesNotFound(chunk.oldLines))
        case Some(r) => Ok((r, r.start + r.oldLen))
  }

  function Computed(lines: seq<string>, chunks: seq<UpdateChunk>, lineIndex: nat)
    : Result<seq<Replacement>, UpdateError>
    decreases |chunks|
  {
    if chunks == [] then Ok([])
    else
      match Step(lines, chunks[0], lineIndex)
      case Err(error) => Err(error)
      case Ok((r, next)) =>
        match Computed(lines, chunks[1..], next)
        case Err(error) => Err(error)
        case Ok(rest) => Ok([r] + rest)
  }

  function Prepended(done: seq<Replacement>, rest: Result<seq<Replacement>, UpdateError>)
    : Result<seq<Replacement>, UpdateError>
  {
    match rest
    case Err(error) => Err(error)
    case Ok(value) => Ok(done + value)
  }

  method LocateChunk(lines: seq<string>, chunk: UpdateChunk, start: nat)
    returns (result: Result<(Replacement, nat), UpdateError>)
    ensures result == Step(lines, chunk, start)
  {
    hide Sought;
    var lineIndex := start;
    if chunk.changeContext != "" {
      var idx, ok := SeekSequence(lines, [chunk.changeContext], lineIndex, false);
      if !ok {
        return Err(ContextNotFound(chunk.changeContext));
      }
      lineIndex := idx + 1;
    }
    if |chunk.oldLines| == 0 {
      var insertion := |lines|;
      if |lines| > 0 && lines[|lines| - 1] == "" {
        insertion := |lines| - 1;
      }
      return Ok((Replacement(insertion, 0, chunk.newLines), lineIndex));
    }
    var pattern := chunk.oldLines;
    var newSlice := chunk.newLines;
    var index, ok := SeekSequence(lines, pattern, lineIndex, chunk.endOfFile);
    if !ok && pattern[|pattern| - 1] == "" {
      pattern := pattern[..|pattern| - 1];
      if |newSlice| > 0 && newSlice[|newSlice| - 1] == "" {
        newSlice := newSlice[..|newSlice| - 1];
      }
      index, ok := SeekSequence(lines, pattern, lineIndex, chunk.endOfFile);
    }
    if !ok {
      return Err(LinesNotFound(chunk.oldLines));
    }
    return Ok((Replacement(index, |pattern|, newSlice), index + |pattern|));
  }

  method ComputeReplacements(lines: seq<string>, chunks: seq<UpdateChunk>)
    returns (result: Result<seq<Replacement>, UpdateError>)
    ensures result == Computed(lines, chunks, 0)
  {
    hide Step;
    var replacements: seq<Replacement> := [];
    var lineIndex: nat := 0;
    var i := 0;
    assert chunks[0..] == chunks;
    PrependedNothing(Computed(lines, chunks, 0));
    while i < |chunks|
      invariant 0 <= i <= |chunks|
      invariant Computed(lines, chunks, 0) == Prepended(replacements, Computed(lines, chunks[i..], lineIndex))
    {
      assert chunks[i..][1..] == chunks[i + 1..];
      var located := LocateChunk(lines, chunks[i], lineIndex);
      if located.Err? {
        return Err(located.error);
      }
      var (r, next) := located.value;
      PrependedStep(replacements, r, Computed(lines, chunks[i + 1..], next));
      replacements := replacements + [r];
      lineIndex := next;
      i := i + 1;
    }
    assert chunks[i..] == [];
    assert replacements + [] == replacements;
    return Ok(replacements);
  }

  lemma PrependedNothing(rest: Result<seq<Replacement>, UpdateError>)
    ensures Prepended([], rest) == rest
  {
    if rest.Ok? {
      assert [] + rest.value == rest.value;
    }
  }

  lemma PrependedStep(done: seq<Replacement>, r: Replacement, rest: Result<seq<Replacement>, UpdateError>)
    ensures Prepended(done, Prepended([r], rest)) == Prepended(done + [r], rest)
  {
    if rest.Ok? {
      assert done + ([r] + rest.value) == (done + [r]) + rest.value;
    }
  }

  // ----- ordered windows -----

  /** In-bounds windows that follow each other without overlap. */
  predicate Ordered<T>(replacements: seq<Swap<T>>, from: nat, n: nat) {
    if replacements == [] then from <= n
    else
      var r := replacements[0];
      from <= r.start && r.start + r.oldLen <= n && Ordered(replacements[1..], r.start + r.oldLen, n)
  }

  /** The end of the last window. */
  function End<T>(replacements: seq<Swap<T>>, from: nat): nat {
    if replacements == [] then from
    else End(replacements[1..], replacements[0].start + replacements[0].oldLen)
  }

  lemma {:induction false} OrderedAppend<T>(a: seq<Swap<T>>, r: Swap<T>, from: nat, n: nat)
    ensures Ordered(a + [r], from, n) <==>
      Ordered(a, from, n) && End(a, from) <= r.start && r.start + r.oldLen <= n
  {
    if a == [] {
      assert (a + [r])[1..] == [];
    } else {
      assert (a + [r])[1..] == a[1..] + [r];
      OrderedAppend(a[1..], r, a[0].start + a[0].oldLen, n);
    }
  }

  /** A chunk that is searched for: it has old lines and is not tied to the end of the file. */
  predicate Searched(chunk: UpdateChunk) {
    chunk.oldLines != [] && !chunk.endOfFile
  }

  /** The replacement takes out lines that match the chunk's old lines and puts in its new
      lines, both possibly without a final blank line. */
  ghost predicate Explains(lines: seq<string>, chunk: UpdateChunk, r: Replacement) {
    || (&& r.oldLen == |chunk.oldLines| && r.newLines == chunk.newLines
        && WindowMatch(Punctuation, lines, chunk.oldLines, r.start))
    || (&& r.oldLen == |chunk.oldLines| - 1
        && chunk.oldLines[r.oldLen] == ""
        && r.newLines == WithoutFinalBlank(chunk.newLines)
        && WindowMatch(Punctuation, lines, chunk.oldLines[..r.oldLen], r.start))
  }

  lemma SoughtStaysInside(lines: seq<string>, pattern: seq<string>, start: nat, eof: bool)
    requires start <= |lines| && Sought(lines, pattern, start, eof).Some?
    ensures var i := Sought(lines, pattern, start, eof).value;
      && i + |pattern| <= |lines|
      && (!eof ==> start <= i)
      && (eof && pattern != [] ==> i + |pattern| == |lines|)
      && WindowMatch(Punctuation, lines, pattern, i)
  {
    if pattern != [] {
      SoughtFits(lines, pattern, start, eof);
    }
  }

  /** Where one chunk can land, whatever kind it is. */
  lemma StepLands(lines: seq<string>, chunk: UpdateChunk, lineIndex: nat)
    requires lineIndex <= |lines| && Step(lines, chunk, lineIndex).Ok?
    ensures var (r, next) := Step(lines, chunk, lineIndex).value;
      && r.start + r.oldLen <= |lines| && next <= |lines|
      && (chunk.oldLines == [] ==> r.start == InsertionPoint(lines) && r.oldLen == 0 && lineIndex <= next)
      && (chunk.oldLines != [] ==> Explains(lines, chunk, r) && next == r.start + r.oldLen)
      && (Searched(chunk) ==> lineIndex <= r.start)
      && (chunk.oldLines != [] && chunk.endOfFile && r.oldLen > 0 ==> r.start == |lines| - r.oldLen)
  {
    hide Sought, WindowMatch;
    var from := AfterContext(lines, chunk.changeContext, lineIndex).value;
    assert lineIndex <= from <= |lines| by {
      if chunk.changeContext != "" {
        SoughtStaysInside(lines, [chunk.changeContext], lineIndex, false);
      }
    }
    if chunk.oldLines != [] {
      if Sought(lines, chunk.oldLines, from, chunk.endOfFile).Some? {
        SoughtStaysInside(lines, chunk.oldLines, from, chunk.endOfFile);
      } else {
        SoughtStaysInside(lines, chunk.oldLines[..|chunk.oldLines| - 1], from, chunk.endOfFile);
      }
    }
  }

  /** A successful update made of searched chunks picks one window per chunk; the windows
      lie inside the file, in chunk order, without overlap, and each matches its chunk. */
  lemma {:induction false} SearchedWindowsOrdered(lines: seq<string>, chunks: seq<UpdateChunk>, lineIndex: nat)
    requires lineIndex <= |lines|
    requires forall i :: 0 <= i < |chunks| ==> Searched(chunks[i])
    requires Computed(lines, chunks, lineIndex).Ok?
    ensures var rs := Computed(lines, chunks, lineIndex).value;
      && |rs| == |chunks|
      && Ordered(rs, lineIndex, |lines|)
      && forall i :: 0 <= i < |rs| ==> Explains(lines, chunks[i], rs[i])
    decreases |chunks|
  {
    hide Step, Explains;
    if chunks != [] {
      StepLands(lines, chunks[0], lineIndex);
      var (r, next) := Step(lines, chunks[0], lineIndex).value;
      SearchedWindowsOrdered(lines, chunks[1..], next);
      assert Searched(chunks[0]);
      var rest := Computed(lines, chunks[1..], next).value;
      assert ([r] + rest)[1..] == rest;
    }
  }

  lemma StepAdvances(lines: seq<string>, chunk: UpdateChunk, lineIndex: nat)
    requires chunk.oldLines != [] && Step(lines, chunk, lineIndex).Ok?
    ensures var (r, next) := Step(lines, chunk, lineIndex).value; next == r.start + r.oldLen
  {
  }

  /** The line index after a run of chunks is where their last window ended. */
  lemma {:induction false} ComputedAppend(lines: seq<string>, chunks: seq<UpdateChunk>, last: UpdateChunk, lineIndex: nat)
    requires forall i :: 0 <= i < |chunks| ==> Searched(chunks[i])
    ensures Computed(lines, chunks + [last], lineIndex) ==
      match Computed(lines, chunks, lineIndex)
      case Err(error) => Err(error)
      case Ok(rs) =>
        match Step(lines, last, End(rs, lineIndex))
        case Err(error) => Err(error)
        case Ok((r, _)) => Ok(rs + [r])
    decreases |chunks|
  {
    hide Step;
    var all := chunks + [last];
    if chunks == [] {
      assert all == [last];
      ComputedOne(lines, last, lineIndex);
    } else {
      assert all[1..] == chunks[1..] + [last];
      assert Searched(chunks[0]);
      if Step(lines, chunks[0], lineIndex).Ok? {
        var (r, next) := Step(lines, chunks[0], lineIndex).value;
        StepAdvances(lines, chunks[0], lineIndex);
        ComputedAppend(lines, chunks[1..], last, next);
        if Computed(lines, chunks[1..], next).Ok? {
          var rest := Computed(lines, chunks[1..], next).value;
          assert ([r] + rest)[1..] == rest;
          if Step(lines, last, End(rest, next)).Ok? {
            Associative([r], rest, [Step(lines, last, End(rest, next)).value.0]);
          }
        }
      }
    }
  }

  lemma ComputedOne(lines: seq<string>, chunk: UpdateChunk, lineIndex: nat)
    ensures Computed(lines, [chunk], lineIndex) ==
      match Step(lines, chunk, lineIndex)
      case Err(error) => Err(error)
      case Ok((r, _)) => Ok([] + [r])
  {
    hide Step;
    assert [chunk][1..] == [];
    if Step(lines, chunk, lineIndex).Ok? {
      EmptyUnit([Step(lines, chunk, lineIndex).value.0]);
    }
  }

  /** A last chunk of another kind keeps the windows ordered exactly when the place it is
      tied to is not before the end of the last window: the insertion point for a chunk
      without old lines, the last lines of the file for an End-of-File chunk. */
  lemma LastChunkOrderedIff(lines: seq<string>, chunks: seq<UpdateChunk>, last: UpdateChunk)
    requires forall i :: 0 <= i < |chunks| ==> Searched(chunks[i])
    requires Computed(lines, chunks + [last], 0).Ok?
    ensures Computed(lines, chunks, 0).Ok?
    ensures var before := Computed(lines, chunks, 0).value;
      var all := Computed(lines, chunks + [last], 0).value;
      var r := all[|all| - 1];
      && all == before + [r]
      && (Ordered(all, 0, |lines|) <==>
          if last.oldLines == [] then End(before, 0) <= InsertionPoint(lines)
          else if last.endOfFile && r.oldLen > 0 then End(before, 0) <= |lines| - r.oldLen
          else true)
  {
    hide Step, Explains;
    ComputedAppend(lines, chunks, last, 0);
    SearchedWindowsOrdered(lines, chunks, 0);
    var before := Computed(lines, chunks, 0).value;
    EndInside(before, 0, |lines|);
    StepLands(lines, last, End(before, 0));
    var (r, _) := Step(lines, last, End(before, 0)).value;
    OrderedAppend(before, r, 0, |lines|);
    if last.oldLines != [] && last.endOfFile && r.oldLen == 0 {
      StepLandsEmpty(lines, last, End(before, 0));
    }
  }

  /** An End-of-File chunk whose only old line is the optional blank one goes wherever the
      search stands. */
  lemma StepLandsEmpty(lines: seq<string>, chunk: UpdateChunk, lineIndex: nat)
    requires chunk.oldLines != [] && lineIndex <= |lines| && Step(lines, chunk, lineIndex).Ok?
    requires Step(lines, chunk, lineIndex).value.0.oldLen == 0
    ensures lineIndex <= Step(lines, chunk, lineIndex).value.0.start
  {
    hide FirstMatch;
    if chunk.changeContext != "" {
      SoughtStaysInside(lines, [chunk.changeContext], lineIndex, false);
    }
  }

  lemma {:induction false} EndInside<T>(rs: seq<Swap<T>>, from: nat, n: nat)
    requires Ordered(rs, from, n)
    ensures from <= End(rs, from) <= n
  {
    if rs != [] {
      EndInside(rs[1..], rs[0].start + rs[0].oldLen, n);
    }
  }
}
