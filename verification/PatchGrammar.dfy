/** The line grammar of patches: the parser, and a printer for the documented format that
    it undoes. */
module PatchGrammar {
  import opened Text
  import opened Wrappers
  import opened Replace

  const BEGIN_PATCH := "*** Begin Patch"
  const END_PATCH := "*** End Patch"
  const ADD_FILE := "*** Add File: "
  const DELETE_FILE := "*** Delete File: "
  const UPDATE_FILE := "*** Update File: "
  const MOVE_TO := "*** Move to: "
  const END_OF_FILE := "*** End of File"
  const CHANGE_CONTEXT := "@@ "
  const EMPTY_CHANGE_CONTEXT := "@@"

  datatype Hunk =
    | AddFile(path: string, contents: string)
    | DeleteFile(path: string)
    | UpdateFile(path: string, movedTo: string, chunks: seq<UpdateChunk>)

  datatype ParseError =
    | MissingBegin
    | MissingEnd
    | NoFilesModified
    | NotAHeader(line: nat)
    | EmptyUpdate(line: nat)
    | ExpectedContextMarker(line: nat)
    | NoLines(line: nat)
    | UnexpectedLine(line: nat)

  function CutPrefix(s: string, prefix: string): Option<string> {
    if HasPrefix(s, prefix) then Some(s[|prefix|..]) else None
  }

  // ----- one chunk -----

  function Kept(chunk: UpdateChunk, text: string): UpdateChunk {
    chunk.(oldLines := chunk.oldLines + [text], newLines := chunk.newLines + [text])
  }

  function Inserted(chunk: UpdateChunk, text: string): UpdateChunk {
    chunk.(newLines := chunk.newLines + [text])
  }

  function Dropped(chunk: UpdateChunk, text: string): UpdateChunk {
    chunk.(oldLines := chunk.oldLines + [text])
  }

  /** The body of a chunk: how far it reaches and what it adds to the chunk so far. */
  function ChunkBody(lines: seq<string>, chunk: UpdateChunk, parsed: nat, lineNumber: nat)
    : (r: Result<(UpdateChunk, nat), ParseError>)
    ensures r.Ok? ==> parsed <= r.value.1 <= parsed + |lines|
    ensures r.Ok? && parsed == 0 && lines != [] ==> r.value.1 > 0
    decreases |lines|
  {
    if lines == [] then Ok((chunk, parsed))
    else
      var line := lines[0];
      if line == END_OF_FILE then
        if parsed == 0 then Err(NoLines(lineNumber + 1)) else Ok((chunk.(endOfFile := true), parsed + 1))
      else if line == "" then ChunkBody(lines[1..], Kept(chunk, ""), parsed + 1, lineNumber)
      else if line[0] == ' ' then ChunkBody(lines[1..], Kept(chunk, line[1..]), parsed + 1, lineNumber)
      else if line[0] == '+' then ChunkBody(lines[1..], Inserted(chunk, line[1..]), parsed + 1, lineNumber)
      else if line[0] == '-' then ChunkBody(lines[1..], Dropped(chunk, line[1..]), parsed + 1, lineNumber)
      else if parsed == 0 then Err(UnexpectedLine(lineNumber + 1))
      else Ok((chunk, parsed))
  }

  /** The context marker of a chunk: the context it names and whether it takes a line. */
  function Marker(line: string): Option<string> {
    if line == EMPTY_CHANGE_CONTEXT then Some("") else CutPrefix(line, CHANGE_CONTEXT)
  }

  function ParsedChunk(lines: seq<string>, lineNumber: nat, allowMissingContext: bool)
    : (r: Result<(UpdateChunk, nat), ParseError>)
    ensures r.Ok? ==> 1 <= r.value.1 <= |lines|
  {
    if lines == [] then Err(NoLines(lineNumber))
    else
      var marker := Marker(lines[0]);
      var start := if marker.Some? then 1 else 0;
      if marker.None? && !allowMissingContext then Err(ExpectedContextMarker(lineNumber))
      else if start >= |lines| then Err(NoLines(lineNumber + 1))
      else
        var context := if marker.Some? then marker.value else "";
        match ChunkBody(lines[start..], UpdateChunk(context, [], [], false), 0, lineNumber)
        case Err(error) => Err(error)
        case Ok((chunk, parsed)) => Ok((chunk, parsed + start))
  }

  method ParseUpdateChunk(lines: seq<string>, lineNumber: nat, allowMissingContext: bool)
    returns (result: Result<(UpdateChunk, nat), ParseError>)
    ensures result == ParsedChunk(lines, lineNumber, allowMissingContext)
  {
    if |lines| == 0 {
      return Err(NoLines(lineNumber));
    }
    var context := "";
    var start: nat := 0;
    if lines[0] == EMPTY_CHANGE_CONTEXT {
      start := 1;
    } else if HasPrefix(lines[0], CHANGE_CONTEXT) {
      context := lines[0][|CHANGE_CONTEXT|..];
      start := 1;
    } else if !allowMissingContext {
      return Err(ExpectedContextMarker(lineNumber));
    }
    if start >= |lines| {
      return Err(NoLines(lineNumber + 1));
    }
    result := ParseChunkBody(lines, start, UpdateChunk(context, [], [], false), lineNumber);
  }

  method ParseChunkBody(lines: seq<string>, start: nat, empty: UpdateChunk, lineNumber: nat)
    returns (result: Result<(UpdateChunk, nat), ParseError>)
    requires start < |lines|
    ensures result == match ChunkBody(lines[start..], empty, 0, lineNumber)
      case Err(error) => Err(error)
      case Ok((chunk, parsed)) => Ok((chunk, parsed + start))
  {
    var chunk := empty;
    var parsed := 0;
    while start + parsed < |lines|
      invariant start + parsed <= |lines|
      invariant ChunkBody(lines[start..], empty, 0, lineNumber)
             == ChunkBody(lines[start + parsed..], chunk, parsed, lineNumber)
    {
      var line := lines[start + parsed];
      assert lines[start + parsed..][1..] == lines[start + (parsed + 1)..];
      if line == END_OF_FILE {
        if parsed == 0 {
          return Err(NoLines(lineNumber + 1));
        }
        return Ok((chunk.(endOfFile := true), parsed + 1 + start));
      }
      if line == "" {
        chunk := Kept(chunk, "");
      } else if line[0] == ' ' {
        chunk := Kept(chunk, line[1..]);
      } else if line[0] == '+' {
        chunk := Inserted(chunk, line[1..]);
      } else if line[0] == '-' {
        chunk := Dropped(chunk, line[1..]);
      } else if parsed == 0 {
        return Err(UnexpectedLine(lineNumber + 1));
      } else {
        return Ok((chunk, parsed + start));
      }
      parsed := parsed + 1;
    }
    return Ok((chunk, parsed + start));
  }

  // ----- the chunks of one update -----

  predicate Ends(line: string) {
    HasPrefix(line, "***")
  }

  function Chunks(lines: seq<string>, chunks: seq<UpdateChunk>, parsed: nat, lineNumber: nat)
    : (r: Result<(seq<UpdateChunk>, nat), ParseError>)
    ensures r.Ok? ==> parsed <= r.value.1 <= parsed + |lines|
    decreases |lines|
  {
    if lines == [] then Ok((chunks, parsed))
    else if Blank(lines[0]) then Chunks(lines[1..], chunks, parsed + 1, lineNumber)
    else if Ends(lines[0]) then Ok((chunks, parsed))
    else
      match ParsedChunk(lines, lineNumber + parsed, chunks == [])
      case Err(error) => Err(error)
      case Ok((chunk, consumed)) => Chunks(lines[consumed..], chunks + [chunk], parsed + consumed, lineNumber)
  }

  method ParseChunks(lines: seq<string>, first: nat, lineNumber: nat)
    returns (result: Result<(seq<UpdateChunk>, nat), ParseError>)
    requires first <= |lines|
    ensures result == Chunks(lines[first..], [], first, lineNumber)
  {
    hide ParsedChunk;
    var remaining := lines[first..];
    var parsed := first;
    var chunks: seq<UpdateChunk> := [];
    while |remaining| > 0
      invariant Chunks(lines[first..], [], first, lineNumber) == Chunks(remaining, chunks, parsed, lineNumber)
      decreases |remaining|
    {
      if Blank(remaining[0]) {
        parsed := parsed + 1;
        remaining := remaining[1..];
      } else if Ends(remaining[0]) {
        break;
      } else {
        var chunk := ParseUpdateChunk(remaining, lineNumber + parsed, |chunks| == 0);
        if chunk.Err? {
          return Err(chunk.error);
        }
        chunks := chunks + [chunk.value.0];
        parsed := parsed + chunk.value.1;
        remaining := remaining[chunk.value.1..];
      }
    }
    return Ok((chunks, parsed));
  }

  // ----- one hunk -----

  /** The leading '+' lines, without the sign. */
  function PlusRun(lines: seq<string>): (r: seq<string>)
    ensures |r| <= |lines|
  {
    if lines == [] || !HasPrefix(lines[0], "+") then [] else [lines[0][1..]] + PlusRun(lines[1..])
  }

  function MoveTarget(lines: seq<string>): Option<string> {
    if lines == [] then None else CutPrefix(lines[0], MOVE_TO)
  }

  function ParsedUpdate(path: string, lines: seq<string>, lineNumber: nat): (r: Result<(Hunk, nat), ParseError>)
    requires lines != []
    ensures r.Ok? ==> 1 <= r.value.1 <= |lines|
  {
    var target := MoveTarget(lines[1..]);
    var first := if target.Some? then 2 else 1;
    match Chunks(lines[first..], [], first, lineNumber)
    case Err(error) => Err(error)
    case Ok((chunks, parsed)) =>
      if chunks == [] then Err(EmptyUpdate(lineNumber))
      else Ok((UpdateFile(path, if target.Some? then target.value else "", chunks), parsed))
  }

  function ParsedHunk(lines: seq<string>, lineNumber: nat): (r: Result<(Hunk, nat), ParseError>)
    requires lines != []
    ensures r.Ok? ==> 1 <= r.value.1 <= |lines|
  {
    var header := TrimSpace(lines[0]);
    var add := CutPrefix(header, ADD_FILE);
    var delete := CutPrefix(header, DELETE_FILE);
    var update := CutPrefix(header, UPDATE_FILE);
    if add.Some? then
      var added := PlusRun(lines[1..]);
      Ok((AddFile(add.value, Terminated(added)), 1 + |added|))
    else if delete.Some? then Ok((DeleteFile(delete.value), 1))
    else if update.Some? then ParsedUpdate(update.value, lines, lineNumber)
    else Err(NotAHeader(lineNumber))
  }

  method ParseAddedLines(lines: seq<string>) returns (contents: string, parsed: nat)
    requires lines != []
    ensures contents == Terminated(PlusRun(lines[1..])) && parsed == 1 + |PlusRun(lines[1..])|
  {
    contents := "";
    parsed := 1;
    while parsed < |lines|
      invariant 1 <= parsed <= |lines|
      invariant contents + Terminated(PlusRun(lines[parsed..])) == Terminated(PlusRun(lines[1..]))
      invariant parsed + |PlusRun(lines[parsed..])| == 1 + |PlusRun(lines[1..])|
    {
      assert lines[parsed..][1..] == lines[parsed + 1..];
      if !HasPrefix(lines[parsed], "+") {
        break;
      }
      contents := contents + lines[parsed][1..] + "\n";
      parsed := parsed + 1;
    }
    assert PlusRun(lines[parsed..]) == [];
    assert contents + "" == contents;
  }

  method ParseOneHunk(lines: seq<string>, lineNumber: nat) returns (result: Result<(Hunk, nat), ParseError>)
    requires lines != []
    ensures result == ParsedHunk(lines, lineNumber)
  {
    hide Chunks, PlusRun, TrimSpace;
    var header := TrimSpace(lines[0]);
    if HasPrefix(header, ADD_FILE) {
      var contents, parsed := ParseAddedLines(lines);
      return Ok((AddFile(header[|ADD_FILE|..], contents), parsed));
    }
    if HasPrefix(header, DELETE_FILE) {
      return Ok((DeleteFile(header[|DELETE_FILE|..]), 1));
    }
    if HasPrefix(header, UPDATE_FILE) {
      var parsed := 1;
      var movedTo := "";
      if |lines| > 1 && HasPrefix(lines[1], MOVE_TO) {
        movedTo := lines[1][|MOVE_TO|..];
        parsed := 2;
      }
      var chunks := ParseChunks(lines, parsed, lineNumber);
      if chunks.Err? {
        return Err(chunks.error);
      }
      if |chunks.value.0| == 0 {
        return Err(EmptyUpdate(lineNumber));
      }
      return Ok((UpdateFile(header[|UPDATE_FILE|..], movedTo, chunks.value.0), chunks.value.1));
    }
    return Err(NotAHeader(lineNumber));
  }

  // ----- a whole patch -----

  function ParsedHunks(lines: seq<string>, lineNumber: nat): Result<seq<Hunk>, ParseError>
    decreases |lines|
  {
    if lines == [] then Ok([])
    else
      match ParsedHunk(lines, lineNumber)
      case Err(error) => Err(error)
      case Ok((hunk, consumed)) =>
        match ParsedHunks(lines[consumed..], lineNumber + consumed)
        case Err(error) => Err(error)
        case Ok(rest) => Ok([hunk] + rest)
  }

  function Boundaries(lines: seq<string>): Option<ParseError> {
    if lines == [] then Some(MissingBegin)
    else if TrimSpace(lines[0]) != BEGIN_PATCH then Some(MissingBegin)
    else if TrimSpace(lines[|lines| - 1]) != END_PATCH then Some(MissingEnd)
    else None
  }

  function UnwrapHeredoc(lines: seq<string>): Option<seq<string>> {
    if |lines| < 4 then None
    else
      var first := TrimSpace(lines[0]);
      var last := TrimSpace(lines[|lines| - 1]);
      if (first == "<<EOF" || first == "<<'EOF'" || first == "<<\"EOF\"") && HasSuffix(last, "EOF")
      then Some(lines[1..|lines| - 1])
      else None
  }

  function PatchBodyLines(lines: seq<string>): Result<seq<string>, ParseError> {
    match Boundaries(lines)
    case None => Ok(lines)
    case Some(error) =>
      match UnwrapHeredoc(lines)
      case None => Err(error)
      case Some(inner) =>
        match Boundaries(inner)
        case None => Ok(inner)
        case Some(innerError) => Err(innerError)
  }

  function ParsedLines(lines: seq<string>): Result<seq<Hunk>, ParseError> {
    match PatchBodyLines(lines)
    case Err(error) => Err(error)
    case Ok(inner) =>
      if |inner| < 2 then Err(MissingBegin)
      else
        match ParsedHunks(inner[1..|inner| - 1], 2)
        case Err(error) => Err(error)
        case Ok(hunks) => if hunks == [] then Err(NoFilesModified) else Ok(hunks)
  }

  function ParsedPatch(patch: string): Result<seq<Hunk>, ParseError> {
    ParsedLines(SplitLines(TrimSpace(patch)))
  }

  lemma OneMoreHunk(done: seq<Hunk>, lines: seq<string>, lineNumber: nat)
    requires lines != [] && ParsedHunk(lines, lineNumber).Ok?
    ensures var (hunk, consumed) := ParsedHunk(lines, lineNumber).value;
      WithHunks(done, ParsedHunks(lines, lineNumber))
      == WithHunks(done + [hunk], ParsedHunks(lines[consumed..], lineNumber + consumed))
  {
    hide ParsedHunk;
    var (hunk, consumed) := ParsedHunk(lines, lineNumber).value;
    var rest := ParsedHunks(lines[consumed..], lineNumber + consumed);
    if rest.Ok? {
      assert done + ([hunk] + rest.value) == (done + [hunk]) + rest.value;
    }
  }

  function WithHunks(done: seq<Hunk>, rest: Result<seq<Hunk>, ParseError>): Result<seq<Hunk>, ParseError> {
    match rest
    case Err(error) => Err(error)
    case Ok(hunks) => Ok(done + hunks)
  }

  method ParsePatch(patch: string) returns (result: Result<seq<Hunk>, ParseError>)
    ensures result == ParsedPatch(patch)
  {
    hide ParsedHunk, SplitLines, TrimSpace, PatchBodyLines;
    var inner := PatchBodyLines(SplitLines(TrimSpace(patch)));
    if inner.Err? {
      return Err(inner.error);
    }
    if |inner.value| < 2 {
      return Err(MissingBegin);
    }
    ghost var body := inner.value[1..|inner.value| - 1];
    var remaining := inner.value[1..|inner.value| - 1];
    var lineNumber := 2;
    var hunks: seq<Hunk> := [];
    assert WithHunks([], ParsedHunks(body, 2)) == ParsedHunks(body, 2) by {
      if ParsedHunks(body, 2).Ok? {
        assert [] + ParsedHunks(body, 2).value == ParsedHunks(body, 2).value;
      }
    }
    while |remaining| > 0
      invariant ParsedHunks(body, 2) == WithHunks(hunks, ParsedHunks(remaining, lineNumber))
      decreases |remaining|
    {
      var hunk := ParseOneHunk(remaining, lineNumber);
      if hunk.Err? {
        return Err(hunk.error);
      }
      OneMoreHunk(hunks, remaining, lineNumber);
      hunks := hunks + [hunk.value.0];
      lineNumber := lineNumber + hunk.value.1;
      remaining := remaining[hunk.value.1..];
    }
    assert hunks + [] == hunks;
    if |hunks| == 0 {
      return Err(NoFilesModified);
    }
    return Ok(hunks);
  }
}
