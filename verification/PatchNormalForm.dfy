/** Every patch that parses can be written in the documented format: printing its hunks is a
    normal form. */
module PatchNormalForm {
  import opened Seqs
  import opened Text
  import opened Wrappers
  import opened Replace
  import opened PatchGrammar
  import opened PatchRoundTrip

  // ----- a section for a hunk -----

  function RemovedAll(lines: seq<string>): seq<Edit> {
    if lines == [] then [] else [Removed(lines[0])] + RemovedAll(lines[1..])
  }

  function AddedAll(lines: seq<string>): seq<Edit> {
    if lines == [] then [] else [Added(lines[0])] + AddedAll(lines[1..])
  }

  function ScriptFor(chunk: UpdateChunk): Script {
    Script(chunk.changeContext, RemovedAll(chunk.oldLines) + AddedAll(chunk.newLines), chunk.endOfFile)
  }

  function ScriptsFor(chunks: seq<UpdateChunk>): seq<Script> {
    if chunks == [] then [] else [ScriptFor(chunks[0])] + ScriptsFor(chunks[1..])
  }

  /** The lines of a file, each of which ends in a newline. */
  function FileLines(contents: string): seq<string> {
    var lines := SplitLines(contents);
    lines[..|lines| - 1]
  }

  function SectionFor(hunk: Hunk): Section {
    match hunk
    case AddFile(path, contents) => AddSection(path, FileLines(contents))
    case DeleteFile(path) => DeleteSection(path)
    case UpdateFile(path, movedTo, chunks) => UpdateSection(path, movedTo, ScriptsFor(chunks))
  }

  function SectionsFor(hunks: seq<Hunk>): seq<Section> {
    if hunks == [] then [] else [SectionFor(hunks[0])] + SectionsFor(hunks[1..])
  }

  // ----- which hunks there are -----

  predicate ChunkOk(chunk: UpdateChunk) {
    && OneLine(chunk.changeContext)
    && (chunk.oldLines != [] || chunk.newLines != [])
    && AllOneLine(chunk.oldLines) && AllOneLine(chunk.newLines)
  }

  predicate Printable(hunk: Hunk) {
    && PathOk(hunk.path)
    && match hunk
       case AddFile(_, contents) => contents == "" || contents[|contents| - 1] == '\n'
       case DeleteFile(_) => true
       case UpdateFile(_, movedTo, chunks) =>
         OneLine(movedTo) && chunks != [] && forall i :: 0 <= i < |chunks| ==> ChunkOk(chunks[i])
  }

  // ----- the section stands for the hunk -----

  lemma {:induction false} OldLinesAppend(a: seq<Edit>, b: seq<Edit>)
    ensures OldLines(a + b) == OldLines(a) + OldLines(b) && NewLines(a + b) == NewLines(a) + NewLines(b)
  {
    if a == [] {
      EmptyUnit(b);
      EmptyUnit(OldLines(b));
      EmptyUnit(NewLines(b));
    } else {
      assert (a + b)[1..] == a[1..] + b;
      OldLinesAppend(a[1..], b);
      Associative(if a[0].Added? then [] else [a[0].text], OldLines(a[1..]), OldLines(b));
      Associative(if a[0].Removed? then [] else [a[0].text], NewLines(a[1..]), NewLines(b));
    }
  }

  lemma {:induction false} RemovedMean(lines: seq<string>)
    ensures OldLines(RemovedAll(lines)) == lines && NewLines(RemovedAll(lines)) == [] && |RemovedAll(lines)| == |lines|
    ensures AllOneLine(lines) ==> forall i :: 0 <= i < |lines| ==> OneLine(RemovedAll(lines)[i].text)
  {
    if lines != [] {
      RemovedMean(lines[1..]);
      assert AllOneLine(lines) ==> AllOneLine(lines[1..]);
    }
  }

  lemma {:induction false} AddedMean(lines: seq<string>)
    ensures NewLines(AddedAll(lines)) == lines && OldLines(AddedAll(lines)) == [] && |AddedAll(lines)| == |lines|
    ensures AllOneLine(lines) ==> forall i :: 0 <= i < |lines| ==> OneLine(AddedAll(lines)[i].text)
  {
    if lines != [] {
      AddedMean(lines[1..]);
      assert AllOneLine(lines) ==> AllOneLine(lines[1..]);
    }
  }

  lemma ScriptMeans(chunk: UpdateChunk)
    requires ChunkOk(chunk)
    ensures ScriptOk(ScriptFor(chunk)) && ChunkOf(ScriptFor(chunk)) == chunk
  {
    hide OneLine, OldLines, NewLines, RemovedAll, AddedAll;
    RemovedMean(chunk.oldLines);
    AddedMean(chunk.newLines);
    OldLinesAppend(RemovedAll(chunk.oldLines), AddedAll(chunk.newLines));
    EmptyUnit(chunk.oldLines);
    EmptyUnit(chunk.newLines);
  }

  lemma {:induction false} ScriptsMean(chunks: seq<UpdateChunk>)
    requires forall i :: 0 <= i < |chunks| ==> ChunkOk(chunks[i])
    ensures ChunksOf(ScriptsFor(chunks)) == chunks && |ScriptsFor(chunks)| == |chunks|
    ensures forall i :: 0 <= i < |chunks| ==> ScriptOk(ScriptsFor(chunks)[i])
  {
    hide ChunkOk, ScriptOk, ScriptFor, ChunkOf;
    if chunks != [] {
      ScriptMeans(chunks[0]);
      ScriptsMean(chunks[1..]);
      assert [chunks[0]] + chunks[1..] == chunks;
    }
  }

  lemma {:induction false} JoinedLast(lines: seq<string>)
    requires lines != [] && forall i :: 0 <= i < |lines| ==> OneLine(lines[i])
    ensures var text := JoinLines(lines);
      text == "" || text[|text| - 1] == '\n' ==> lines[|lines| - 1] == ""
  {
    if |lines| > 1 {
      JoinedLast(lines[1..]);
    }
  }

  lemma FileLinesTerminate(contents: string)
    requires contents == "" || contents[|contents| - 1] == '\n'
    ensures Terminated(FileLines(contents)) == contents
    ensures AllOneLine(FileLines(contents))
  {
    hide JoinLines, SplitLines, Terminated;
    var lines := SplitLines(contents);
    JoinSplit(contents);
    JoinedLast(lines);
    assert lines == FileLines(contents) + [""];
    JoinTerminated(FileLines(contents));
  }

  lemma SectionMeans(hunk: Hunk)
    requires Printable(hunk)
    ensures SectionOk(SectionFor(hunk)) && HunkOf(SectionFor(hunk)) == hunk
  {
    hide FileLines, ChunkOk, ScriptsFor, ChunksOf, ScriptOk, Terminated, PathOk, OneLine;
    match hunk
    case AddFile(_, contents) => FileLinesTerminate(contents);
    case UpdateFile(_, _, chunks) => ScriptsMean(chunks);
    case DeleteFile(_) =>
  }

  lemma {:induction false} SectionsMean(hunks: seq<Hunk>)
    requires forall i :: 0 <= i < |hunks| ==> Printable(hunks[i])
    ensures HunksOf(SectionsFor(hunks)) == hunks && |SectionsFor(hunks)| == |hunks|
    ensures forall i :: 0 <= i < |hunks| ==> SectionOk(SectionsFor(hunks)[i])
  {
    hide Printable, SectionOk, SectionFor, HunkOf;
    if hunks != [] {
      SectionMeans(hunks[0]);
      SectionsMean(hunks[1..]);
      assert [hunks[0]] + hunks[1..] == hunks;
    }
  }

  // ----- the parser makes no others -----

  lemma {:induction false} BodyIsOk(lines: seq<string>, chunk: UpdateChunk, parsed: nat, lineNumber: nat)
    requires AllOneLine(lines) && AllOneLine(chunk.oldLines) && AllOneLine(chunk.newLines)
    requires parsed > 0 ==> chunk.oldLines != [] || chunk.newLines != []
    requires ChunkBody(lines, chunk, parsed, lineNumber).Ok? && (parsed > 0 || lines != [])
    ensures var result := ChunkBody(lines, chunk, parsed, lineNumber).value.0;
      && AllOneLine(result.oldLines) && AllOneLine(result.newLines)
      && (result.oldLines != [] || result.newLines != []) && result.changeContext == chunk.changeContext
    decreases |lines|
  {
    if lines != [] && lines[0] != END_OF_FILE {
      var line, tail := lines[0], lines[1..];
      assert OneLine(line) && AllOneLine(tail);
      if line == "" {
        BodyIsOk(tail, Kept(chunk, ""), parsed + 1, lineNumber);
      } else if line[0] == ' ' {
        BodyIsOk(tail, Kept(chunk, line[1..]), parsed + 1, lineNumber);
      } else if line[0] == '+' {
        BodyIsOk(tail, Inserted(chunk, line[1..]), parsed + 1, lineNumber);
      } else if line[0] == '-' {
        BodyIsOk(tail, Dropped(chunk, line[1..]), parsed + 1, lineNumber);
      }
    }
  }

  lemma ChunkIsOk(lines: seq<string>, lineNumber: nat, allowMissing: bool)
    requires AllOneLine(lines) && ParsedChunk(lines, lineNumber, allowMissing).Ok?
    ensures ChunkOk(ParsedChunk(lines, lineNumber, allowMissing).value.0)
  {
    hide ChunkBody;
    assert OneLine(lines[0]);
    var marker := Marker(lines[0]);
    var start := if marker.Some? then 1 else 0;
    var context := if marker.Some? then marker.value else "";
    assert AllOneLine(lines[start..]);
    BodyIsOk(lines[start..], UpdateChunk(context, [], [], false), 0, lineNumber);
  }

  lemma {:induction false} ChunksAreOk(lines: seq<string>, done: seq<UpdateChunk>, parsed: nat, lineNumber: nat)
    requires AllOneLine(lines) && Chunks(lines, done, parsed, lineNumber).Ok?
    requires forall i :: 0 <= i < |done| ==> ChunkOk(done[i])
    ensures var chunks := Chunks(lines, done, parsed, lineNumber).value.0;
      forall i :: 0 <= i < |chunks| ==> ChunkOk(chunks[i])
    decreases |lines|
  {
    hide ParsedChunk, ChunkOk, Blank, Ends, OneLine;
    if lines != [] {
      if Blank(lines[0]) {
        ChunksAreOk(lines[1..], done, parsed + 1, lineNumber);
      } else if !Ends(lines[0]) {
        ChunkIsOk(lines, lineNumber + parsed, done == []);
        var (chunk, consumed) := ParsedChunk(lines, lineNumber + parsed, done == []).value;
        ChunksAreOk(lines[consumed..], done + [chunk], parsed + consumed, lineNumber);
      }
    }
  }

  lemma {:induction false} TerminatedEnds(lines: seq<string>)
    ensures Terminated(lines) == "" || Terminated(lines)[|Terminated(lines)| - 1] == '\n'
  {
    if lines != [] {
      TerminatedEnds(lines[1..]);
    }
  }

  lemma TrimmedIsTight(line: string)
    requires OneLine(line)
    ensures OneLine(TrimSpace(line))
    ensures var header := TrimSpace(line); header != "" ==> !IsSpace(header[|header| - 1])
  {
    RightIsPart(line);
    LeftIsEnd(TrimRight(line));
  }

  lemma {:induction false} RightIsPart(line: string)
    ensures |TrimRight(line)| <= |line| && TrimRight(line) == line[..|TrimRight(line)|]
  {
    if line != "" && IsSpace(line[|line| - 1]) {
      RightIsPart(line[..|line| - 1]);
    }
  }

  lemma {:induction false} LeftIsEnd(line: string)
    ensures |TrimLeft(line)| <= |line| && TrimLeft(line) == line[|line| - |TrimLeft(line)|..]
  {
    if line != "" && IsSpace(line[0]) {
      LeftIsEnd(line[1..]);
    }
  }

  lemma HeaderPath(line: string, marker: string)
    requires OneLine(line) && marker != "" && IsSpace(marker[|marker| - 1])
    requires CutPrefix(TrimSpace(line), marker).Some?
    ensures PathOk(CutPrefix(TrimSpace(line), marker).value)
  {
    hide TrimSpace, IsSpace;
    TrimmedIsTight(line);
    var header := TrimSpace(line);
    assert header[..|marker|][|marker| - 1] == marker[|marker| - 1];
  }

  lemma HunkIsPrintable(lines: seq<string>, lineNumber: nat)
    requires lines != [] && AllOneLine(lines) && ParsedHunk(lines, lineNumber).Ok?
    ensures Printable(ParsedHunk(lines, lineNumber).value.0)
  {
    hide TrimSpace, PathOk, Terminated, PlusRun, Chunks, ChunkOk, CutPrefix;
    assert OneLine(lines[0]);
    var header := TrimSpace(lines[0]);
    if CutPrefix(header, ADD_FILE).Some? {
      HeaderPath(lines[0], ADD_FILE);
      TerminatedEnds(PlusRun(lines[1..]));
    } else if CutPrefix(header, DELETE_FILE).Some? {
      HeaderPath(lines[0], DELETE_FILE);
    } else {
      HeaderPath(lines[0], UPDATE_FILE);
      var target := MoveTarget(lines[1..]);
      MoveIsOneLine(lines[1..]);
      var first := if target.Some? then 2 else 1;
      assert AllOneLine(lines[first..]);
      ChunksAreOk(lines[first..], [], first, lineNumber);
    }
  }

  lemma MoveIsOneLine(lines: seq<string>)
    requires AllOneLine(lines)
    ensures MoveTarget(lines).Some? ==> lines != [] && OneLine(MoveTarget(lines).value)
  {
    if lines != [] {
      assert OneLine(lines[0]);
    }
  }

  lemma {:induction false} HunksArePrintable(lines: seq<string>, lineNumber: nat)
    requires AllOneLine(lines) && ParsedHunks(lines, lineNumber).Ok?
    ensures var hunks := ParsedHunks(lines, lineNumber).value; forall i :: 0 <= i < |hunks| ==> Printable(hunks[i])
    decreases |lines|
  {
    hide ParsedHunk, Printable, OneLine;
    if lines != [] {
      HunkIsPrintable(lines, lineNumber);
      var consumed := ParsedHunk(lines, lineNumber).value.1;
      HunksArePrintable(lines[consumed..], lineNumber + consumed);
    }
  }

  lemma ParsedArePrintable(patch: string)
    requires ParsedPatch(patch).Ok?
    ensures var hunks := ParsedPatch(patch).value; hunks != [] && forall i :: 0 <= i < |hunks| ==> Printable(hunks[i])
  {
    hide ParsedHunks, Printable, SplitLines, TrimSpace, Boundaries, OneLine;
    var lines := SplitLines(TrimSpace(patch));
    var inner := PatchBodyLines(lines).value;
    assert AllOneLine(inner);
    assert AllOneLine(inner[1..|inner| - 1]);
    HunksArePrintable(inner[1..|inner| - 1], 2);
  }

  /** Printing the hunks of any patch that parses gives a patch in the documented format with the
      same hunks. */
  lemma PrintingNormalizes(patch: string)
    requires ParsedPatch(patch).Ok?
    ensures var sections := SectionsFor(ParsedPatch(patch).value);
      && sections != [] && (forall i :: 0 <= i < |sections| ==> SectionOk(sections[i]))
      && ParsedPatch(Printed(sections)) == ParsedPatch(patch)
  {
    hide ParsedPatch, Printed, SectionOk, SectionsFor, Printable;
    ParsedArePrintable(patch);
    SectionsMean(ParsedPatch(patch).value);
    ParseUndoesPrint(SectionsFor(ParsedPatch(patch).value));
  }

  /** So the hunk lists that patches have are exactly the non-empty lists of printable hunks. */
  lemma SomePatchIff(hunks: seq<Hunk>)
    ensures (exists patch :: ParsedPatch(patch) == Ok(hunks)) <==>
      hunks != [] && forall i :: 0 <= i < |hunks| ==> Printable(hunks[i])
  {
    hide ParsedPatch, Printed, SectionOk, SectionsFor, Printable;
    if patch :| ParsedPatch(patch) == Ok(hunks) {
      ParsedArePrintable(patch);
    }
    if hunks != [] && forall i :: 0 <= i < |hunks| ==> Printable(hunks[i]) {
      SectionsMean(hunks);
      ParseUndoesPrint(SectionsFor(hunks));
      assert ParsedPatch(Printed(SectionsFor(hunks))) == Ok(hunks);
    }
  }
}
