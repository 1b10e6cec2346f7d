/** Printing patches in the documented format, and what parsing them gives back. */
module PatchRoundTrip {
  import opened Seqs
  import opened Text
  import opened Wrappers
  import opened Replace
  import opened PatchGrammar

  // ----- the documented format -----

  /** One line of a chunk: kept, removed or added. */
  datatype Edit = Context(text: string) | Removed(text: string) | Added(text: string)

  datatype Script = Script(context: string, edits: seq<Edit>, endOfFile: bool)

  datatype Section =
    | AddSection(path: string, lines: seq<string>)
    | DeleteSection(path: string)
    | UpdateSection(path: string, movedTo: string, scripts: seq<Script>)

  function EditLine(edit: Edit): string {
    match edit
    case Context(text) => " " + text
    case Removed(text) => "-" + text
    case Added(text) => "+" + text
  }

  function EditLines(edits: seq<Edit>): seq<string> {
    if edits == [] then [] else [EditLine(edits[0])] + EditLines(edits[1..])
  }

  function MarkerLine(context: string): string {
    if context == "" then EMPTY_CHANGE_CONTEXT else CHANGE_CONTEXT + context
  }

  function ScriptLines(script: Script): seq<string> {
    [MarkerLine(script.context)] + EditLines(script.edits) + (if script.endOfFile then [END_OF_FILE] else [])
  }

  function ScriptsLines(scripts: seq<Script>): seq<string> {
    if scripts == [] then [] else ScriptLines(scripts[0]) + ScriptsLines(scripts[1..])
  }

  function PlusLines(lines: seq<string>): seq<string> {
    if lines == [] then [] else ["+" + lines[0]] + PlusLines(lines[1..])
  }

  function SectionLines(section: Section): seq<string> {
    match section
    case AddSection(path, lines) => [ADD_FILE + path] + PlusLines(lines)
    case DeleteSection(path) => [DELETE_FILE + path]
    case UpdateSection(path, movedTo, scripts) =>
      [UPDATE_FILE + path] + (if movedTo == "" then [] else [MOVE_TO + movedTo]) + ScriptsLines(scripts)
  }

  function SectionsLines(sections: seq<Section>): seq<string> {
    if sections == [] then [] else SectionLines(sections[0]) + SectionsLines(sections[1..])
  }

  function PatchLines(sections: seq<Section>): seq<string> {
    [BEGIN_PATCH] + SectionsLines(sections) + [END_PATCH]
  }

  function Printed(sections: seq<Section>): string {
    JoinLines(PatchLines(sections))
  }

  // ----- what a section means -----

  /** The lines an edit script expects to find. */
  function OldLines(edits: seq<Edit>): seq<string> {
    if edits == [] then []
    else (if edits[0].Added? then [] else [edits[0].text]) + OldLines(edits[1..])
  }

  /** The lines an edit script leaves behind. */
  function NewLines(edits: seq<Edit>): seq<string> {
    if edits == [] then []
    else (if edits[0].Removed? then [] else [edits[0].text]) + NewLines(edits[1..])
  }

  function ChunkOf(script: Script): UpdateChunk {
    UpdateChunk(script.context, OldLines(script.edits), NewLines(script.edits), script.endOfFile)
  }

  function ChunksOf(scripts: seq<Script>): seq<UpdateChunk> {
    if scripts == [] then [] else [ChunkOf(scripts[0])] + ChunksOf(scripts[1..])
  }

  function HunkOf(section: Section): Hunk {
    match section
    case AddSection(path, lines) => AddFile(path, Terminated(lines))
    case DeleteSection(path) => DeleteFile(path)
    case UpdateSection(path, movedTo, scripts) => UpdateFile(path, movedTo, ChunksOf(scripts))
  }

  function HunksOf(sections: seq<Section>): seq<Hunk> {
    if sections == [] then [] else [HunkOf(sections[0])] + HunksOf(sections[1..])
  }

  // ----- which sections can be written down -----

  predicate ScriptOk(script: Script) {
    && OneLine(script.context)
    && script.edits != []
    && forall i :: 0 <= i < |script.edits| ==> OneLine(script.edits[i].text)
  }

  predicate PathOk(path: string) {
    path != "" && !IsSpace(path[|path| - 1]) && OneLine(path)
  }

  predicate SectionOk(section: Section) {
    && PathOk(section.path)
    && (section.AddSection? ==> forall i :: 0 <= i < |section.lines| ==> OneLine(section.lines[i]))
    && (section.UpdateSection? ==>
        && OneLine(section.movedTo)
        && section.scripts != []
        && forall i :: 0 <= i < |section.scripts| ==> ScriptOk(section.scripts[i]))
  }

  // ----- chunks -----

  /** A line that ends a chunk body. */
  predicate Stops(line: string) {
    line != END_OF_FILE && line != "" && line[0] != ' ' && line[0] != '+' && line[0] != '-'
  }

  function Extended(chunk: UpdateChunk, edits: seq<Edit>): UpdateChunk {
    chunk.(oldLines := chunk.oldLines + OldLines(edits), newLines := chunk.newLines + NewLines(edits))
  }

  lemma ExtendedStep(chunk: UpdateChunk, edits: seq<Edit>)
    requires edits != []
    ensures var text := edits[0].text;
      var next := match edits[0]
        case Context(_) => Kept(chunk, text)
        case Removed(_) => Dropped(chunk, text)
        case Added(_) => Inserted(chunk, text);
      Extended(next, edits[1..]) == Extended(chunk, edits)
  {
    var text := edits[0].text;
    assert (chunk.oldLines + [text]) + OldLines(edits[1..]) == chunk.oldLines + ([text] + OldLines(edits[1..]));
    assert (chunk.newLines + [text]) + NewLines(edits[1..]) == chunk.newLines + ([text] + NewLines(edits[1..]));
    assert chunk.oldLines + ([] + OldLines(edits[1..])) == chunk.oldLines + OldLines(edits[1..]);
    assert chunk.newLines + ([] + NewLines(edits[1..])) == chunk.newLines + NewLines(edits[1..]);
  }

  lemma EditLineShape(edit: Edit)
    ensures var line := EditLine(edit);
      && line != "" && line != END_OF_FILE && line[1..] == edit.text
      && (line[0] == ' ' <==> edit.Context?) && (line[0] == '-' <==> edit.Removed?) && (line[0] == '+' <==> edit.Added?)
  {
    assert END_OF_FILE[0] == '*';
  }

  lemma PrefixAgrees(s: string, prefix: string, i: nat)
    requires i < |prefix|
    ensures HasPrefix(s, prefix) ==> i < |s| && s[i] == prefix[i]
  {
    if HasPrefix(s, prefix) {
      assert s[..|prefix|][i] == s[i];
    }
  }

  lemma FirstEdit(edits: seq<Edit>, rest: seq<string>)
    requires edits != []
    ensures var lines := EditLines(edits) + rest;
      lines != [] && lines[0] == EditLine(edits[0]) && lines[1..] == EditLines(edits[1..]) + rest
  {
    assert EditLines(edits) == [EditLine(edits[0])] + EditLines(edits[1..]);
    hide EditLine, EditLines;
    FirstAndRest(EditLine(edits[0]), EditLines(edits[1..]), rest);
  }

  /** An edit script adds its projections to the chunk, line by line. */
  lemma {:induction false} BodyReadsEdits(
    edits: seq<Edit>, rest: seq<string>, chunk: UpdateChunk, parsed: nat, lineNumber: nat)
    ensures ChunkBody(EditLines(edits) + rest, chunk, parsed, lineNumber)
         == ChunkBody(rest, Extended(chunk, edits), parsed + |edits|, lineNumber)
    decreases |edits|
  {
    if edits == [] {
      EmptyUnit(rest);
      EmptyUnit(chunk.oldLines);
      EmptyUnit(chunk.newLines);
    } else {
      FirstEdit(edits, rest);
      EditLineShape(edits[0]);
      ExtendedStep(chunk, edits);
      hide EditLine, EditLines, Extended;
      var next := match edits[0]
        case Context(text) => Kept(chunk, text)
        case Removed(text) => Dropped(chunk, text)
        case Added(text) => Inserted(chunk, text);
      BodyReadsEdits(edits[1..], rest, next, parsed + 1, lineNumber);
    }
  }

  lemma {:induction false} EditLinesLength(edits: seq<Edit>)
    ensures |EditLines(edits)| == |edits|
  {
    if edits != [] {
      EditLinesLength(edits[1..]);
    }
  }

  lemma MarkerReadsContext(context: string)
    ensures Marker(MarkerLine(context)) == Some(context)
  {
    var line := MarkerLine(context);
    if context != "" {
      assert line[..3] == CHANGE_CONTEXT;
      assert line[3..] == context;
    }
  }

  lemma ChunkReadsScript(script: Script, rest: seq<string>, lineNumber: nat, allowMissing: bool)
    requires script.edits != [] && (rest == [] || Stops(rest[0]) || script.endOfFile)
    ensures ScriptLines(script) + rest != []
    ensures ParsedChunk(ScriptLines(script) + rest, lineNumber, allowMissing)
         == Ok((ChunkOf(script), |ScriptLines(script)|))
  {
    hide ChunkBody, EditLines, OldLines, NewLines, MarkerLine, Marker;
    var eof := if script.endOfFile then [END_OF_FILE] else [];
    var lines := ScriptLines(script) + rest;
    ScriptParts(script, rest);
    MarkerReadsContext(script.context);
    EditLinesLength(script.edits);
    BodyReadsEdits(script.edits, eof + rest, UpdateChunk(script.context, [], [], false), 0, lineNumber);
    assert [] + OldLines(script.edits) == OldLines(script.edits);
    assert [] + NewLines(script.edits) == NewLines(script.edits);
    BodyEnds(script, rest, Extended(UpdateChunk(script.context, [], [], false), script.edits), |script.edits|, lineNumber);
  }

  lemma ScriptParts(script: Script, rest: seq<string>)
    ensures var eof := if script.endOfFile then [END_OF_FILE] else [];
      var lines := ScriptLines(script) + rest;
      && |ScriptLines(script)| == 1 + |EditLines(script.edits)| + |eof|
      && lines != [] && lines[0] == MarkerLine(script.context)
      && lines[1..] == EditLines(script.edits) + (eof + rest)
  {
    hide EditLines, MarkerLine;
  }

  lemma BodyEnds(script: Script, rest: seq<string>, chunk: UpdateChunk, parsed: nat, lineNumber: nat)
    requires parsed > 0 && (rest == [] || Stops(rest[0]) || script.endOfFile)
    ensures var eof := if script.endOfFile then [END_OF_FILE] else [];
      ChunkBody(eof + rest, chunk, parsed, lineNumber)
      == Ok(if script.endOfFile then (chunk.(endOfFile := true), parsed + 1) else (chunk, parsed))
  {
    if script.endOfFile {
      assert ([END_OF_FILE] + rest)[0] == END_OF_FILE;
    } else {
      EmptyUnit(rest);
    }
  }

  lemma {:induction false} NotBlank(s: string)
    requires s != "" && !IsSpace(s[0])
    ensures !Blank(s)
  {
    if IsSpace(s[|s| - 1]) {
      NotBlank(s[..|s| - 1]);
    }
  }

  lemma MarkerLineShape(context: string)
    ensures var line := MarkerLine(context); Stops(line) && !Ends(line) && !Blank(line)
    ensures OneLine(context) ==> OneLine(MarkerLine(context))
  {
    var line := MarkerLine(context);
    assert line[0] == '@';
    NotBlank(line);
    PrefixAgrees(line, "***", 0);
  }

  /** What may follow the chunks of an update: nothing, or the next header. */
  predicate HeaderOrEnd(rest: seq<string>) {
    rest == [] || (Stops(rest[0]) && Ends(rest[0]) && !Blank(rest[0]))
  }

  lemma ChunksReadOne(script: Script, tail: seq<string>, done: seq<UpdateChunk>, parsed: nat, lineNumber: nat)
    requires script.edits != [] && (tail == [] || Stops(tail[0]))
    ensures Chunks(ScriptLines(script) + tail, done, parsed, lineNumber)
         == Chunks(tail, done + [ChunkOf(script)], parsed + |ScriptLines(script)|, lineNumber)
  {
    hide ParsedChunk, ScriptLines, Stops, Ends, Blank, ChunkOf;
    var lines := ScriptLines(script) + tail;
    FirstScriptLine(script);
    assert lines[0] == ScriptLines(script)[0];
    ChunkReadsScript(script, tail, lineNumber + parsed, done == []);
    assert lines[|ScriptLines(script)|..] == tail;
  }

  lemma ScriptsStop(scripts: seq<Script>, rest: seq<string>)
    requires HeaderOrEnd(rest)
    ensures var tail := ScriptsLines(scripts) + rest; tail == [] || Stops(tail[0])
  {
    hide ScriptLines, Stops, Ends, Blank;
    if scripts == [] {
      assert ScriptsLines(scripts) + rest == rest;
    } else {
      FirstScriptLine(scripts[0]);
    }
  }

  lemma {:induction false} ChunksReadScripts(
    scripts: seq<Script>, rest: seq<string>, done: seq<UpdateChunk>, parsed: nat, lineNumber: nat)
    requires forall i :: 0 <= i < |scripts| ==> scripts[i].edits != []
    requires HeaderOrEnd(rest)
    ensures Chunks(ScriptsLines(scripts) + rest, done, parsed, lineNumber)
         == Ok((done + ChunksOf(scripts), parsed + |ScriptsLines(scripts)|))
    decreases |scripts|
  {
    hide *;
    if scripts == [] {
      ChunksStop(rest, done, parsed, lineNumber);
    } else {
      var chunk, first, others := ChunkOf(scripts[0]), ScriptLines(scripts[0]), ScriptsLines(scripts[1..]);
      ScriptsUnfold(scripts, rest, done);
      ScriptsStop(scripts[1..], rest);
      ChunksReadOne(scripts[0], others + rest, done, parsed, lineNumber);
      ChunksReadScripts(scripts[1..], rest, done + [chunk], parsed + |first|, lineNumber);
    }
  }

  lemma ChunksStop(rest: seq<string>, done: seq<UpdateChunk>, parsed: nat, lineNumber: nat)
    requires HeaderOrEnd(rest)
    ensures Chunks(ScriptsLines([]) + rest, done, parsed, lineNumber)
         == Ok((done + ChunksOf([]), parsed + |ScriptsLines([])|))
  {
    hide Stops, Ends, Blank;
    EmptyUnit(rest);
    EmptyUnit(done);
  }

  lemma ScriptsUnfold(scripts: seq<Script>, rest: seq<string>, done: seq<UpdateChunk>)
    requires scripts != []
    ensures |ScriptsLines(scripts)| == |ScriptLines(scripts[0])| + |ScriptsLines(scripts[1..])|
    ensures ScriptsLines(scripts) + rest == ScriptLines(scripts[0]) + (ScriptsLines(scripts[1..]) + rest)
    ensures done + ChunksOf(scripts) == (done + [ChunkOf(scripts[0])]) + ChunksOf(scripts[1..])
  {
    hide ScriptLines, ChunkOf;
    Associative(ScriptLines(scripts[0]), ScriptsLines(scripts[1..]), rest);
    Associative(done, [ChunkOf(scripts[0])], ChunksOf(scripts[1..]));
  }

  lemma FirstScriptLine(script: Script)
    ensures |ScriptLines(script)| > 0
    ensures var line := ScriptLines(script)[0]; Stops(line) && !Ends(line) && !Blank(line) && !HasPrefix(line, MOVE_TO)
  {
    MarkerLineShape(script.context);
    var line := MarkerLine(script.context);
    assert ScriptLines(script)[0] == line;
    PrefixAgrees(line, MOVE_TO, 0);
  }

  // ----- sections -----

  lemma {:induction false} PlusRunReads(lines: seq<string>, rest: seq<string>)
    requires rest == [] || !HasPrefix(rest[0], "+")
    ensures PlusRun(PlusLines(lines) + rest) == lines
    ensures |PlusLines(lines)| == |lines|
  {
    if lines == [] {
      assert PlusLines(lines) + rest == rest;
    } else {
      PlusRunReads(lines[1..], rest);
      var first := "+" + lines[0];
      var all := PlusLines(lines) + rest;
      assert first[..1] == "+" && first[1..] == lines[0];
      Associative([first], PlusLines(lines[1..]), rest);
      DropLeft([first], PlusLines(lines[1..]) + rest);
      assert all[0] == first;
      assert [lines[0]] + lines[1..] == lines;
    }
  }

  lemma HeaderShape(marker: string, path: string)
    requires marker == ADD_FILE || marker == DELETE_FILE || marker == UPDATE_FILE
    requires PathOk(path)
    ensures var line := marker + path;
      && TrimSpace(line) == line
      && Stops(line) && Ends(line) && !Blank(line) && !HasPrefix(line, "+")
      && CutPrefix(line, ADD_FILE) == (if marker == ADD_FILE then Some(path) else None)
      && CutPrefix(line, DELETE_FILE) == (if marker == DELETE_FILE then Some(path) else None)
      && CutPrefix(line, UPDATE_FILE) == (if marker == UPDATE_FILE then Some(path) else None)
  {
    var line := marker + path;
    TrimSpaceKeeps(line);
    assert line[..3] == "***";
    assert line[..|marker|] == marker && line[|marker|..] == path;
    assert marker[4] == line[4];
    PrefixAgrees(line, "+", 0);
    PrefixAgrees(line, ADD_FILE, 4);
    PrefixAgrees(line, DELETE_FILE, 4);
    PrefixAgrees(line, UPDATE_FILE, 4);
    assert END_OF_FILE[4] == 'E';
  }

  lemma HunkReadsSection(section: Section, rest: seq<string>, lineNumber: nat)
    requires SectionOk(section) && HeaderOrEnd(rest)
    ensures SectionLines(section) + rest != []
    ensures ParsedHunk(SectionLines(section) + rest, lineNumber) == Ok((HunkOf(section), |SectionLines(section)|))
  {
    hide TrimSpace, Stops, Ends, Blank, CutPrefix, Chunks, PlusRun, PathOk;
    match section
    case AddSection(path, added) =>
      HeaderShape(ADD_FILE, path);
      HeaderIsNoPlusLine(rest);
      PlusRunReads(added, rest);
      Associative([ADD_FILE + path], PlusLines(added), rest);
      DropLeft([ADD_FILE + path], PlusLines(added) + rest);
      assert (SectionLines(section) + rest)[0] == ADD_FILE + path;
    case DeleteSection(path) =>
      HeaderShape(DELETE_FILE, path);
      assert (SectionLines(section) + rest)[0] == DELETE_FILE + path;
    case UpdateSection(path, movedTo, scripts) =>
      HeaderShape(UPDATE_FILE, path);
      assert (SectionLines(section) + rest)[0] == UPDATE_FILE + path;
      UpdateReadsSection(path, movedTo, scripts, rest, lineNumber);
  }

  lemma HeaderIsNoPlusLine(rest: seq<string>)
    requires HeaderOrEnd(rest)
    ensures rest == [] || !HasPrefix(rest[0], "+")
  {
    if rest != [] {
      PrefixAgrees(rest[0], "+", 0);
    }
  }

  lemma {:induction false} ChunksOfLength(scripts: seq<Script>)
    ensures |ChunksOf(scripts)| == |scripts|
  {
    if scripts != [] {
      ChunksOfLength(scripts[1..]);
    }
  }

  lemma UpdateReadsSection(path: string, movedTo: string, scripts: seq<Script>, rest: seq<string>, lineNumber: nat)
    requires SectionOk(UpdateSection(path, movedTo, scripts)) && HeaderOrEnd(rest)
    ensures var section := UpdateSection(path, movedTo, scripts);
      && SectionLines(section) + rest != []
      && ParsedUpdate(path, SectionLines(section) + rest, lineNumber) == Ok((HunkOf(section), |SectionLines(section)|))
  {
    hide Stops, Ends, Blank, Chunks, PathOk, ScriptLines, ParsedUpdate, ScriptsLines, ChunksOf;
    var body := ScriptsLines(scripts) + rest;
    var move := if movedTo == "" then [] else [MOVE_TO + movedTo];
    assert SectionLines(UpdateSection(path, movedTo, scripts)) + rest == [UPDATE_FILE + path] + move + body;
    BodyHasNoMove(scripts, rest);
    ChunksOfLength(scripts);
    assert forall i :: 0 <= i < |scripts| ==> ScriptOk(scripts[i]);
    ChunksReadScripts(scripts, rest, [], 1 + |move|, lineNumber);
    assert [] + ChunksOf(scripts) == ChunksOf(scripts);
    UpdateReads(path, movedTo, body, ChunksOf(scripts), 1 + |move| + |ScriptsLines(scripts)|, lineNumber);
  }

  lemma BodyHasNoMove(scripts: seq<Script>, rest: seq<string>)
    requires scripts != []
    ensures var body := ScriptsLines(scripts) + rest; body != [] && !HasPrefix(body[0], MOVE_TO)
  {
    hide ScriptLines, HasPrefix;
    FirstScriptLine(scripts[0]);
    assert (ScriptsLines(scripts) + rest)[0] == ScriptLines(scripts[0])[0];
  }

  /** The header and the optional move line in front of the chunks. */
  lemma UpdateReads(path: string, movedTo: string, body: seq<string>, chunks: seq<UpdateChunk>, parsed: nat, lineNumber: nat)
    requires body != [] && !HasPrefix(body[0], MOVE_TO) && chunks != []
    requires var k := if movedTo == "" then 1 else 2;
      Chunks(body, [], k, lineNumber) == Ok((chunks, parsed))
    ensures var move := if movedTo == "" then [] else [MOVE_TO + movedTo];
      ParsedUpdate(path, [UPDATE_FILE + path] + move + body, lineNumber) == Ok((UpdateFile(path, movedTo, chunks), parsed))
  {
    hide Chunks, HasPrefix;
    if movedTo == "" {
      UpdateHeader(UPDATE_FILE + path, [], body);
    } else {
      MoveTargetReads(movedTo, body);
      UpdateHeader(UPDATE_FILE + path, [MOVE_TO + movedTo], body);
    }
  }

  lemma UpdateHeader(header: string, move: seq<string>, body: seq<string>)
    ensures ([header] + move + body)[1..] == move + body
    ensures ([header] + move + body)[1 + |move|..] == body
    ensures move == [] ==> move + body == body
  {
  }

  lemma MoveTargetReads(movedTo: string, body: seq<string>)
    ensures MoveTarget([MOVE_TO + movedTo] + body) == Some(movedTo)
  {
    var move := MOVE_TO + movedTo;
    assert move[..|MOVE_TO|] == MOVE_TO && move[|MOVE_TO|..] == movedTo;
  }

  lemma SectionHeader(section: Section)
    requires SectionOk(section)
    ensures SectionLines(section) != []
    ensures var line := SectionLines(section)[0]; Stops(line) && Ends(line) && !Blank(line)
  {
    hide Stops, Ends, Blank, PathOk, ScriptsLines, PlusLines, CutPrefix;
    match section
    case AddSection(path, _) => HeaderShape(ADD_FILE, path);
    case DeleteSection(path) => HeaderShape(DELETE_FILE, path);
    case UpdateSection(path, _, _) => HeaderShape(UPDATE_FILE, path);
  }

  lemma SectionsStartWithHeader(sections: seq<Section>)
    requires forall i :: 0 <= i < |sections| ==> SectionOk(sections[i])
    ensures HeaderOrEnd(SectionsLines(sections))
  {
    hide Stops, Ends, Blank, SectionLines, SectionOk;
    if sections != [] {
      SectionHeader(sections[0]);
      assert SectionsLines(sections)[0] == SectionLines(sections[0])[0];
    }
  }

  lemma {:induction false} HunksReadSections(sections: seq<Section>, lineNumber: nat)
    requires forall i :: 0 <= i < |sections| ==> SectionOk(sections[i])
    ensures ParsedHunks(SectionsLines(sections), lineNumber) == Ok(HunksOf(sections))
    decreases |sections|
  {
    hide ParsedHunk, SectionLines, SectionOk, HeaderOrEnd;
    if sections != [] {
      var rest := SectionsLines(sections[1..]);
      var consumed := |SectionLines(sections[0])|;
      assert SectionsLines(sections)[consumed..] == rest;
      SectionsStartWithHeader(sections[1..]);
      HunkReadsSection(sections[0], rest, lineNumber);
      HunksReadSections(sections[1..], lineNumber + consumed);
    }
  }

  // ----- every line is one line -----

  predicate AllOneLine(lines: seq<string>) {
    forall i :: 0 <= i < |lines| ==> OneLine(lines[i])
  }

  lemma {:induction false} EditLinesAreLines(edits: seq<Edit>)
    requires forall i :: 0 <= i < |edits| ==> OneLine(edits[i].text)
    ensures AllOneLine(EditLines(edits))
  {
    if edits != [] {
      assert OneLine(edits[0].text);
      EditLinesAreLines(edits[1..]);
    }
  }

  lemma {:induction false} ScriptsLinesAreLines(scripts: seq<Script>)
    requires forall i :: 0 <= i < |scripts| ==> ScriptOk(scripts[i])
    ensures AllOneLine(ScriptsLines(scripts))
  {
    if scripts != [] {
      assert ScriptOk(scripts[0]);
      EditLinesAreLines(scripts[0].edits);
      MarkerLineShape(scripts[0].context);
      assert AllOneLine(ScriptLines(scripts[0]));
      ScriptsLinesAreLines(scripts[1..]);
    }
  }

  lemma {:induction false} PlusLinesAreLines(lines: seq<string>)
    requires AllOneLine(lines)
    ensures AllOneLine(PlusLines(lines))
  {
    if lines != [] {
      assert OneLine(lines[0]);
      PlusLinesAreLines(lines[1..]);
    }
  }

  lemma SectionLinesAreLines(section: Section)
    requires SectionOk(section)
    ensures AllOneLine(SectionLines(section))
  {
    hide ScriptsLines, PlusLines, ScriptOk;
    match section
    case AddSection(path, lines) => PlusLinesAreLines(lines);
    case DeleteSection(path) =>
    case UpdateSection(path, movedTo, scripts) => ScriptsLinesAreLines(scripts);
  }

  lemma {:induction false} SectionsLinesAreLines(sections: seq<Section>)
    requires forall i :: 0 <= i < |sections| ==> SectionOk(sections[i])
    ensures AllOneLine(SectionsLines(sections))
  {
    hide SectionLines, SectionOk;
    if sections != [] {
      assert SectionOk(sections[0]);
      SectionLinesAreLines(sections[0]);
      SectionsLinesAreLines(sections[1..]);
    }
  }

  // ----- the whole patch -----

  /** A body between a first and a last line that are the markers, give or take white space. */
  lemma FramedBody(first: string, body: seq<string>, last: string)
    requires TrimSpace(first) == BEGIN_PATCH && TrimSpace(last) == END_PATCH
    ensures var lines := [first] + body + [last];
      Boundaries(lines) == None && lines[1..|lines| - 1] == body && PatchBodyLines(lines) == Ok(lines)
  {
    hide TrimSpace;
  }

  lemma PatchLinesParse(sections: seq<Section>)
    requires sections != [] && forall i :: 0 <= i < |sections| ==> SectionOk(sections[i])
    ensures Boundaries(PatchLines(sections)) == None
    ensures ParsedLines(PatchLines(sections)) == Ok(HunksOf(sections))
  {
    hide SectionsLines, ParsedHunks, SectionOk, TrimSpace, PatchBodyLines, Boundaries;
    MarkersAreTrimmed();
    FramedBody(BEGIN_PATCH, SectionsLines(sections), END_PATCH);
    HunksReadSections(sections, 2);
  }

  lemma MarkersAreTrimmed()
    ensures TrimSpace(BEGIN_PATCH) == BEGIN_PATCH && TrimSpace(END_PATCH) == END_PATCH
  {
    TrimSpaceKeeps(BEGIN_PATCH);
    TrimSpaceKeeps(END_PATCH);
  }

  lemma PrintedShape(lines: seq<string>)
    requires lines != [] && lines[0] != "" && lines[|lines| - 1] != ""
    ensures var text := JoinLines(lines);
      text != "" && text[0] == lines[0][0]
      && text[|text| - 1] == lines[|lines| - 1][|lines[|lines| - 1]| - 1]
  {
    if |lines| > 1 {
      JoinLast(lines);
    }
  }

  lemma {:induction false} JoinLast(lines: seq<string>)
    requires lines != [] && lines[|lines| - 1] != ""
    ensures var text := JoinLines(lines);
      text != "" && text[|text| - 1] == lines[|lines| - 1][|lines[|lines| - 1]| - 1]
  {
    if |lines| > 1 {
      JoinLast(lines[1..]);
      assert lines[1..][|lines| - 2] == lines[|lines| - 1];
    }
  }

  /** Parsing a printed patch gives back exactly the hunks the sections stand for: paths, move
      targets, file contents, and for each edit script its old and new lines. */
  lemma ParseUndoesPrint(sections: seq<Section>)
    requires sections != [] && forall i :: 0 <= i < |sections| ==> SectionOk(sections[i])
    ensures ParsedPatch(Printed(sections)) == Ok(HunksOf(sections))
  {
    hide SectionOk, ParsedLines, TrimSpace, SplitLines, HunksOf, Printed, PatchLines;
    PrintedText(sections);
    PatchLinesParse(sections);
  }

  lemma PrintedText(sections: seq<Section>)
    requires forall i :: 0 <= i < |sections| ==> SectionOk(sections[i])
    ensures SplitLines(TrimSpace(Printed(sections))) == PatchLines(sections)
  {
    hide SectionsLines, SectionOk, TrimSpace, SplitLines, JoinLines;
    var lines := PatchLines(sections);
    SectionsLinesAreLines(sections);
    PatchLinesAreLines(SectionsLines(sections));
    SplitJoin(lines);
    PrintedShape(lines);
    TrimSpaceKeeps(Printed(sections));
  }

  lemma PatchLinesAreLines(body: seq<string>)
    requires AllOneLine(body)
    ensures var lines := [BEGIN_PATCH] + body + [END_PATCH];
      AllOneLine(lines) && lines[0][0] == '*' && lines[|lines| - 1][|lines[|lines| - 1]| - 1] == 'h'
  {
  }

  predicate OpensHeredoc(line: string) {
    TrimSpace(line) == "<<EOF" || TrimSpace(line) == "<<'EOF'" || TrimSpace(line) == "<<\"EOF\""
  }

  predicate ClosesHeredoc(line: string) {
    HasSuffix(TrimSpace(line), "EOF")
  }

  /** Wrapping lines that start and end as a patch in a here-document changes nothing, whether
      they parse or not. */
  lemma HeredocIsTransparent(opening: string, inner: seq<string>, closing: string)
    requires OpensHeredoc(opening) && ClosesHeredoc(closing) && Boundaries(inner) == None
    ensures ParsedLines([opening] + inner + [closing]) == ParsedLines(inner)
  {
    hide ParsedHunks, TrimSpace;
    var lines := [opening] + inner + [closing];
    assert lines[0] == opening && lines[|lines| - 1] == closing;
    assert TrimSpace(opening)[0] != BEGIN_PATCH[0];
    assert BEGIN_PATCH[4] != END_PATCH[4];
    assert lines[1..|lines| - 1] == inner;
  }
}
