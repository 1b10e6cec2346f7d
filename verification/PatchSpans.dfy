/** How the parser divides a patch: every body line belongs to exactly one hunk, and a hunk
    is decided by its own lines alone. */
module PatchSpans {
  import opened Text
  import opened Wrappers
  import opened Replace
  import opened PatchGrammar

  lemma CutOfTail(lines: seq<string>, m: nat, k: nat)
    requires k <= m <= |lines|
    ensures lines[..m][k..] == lines[k..][..m - k]
  {
  }

  /** Cutting the lines anywhere behind the end of a chunk body does not change it. */
  lemma {:induction false} BodyIsLocal(lines: seq<string>, m: nat, chunk: UpdateChunk, parsed: nat, lineNumber: nat)
    requires ChunkBody(lines, chunk, parsed, lineNumber).Ok?
    requires ChunkBody(lines, chunk, parsed, lineNumber).value.1 - parsed <= m <= |lines|
    ensures ChunkBody(lines[..m], chunk, parsed, lineNumber) == ChunkBody(lines, chunk, parsed, lineNumber)
    decreases |lines|
  {
    if m > 0 {
      var line := lines[0];
      assert lines[..m][0] == line;
      CutOfTail(lines, m, 1);
      if line != END_OF_FILE {
        if line == "" {
          BodyIsLocal(lines[1..], m - 1, Kept(chunk, ""), parsed + 1, lineNumber);
        } else if line[0] == ' ' {
          BodyIsLocal(lines[1..], m - 1, Kept(chunk, line[1..]), parsed + 1, lineNumber);
        } else if line[0] == '+' {
          BodyIsLocal(lines[1..], m - 1, Inserted(chunk, line[1..]), parsed + 1, lineNumber);
        } else if line[0] == '-' {
          BodyIsLocal(lines[1..], m - 1, Dropped(chunk, line[1..]), parsed + 1, lineNumber);
        }
      }
    }
  }

  lemma ChunkIsLocal(lines: seq<string>, m: nat, lineNumber: nat, allowMissing: bool)
    requires lines != [] && ParsedChunk(lines, lineNumber, allowMissing).Ok?
    requires ParsedChunk(lines, lineNumber, allowMissing).value.1 <= m <= |lines|
    ensures ParsedChunk(lines[..m], lineNumber, allowMissing) == ParsedChunk(lines, lineNumber, allowMissing)
  {
    hide ChunkBody;
    var marker := Marker(lines[0]);
    var start := if marker.Some? then 1 else 0;
    var context := if marker.Some? then marker.value else "";
    assert lines[..m][0] == lines[0];
    CutOfTail(lines, m, start);
    BodyIsLocal(lines[start..], m - start, UpdateChunk(context, [], [], false), 0, lineNumber);
  }

  lemma {:induction false} ChunksAreLocal(lines: seq<string>, done: seq<UpdateChunk>, parsed: nat, lineNumber: nat)
    requires Chunks(lines, done, parsed, lineNumber).Ok?
    ensures var r := Chunks(lines, done, parsed, lineNumber);
      Chunks(lines[..r.value.1 - parsed], done, parsed, lineNumber) == r
    decreases |lines|
  {
    hide ParsedChunk, Blank, Ends;
    var m := Chunks(lines, done, parsed, lineNumber).value.1 - parsed;
    if m > 0 {
      assert lines[..m][0] == lines[0];
      if Blank(lines[0]) {
        CutOfTail(lines, m, 1);
        ChunksAreLocal(lines[1..], done, parsed + 1, lineNumber);
      } else {
        var (chunk, consumed) := ParsedChunk(lines, lineNumber + parsed, done == []).value;
        CutOfTail(lines, m, consumed);
        ChunkIsLocal(lines, m, lineNumber + parsed, done == []);
        ChunksAreLocal(lines[consumed..], done + [chunk], parsed + consumed, lineNumber);
      }
    }
  }

  lemma {:induction false} PlusRunIsLocal(lines: seq<string>)
    ensures PlusRun(lines[..|PlusRun(lines)|]) == PlusRun(lines)
  {
    if PlusRun(lines) != [] {
      PlusRunIsLocal(lines[1..]);
      CutOfTail(lines, |PlusRun(lines)|, 1);
    }
  }

  lemma UpdateIsLocal(path: string, lines: seq<string>, lineNumber: nat)
    requires lines != [] && ParsedUpdate(path, lines, lineNumber).Ok?
    ensures var r := ParsedUpdate(path, lines, lineNumber);
      ParsedUpdate(path, lines[..r.value.1], lineNumber) == r
  {
    hide Chunks, HasPrefix;
    var k := ParsedUpdate(path, lines, lineNumber).value.1;
    var first := if MoveTarget(lines[1..]).Some? then 2 else 1;
    SomeChunkConsumed(lines[first..], first, lineNumber);
    ChunksAreLocal(lines[first..], [], first, lineNumber);
    CutOfTail(lines, k, 1);
    CutOfTail(lines, k, first);
  }

  /** An update with chunks has lines behind its header. */
  lemma SomeChunkConsumed(lines: seq<string>, parsed: nat, lineNumber: nat)
    requires Chunks(lines, [], parsed, lineNumber).Ok? && Chunks(lines, [], parsed, lineNumber).value.0 != []
    ensures Chunks(lines, [], parsed, lineNumber).value.1 > parsed
  {
  }

  lemma HunkIsLocal(lines: seq<string>, lineNumber: nat)
    requires lines != [] && ParsedHunk(lines, lineNumber).Ok?
    ensures var r := ParsedHunk(lines, lineNumber);
      ParsedHunk(lines[..r.value.1], lineNumber) == r
  {
    hide PlusRun, ParsedUpdate, TrimSpace, HasPrefix;
    var header := TrimSpace(lines[0]);
    var k := ParsedHunk(lines, lineNumber).value.1;
    assert lines[..k][0] == lines[0];
    if CutPrefix(header, ADD_FILE).Some? {
      CutOfTail(lines, k, 1);
      PlusRunIsLocal(lines[1..]);
    } else if CutPrefix(header, DELETE_FILE).None? {
      UpdateIsLocal(CutPrefix(header, UPDATE_FILE).value, lines, lineNumber);
    }
  }

  /** A stretch of consecutive body lines and the number of its first line. */
  datatype Span = Span(lineNumber: nat, lines: seq<string>)

  function Spans(lines: seq<string>, lineNumber: nat): seq<Span>
    decreases |lines|
  {
    if lines == [] || ParsedHunk(lines, lineNumber).Err? then []
    else
      var consumed := ParsedHunk(lines, lineNumber).value.1;
      [Span(lineNumber, lines[..consumed])] + Spans(lines[consumed..], lineNumber + consumed)
  }

  function Flattened(spans: seq<Span>): seq<string> {
    if spans == [] then [] else spans[0].lines + Flattened(spans[1..])
  }

  /** A patch that parses is cut into one span per hunk; together the spans are exactly the
      body, and each span parses, on its own, to its hunk and nothing more. */
  lemma {:induction false} EveryLineInExactlyOneHunk(lines: seq<string>, lineNumber: nat)
    requires ParsedHunks(lines, lineNumber).Ok?
    ensures var hunks, spans := ParsedHunks(lines, lineNumber).value, Spans(lines, lineNumber);
      && |spans| == |hunks|
      && Flattened(spans) == lines
      && forall i :: 0 <= i < |spans| ==>
           && spans[i].lines != []
           && ParsedHunk(spans[i].lines, spans[i].lineNumber) == Ok((hunks[i], |spans[i].lines|))
    decreases |lines|
  {
    hide ParsedHunk;
    if lines != [] {
      var (hunk, consumed) := ParsedHunk(lines, lineNumber).value;
      var rest := lines[consumed..];
      EveryLineInExactlyOneHunk(rest, lineNumber + consumed);
      HunkIsLocal(lines, lineNumber);
      var spans := Spans(lines, lineNumber);
      assert spans[1..] == Spans(rest, lineNumber + consumed);
      assert lines[..consumed] + rest == lines;
    }
  }
}
