/** The language of patches as it is accepted, with all its leniencies: which lines write which
    hunks, which lines are refused, and with which error. */
module PatchLayout {
  import opened Seqs
  import opened Text
  import opened Wrappers
  import opened Replace
  import opened PatchGrammar

  // ----- one chunk -----

  /** A line of a chunk: an empty one, or one with a sign. */
  predicate BodyLine(line: string) {
    line == "" || line[0] in " +-"
  }

  /** The texts of the lines with the given signs; an empty line is an empty context line. */
  function Signed(lines: seq<string>, signs: string): seq<string> {
    if lines == [] then []
    else
      (if lines[0] == "" then [""] else if lines[0][0] in signs then [lines[0][1..]] else []) + Signed(lines[1..], signs)
  }

  predicate Marked(line: string) {
    line == "@@" || HasPrefix(line, "@@ ")
  }

  function MarkerLines(lines: seq<string>): nat
    requires lines != []
  {
    if Marked(lines[0]) then 1 else 0
  }

  function ContextOf(line: string): string {
    if HasPrefix(line, "@@ ") then line[3..] else ""
  }

  /** The first `k` of the lines write the chunk: a context marker, which only the first chunk of
      an update may lack, lines with signs, at least one and as many as there are, and perhaps an
      end-of-file mark. */
  predicate ChunkLaid(lines: seq<string>, chunk: UpdateChunk, k: nat, first: bool) {
    && 1 <= k <= |lines|
    && var m, e := MarkerLines(lines), if chunk.endOfFile then 1 else 0;
    && (first || m == 1)
    && chunk.changeContext == ContextOf(lines[0])
    && m + e < k
    && (forall i :: m <= i < k - e ==> BodyLine(lines[i]))
    && chunk.oldLines == Signed(lines[m..k - e], " -")
    && chunk.newLines == Signed(lines[m..k - e], " +")
    && (if chunk.endOfFile then lines[k - 1] == "*** End of File"
        else k < |lines| ==> !BodyLine(lines[k]) && lines[k] != "*** End of File")
  }

  /** Why lines, of which the first has number `n`, do not start with a chunk. */
  predicate ChunkFails(lines: seq<string>, n: nat, first: bool, error: ParseError) {
    if lines == [] then error == NoLines(n)
    else
      var m := MarkerLines(lines);
      if m == 0 && !first then error == ExpectedContextMarker(n)
      else if m == |lines| || lines[m] == "*** End of File" then error == NoLines(n + 1)
      else !BodyLine(lines[m]) && error == UnexpectedLine(n + 1)
  }

  /** How many lines of a chunk there are at the head. */
  function BodyRun(lines: seq<string>): (m: nat)
    ensures m <= |lines| && (forall i :: 0 <= i < m ==> BodyLine(lines[i])) && (m < |lines| ==> !BodyLine(lines[m]))
  {
    if lines == [] || !BodyLine(lines[0]) then 0 else 1 + BodyRun(lines[1..])
  }

  function Grown(chunk: UpdateChunk, lines: seq<string>): UpdateChunk {
    chunk.(oldLines := chunk.oldLines + Signed(lines, " -"), newLines := chunk.newLines + Signed(lines, " +"))
  }

  lemma GrownStep(chunk: UpdateChunk, line: string, rest: seq<string>)
    requires BodyLine(line)
    ensures Grown(chunk, [line] + rest) ==
      Grown(if line == "" then Kept(chunk, "") else if line[0] == ' ' then Kept(chunk, line[1..])
            else if line[0] == '+' then Inserted(chunk, line[1..]) else Dropped(chunk, line[1..]), rest)
  {
    assert ([line] + rest)[1..] == rest;
    var text := if line == "" then "" else line[1..];
    Associative(chunk.oldLines, [text], Signed(rest, " -"));
    Associative(chunk.newLines, [text], Signed(rest, " +"));
    EmptyUnit(Signed(rest, " -"));
    EmptyUnit(Signed(rest, " +"));
  }

  lemma {:induction false} BodyMeans(lines: seq<string>, chunk: UpdateChunk, parsed: nat, n: nat)
    ensures var m := BodyRun(lines);
      var grown := Grown(chunk, lines[..m]);
      ChunkBody(lines, chunk, parsed, n) ==
        if m == |lines| then Ok((grown, parsed + m))
        else if lines[m] == END_OF_FILE then
          (if parsed + m == 0 then Err(NoLines(n + 1)) else Ok((grown.(endOfFile := true), parsed + m + 1)))
        else if parsed + m == 0 then Err(UnexpectedLine(n + 1))
        else Ok((grown, parsed + m))
    decreases |lines|
  {
    hide Grown;
    if lines == [] || !BodyLine(lines[0]) {
      GrownByNothing(chunk, lines);
    } else {
      var line, rest := lines[0], lines[1..];
      var next := if line == "" then Kept(chunk, "") else if line[0] == ' ' then Kept(chunk, line[1..])
                  else if line[0] == '+' then Inserted(chunk, line[1..]) else Dropped(chunk, line[1..]);
      BodyMeans(rest, next, parsed + 1, n);
      GrownStep(chunk, line, rest[..BodyRun(rest)]);
      assert lines[..BodyRun(lines)] == [line] + rest[..BodyRun(rest)];
    }
  }

  lemma GrownByNothing(chunk: UpdateChunk, lines: seq<string>)
    ensures Grown(chunk, lines[..0]) == chunk
  {
    EmptyUnit(chunk.oldLines);
    EmptyUnit(chunk.newLines);
  }

  lemma MarkerIs(line: string)
    ensures Marker(line).Some? <==> Marked(line)
    ensures ContextOf(line) == match Marker(line) case Some(context) => context case None => ""
  {
  }

  /** What the parser reads behind the marker. */
  function Reading(lines: seq<string>): (UpdateChunk, nat)
    requires lines != []
  {
    var m := MarkerLines(lines);
    var run := BodyRun(lines[m..]);
    var mark := m + run < |lines| && lines[m + run] == END_OF_FILE;
    (UpdateChunk(ContextOf(lines[0]), Signed(lines[m..m + run], " -"), Signed(lines[m..m + run], " +"), mark),
     if mark then m + run + 1 else m + run)
  }

  lemma ParsedChunkMeans(lines: seq<string>, n: nat, first: bool)
    ensures ParsedChunk(lines, n, first).Ok? <==>
      lines != [] && (first || Marked(lines[0])) && BodyRun(lines[MarkerLines(lines)..]) > 0
    ensures ParsedChunk(lines, n, first).Ok? ==> ParsedChunk(lines, n, first) == Ok(Reading(lines))
    ensures ParsedChunk(lines, n, first).Err? ==> ChunkFails(lines, n, first, ParsedChunk(lines, n, first).error)
  {
    hide ChunkBody, Signed, Marker, Marked, ContextOf, BodyRun;
    if lines != [] {
      var m := MarkerLines(lines);
      MarkerIs(lines[0]);
      BodyMeans(lines[m..], UpdateChunk(ContextOf(lines[0]), [], [], false), 0, n);
      var run := BodyRun(lines[m..]);
      assert lines[m..][..run] == lines[m..m + run];
      EmptyUnit(Signed(lines[m..m + run], " -"));
      EmptyUnit(Signed(lines[m..m + run], " +"));
    }
  }

  lemma LaidIsReading(lines: seq<string>, chunk: UpdateChunk, k: nat, first: bool)
    ensures ChunkLaid(lines, chunk, k, first) <==>
      && lines != [] && (first || Marked(lines[0])) && BodyRun(lines[MarkerLines(lines)..]) > 0
      && (chunk, k) == Reading(lines)
  {
    hide ChunkLaid, Reading, Marked, BodyRun;
    if ChunkLaid(lines, chunk, k, first) {
      LaidReads(lines, chunk, k, first);
    }
    if lines != [] && (first || Marked(lines[0])) && BodyRun(lines[MarkerLines(lines)..]) > 0 {
      ReadingLays(lines, first);
    }
  }

  lemma LaidReads(lines: seq<string>, chunk: UpdateChunk, k: nat, first: bool)
    requires ChunkLaid(lines, chunk, k, first)
    ensures lines != [] && (first || Marked(lines[0])) && BodyRun(lines[MarkerLines(lines)..]) > 0
    ensures (chunk, k) == Reading(lines)
  {
    hide Signed, Marked, ContextOf, BodyRun, BodyLine;
    RunEnds(lines, chunk, k, first);
  }

  lemma RunInside(lines: seq<string>, m: nat)
    requires m <= |lines|
    ensures var end := m + BodyRun(lines[m..]);
      && end <= |lines| && (forall i :: m <= i < end ==> BodyLine(lines[i])) && (end < |lines| ==> !BodyLine(lines[end]))
  {
    hide BodyLine;
    var run := BodyRun(lines[m..]);
    forall i | m <= i < m + run
      ensures BodyLine(lines[i])
    {
      assert lines[i] == lines[m..][i - m];
    }
  }

  lemma ReadingLays(lines: seq<string>, first: bool)
    requires lines != [] && (first || Marked(lines[0])) && BodyRun(lines[MarkerLines(lines)..]) > 0
    ensures var (chunk, k) := Reading(lines); ChunkLaid(lines, chunk, k, first)
  {
    hide Signed, Marked, ContextOf, BodyRun, BodyLine;
    var m := MarkerLines(lines);
    var end := m + BodyRun(lines[m..]);
    var (chunk, k) := Reading(lines);
    RunInside(lines, m);
    assert k - (if chunk.endOfFile then 1 else 0) == end;
  }

  lemma RunEnds(lines: seq<string>, chunk: UpdateChunk, k: nat, first: bool)
    requires ChunkLaid(lines, chunk, k, first)
    ensures var m, e := MarkerLines(lines), if chunk.endOfFile then 1 else 0; BodyRun(lines[m..]) == k - e - m
    ensures var e := if chunk.endOfFile then 1 else 0; k - e < |lines| ==> !BodyLine(lines[k - e])
  {
    hide Signed, Marked, ContextOf;
    var m, e := MarkerLines(lines), if chunk.endOfFile then 1 else 0;
    var body := lines[m..];
    assert forall i :: 0 <= i < |body| ==> body[i] == lines[m + i];
    RunIs(body, k - e - m);
  }

  lemma {:induction false} RunIs(lines: seq<string>, m: nat)
    requires m <= |lines| && (forall i :: 0 <= i < m ==> BodyLine(lines[i])) && (m < |lines| ==> !BodyLine(lines[m]))
    ensures BodyRun(lines) == m
  {
    if m > 0 {
      RunIs(lines[1..], m - 1);
    }
  }

  /** A chunk is read exactly where one is written, and it is the one that is written there. */
  lemma ParsedChunkIff(lines: seq<string>, n: nat, first: bool, chunk: UpdateChunk, k: nat)
    ensures ParsedChunk(lines, n, first) == Ok((chunk, k)) <==> ChunkLaid(lines, chunk, k, first)
  {
    hide ParsedChunk, ChunkLaid, Reading;
    ParsedChunkMeans(lines, n, first);
    LaidIsReading(lines, chunk, k, first);
  }

  /** And refused exactly for the reason told. */
  lemma ParsedChunkFailsIff(lines: seq<string>, n: nat, first: bool, error: ParseError)
    ensures ParsedChunk(lines, n, first) == Err(error) <==> ChunkFails(lines, n, first, error)
  {
    hide ParsedChunk, Reading;
    ParsedChunkMeans(lines, n, first);
  }

  // ----- the chunks of an update -----

  /** The first `p` of the lines write the chunks, with white lines between them. */
  ghost predicate ChunksLaid(lines: seq<string>, chunks: seq<UpdateChunk>, p: nat, first: bool)
    decreases p
  {
    && p <= |lines|
    && if p == 0 then chunks == []
       else if Blank(lines[0]) then ChunksLaid(lines[1..], chunks, p - 1, first)
       else
         && chunks != [] && !Ends(lines[0])
         && exists k :: 1 <= k <= p && ChunkLaid(lines, chunks[0], k, first) && ChunksLaid(lines[k..], chunks[1..], p - k, false)
  }

  /** There the chunks are over: at the end of the lines, or at the next header. */
  predicate Over(lines: seq<string>, p: nat) {
    p <= |lines| && (p < |lines| ==> !Blank(lines[p]) && Ends(lines[p]))
  }

  /** Behind some chunks the lines do not go on with another one. */
  ghost predicate ChunksFail(lines: seq<string>, n: nat, error: ParseError) {
    exists chunks, p :: ChunksLaid(lines, chunks, p, true) && FailsBehind(lines, chunks, p, n, error)
  }

  predicate FailsBehind(lines: seq<string>, chunks: seq<UpdateChunk>, p: nat, n: nat, error: ParseError) {
    p < |lines| && !Blank(lines[p]) && !Ends(lines[p]) && ChunkFails(lines[p..], n + p, chunks == [], error)
  }

  lemma LaidBehindBlank(lines: seq<string>, chunks: seq<UpdateChunk>, p: nat, first: bool)
    requires lines != [] && Blank(lines[0])
    ensures ChunksLaid(lines, chunks, p + 1, first) <==> ChunksLaid(lines[1..], chunks, p, first)
  {
    hide Blank, ChunkLaid;
  }

  lemma LaidBehindChunk(lines: seq<string>, chunk: UpdateChunk, k: nat, chunks: seq<UpdateChunk>, p: nat, first: bool)
    requires lines != [] && !Blank(lines[0]) && !Ends(lines[0]) && ChunkLaid(lines, chunk, k, first)
    requires 1 <= k <= |lines| && ChunksLaid(lines[k..], chunks, p, false)
    ensures ChunksLaid(lines, [chunk] + chunks, k + p, first)
  {
    hide Blank, ChunkLaid, Ends;
    var all := [chunk] + chunks;
    assert all[0] == chunk && all[1..] == chunks;
    assert ChunkLaid(lines, all[0], k, first) && ChunksLaid(lines[k..], all[1..], k + p - k, false);
  }

  lemma NoneLaid(lines: seq<string>, first: bool)
    ensures ChunksLaid(lines, [], 0, first)
  {
  }

  /** How the parser's result on the rest of the lines tells its result on all of them. */
  predicate Traced(result: Result<(seq<UpdateChunk>, nat), ParseError>, lines: seq<string>, done: seq<UpdateChunk>,
                   chunks: seq<UpdateChunk>, p: nat, parsed: nat, n: nat) {
    match result
    case Ok((all, end)) => all == done + chunks && end == parsed + p && Over(lines, p)
    case Err(error) => FailsBehind(lines, done + chunks, p, n + parsed, error)
  }

  lemma TraceShifts(result: Result<(seq<UpdateChunk>, nat), ParseError>, lines: seq<string>, k: nat,
                    done: seq<UpdateChunk>, more: seq<UpdateChunk>, chunks: seq<UpdateChunk>, p: nat, parsed: nat, n: nat)
    requires k <= |lines| && Traced(result, lines[k..], done + more, chunks, p, parsed + k, n)
    ensures Traced(result, lines, done, more + chunks, k + p, parsed, n)
  {
    hide Blank, Ends, ChunkFails;
    Associative(done, more, chunks);
    if k + p < |lines| {
      assert lines[k..][p] == lines[k + p] && lines[k..][p..] == lines[k + p..];
    }
  }

  /** What the parser makes of the lines, in terms of what is written there. */
  lemma {:induction false} ChunksTrace(lines: seq<string>, done: seq<UpdateChunk>, parsed: nat, n: nat)
    returns (chunks: seq<UpdateChunk>, p: nat)
    ensures ChunksLaid(lines, chunks, p, done == [])
    ensures Traced(Chunks(lines, done, parsed, n), lines, done, chunks, p, parsed, n)
    decreases |lines|
  {
    hide ParsedChunk, ChunkLaid, ChunksLaid, Blank, Ends, ChunkFails;
    if lines != [] && Blank(lines[0]) {
      hide Traced;
      EmptyUnit(done);
      chunks, p := ChunksTrace(lines[1..], done, parsed + 1, n);
      LaidBehindBlank(lines, chunks, p, done == []);
      TraceShifts(Chunks(lines, done, parsed, n), lines, 1, done, [], chunks, p, parsed, n);
      EmptyUnit(chunks);
      p := 1 + p;
    } else if lines == [] || Ends(lines[0]) {
      chunks, p := [], 0;
      NoneLaid(lines, done == []);
      EmptyUnit(done);
    } else {
      match ParsedChunk(lines, n + parsed, done == [])
      case Err(error) =>
        chunks, p := [], 0;
        NoneLaid(lines, done == []);
        EmptyUnit(done);
        ParsedChunkFailsIff(lines, n + parsed, done == [], error);
        assert lines[0..] == lines;
      case Ok((chunk, k)) =>
        hide Traced;
        ParsedChunkIff(lines, n + parsed, done == [], chunk, k);
        chunks, p := ChunksTrace(lines[k..], done + [chunk], parsed + k, n);
        LaidBehindChunk(lines, chunk, k, chunks, p, done == []);
        TraceShifts(Chunks(lines, done, parsed, n), lines, k, done, [chunk], chunks, p, parsed, n);
        chunks, p := [chunk] + chunks, k + p;
    }
  }

  lemma FirstLaid(lines: seq<string>, chunks: seq<UpdateChunk>, p: nat, first: bool) returns (k: nat)
    requires ChunksLaid(lines, chunks, p, first) && p > 0 && !Blank(lines[0])
    ensures chunks != [] && !Ends(lines[0]) && 1 <= k <= p <= |lines|
    ensures ChunkLaid(lines, chunks[0], k, first) && ChunksLaid(lines[k..], chunks[1..], p - k, false)
    ensures (chunks[0], k) == Reading(lines)
  {
    hide Blank, ChunkLaid, Ends;
    k :| 1 <= k <= p && ChunkLaid(lines, chunks[0], k, first) && ChunksLaid(lines[k..], chunks[1..], p - k, false);
    LaidIsReading(lines, chunks[0], k, first);
  }

  /** At `p` the chunks are over, or no chunk goes on. */
  ghost predicate Halts(lines: seq<string>, p: nat, first: bool) {
    && p <= |lines|
    && (p < |lines| ==> !Blank(lines[p]) && (Ends(lines[p]) || forall chunk, k :: !ChunkLaid(lines[p..], chunk, k, first)))
  }

  /** Lines write at most one list of chunks up to where they are over or go wrong. */
  lemma {:induction false} LaidOnce(lines: seq<string>, a: seq<UpdateChunk>, p: nat, b: seq<UpdateChunk>, q: nat, first: bool)
    requires ChunksLaid(lines, a, p, first) && ChunksLaid(lines, b, q, first)
    requires Halts(lines, p, first && a == []) && Halts(lines, q, first && b == [])
    ensures a == b && p == q
    decreases p
  {
    hide Blank, ChunkLaid, ChunksLaid, Ends, Halts, Reading;
    LaidInside(lines, a, p, first);
    if lines == [] || p == 0 || q == 0 {
      HaltsAtOnce(lines, a, p, b, q, first);
    } else if Blank(lines[0]) {
      LaidBehindBlank(lines, a, p - 1, first);
      LaidBehindBlank(lines, b, q - 1, first);
      HaltsShift(lines, p, first && a == [], 1);
      HaltsShift(lines, q, first && b == [], 1);
      LaidOnce(lines[1..], a, p - 1, b, q - 1, first);
    } else {
      var k := FirstLaid(lines, a, p, first);
      var j := FirstLaid(lines, b, q, first);
      HaltsShift(lines, p, false, k);
      HaltsShift(lines, q, false, k);
      LaidOnce(lines[k..], a[1..], p - k, b[1..], q - k, false);
      assert a == [a[0]] + a[1..] && b == [b[0]] + b[1..];
    }
  }

  lemma LaidInside(lines: seq<string>, chunks: seq<UpdateChunk>, p: nat, first: bool)
    requires ChunksLaid(lines, chunks, p, first)
    ensures p <= |lines|
  {
  }

  lemma HaltsShift(lines: seq<string>, p: nat, first: bool, k: nat)
    requires Halts(lines, p, first) && k <= p
    ensures Halts(lines[k..], p - k, first)
  {
    hide Blank, ChunkLaid, Ends;
    assert lines[k..][p - k..] == lines[p..];
  }

  lemma HaltsAtOnce(lines: seq<string>, a: seq<UpdateChunk>, p: nat, b: seq<UpdateChunk>, q: nat, first: bool)
    requires ChunksLaid(lines, a, p, first) && ChunksLaid(lines, b, q, first) && (lines == [] || p == 0 || q == 0)
    requires Halts(lines, p, first && a == []) && Halts(lines, q, first && b == [])
    ensures a == b && p == q
  {
    hide Blank, ChunkLaid, Ends;
    assert lines[0..] == lines;
  }

  lemma OverHalts(lines: seq<string>, p: nat, first: bool)
    requires Over(lines, p)
    ensures Halts(lines, p, first)
  {
    hide Blank, Ends, ChunkLaid;
  }

  lemma FailureHalts(lines: seq<string>, chunks: seq<UpdateChunk>, p: nat, n: nat, error: ParseError)
    requires FailsBehind(lines, chunks, p, n, error)
    ensures Halts(lines, p, chunks == []) && !Over(lines, p)
    ensures ParsedChunk(lines[p..], n + p, chunks == []) == Err(error)
  {
    hide Blank, Ends, ChunkLaid, ParsedChunk, ChunkFails;
    var rest, first := lines[p..], chunks == [];
    ParsedChunkFailsIff(rest, n + p, first, error);
    forall chunk, k {
      NotLaid(rest, n + p, first, chunk, k);
    }
  }

  lemma NotLaid(lines: seq<string>, n: nat, first: bool, chunk: UpdateChunk, k: nat)
    requires ParsedChunk(lines, n, first).Err?
    ensures !ChunkLaid(lines, chunk, k, first)
  {
    hide ParsedChunk, ChunkLaid;
    ParsedChunkIff(lines, n, first, chunk, k);
  }

  /** The chunks that are read are those that are written, up to the end or the next header. */
  lemma ChunksIff(lines: seq<string>, parsed: nat, n: nat, chunks: seq<UpdateChunk>, p: nat)
    ensures Chunks(lines, [], parsed, n) == Ok((chunks, parsed + p)) <==> ChunksLaid(lines, chunks, p, true) && Over(lines, p)
  {
    hide Chunks, ChunksLaid, Over, FailsBehind, Halts, ParsedChunk;
    var own, q := ChunksTrace(lines, [], parsed, n);
    EmptyUnit(own);
    if ChunksLaid(lines, chunks, p, true) && Over(lines, p) {
      OverHalts(lines, p, chunks == []);
      match Chunks(lines, [], parsed, n)
      case Ok(_) =>
        OverHalts(lines, q, own == []);
        LaidOnce(lines, chunks, p, own, q, true);
      case Err(error) =>
        FailureHalts(lines, own, q, n + parsed, error);
        LaidOnce(lines, chunks, p, own, q, true);
    }
  }

  /** They are refused exactly when, behind those that are written, no other one goes on. */
  lemma ChunksFailIff(lines: seq<string>, parsed: nat, n: nat, error: ParseError)
    ensures Chunks(lines, [], parsed, n) == Err(error) <==> ChunksFail(lines, n + parsed, error)
  {
    hide Chunks, ChunksLaid, Over, FailsBehind, Halts, ParsedChunk;
    var own, q := ChunksTrace(lines, [], parsed, n);
    EmptyUnit(own);
    if ChunksFail(lines, n + parsed, error) {
      var chunks, p :| ChunksLaid(lines, chunks, p, true) && FailsBehind(lines, chunks, p, n + parsed, error);
      FailureHalts(lines, chunks, p, n + parsed, error);
      match Chunks(lines, [], parsed, n)
      case Ok(_) =>
        OverHalts(lines, q, own == []);
        LaidOnce(lines, chunks, p, own, q, true);
      case Err(other) =>
        FailureHalts(lines, own, q, n + parsed, other);
        LaidOnce(lines, chunks, p, own, q, true);
    }
  }

  // ----- one hunk -----

  /** The header of an update, and the line of its move if it has one. */
  function HeaderLines(lines: seq<string>): nat
    requires lines != []
    ensures HeaderLines(lines) <= |lines|
  {
    if |lines| > 1 && HasPrefix(lines[1], "*** Move to: ") then 2 else 1
  }

  /** The first `k` of the lines write the hunk; white space around its header does not count. */
  ghost predicate HunkLaid(lines: seq<string>, hunk: Hunk, k: nat) {
    && 1 <= k <= |lines|
    && match hunk
       case AddFile(path, contents) =>
         && TrimSpace(lines[0]) == "*** Add File: " + path
         && (forall i :: 1 <= i < k ==> HasPrefix(lines[i], "+"))
         && (k < |lines| ==> !HasPrefix(lines[k], "+"))
         && contents == Terminated(Signed(lines[1..k], "+"))
       case DeleteFile(path) => TrimSpace(lines[0]) == "*** Delete File: " + path && k == 1
       case UpdateFile(path, movedTo, chunks) =>
         && TrimSpace(lines[0]) == "*** Update File: " + path
         && var m := HeaderLines(lines);
            && m <= k && chunks != []
            && movedTo == (if m == 2 then lines[1][13..] else "")
            && ChunksLaid(lines[m..], chunks, k - m, true) && Over(lines[m..], k - m)
  }

  /** Only blank lines follow, up to the end or the next header. */
  ghost predicate NoChunk(lines: seq<string>) {
    exists p :: ChunksLaid(lines, [], p, true) && Over(lines, p)
  }

  /** Why lines, of which the first has number `n`, do not start with a hunk. */
  ghost predicate HunkFails(lines: seq<string>, n: nat, error: ParseError)
    requires lines != []
  {
    if HasPrefix(TrimSpace(lines[0]), "*** Update File: ") then
      var m := HeaderLines(lines);
      ChunksFail(lines[m..], n + m, error) || (error == EmptyUpdate(n) && NoChunk(lines[m..]))
    else
      && !HasPrefix(TrimSpace(lines[0]), "*** Add File: ") && !HasPrefix(TrimSpace(lines[0]), "*** Delete File: ")
      && error == NotAHeader(n)
  }

  lemma CutIff(s: string, prefix: string, rest: string)
    ensures CutPrefix(s, prefix) == Some(rest) <==> s == prefix + rest
    ensures CutPrefix(s, prefix).Some? <==> HasPrefix(s, prefix)
  {
  }

  /** A header is of one kind. */
  lemma HeadersDiffer(header: string)
    ensures !(HasPrefix(header, ADD_FILE) && HasPrefix(header, DELETE_FILE))
    ensures !(HasPrefix(header, ADD_FILE) && HasPrefix(header, UPDATE_FILE))
    ensures !(HasPrefix(header, DELETE_FILE) && HasPrefix(header, UPDATE_FILE))
  {
    if |header| > 4 {
      assert HasPrefix(header, ADD_FILE) ==> header[4] == ADD_FILE[4] == 'A';
      assert HasPrefix(header, DELETE_FILE) ==> header[4] == DELETE_FILE[4] == 'D';
      assert HasPrefix(header, UPDATE_FILE) ==> header[4] == UPDATE_FILE[4] == 'U';
    }
  }

  lemma {:induction false} PlusRunMeans(lines: seq<string>)
    ensures var k := |PlusRun(lines)|;
      && (forall i :: 0 <= i < k ==> HasPrefix(lines[i], "+"))
      && (k < |lines| ==> !HasPrefix(lines[k], "+"))
      && PlusRun(lines) == Signed(lines[..k], "+")
  {
    if lines != [] && HasPrefix(lines[0], "+") {
      var rest := lines[1..];
      PlusRunMeans(rest);
      var k := |PlusRun(rest)|;
      assert lines[..k + 1][1..] == rest[..k];
      assert lines[0][0] == '+';
    }
  }

  lemma AddIff(lines: seq<string>, path: string, contents: string, k: nat)
    requires lines != []
    ensures HunkLaid(lines, AddFile(path, contents), k) <==>
      && CutPrefix(TrimSpace(lines[0]), ADD_FILE) == Some(path)
      && var added := PlusRun(lines[1..]); contents == Terminated(added) && k == 1 + |added|
  {
    hide Signed, TrimSpace, HasPrefix, Terminated;
    CutIff(TrimSpace(lines[0]), ADD_FILE, path);
    PlusRunMeans(lines[1..]);
    var n := |PlusRun(lines[1..])|;
    assert lines[1..][..n] == lines[1..1 + n];
    assert forall i :: 1 <= i < |lines| ==> lines[i] == lines[1..][i - 1];
    if HunkLaid(lines, AddFile(path, contents), k) {
      PlusRunIs(lines[1..], k - 1);
    }
  }

  lemma {:induction false} PlusRunIs(lines: seq<string>, k: nat)
    requires k <= |lines| && (forall i :: 0 <= i < k ==> HasPrefix(lines[i], "+")) && (k < |lines| ==> !HasPrefix(lines[k], "+"))
    ensures |PlusRun(lines)| == k
  {
    hide HasPrefix;
    if k > 0 {
      assert HasPrefix(lines[0], "+");
      PlusRunIs(lines[1..], k - 1);
    }
  }

  lemma UpdateIff(lines: seq<string>, n: nat, path: string, hunk: Hunk, k: nat)
    requires lines != [] && CutPrefix(TrimSpace(lines[0]), UPDATE_FILE) == Some(path)
    ensures ParsedUpdate(path, lines, n) == Ok((hunk, k)) <==> hunk.UpdateFile? && HunkLaid(lines, hunk, k)
  {
    hide TrimSpace, ChunksLaid, Chunks, Over;
    var m := HeaderLines(lines);
    HeaderMeans(lines);
    CutIff(TrimSpace(lines[0]), UPDATE_FILE, path);
    if hunk.UpdateFile? {
      CutIff(TrimSpace(lines[0]), UPDATE_FILE, hunk.path);
      if m <= k {
        ChunksIff(lines[m..], m, n, hunk.chunks, k - m);
      }
    }
  }

  lemma HeaderMeans(lines: seq<string>)
    requires lines != []
    ensures MoveTarget(lines[1..]).Some? <==> HeaderLines(lines) == 2
    ensures HeaderLines(lines) == 2 ==> MoveTarget(lines[1..]) == Some(lines[1][13..])
  {
  }

  lemma UpdateFailsIff(lines: seq<string>, n: nat, path: string, error: ParseError)
    requires lines != [] && CutPrefix(TrimSpace(lines[0]), UPDATE_FILE) == Some(path)
    ensures ParsedUpdate(path, lines, n) == Err(error) <==> HunkFails(lines, n, error)
  {
    hide TrimSpace, ChunksLaid, Chunks, Over, ChunksFail;
    var m := HeaderLines(lines);
    HeaderMeans(lines);
    CutIff(TrimSpace(lines[0]), UPDATE_FILE, path);
    ChunksFailIff(lines[m..], m, n, error);
    NoChunkIff(lines[m..], m, n);
  }

  lemma NoChunkIff(lines: seq<string>, parsed: nat, n: nat)
    ensures NoChunk(lines) <==> Chunks(lines, [], parsed, n).Ok? && Chunks(lines, [], parsed, n).value.0 == []
  {
    hide ChunksLaid, Chunks, Over;
    var result := Chunks(lines, [], parsed, n);
    if result.Ok? && result.value.0 == [] {
      ChunksIff(lines, parsed, n, [], result.value.1 - parsed);
    }
    if p :| ChunksLaid(lines, [], p, true) && Over(lines, p) {
      ChunksIff(lines, parsed, n, [], p);
    }
  }

  /** The kind of hunk that is written is the kind of its header. */
  lemma KindOf(lines: seq<string>, hunk: Hunk, k: nat)
    requires lines != [] && HunkLaid(lines, hunk, k)
    ensures var header := TrimSpace(lines[0]);
      && (hunk.AddFile? ==> HasPrefix(header, ADD_FILE))
      && (hunk.DeleteFile? ==> HasPrefix(header, DELETE_FILE) && k == 1 && CutPrefix(header, DELETE_FILE) == Some(hunk.path))
      && (hunk.UpdateFile? ==> HasPrefix(header, UPDATE_FILE))
  {
    hide TrimSpace, ChunksLaid, Over, Signed, HasPrefix;
    CutIff(TrimSpace(lines[0]), ADD_FILE, hunk.path);
    CutIff(TrimSpace(lines[0]), DELETE_FILE, hunk.path);
    CutIff(TrimSpace(lines[0]), UPDATE_FILE, hunk.path);
  }

  lemma DeleteLaid(lines: seq<string>, path: string)
    requires lines != [] && CutPrefix(TrimSpace(lines[0]), DELETE_FILE) == Some(path)
    ensures HunkLaid(lines, DeleteFile(path), 1)
  {
    hide TrimSpace;
    CutIff(TrimSpace(lines[0]), DELETE_FILE, path);
  }

  /** A hunk is read exactly where one is written, and it is the one that is written there. */
  lemma ParsedHunkIff(lines: seq<string>, n: nat, hunk: Hunk, k: nat)
    requires lines != []
    ensures ParsedHunk(lines, n) == Ok((hunk, k)) <==> HunkLaid(lines, hunk, k)
  {
    hide TrimSpace, PlusRun, ParsedUpdate, HasPrefix, CutPrefix, HunkLaid;
    var header := TrimSpace(lines[0]);
    HeadersDiffer(header);
    CutIff(header, ADD_FILE, "");
    CutIff(header, DELETE_FILE, "");
    CutIff(header, UPDATE_FILE, "");
    if HunkLaid(lines, hunk, k) {
      KindOf(lines, hunk, k);
    }
    if HasPrefix(header, ADD_FILE) {
      if hunk.AddFile? {
        AddIff(lines, hunk.path, hunk.contents, k);
      }
    } else if HasPrefix(header, DELETE_FILE) {
      DeleteLaid(lines, CutPrefix(header, DELETE_FILE).value);
    } else if HasPrefix(header, UPDATE_FILE) {
      UpdateIff(lines, n, CutPrefix(header, UPDATE_FILE).value, hunk, k);
    }
  }

  /** And refused exactly for the reason told. */
  lemma ParsedHunkFailsIff(lines: seq<string>, n: nat, error: ParseError)
    requires lines != []
    ensures ParsedHunk(lines, n) == Err(error) <==> HunkFails(lines, n, error)
  {
    hide TrimSpace, PlusRun, ParsedUpdate, HasPrefix, CutPrefix;
    var header := TrimSpace(lines[0]);
    HeadersDiffer(header);
    CutIff(header, ADD_FILE, "");
    CutIff(header, DELETE_FILE, "");
    CutIff(header, UPDATE_FILE, "");
    if HasPrefix(header, UPDATE_FILE) {
      UpdateFailsIff(lines, n, CutPrefix(header, UPDATE_FILE).value, error);
    }
  }

  // ----- a whole patch -----

  /** The lines write the hunks, one behind the other. */
  ghost predicate HunksLaid(lines: seq<string>, hunks: seq<Hunk>)
    decreases |lines|
  {
    if lines == [] then hunks == []
    else hunks != [] && exists k :: 1 <= k <= |lines| && HunkLaid(lines, hunks[0], k) && HunksLaid(lines[k..], hunks[1..])
  }

  /** Behind some hunks the lines do not go on with another one. */
  ghost predicate HunksFail(lines: seq<string>, n: nat, error: ParseError)
    decreases |lines|
  {
    && lines != []
    && (|| HunkFails(lines, n, error)
        || exists hunk, k :: 1 <= k <= |lines| && HunkLaid(lines, hunk, k) && HunksFail(lines[k..], n + k, error))
  }

  lemma {:induction false} ParsedHunksIff(lines: seq<string>, n: nat, hunks: seq<Hunk>)
    ensures ParsedHunks(lines, n) == Ok(hunks) <==> HunksLaid(lines, hunks)
    decreases |lines|
  {
    hide ParsedHunk, HunkLaid;
    if lines != [] {
      if ParsedHunks(lines, n) == Ok(hunks) {
        var (hunk, k) := ParsedHunk(lines, n).value;
        ParsedHunkIff(lines, n, hunk, k);
        ParsedHunksIff(lines[k..], n + k, hunks[1..]);
      }
      if HunksLaid(lines, hunks) {
        var k :| 1 <= k <= |lines| && HunkLaid(lines, hunks[0], k) && HunksLaid(lines[k..], hunks[1..]);
        ParsedHunkIff(lines, n, hunks[0], k);
        ParsedHunksIff(lines[k..], n + k, hunks[1..]);
        assert hunks == [hunks[0]] + hunks[1..];
      }
    }
  }

  lemma {:induction false} ParsedHunksFailIff(lines: seq<string>, n: nat, error: ParseError)
    ensures ParsedHunks(lines, n) == Err(error) <==> HunksFail(lines, n, error)
    decreases |lines|
  {
    hide ParsedHunk, HunkLaid, HunkFails;
    if lines != [] {
      ParsedHunkFailsIff(lines, n, error);
      if ParsedHunk(lines, n).Ok? {
        var (hunk, k) := ParsedHunk(lines, n).value;
        ParsedHunkIff(lines, n, hunk, k);
        ParsedHunksFailIff(lines[k..], n + k, error);
      }
      if hunk, k :| 1 <= k <= |lines| && HunkLaid(lines, hunk, k) && HunksFail(lines[k..], n + k, error) {
        ParsedHunkIff(lines, n, hunk, k);
        ParsedHunksFailIff(lines[k..], n + k, error);
      }
    }
  }

  predicate Begins(lines: seq<string>) {
    lines != [] && TrimSpace(lines[0]) == "*** Begin Patch"
  }

  predicate Finishes(lines: seq<string>) {
    lines != [] && TrimSpace(lines[|lines| - 1]) == "*** End Patch"
  }

  /** The lines of a here-document. */
  predicate Wrapped(lines: seq<string>) {
    && |lines| >= 4
    && TrimSpace(lines[0]) in ["<<EOF", "<<'EOF'", "<<\"EOF\""]
    && HasSuffix(TrimSpace(lines[|lines| - 1]), "EOF")
  }

  function Unwrapped(lines: seq<string>): seq<string> {
    if !(Begins(lines) && Finishes(lines)) && Wrapped(lines) then lines[1..|lines| - 1] else lines
  }

  lemma UnwrappedIs(lines: seq<string>)
    ensures var inner := Unwrapped(lines);
      PatchBodyLines(lines) ==
        if !Begins(inner) then Err(MissingBegin) else if !Finishes(inner) then Err(MissingEnd) else Ok(inner)
  {
    hide TrimSpace, HasSuffix;
  }

  lemma FramesDiffer(lines: seq<string>)
    requires Begins(lines) && Finishes(lines)
    ensures |lines| >= 2
  {
    hide TrimSpace;
    assert "*** Begin Patch" != "*** End Patch";
  }

  /** Which patches are accepted, and as which hunks: inside a here-document or not, a first and a
      last line that say so, and between them at least one hunk. */
  lemma PatchIff(patch: string, hunks: seq<Hunk>)
    ensures var inner := Unwrapped(SplitLines(TrimSpace(patch)));
      ParsedPatch(patch) == Ok(hunks) <==>
        Begins(inner) && Finishes(inner) && |inner| > 2 && HunksLaid(inner[1..|inner| - 1], hunks)
  {
    hide TrimSpace, SplitLines, Begins, Finishes, Unwrapped, PatchBodyLines, HunksLaid, ParsedHunks;
    var lines := SplitLines(TrimSpace(patch));
    var inner := Unwrapped(lines);
    UnwrappedIs(lines);
    if Begins(inner) && Finishes(inner) {
      FramesDiffer(inner);
      ParsedHunksIff(inner[1..|inner| - 1], 2, hunks);
      SomeHunk(inner[1..|inner| - 1], 2);
    }
  }

  lemma SomeHunk(lines: seq<string>, n: nat)
    ensures ParsedHunks(lines, n) == Ok([]) <==> lines == []
  {
    hide ParsedHunk;
  }

  /** And with which error the others are refused. */
  lemma PatchFailsIff(patch: string, error: ParseError)
    ensures var inner := Unwrapped(SplitLines(TrimSpace(patch)));
      ParsedPatch(patch) == Err(error) <==>
        if !Begins(inner) then error == MissingBegin
        else if !Finishes(inner) then error == MissingEnd
        else |inner| >= 2 && (if |inner| == 2 then error == NoFilesModified else HunksFail(inner[1..|inner| - 1], 2, error))
  {
    hide TrimSpace, SplitLines, Begins, Finishes, Unwrapped, PatchBodyLines, HunksFail, ParsedHunks;
    var lines := SplitLines(TrimSpace(patch));
    var inner := Unwrapped(lines);
    UnwrappedIs(lines);
    if Begins(inner) && Finishes(inner) {
      FramesDiffer(inner);
      ParsedHunksFailIff(inner[1..|inner| - 1], 2, error);
      SomeHunk(inner[1..|inner| - 1], 2);
    }
  }
}
