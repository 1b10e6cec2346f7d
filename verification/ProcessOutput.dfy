/** Output plumbing of one managed process: the locked collection buffer that tool calls
    drain, and the live deltas sent while output arrives. */
module ProcessOutput {
  import opened HeadTail
  import opened Numbers
  import opened Seqs

  const UNIFIED_EXEC_OUTPUT_MAX_BYTES: nat := 0x10_0000
  const EXEC_OUTPUT_DELTA_MAX_BYTES: nat := 8192
  const MAX_EXEC_OUTPUT_DELTAS_PER_CALL: nat := 10_000

  lemma {:induction false} ConcatAppend(chunks: seq<seq<Byte>>, last: seq<Byte>)
    ensures Concat(chunks + [last]) == Concat(chunks) + last
    decreases |chunks|
  {
    if chunks == [] {
      assert [last][1..] == [];
    } else {
      assert (chunks + [last])[1..] == chunks[1..] + [last];
      ConcatAppend(chunks[1..], last);
    }
  }

  function Lengths(chunks: seq<seq<Byte>>): nat {
    if chunks == [] then 0 else |chunks[0]| + Lengths(chunks[1..])
  }

  lemma {:induction false} ConcatLength(chunks: seq<seq<Byte>>)
    ensures |Concat(chunks)| == Lengths(chunks)
  {
    if chunks != [] {
      ConcatLength(chunks[1..]);
    }
  }

  /** The buffer shared by the process and the tool calls that read it. `drains` are the
      streams handed out so far, `written` is everything the process ever wrote. */
  class SynchronizedBuffer {
    var data: HeadTailBuffer?
    ghost var written: seq<Byte>
    ghost var drains: seq<seq<Byte>>

    ghost function Undrained(): seq<Byte>
      reads this, data
    {
      if data == null then [] else data.stream
    }

    /** Drains partition the output: nothing is lost, repeated or reordered. */
    ghost predicate Valid()
      reads this, data
    {
      && (data != null ==> data.Valid() && data.maxBytes == UNIFIED_EXEC_OUTPUT_MAX_BYTES)
      && written == Concat(drains) + Undrained()
    }

    constructor ()
      ensures Valid() && written == [] && drains == [] && data == null
    {
      data, written, drains := null, [], [];
    }

    method Write(bytes: seq<Byte>)
      requires Valid()
      modifies this, data
      ensures Valid() && written == old(written) + bytes && drains == old(drains)
      ensures data == old(data) || fresh(data)
    {
      if data == null {
        data := new HeadTailBuffer(UNIFIED_EXEC_OUTPUT_MAX_BYTES);
      }
      hide Window, Concat;
      Associative(Concat(drains), data.stream, bytes);
      data.PushChunk(bytes);
      written := written + bytes;
    }

    /** Hands out what has been collected and starts over. */
    method Drain() returns (collected: HeadTailBuffer)
      requires Valid()
      modifies this
      ensures Valid() && written == old(written) && Undrained() == []
      ensures collected.Valid() && collected.maxBytes == 1024 * 1024
      ensures collected.stream == old(Undrained())
      ensures drains == old(drains) + [collected.stream]
      ensures Concat(drains) == written
      ensures collected != data
    {
      ConcatAppend(drains, Undrained());
      drains := drains + [Undrained()];
      if data == null {
        collected := new HeadTailBuffer(UNIFIED_EXEC_OUTPUT_MAX_BYTES);
        return;
      }
      collected := data;
      data := new HeadTailBuffer(UNIFIED_EXEC_OUTPUT_MAX_BYTES);
    }

    /** What one tool call reports: the drained stream under the call's own limit. */
    method Collect(outputLimit: int) returns (output: seq<Byte>, total: nat, omitted: nat)
      requires Valid()
      modifies this
      ensures Valid() && written == old(written) && Undrained() == []
      ensures drains == old(drains) + [old(Undrained())]
      ensures total == |old(Undrained())|
      ensures var limit: nat := if outputLimit < 0 then 0 else if outputLimit < 1024 * 1024 then outputLimit else 1024 * 1024;
        var v := Window(limit, old(Undrained()));
        output == Rendered(v) && omitted == v.omitted
    {
      hide Window, Rendered, Decimal, Denotes, Concat;
      var collected := Drain();
      var limited := collected.WithLimit(outputLimit);
      total := limited.TotalBytes();
      omitted := limited.omittedBytes;
      output := limited.BytesWithOmissionMarker();
      assert output == Rendered(limited.Contents());
    }
  }

  /** The totals reported by successive drains add up to what was written between the
      first and the last of them. */
  lemma DrainTotalsAddUp(drains: seq<seq<Byte>>, written: seq<Byte>)
    requires Concat(drains) == written
    ensures Lengths(drains) == |written|
  {
    ConcatLength(drains);
  }

  // ----- live deltas -----

  datatype Stream = Stdout | Stderr

  datatype Delta = Delta(stream: Stream, chunk: seq<Byte>)

  /** The bytes of one stream among the deltas sent, in order. */
  function BytesOf(stream: Stream, sent: seq<Delta>): seq<Byte> {
    if sent == [] then []
    else
      var last := sent[|sent| - 1];
      BytesOf(stream, sent[..|sent| - 1]) + (if last.stream == stream then last.chunk else [])
  }

  lemma BytesOfAppend(stream: Stream, sent: seq<Delta>, delta: Delta)
    ensures BytesOf(stream, sent + [delta])
            == BytesOf(stream, sent) + (if delta.stream == stream then delta.chunk else [])
  {
    assert (sent + [delta])[..|sent|] == sent;
  }

  function Other(stream: Stream): Stream {
    if stream == Stdout then Stderr else Stdout
  }

  ghost predicate WellCut(sent: seq<Delta>) {
    && |sent| <= MAX_EXEC_OUTPUT_DELTAS_PER_CALL
    && forall i :: 0 <= i < |sent| ==> 1 <= |sent[i].chunk| <= EXEC_OUTPUT_DELTA_MAX_BYTES
  }

  lemma WithinBudget(sent: seq<Delta>)
    requires WellCut(sent)
    ensures |sent| <= MAX_EXEC_OUTPUT_DELTAS_PER_CALL
  {
  }

  lemma WellCutAppend(sent: seq<Delta>, delta: Delta)
    requires WellCut(sent) && |sent| < MAX_EXEC_OUTPUT_DELTAS_PER_CALL
    requires 1 <= |delta.chunk| <= EXEC_OUTPUT_DELTA_MAX_BYTES
    ensures WellCut(sent + [delta])
  {
  }

  /** The deltas from `first` on are pieces of one stream of 8192 bytes each, but for the last one,
      which may be shorter. */
  predicate FullPieces(sent: seq<Delta>, first: nat, stream: Stream) {
    forall i :: first <= i < |sent| ==>
      sent[i].stream == stream && (|sent[i].chunk| == 8192 || (i == |sent| - 1 && 0 < |sent[i].chunk| < 8192))
  }

  predicate NoShortPiece(sent: seq<Delta>, first: nat) {
    forall i :: first <= i < |sent| ==> |sent[i].chunk| == 8192
  }

  lemma NothingCut(sent: seq<Delta>, stream: Stream)
    ensures FullPieces(sent, |sent|, stream) && NoShortPiece(sent, |sent|)
  {
  }

  lemma FullPiecesAppend(sent: seq<Delta>, first: nat, stream: Stream, piece: seq<Byte>)
    requires first <= |sent| && FullPieces(sent, first, stream) && NoShortPiece(sent, first) && 0 < |piece| <= 8192
    ensures FullPieces(sent + [Delta(stream, piece)], first, stream)
    ensures |piece| == 8192 ==> NoShortPiece(sent + [Delta(stream, piece)], first)
  {
  }

  /** Sends output to the client as it arrives. `sent` is what was emitted; `fed` is what
      the process wrote to each stream. */
  class DeltaEmitter {
    var emittedDeltas: nat
    var sent: seq<Delta>
    ghost var fed: map<Stream, seq<Byte>>

    ghost predicate Valid()
      reads this
    {
      && emittedDeltas == |sent|
      && WellCut(sent)
      && Stdout in fed && Stderr in fed
      && BytesOf(Stdout, sent) <= fed[Stdout]
      && BytesOf(Stderr, sent) <= fed[Stderr]
      && (emittedDeltas < MAX_EXEC_OUTPUT_DELTAS_PER_CALL ==>
          BytesOf(Stdout, sent) == fed[Stdout] && BytesOf(Stderr, sent) == fed[Stderr])
    }

    constructor ()
      ensures Valid() && sent == [] && fed == map[Stdout := [], Stderr := []]
    {
      emittedDeltas, sent, fed := 0, [], map[Stdout := [], Stderr := []];
    }

    /** What was sent of each stream is always a prefix of it, and all of it while the
        delta budget lasts. */
    method EmitOutputDeltas(stream: Stream, data: seq<Byte>)
      requires Valid()
      modifies this
      ensures Valid()
      ensures fed == old(fed)[stream := old(fed)[stream] + data]
      ensures old(sent) <= sent && |sent| <= 10_000
      ensures FullPieces(sent, |old(sent)|, stream)
      ensures BytesOf(stream, sent) <= fed[stream]
      ensures |sent| < 10_000 ==> BytesOf(stream, sent) == fed[stream]
    {
      hide BytesOf, WellCut, FullPieces, NoShortPiece;
      NothingCut(sent, stream);
      WithinBudget(sent);
      var rest := data;
      ghost var consumed: seq<Byte> := [];
      ghost var other := Other(stream);
      while |rest| > 0 && emittedDeltas < MAX_EXEC_OUTPUT_DELTAS_PER_CALL
        invariant emittedDeltas == |sent| <= MAX_EXEC_OUTPUT_DELTAS_PER_CALL && WellCut(sent)
        invariant old(sent) <= sent && fed == old(fed)
        invariant data == consumed + rest
        invariant old(emittedDeltas) == MAX_EXEC_OUTPUT_DELTAS_PER_CALL ==> consumed == []
        invariant BytesOf(stream, sent) == old(BytesOf(stream, sent)) + consumed
        invariant BytesOf(other, sent) == old(BytesOf(other, sent))
        invariant FullPieces(sent, |old(sent)|, stream)
        invariant |rest| > 0 ==> NoShortPiece(sent, |old(sent)|)
        decreases |rest|
      {
        var length := Min(|rest|, EXEC_OUTPUT_DELTA_MAX_BYTES);
        var piece := rest[..length];
        BytesOfAppend(stream, sent, Delta(stream, piece));
        BytesOfAppend(other, sent, Delta(stream, piece));
        WellCutAppend(sent, Delta(stream, piece));
        FullPiecesAppend(sent, |old(sent)|, stream, piece);
        CutFurther(consumed, rest, length);
        Associative(old(BytesOf(stream, sent)), consumed, piece);
        consumed := consumed + piece;
        sent := sent + [Delta(stream, piece)];
        emittedDeltas := emittedDeltas + 1;
        rest := rest[length..];
      }
      fed := fed[stream := fed[stream] + data];
    }
  }
}
