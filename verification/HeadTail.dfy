/** Bounded output collection: a buffer that keeps a stable prefix and the newest
    suffix of a byte stream and only counts what lies between them. */
module HeadTail {
  import opened Numbers

  /** Output bytes; a byte is written as the character with the same code. */
  type Byte = char

  // ----- the two ends of a stream -----

  function First(s: seq<Byte>, n: nat): (r: seq<Byte>)
    ensures |r| == Min(|s|, n)
  {
    if |s| <= n then s else s[..n]
  }

  function Rest(s: seq<Byte>, n: nat): (r: seq<Byte>)
    ensures |r| == |s| - Min(|s|, n)
  {
    if |s| <= n then [] else s[n..]
  }

  function Last(s: seq<Byte>, n: nat): (r: seq<Byte>)
    ensures |r| == Min(|s|, n)
  {
    if |s| <= n then s else s[|s| - n..]
  }

  lemma CutAt(s: seq<Byte>, n: nat)
    ensures s[..Min(|s|, n)] == First(s, n)
    ensures s[Min(|s|, n)..] == Rest(s, n)
  {
  }

  lemma SplitAppend(a: seq<Byte>, b: seq<Byte>, n: nat)
    ensures |First(a, n)| <= n
    ensures First(a + b, n) == First(a, n) + First(b, n - |First(a, n)|)
    ensures Rest(a + b, n) == Rest(a, n) + Rest(b, n - |First(a, n)|)
  {
    if |a| >= n {
      assert (a + b)[..n] == a[..n];
      assert (a + b)[n..] == a[n..] + b;
    } else if |a| + |b| > n {
      assert (a + b)[..n] == a + b[..n - |a|];
      assert (a + b)[n..] == b[n - |a|..];
    }
  }

  /** Only the newest `n` bytes decide what the newest `n` bytes will be. */
  lemma LastSlides(a: seq<Byte>, b: seq<Byte>, n: nat)
    ensures Last(Last(a, n) + b, n) == Last(a + b, n)
  {
    if |a| > n {
      var kept := a[|a| - n..];
      assert (a + b)[|a| - n..] == kept + b;
      assert (kept + b)[|b|..] == (a + b)[|a| - n + |b|..];
    }
  }

  // ----- views -----

  /** What a buffer remembers of a stream. */
  datatype View = View(head: seq<Byte>, tail: seq<Byte>, omitted: nat)

  /** The first `h` bytes of a stream and the last `t` bytes of what follows them. */
  function Ends(h: nat, t: nat, s: seq<Byte>): View {
    var tail := Last(Rest(s, h), t);
    View(First(s, h), tail, |Rest(s, h)| - |tail|)
  }

  /** The view of a whole stream under a capacity: half of it (rounded down) for the
      head, the other half for the tail. */
  function Window(cap: nat, s: seq<Byte>): View {
    Ends(cap / 2, cap - cap / 2, s)
  }

  /** Every byte is either kept or counted, and nothing is omitted before it has to be. */
  lemma EndsAccountForEveryByte(h: nat, t: nat, s: seq<Byte>)
    ensures var v := Ends(h, t, s);
      && |v.head| + |v.tail| + v.omitted == |s|
      && |v.head| <= h && |v.tail| <= t
      && (v.omitted == 0 <==> |s| <= h + t)
      && (v.omitted == 0 ==> v.head + v.tail == s)
      && (v.omitted > 0 ==> |v.head| == h && |v.tail| == t)
  {
    if |s| > h {
      assert s[..h] + s[h..] == s;
    }
  }

  lemma WindowAccountsForEveryByte(cap: nat, s: seq<Byte>)
    ensures var v := Window(cap, s);
      && |v.head| + |v.tail| + v.omitted == |s|
      && |v.head| + |v.tail| <= cap
      && (v.omitted == 0 <==> |s| <= cap)
      && (v.omitted == 0 ==> v.head + v.tail == s)
      && (v.omitted > 0 ==> |v.head| + |v.tail| == cap)
  {
    EndsAccountForEveryByte(cap / 2, cap - cap / 2, s);
  }

  // ----- rendering -----

  function Decimal(n: nat): seq<Byte> {
    if n < 10 then [('0' as int + n) as char] else Decimal(n / 10) + [('0' as int + n % 10) as char]
  }

  function Marker(omitted: nat): seq<Byte> {
    "\n... " + Decimal(omitted) + " bytes omitted ...\n"
  }

  function Rendered(v: View): seq<Byte> {
    if v.omitted == 0 then v.head + v.tail else v.head + Marker(v.omitted) + v.tail
  }

  /** The number that a row of digits denotes. */
  function Value(digits: seq<Byte>): int {
    if digits == [] then 0 else 10 * Value(digits[..|digits| - 1]) + (digits[|digits| - 1] as int - '0' as int)
  }

  /** The row of digits that people write for a number: without a leading zero. */
  predicate Denotes(digits: seq<Byte>, n: nat) {
    && digits != [] && (forall i :: 0 <= i < |digits| ==> '0' <= digits[i] <= '9')
    && (|digits| > 1 ==> digits[0] != '0')
    && Value(digits) == n
  }

  lemma {:induction false} DecimalDenotes(n: nat)
    ensures Denotes(Decimal(n), n)
    ensures n > 0 ==> Decimal(n)[0] != '0'
  {
    if n < 10 {
      assert Decimal(n)[..0] == [];
    } else {
      DecimalDenotes(n / 10);
      var last := ('0' as int + n % 10) as char;
      assert Decimal(n)[..|Decimal(n)| - 1] == Decimal(n / 10);
      assert Decimal(n) == Decimal(n / 10) + [last];
    }
  }

  /** A stream that exceeds the capacity is shown as its two ends, cut at half the capacity, with
      the number of bytes between them in the middle. */
  lemma LongStreamRendered(cap: nat, s: seq<Byte>)
    requires |s| > cap
    ensures var tail := cap - cap / 2;
      Rendered(Window(cap, s)) ==
        s[..cap / 2] + ("\n... " + Decimal(|s| - cap) + " bytes omitted ...\n") + s[|s| - tail..]
  {
    LongEnds(cap / 2, cap - cap / 2, s);
    WindowAccountsForEveryByte(cap, s);
  }

  function Total(v: View): nat {
    |v.head| + |v.tail| + v.omitted
  }

  // ----- pushing -----

  /** What one push makes of a view, without ever holding the whole stream: the head takes
      what it has room for, the overflow of the tail is counted and dropped, first from
      the old tail and then from the chunk. */
  function Pushed(h: nat, t: nat, v: View, chunk: seq<Byte>): View {
    var headLength := Min(|chunk|, Max(h - |v.head|, 0));
    var rest := chunk[headLength..];
    var excess := Max(|rest| - Max(t - |v.tail|, 0), 0);
    var tail := if excess < |v.tail| then v.tail[excess..] + rest else Rest(rest, excess - |v.tail|);
    View(v.head + chunk[..headLength], tail, v.omitted + excess)
  }

  lemma SlideDropsOverflow(tail: seq<Byte>, rest: seq<Byte>, t: nat)
    requires |tail| <= t
    ensures var excess := Max(|rest| - Max(t - |tail|, 0), 0);
      && excess <= |tail| + |rest|
      && |tail + rest| - |Last(tail + rest, t)| == excess
      && Last(tail + rest, t) == if excess < |tail| then tail[excess..] + rest else Rest(rest, excess - |tail|)
  {
  }

  /** Pushing a chunk extends the stream behind the view by that chunk. */
  lemma PushExtendsStream(h: nat, t: nat, s: seq<Byte>, chunk: seq<Byte>)
    ensures Pushed(h, t, Ends(h, t, s), chunk) == Ends(h, t, s + chunk)
  {
    hide First, Rest, Last;
    var room := h - |First(s, h)|;
    CutAt(chunk, room);
    SplitAppend(s, chunk, h);
    LastSlides(Rest(s, h), Rest(chunk, room), t);
    SlideDropsOverflow(Last(Rest(s, h), t), Rest(chunk, room), t);
  }

  function Concat(chunks: seq<seq<Byte>>): seq<Byte> {
    if chunks == [] then [] else chunks[0] + Concat(chunks[1..])
  }

  function PushedAll(h: nat, t: nat, v: View, chunks: seq<seq<Byte>>): View
    decreases |chunks|
  {
    if chunks == [] then v else PushedAll(h, t, Pushed(h, t, v, chunks[0]), chunks[1..])
  }

  /** However a stream is cut into chunks, the buffer ends up with the same view of it. */
  lemma {:induction false} ChunkingIsInvisible(h: nat, t: nat, s: seq<Byte>, chunks: seq<seq<Byte>>)
    ensures PushedAll(h, t, Ends(h, t, s), chunks) == Ends(h, t, s + Concat(chunks))
    decreases |chunks|
  {
    if chunks == [] {
      assert s + Concat(chunks) == s;
    } else {
      var next := s + chunks[0];
      assert s + Concat(chunks) == next + Concat(chunks[1..]);
      assert Pushed(h, t, Ends(h, t, s), chunks[0]) == Ends(h, t, next) by {
        PushExtendsStream(h, t, s, chunks[0]);
      }
      ChunkingIsInvisible(h, t, next, chunks[1..]);
    }
  }

  // ----- re-limiting -----

  /** The capacity a re-limited buffer behaves as if it had had from the start. */
  function Effective(cap: nat, limit: int): nat {
    Min(Max(limit, 0), cap)
  }

  /** The ends of a stream that is only known by larger ends of it. */
  lemma NarrowerEnds(h: nat, t: nat, h': nat, t': nat, s: seq<Byte>)
    requires h' <= h && t' <= t && |s| > h + t
    ensures var v := Ends(h, t, s);
      var w := Ends(h', t', v.head + v.tail);
      Ends(h', t', s) == View(w.head, w.tail, w.omitted + v.omitted)
  {
    hide Ends;
    LongEnds(h, t, s);
    LongEnds(h', t', s);
    var head, tail := s[..h], s[|s| - t..];
    LongEnds(h', t', head + tail);
    assert (head + tail)[..h'] == s[..h'];
    assert (head + tail)[h + t - t'..] == s[|s| - t'..];
  }

  lemma LongEnds(h: nat, t: nat, s: seq<Byte>)
    requires |s| >= h + t
    ensures Ends(h, t, s) == View(s[..h], s[|s| - t..], |s| - h - t)
  {
    assert Rest(s, h) == s[h..];
    assert s[h..][|s| - h - t..] == s[|s| - t..];
  }

  lemma Halving(a: nat, b: nat)
    requires a <= b
    ensures a / 2 <= b / 2 && a - a / 2 <= b - b / 2
  {
  }

  /** Feeding what a large buffer kept to a smaller one shows the same ends of the stream. */
  lemma RelimitWindow(cap: nat, limit: nat, s: seq<Byte>)
    requires limit <= |Window(cap, s).head| + |Window(cap, s).tail|
    ensures var v := Window(cap, s);
      var w := Window(limit, v.head + v.tail);
      Window(limit, s) == View(w.head, w.tail, w.omitted + v.omitted)
  {
    hide Ends;
    WindowAccountsForEveryByte(cap, s);
    if |s| > cap {
      Halving(limit, cap);
      NarrowerEnds(cap / 2, cap - cap / 2, limit / 2, limit - limit / 2, s);
    }
  }

  /** A buffer that already fits under the limit shows exactly the whole stream. */
  lemma FittingWindow(cap: nat, limit: int, s: seq<Byte>)
    requires |Window(cap, s).head| + |Window(cap, s).tail| <= limit
    ensures Rendered(Window(cap, s)) == Rendered(Window(Effective(cap, limit), s))
    ensures Total(Window(cap, s)) == Total(Window(Effective(cap, limit), s))
    ensures Window(cap, s).omitted == Window(Effective(cap, limit), s).omitted
  {
    WindowAccountsForEveryByte(cap, s);
    if limit < cap {
      WindowAccountsForEveryByte(limit, s);
    }
  }

  /** Re-limiting twice is re-limiting once, under the smaller limit. */
  lemma EffectiveComposes(cap: nat, a: int, b: int)
    ensures Effective(Effective(cap, a), b) == Effective(cap, Min(a, b))
  {
  }

  /** The buffer itself. `stream` is everything pushed so far. */
  class HeadTailBuffer {
    var maxBytes: nat
    var head: seq<Byte>
    var tail: seq<Byte>
    var omittedBytes: nat
    ghost var stream: seq<Byte>

    ghost predicate Valid()
      reads this
    {
      Contents() == Window(maxBytes, stream)
    }

    function Contents(): View
      reads this
    {
      View(head, tail, omittedBytes)
    }

    constructor (capacity: int)
      ensures Valid() && maxBytes == Max(capacity, 0) && stream == []
    {
      maxBytes := Max(capacity, 0);
      head, tail, omittedBytes, stream := [], [], 0, [];
    }

    method PushChunk(chunk: seq<Byte>)
      requires Valid()
      modifies this
      ensures Valid() && maxBytes == old(maxBytes)
      ensures stream == old(stream) + chunk
    {
      hide Pushed, Ends;
      PushExtendsStream(maxBytes / 2, maxBytes - maxBytes / 2, stream, chunk);
      Slide(maxBytes / 2, maxBytes - maxBytes / 2, chunk);
      stream := stream + chunk;
    }

    method Slide(headBudget: nat, tailBudget: nat, chunk: seq<Byte>)
      modifies this`head, this`tail, this`omittedBytes
      ensures Contents() == Pushed(headBudget, tailBudget, old(Contents()), chunk)
    {
      hide Rest;
      var v := Contents();
      var remainingHead := Max(headBudget - |v.head|, 0);
      var headLength := Min(|chunk|, remainingHead);
      var rest := chunk[headLength..];
      var remainingTail := Max(tailBudget - |v.tail|, 0);
      var excess := Max(|rest| - remainingTail, 0);
      head := v.head + chunk[..headLength];
      omittedBytes := v.omitted + excess;
      if excess < |v.tail| {
        tail := v.tail[excess..] + rest;
      } else {
        tail := Rest(rest, excess - |v.tail|);
      }
    }

    method TotalBytes() returns (total: nat)
      requires Valid()
      ensures total == |stream|
    {
      WindowAccountsForEveryByte(maxBytes, stream);
      total := |head| + |tail| + omittedBytes;
    }

    method BytesWithOmissionMarker() returns (bytes: seq<Byte>)
      requires Valid()
      ensures bytes == Rendered(Window(maxBytes, stream))
      ensures |stream| <= maxBytes ==> bytes == stream
      ensures |stream| > maxBytes ==> exists digits ::
        && Denotes(digits, |stream| - maxBytes)
        && bytes == stream[..maxBytes / 2] + ("\n... " + digits + " bytes omitted ...\n")
                      + stream[|stream| - (maxBytes - maxBytes / 2)..]
    {
      hide Ends, Decimal, Denotes;
      WindowAccountsForEveryByte(maxBytes, stream);
      if |stream| > maxBytes {
        DecimalDenotes(|stream| - maxBytes);
        LongStreamRendered(maxBytes, stream);
      }
      if omittedBytes == 0 {
        bytes := head + tail;
      } else {
        bytes := head + Marker(omittedBytes) + tail;
      }
    }

    /** The result shows, counts and omits exactly what a fresh buffer of the smaller
        capacity would have shown, counted and omitted for the whole stream. */
    method WithLimit(limit: int) returns (limited: HeadTailBuffer)
      requires Valid()
      ensures limited.Valid() && limited.stream == stream
      ensures var smaller: nat := if limit < 0 then 0 else if limit < maxBytes then limit else maxBytes;
        && Rendered(limited.Contents()) == Rendered(Window(smaller, stream))
        && limited.omittedBytes == Window(smaller, stream).omitted
      ensures Total(limited.Contents()) == |stream|
      ensures limited == this || fresh(limited)
    {
      hide Ends, First, Rest, Last, Rendered;
      WindowAccountsForEveryByte(maxBytes, stream);
      if limit >= |head| + |tail| {
        FittingWindow(maxBytes, limit, stream);
        return this;
      }
      RelimitWindow(maxBytes, Max(limit, 0), stream);
      WindowAccountsForEveryByte(Max(limit, 0), stream);
      limited := new HeadTailBuffer(limit);
      limited.PushChunk(head);
      limited.PushChunk(tail);
      assert limited.stream == head + tail;
      limited.omittedBytes := limited.omittedBytes + omittedBytes;
      limited.stream := stream;
    }
  }
}
