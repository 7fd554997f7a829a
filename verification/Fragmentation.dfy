/** How `send` turns one call into queue entries, and why that changes neither
    the frame grammar of section 5.4 of RFC 6455 nor the messages carried. */
module Fragmentation {
  import opened Protocol
  import opened MessageStream

  // ---- Chunks of one payload ----

  /** `Data.chunked(into:)`: consecutive slices of `size` bytes. */
  function Chunked(data: Bytes, size: FrameLimit): (chunks: seq<Bytes>)
    decreases |data|
  {
    if |data| == 0 then []
    else if |data| <= size then [data]
    else [data[..size]] + Chunked(data[size..], size)
  }

  function Min(a: int, b: int): (m: int) {
    if a < b then a else b
  }

  lemma {:induction false} ChunksFlatten(data: Bytes, size: FrameLimit)
    ensures Flatten(Chunked(data, size)) == data
    decreases |data|
  {
    var chunks := Chunked(data, size);
    if |data| > size {
      ChunksFlatten(data[size..], size);
      assert chunks[1..] == Chunked(data[size..], size);
    } else if |data| > 0 {
      assert Flatten(chunks) == data + Flatten(chunks[1..]);
    }
  }

  lemma {:induction false} ChunkCount(data: Bytes, size: FrameLimit)
    requires data != []
    ensures var n := |Chunked(data, size)|; (n - 1) * size < |data| <= n * size
    decreases |data|
  {
    if |data| > size {
      ChunkCount(data[size..], size);
      var n := |Chunked(data, size)|;
      assert (n - 1) * size == (n - 2) * size + size;
      assert n * size == (n - 1) * size + size;
    }
  }

  lemma {:induction false} ChunkAt(data: Bytes, size: FrameLimit, i: nat)
    requires i < |Chunked(data, size)|
    ensures 0 <= i * size < |data|
    ensures Chunked(data, size)[i] == data[i * size..Min((i + 1) * size, |data|)]
    decreases |data|
  {
    if i > 0 {
      ChunkAt(data[size..], size, i - 1);
      StrideShift(data, size, i);
    }
  }

  lemma StrideShift(data: Bytes, size: FrameLimit, i: nat)
    requires 0 < i && 0 <= (i - 1) * size < |data| - size
    ensures 0 <= i * size < |data|
    ensures data[i * size..Min((i + 1) * size, |data|)]
            == data[size..][(i - 1) * size..Min(i * size, |data| - size)]
  {
    assert i * size == (i - 1) * size + size;
    assert (i + 1) * size == i * size + size;
  }

  /** The chunks are what the source's stride selects: slice `i` starts at
      `i * size`, is full unless it is the last, and no byte is lost or moved. */
  lemma ChunkedIsStride(data: Bytes, size: FrameLimit)
    ensures var chunks := Chunked(data, size);
            && Flatten(chunks) == data
            && (|data| > 0 ==> (|chunks| - 1) * size < |data| <= |chunks| * size)
            && forall i :: 0 <= i < |chunks| ==>
                 && 0 <= i * size < |data|
                 && chunks[i] == data[i * size..Min((i + 1) * size, |data|)]
  {
    var chunks := Chunked(data, size);
    ChunksFlatten(data, size);
    if data != [] {
      ChunkCount(data, size);
    }
    forall i | 0 <= i < |chunks|
      ensures 0 <= i * size < |data|
      ensures chunks[i] == data[i * size..Min((i + 1) * size, |data|)]
    {
      ChunkAt(data, size, i);
    }
  }

  // ---- Queue entries of one call ----

  /** The chunks as entries: the first keeps the opcode and the others are
      continuations; only the last keeps `fin` and the promise. */
  function Split(chunks: seq<Bytes>, opcode: Opcode, fin: bool, promise: Option<PromiseId>): (es: seq<Entry>)
    requires chunks != []
    decreases |chunks|
  {
    if |chunks| == 1 then [Entry(chunks[0], opcode, fin, promise)]
    else [Entry(chunks[0], opcode, false, None)] + Split(chunks[1..], Continuation, fin, promise)
  }

  lemma {:induction false} SplitAt(chunks: seq<Bytes>, opcode: Opcode, fin: bool, promise: Option<PromiseId>)
    requires chunks != []
    ensures var es := Split(chunks, opcode, fin, promise);
            && |es| == |chunks|
            && forall i :: 0 <= i < |es| ==> es[i] == SplitEntry(chunks, opcode, fin, promise, i)
    decreases |chunks|
  {
    if |chunks| > 1 {
      SplitAt(chunks[1..], Continuation, fin, promise);
    }
  }

  /** Entry `i` as the loop of `send` writes it down. */
  function SplitEntry(chunks: seq<Bytes>, opcode: Opcode, fin: bool, promise: Option<PromiseId>, i: nat): (e: Entry)
    requires i < |chunks|
  {
    var last := i == |chunks| - 1;
    Entry(chunks[i],
          if i == 0 then opcode else Continuation,
          if last then fin else false,
          if last then promise else None)
  }

  predicate NeedsSplit(e: Entry, size: FrameLimit) {
    e.opcode.IsData() && |e.data| > size
  }

  /** The entries one accepted call adds to the queue. */
  function Frames(e: Entry, size: FrameLimit): (es: seq<Entry>)
    ensures es != []
  {
    if NeedsSplit(e, size) then Split(Chunked(e.data, size), e.opcode, e.fin, e.promise) else [e]
  }

  /** The entries of a list of calls. */
  function Expand(calls: seq<Entry>, size: FrameLimit): (es: seq<Entry>) {
    if calls == [] then [] else Frames(calls[0], size) + Expand(calls[1..], size)
  }

  lemma {:induction false} ExpandAppend(a: seq<Entry>, b: seq<Entry>, size: FrameLimit)
    ensures Expand(a + b, size) == Expand(a, size) + Expand(b, size)
  {
    if a == [] {
      assert a + b == b;
    } else {
      assert (a + b)[1..] == a[1..] + b;
      ExpandAppend(a[1..], b, size);
    }
  }

  lemma ExpandOne(a: seq<Entry>, e: Entry, size: FrameLimit)
    ensures Expand(a + [e], size) == Expand(a, size) + Frames(e, size)
  {
    ExpandAppend(a, [e], size);
    assert Expand([e], size) == Frames(e, size) + Expand([e][1..], size);
  }

  /** The frames of call `i` are one contiguous stretch of the expansion. */
  lemma ExpandSlice(calls: seq<Entry>, i: nat, size: FrameLimit)
    requires i < |calls|
    ensures var from, to := |Expand(calls[..i], size)|, |Expand(calls[..i + 1], size)|;
            from <= to <= |Expand(calls, size)| && Expand(calls, size)[from..to] == Frames(calls[i], size)
  {
    assert calls[..i + 1] == calls[..i] + [calls[i]];
    ExpandOne(calls[..i], calls[i], size);
    assert calls == calls[..i + 1] + calls[i + 1..];
    ExpandAppend(calls[..i + 1], calls[i + 1..], size);
  }

  lemma FramesKind(e: Entry, size: FrameLimit)
    ensures forall k :: 0 <= k < |Frames(e, size)| ==> Frames(e, size)[k].opcode.IsData() == e.opcode.IsData()
  {
    if NeedsSplit(e, size) {
      SplitAt(Chunked(e.data, size), e.opcode, e.fin, e.promise);
    }
  }

  /** In that stretch there are only data frames, or only a control frame. */
  lemma SliceKind(calls: seq<Entry>, i: nat, size: FrameLimit)
    requires i < |calls|
    ensures var es := Expand(calls, size);
            var from, to := |Expand(calls[..i], size)|, |Expand(calls[..i + 1], size)|;
            to <= |es| && forall k :: from <= k < to ==> es[k].opcode.IsData() == calls[i].opcode.IsData()
  {
    ExpandSlice(calls, i, size);
    FramesKind(calls[i], size);
    var es := Expand(calls, size);
    var from, to := |Expand(calls[..i], size)|, |Expand(calls[..i + 1], size)|;
    forall k | from <= k < to
      ensures es[k].opcode.IsData() == calls[i].opcode.IsData()
    {
      assert es[k] == es[from..to][k - from];
    }
  }

  /** Every data frame stays within the limit. */
  lemma FramesWithinLimit(e: Entry, size: FrameLimit)
    ensures forall i :: 0 <= i < |Frames(e, size)| && e.opcode.IsData() ==> |Frames(e, size)[i].data| <= size
  {
    if NeedsSplit(e, size) {
      var chunks := Chunked(e.data, size);
      ChunkedIsStride(e.data, size);
      SplitAt(chunks, e.opcode, e.fin, e.promise);
      forall i | 0 <= i < |Frames(e, size)|
        ensures |Frames(e, size)[i].data| <= size
      {
        assert (i + 1) * size == i * size + size;
      }
    }
  }

  // ---- The frame grammar ----

  /** Reads frames with `open` saying whether a message is under way. The
      result is that flag afterwards, or None if the grammar was violated. */
  function Scan(frames: seq<Entry>, open: bool): (r: Option<bool>) {
    if frames == [] then Some(open)
    else
      var f := frames[0];
      if !f.opcode.IsData() then Scan(frames[1..], open)
      else if f.opcode.Continuation? != open then None
      else Scan(frames[1..], !f.fin)
  }

  lemma {:induction false} ScanSplit(chunks: seq<Bytes>, opcode: Opcode, fin: bool, promise: Option<PromiseId>,
                                     rest: seq<Entry>, open: bool)
    requires chunks != [] && opcode.IsData()
    ensures Scan(Split(chunks, opcode, fin, promise) + rest, open)
            == if opcode.Continuation? != open then None else Scan(rest, !fin)
    decreases |chunks|
  {
    var es := Split(chunks, opcode, fin, promise);
    if |chunks| == 1 {
      assert (es + rest)[1..] == rest;
    } else {
      assert (es + rest)[1..] == Split(chunks[1..], Continuation, fin, promise) + rest;
      ScanSplit(chunks[1..], Continuation, fin, promise, rest, true);
    }
  }

  /** Fragmentation preserves the grammar exactly: the queue is well formed if
      and only if the calls were, control frames anywhere between calls included. */
  lemma {:induction false} FragmentationKeepsGrammar(calls: seq<Entry>, size: FrameLimit, open: bool)
    ensures Scan(Expand(calls, size), open) == Scan(calls, open)
  {
    if calls != [] {
      var e, rest := calls[0], Expand(calls[1..], size);
      if NeedsSplit(e, size) {
        ScanSplit(Chunked(e.data, size), e.opcode, e.fin, e.promise, rest, open);
      } else {
        assert ([e] + rest)[1..] == rest;
      }
      FragmentationKeepsGrammar(calls[1..], size, if e.opcode.IsData() then !e.fin else open);
    }
  }

  /** What has been written so far is well formed if the whole queue is. */
  lemma {:induction false} GrammarOfPrefix(a: seq<Entry>, b: seq<Entry>, open: bool)
    requires a <= b && Scan(b, open).Some?
    ensures Scan(a, open).Some?
  {
    if a != [] {
      assert a[1..] <= b[1..];
      GrammarOfPrefix(a[1..], b[1..], if a[0].opcode.IsData() then !a[0].fin else open);
    }
  }

  // ---- Frames as message pieces ----

  /** The type a message has after a frame with this opcode. */
  function TypeAfter(opcode: Opcode, binary: bool): (b: bool) {
    if opcode.Binary? then true else if opcode.Text? then false else binary
  }

  /** The data frames as pieces; `binary` is the type of the message under way,
      which a continuation inherits. Control frames carry no message bytes. */
  function Pieces(frames: seq<Entry>, binary: bool): (ps: seq<Piece>) {
    if frames == [] then []
    else
      var f := frames[0];
      var b := TypeAfter(f.opcode, binary);
      if !f.opcode.IsData() then Pieces(frames[1..], binary)
      else [Piece(!f.opcode.Continuation?, f.fin, b, f.data)] + Pieces(frames[1..], b)
  }

  lemma {:induction false} PiecesOfPrefix(a: seq<Entry>, b: seq<Entry>, binary: bool)
    requires a <= b
    ensures Pieces(a, binary) <= Pieces(b, binary)
  {
    if a != [] {
      assert a[1..] <= b[1..];
      PiecesOfPrefix(a[1..], b[1..], TypeAfter(a[0].opcode, binary));
    }
  }

  /** A well-formed frame sequence gives a coherent stream of pieces. */
  lemma {:induction false} WellFormedFramesAreCoherent(frames: seq<Entry>, open: bool, binary: bool)
    requires Scan(frames, open).Some?
    ensures Coherent(Pieces(frames, binary), if open then Some(binary) else None)
  {
    if frames != [] {
      var f := frames[0];
      var b := TypeAfter(f.opcode, binary);
      WellFormedFramesAreCoherent(frames[1..], if f.opcode.IsData() then !f.fin else open, b);
      assert f.opcode.IsData() ==> Pieces(frames, binary)[1..] == Pieces(frames[1..], b);
    }
  }

  /** The parts into which `send` cuts the data calls of a list. */
  function SendCuts(calls: seq<Entry>, size: FrameLimit): (cuts: seq<seq<Bytes>>) {
    if calls == [] then []
    else if !calls[0].opcode.IsData() then SendCuts(calls[1..], size)
    else [Parts(calls[0], size)] + SendCuts(calls[1..], size)
  }

  function Parts(e: Entry, size: FrameLimit): (parts: seq<Bytes>) {
    if NeedsSplit(e, size) then Chunked(e.data, size) else [e.data]
  }

  lemma PartsOfCall(e: Entry, size: FrameLimit)
    ensures Parts(e, size) != [] && Flatten(Parts(e, size)) == e.data
  {
    ChunkedIsStride(e.data, size);
    assert Flatten([e.data]) == e.data + Flatten([e.data][1..]);
  }

  lemma {:induction false} SendCutsAreValid(calls: seq<Entry>, size: FrameLimit, binary: bool)
    ensures ValidCuts(Pieces(calls, binary), SendCuts(calls, size))
  {
    if calls != [] {
      var e := calls[0];
      SendCutsAreValid(calls[1..], size, TypeAfter(e.opcode, binary));
      if e.opcode.IsData() {
        PartsOfCall(e, size);
        assert Pieces(calls, binary)[1..] == Pieces(calls[1..], TypeAfter(e.opcode, binary));
        assert SendCuts(calls, size)[1..] == SendCuts(calls[1..], size);
      }
    }
  }

  lemma {:induction false} SplitPieces(chunks: seq<Bytes>, opcode: Opcode, fin: bool, promise: Option<PromiseId>,
                                       rest: seq<Entry>, binary: bool, p: Piece)
    requires chunks != [] && opcode.IsData()
    requires p == Piece(!opcode.Continuation?, fin, TypeAfter(opcode, binary), p.data)
    ensures Pieces(Split(chunks, opcode, fin, promise) + rest, binary)
            == CutPiece(p, chunks) + Pieces(rest, TypeAfter(opcode, binary))
    decreases |chunks|
  {
    var es := Split(chunks, opcode, fin, promise);
    if |chunks| == 1 {
      assert (es + rest)[1..] == rest;
    } else {
      assert (es + rest)[1..] == Split(chunks[1..], Continuation, fin, promise) + rest;
      SplitPieces(chunks[1..], Continuation, fin, promise, rest, TypeAfter(opcode, binary), p.(first := false));
    }
  }

  /** On the level of pieces, fragmentation by `send` is a cut. */
  lemma {:induction false} ExpandIsCut(calls: seq<Entry>, size: FrameLimit, binary: bool)
    requires ValidCuts(Pieces(calls, binary), SendCuts(calls, size))
    ensures Pieces(Expand(calls, size), binary) == Cut(Pieces(calls, binary), SendCuts(calls, size))
  {
    if calls != [] {
      var e, rest := calls[0], Expand(calls[1..], size);
      var b := TypeAfter(e.opcode, binary);
      SendCutsAreValid(calls[1..], size, b);
      ExpandIsCut(calls[1..], size, b);
      if NeedsSplit(e, size) {
        SplitPieces(Chunked(e.data, size), e.opcode, e.fin, e.promise, rest, binary, Pieces(calls, binary)[0]);
      } else {
        assert ([e] + rest)[1..] == rest;
      }
    }
  }

  /** The queue carries the messages of the calls, byte for byte. */
  lemma FragmentationKeepsMessages(calls: seq<Entry>, size: FrameLimit)
    ensures Messages(Pieces(Expand(calls, size), false)) == Messages(Pieces(calls, false))
  {
    SendCutsAreValid(calls, size, false);
    ExpandIsCut(calls, size, false);
    CutKeepsMessages(Pieces(calls, false), SendCuts(calls, size));
  }
}
