/** The buffer that collects the fragments of one message
    (`WebsocketSimpleAppendFrameSequence`). */
module FrameSequences {
  import opened Protocol

  const BUFFER_SIZE: nat := 100000

  /** The struct as a value. `capacity` is `bufferCurrentSize`. */
  datatype FrameSequence = FrameSequence(kind: Opcode, count: nat, binary: Bytes, text: Bytes, capacity: nat)
  {
    /** The bytes collected so far, whichever buffer they are in. */
    function Contents(): (bytes: Bytes) {
      if kind.Binary? then binary else text
    }

    /** What every sequence made by `Empty` and `Append` satisfies. */
    predicate Valid() {
      && count == |Contents()|
      && (!kind.Binary? ==> binary == [])
      && (!kind.Text? ==> text == [])
      && count <= capacity <= count + Max(BUFFER_SIZE, count)
    }
  }

  function Max(a: int, b: int): (m: int) {
    if a < b then b else a
  }

  function Empty(kind: Opcode): (fs: FrameSequence)
    ensures fs.Valid() && fs.Contents() == [] && fs.kind == kind
  {
    FrameSequence(kind, 0, [], [], BUFFER_SIZE)
  }

  /** The frame does not fit into the reserved capacity. */
  predicate Grows(fs: FrameSequence, frame: Bytes) {
    (fs.kind.Binary? || fs.kind.Text?) && fs.count + |frame| > fs.capacity
  }

  /** The mutating `append`. A sequence that is neither text nor binary ignores
      the frame. */
  function Append(fs: FrameSequence, frame: Bytes): (r: FrameSequence)
    ensures fs.Valid() ==> r.Valid() && r.kind == fs.kind
    ensures fs.kind.Binary? || fs.kind.Text? ==> r.Contents() == fs.Contents() + frame
  {
    var capacity := if Grows(fs, frame) then Max(fs.capacity + BUFFER_SIZE, fs.capacity + |frame|) else fs.capacity;
    match fs.kind
    case Binary => fs.(binary := fs.binary + frame, count := fs.count + |frame|, capacity := capacity)
    case Text => fs.(text := fs.text + frame, count := fs.count + |frame|, capacity := capacity)
    case _ => fs
  }

  /** Appending a list of frames, and how often the capacity had to grow. */
  function AppendAll(fs: FrameSequence, frames: seq<Bytes>): (r: FrameSequence)
    decreases frames
  {
    if frames == [] then fs else AppendAll(Append(fs, frames[0]), frames[1..])
  }

  function Growths(fs: FrameSequence, frames: seq<Bytes>): (n: nat)
    decreases frames
  {
    if frames == [] then 0
    else (if Grows(fs, frames[0]) then 1 else 0) + Growths(Append(fs, frames[0]), frames[1..])
  }

  lemma {:induction false} AppendAllFrom(fs: FrameSequence, frames: seq<Bytes>)
    requires fs.Valid() && (fs.kind.Binary? || fs.kind.Text?)
    ensures var r := AppendAll(fs, frames);
            && r.Valid() && r.kind == fs.kind
            && r.Contents() == fs.Contents() + Flatten(frames)
            && fs.capacity + Growths(fs, frames) * BUFFER_SIZE <= r.capacity
    decreases frames
  {
    if frames != [] {
      AppendAllFrom(Append(fs, frames[0]), frames[1..]);
    }
  }

  /** For every list of frames of a text or binary message: the contents are
      their concatenation, the reserved capacity is enough and never more than
      twice the contents or one buffer ahead of them, and each growth reserved
      at least one whole buffer, so growths are rare. */
  lemma BufferGrowth(kind: Opcode, frames: seq<Bytes>)
    requires kind.Binary? || kind.Text?
    ensures var r := AppendAll(Empty(kind), frames);
            && r.Contents() == Flatten(frames)
            && r.count == |Flatten(frames)|
            && r.count <= r.capacity <= r.count + Max(BUFFER_SIZE, r.count)
            && (Growths(Empty(kind), frames) + 1) * BUFFER_SIZE <= r.capacity
  {
    AppendAllFrom(Empty(kind), frames);
  }

  /** The struct with its mutating method. Assigning a Swift struct copies it,
      so a copy is made with `Of` and read back with `Value`. */
  class SimpleAppendFrameSequence {
    const kind: Opcode
    var count: nat
    var binaryBuffer: Bytes
    var textBuffer: Bytes
    var bufferCurrentSize: nat

    function Value(): (fs: FrameSequence)
      reads this
    {
      FrameSequence(kind, count, binaryBuffer, textBuffer, bufferCurrentSize)
    }

    constructor (kind: Opcode)
      ensures Value() == Empty(kind)
    {
      this.kind := kind;
      count := 0;
      binaryBuffer, textBuffer := [], [];
      bufferCurrentSize := BUFFER_SIZE;
    }

    constructor Of(fs: FrameSequence)
      ensures Value() == fs
    {
      kind, count := fs.kind, fs.count;
      binaryBuffer, textBuffer := fs.binary, fs.text;
      bufferCurrentSize := fs.capacity;
    }

    method AppendFrame(frame: Bytes)
      modifies this
      ensures Value() == Append(old(Value()), frame)
    {
      match kind {
        case Binary =>
          if count + |frame| > bufferCurrentSize {
            bufferCurrentSize := Max(bufferCurrentSize + BUFFER_SIZE, bufferCurrentSize + |frame|);
          }
          binaryBuffer := binaryBuffer + frame;
          count := count + |frame|;
        case Text =>
          if count + |frame| > bufferCurrentSize {
            bufferCurrentSize := Max(bufferCurrentSize + BUFFER_SIZE, bufferCurrentSize + |frame|);
          }
          textBuffer := textBuffer + frame;
          count := count + |frame|;
        case _ =>
      }
    }
  }
}
