/** The vocabulary shared by every part of the model: bytes, opcodes, close
    codes and the entries of the client's write queue. */
module Protocol {

  datatype Option<+T> = None | Some(value: T)

  newtype Byte = x: int | 0 <= x < 256

  type Bytes = seq<Byte>

  /** A close code as it travels in a Close frame. */
  type CloseStatus = nat

  const GOING_AWAY: CloseStatus := 1001
  const NO_STATUS: CloseStatus := 1005
  const ABNORMAL_CLOSE: CloseStatus := 1006
  const INVALID_PAYLOAD: CloseStatus := 1007
  const MESSAGE_TOO_LARGE: CloseStatus := 1009

  /** The identity of a promise handed to `send`. */
  type PromiseId = nat

  datatype Opcode = Binary | Text | Continuation | Ping | Close(reason: CloseStatus)
  {
    /** Data frames may be split; control frames may not. */
    predicate IsData() {
      Binary? || Text? || Continuation?
    }
  }

  /** One element of `toBeWritten`. A call of `send` carries the same four
      parts, so calls and queue entries share this type. */
  datatype Entry = Entry(data: Bytes, opcode: Opcode, fin: bool, promise: Option<PromiseId>)

  /** The largest frame the client writes; never zero. */
  type FrameLimit = n: nat | n > 0 witness 1

  /** Zero or one element as a sequence. */
  function Optional<T>(o: Option<T>): (s: seq<T>) {
    if o.None? then [] else [o.value]
  }

  /** Concatenation of a list of lists. */
  function Flatten<T>(parts: seq<seq<T>>): (s: seq<T>) {
    if parts == [] then [] else parts[0] + Flatten(parts[1..])
  }
}
