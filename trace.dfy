/**
 * What the parser produces besides parsed values: the lines it writes to
 * its destination, and the exceptions it raises.  Lines are kept as
 * structured records (their kind, the offset they report, the value they
 * show) rather than as the formatted text.
 */
module Trace {
  import opened Codec

  /** One line written by `output`, by the call that produced it. */
  datatype Line =
    | CountLine(name: string, count: int)          // array_int: the accepted count
    | ShortCountLine(name: string, count: int)     // array_short: the count as read
    | BytesLine(offset: nat, bytes: seq<byte>)     // dump_bytes: offset and the bytes in hex
    | PStringLine(offset: nat, text: seq<byte>)     // dump_pstring: offset and the string read
    | IntLine(offset: nat, value: int)             // dump_int
    | ShortLine(offset: nat, value: int)           // dump_short
    | VersionLine(version: int)                    // dump_world_header
    | NameLengthLine(length: nat)                  // dump_world_name
    | NameLine(worldName: seq<byte>)               // dump_world_name
    | RawBlockLine(kind: string)                   // dump_generated_raw_blocks
    | TagBlockLine(kind: string)                   // dump_tag_blocks

  /** The lines written with `dump=True`, which the dump flag can silence. */
  predicate IsDumpLine(l: Line)
  {
    l.BytesLine? || l.PStringLine? || l.IntLine? || l.ShortLine?
  }

  /** A value compared by `expect`: the parser only compares integers and byte strings. */
  datatype Value = IntValue(i: int) | BytesValue(bytes: seq<byte>)

  /** The exceptions the parser raises. */
  datatype Error =
      /** `struct.error`: the format needed `width` bytes and the read returned only `available`. */
    | Truncated(width: nat, available: nat)
      /** Raised by `expect` when the value read differs from the expected one. */
    | Unexpected(expected: Value, got: Value)
      /** Raised by `array_int` when the count is negative or not below the limit. */
    | CountOutOfRange(name: string, limit: int, count: int)

  /** A value, or the exception raised instead of returning one. */
  datatype Result<T> = Ok(value: T) | Err(error: Error) {
    /** The same exception, passed on by a caller whose own result has another type. */
    function Propagate<U>(): Result<U>
      requires Err?
    {
      Err(error)
    }
  }
}
