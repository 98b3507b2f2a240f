/**
 * The parser's primitives (class `Parser` of parse.py) as functions from
 * the parser's state to its next state and result.  The stream is an
 * in-memory byte sequence with a cursor; the destination is the sequence
 * of lines written so far.  The class in module Parse is proved to do
 * exactly what these functions say.
 */
module ParserSpec {
  import opened Codec
  import opened Trace

  /** The stream's bytes and cursor, the `_dump` flag and the lines written. */
  datatype ParserState = ParserState(input: seq<byte>, pos: nat, dumping: bool, lines: seq<Line>)

  /** A state whose cursor lies within the stream (reads never move it beyond the end). */
  type State = s: ParserState | s.pos <= |s.input| witness ParserState([], 0, true, [])

  /** The state after an operation, and its value or the exception it raised. */
  datatype Step<T> = Step(st: State, res: Result<T>)

  /** The default upper bound (exclusive) that `array_int` accepts for a count. */
  const DefaultLimit: int := 0x10000

  /** A fresh parser over `input`: cursor at the start, dumping on, nothing written. */
  function Start(input: seq<byte>): State
  {
    ParserState(input, 0, true, [])
  }

  /** The number of bytes left to read. */
  function Remaining(s: State): nat
  {
    |s.input| - s.pos
  }

  /** The stream holds the bytes `b` at the cursor. */
  predicate At(s: State, b: seq<byte>)
  {
    s.pos + |b| <= |s.input| && s.input[s.pos..s.pos + |b|] == b
  }

  /** `t` follows `s`: same stream and flag, cursor not moved back, lines only appended. */
  predicate Advances(s: State, t: State)
  {
    t.input == s.input && t.dumping == s.dumping && s.pos <= t.pos && s.lines <= t.lines
  }

  /** The value `range(count)` iterates over as many times as this. */
  function Iterations(count: int): nat
  {
    if count < 0 then 0 else count
  }

  // ---------------------------------------------------------------- reading

  /**
   * `read(n)`: never fails; returns the next `n` bytes, or as many as are
   * left, and moves the cursor past them.  A negative `n` reads the rest.
   */
  function Read(s: State, n: int): (r: (State, seq<byte>))
    ensures r.0 == s.(pos := r.0.pos) && s.pos <= r.0.pos
    ensures r.1 == s.input[s.pos..r.0.pos]
    ensures 0 <= n <= Remaining(s) ==> |r.1| == n
    ensures n < 0 || n >= Remaining(s) ==> r.0.pos == |s.input|
  {
    var k := if 0 <= n <= Remaining(s) then n else Remaining(s);
    (s.(pos := s.pos + k), s.input[s.pos..s.pos + k])
  }

  /** `skip(n)`: the cursor moves exactly as for `read(n)`; nothing else changes. */
  function Skip(s: State, n: int): (t: State)
    ensures t == Read(s, n).0
  {
    Read(s, n).0
  }

  /**
   * `parse_struct` for a signed little-endian format of `width` bytes: it
   * fails exactly when fewer than `width` bytes remain, and then the cursor
   * has still been moved to the end of the stream by the short read.
   */
  function ParseStruct(s: State, width: nat): (r: Step<int>)
    requires width > 0
    ensures r.res.Ok? <==> width <= Remaining(s)
    ensures r.res.Ok? ==>
      r.st == s.(pos := s.pos + width) && r.res.value == Decode(s.input[s.pos..s.pos + width])
    ensures r.res.Err? ==>
      r.st == s.(pos := |s.input|) && r.res.error == Truncated(width, Remaining(s))
  {
    var (t, b) := Read(s, width);
    if |b| == width then Step(t, Ok(Decode(b))) else Step(t, Err(Truncated(width, |b|)))
  }

  /** `parse_short`: two bytes as a signed 16-bit value. */
  function ParseShort(s: State): (r: Step<int>)
    ensures r.res.Ok? ==> -0x8000 <= r.res.value < 0x8000 && r.st.pos == s.pos + 2
    ensures r.res.Err? <==> Remaining(s) < 2
  {
    Ranges();
    ParseStruct(s, ShortWidth)
  }

  /** `parse_int`: four bytes as a signed 32-bit value. */
  function ParseInt(s: State): (r: Step<int>)
    ensures r.res.Ok? ==> -0x8000_0000 <= r.res.value < 0x8000_0000 && r.st.pos == s.pos + 4
    ensures r.res.Err? <==> Remaining(s) < 4
  {
    Ranges();
    ParseStruct(s, IntWidth)
  }

  /**
   * `parse_pstring`: a 2-byte length `n`, then `read(n)`.  Only the length
   * can fail.  A length larger than what is left returns the shorter rest,
   * and a negative length reads the rest of the stream.
   */
  function ParsePString(s: State): (r: Step<seq<byte>>)
    ensures r.res.Ok? <==> Remaining(s) >= 2
    ensures r.st == s.(pos := r.st.pos) && s.pos <= r.st.pos
    ensures r.res.Err? ==>
      r.st.pos == |s.input| && r.res.error == Truncated(ShortWidth, Remaining(s))
    ensures r.res.Ok? ==>
      r.st.pos == s.pos + 2 + |r.res.value| && r.res.value == s.input[s.pos + 2..r.st.pos]
    ensures r.res.Ok? ==>
      var n := Decode(s.input[s.pos..s.pos + 2]);
      if 0 <= n <= Remaining(s) - 2 then |r.res.value| == n else r.st.pos == |s.input|
  {
    var p := ParseShort(s);
    if p.res.Err? then Step(p.st, Err(p.res.error))
    else
      var (t, b) := Read(p.st, p.res.value);
      Step(t, Ok(b))
  }

  // ------------------------------------------------------------- validation

  /** `expect(expected, got)`: raises exactly when the two differ, and does nothing else. */
  function Expect(expected: Value, got: Value): (r: Result<()>)
    ensures r.Ok? <==> got == expected
    ensures r.Err? ==> r.error == Unexpected(expected, got)
  {
    if got != expected then Err(Unexpected(expected, got)) else Ok(())
  }

  /** `expect_short`: the field is read first, so the cursor moves even on a mismatch. */
  function ExpectShort(s: State, expected: int): (r: Step<()>)
    ensures r.st == ParseShort(s).st
    ensures r.res.Ok? <==> ParseShort(s).res == Ok(expected)
    ensures ParseShort(s).res.Ok? && r.res.Err? ==>
      r.res.error == Unexpected(IntValue(expected), IntValue(ParseShort(s).res.value))
  {
    var p := ParseShort(s);
    if p.res.Err? then Step(p.st, Err(p.res.error))
    else Step(p.st, Expect(IntValue(expected), IntValue(p.res.value)))
  }

  /** `expect_int`: as `expect_short`, over a 4-byte field. */
  function ExpectInt(s: State, expected: int): (r: Step<()>)
    ensures r.st == ParseInt(s).st
    ensures r.res.Ok? <==> ParseInt(s).res == Ok(expected)
    ensures ParseInt(s).res.Ok? && r.res.Err? ==>
      r.res.error == Unexpected(IntValue(expected), IntValue(ParseInt(s).res.value))
  {
    var p := ParseInt(s);
    if p.res.Err? then Step(p.st, Err(p.res.error))
    else Step(p.st, Expect(IntValue(expected), IntValue(p.res.value)))
  }

  /** `expect_pstring`: as `expect_short`, over a length-prefixed string. */
  function ExpectPString(s: State, expected: seq<byte>): (r: Step<()>)
    ensures r.st == ParsePString(s).st
    ensures r.res.Ok? <==> ParsePString(s).res == Ok(expected)
    ensures ParsePString(s).res.Ok? && r.res.Err? ==>
      r.res.error == Unexpected(BytesValue(expected), BytesValue(ParsePString(s).res.value))
  {
    var p := ParsePString(s);
    if p.res.Err? then Step(p.st, Err(p.res.error))
    else Step(p.st, Expect(BytesValue(expected), BytesValue(p.res.value)))
  }

  /**
   * `expect_bytes`: reads exactly `len(expected)` bytes (fewer at the end of
   * the stream) and succeeds exactly when the stream holds `expected` there.
   */
  function ExpectBytes(s: State, expected: seq<byte>): (r: Step<()>)
    ensures r.st == Read(s, |expected|).0
    ensures r.res.Ok? <==> At(s, expected)
    ensures r.res.Err? ==>
      r.res.error == Unexpected(BytesValue(expected), BytesValue(Read(s, |expected|).1))
  {
    var (t, b) := Read(s, |expected|);
    Step(t, Expect(BytesValue(expected), BytesValue(b)))
  }

  // ------------------------------------------------------------------ output

  /**
   * `output(..., dump)`: a line written with `dump` set appears only while
   * the flag is on; any other line is always written.  Only the lines change.
   */
  function Output(s: State, line: Line, dump: bool): (t: State)
    ensures t == s.(lines := t.lines)
    ensures t.lines == (if s.dumping || !dump then s.lines + [line] else s.lines)
  {
    if s.dumping || !dump then s.(lines := s.lines + [line]) else s
  }

  /** `no_dump`: switches dump lines off and changes nothing else. */
  function NoDump(s: State): (t: State)
    ensures t == s.(dumping := false)
  {
    s.(dumping := false)
  }

  /** `do_dump`: switches dump lines on and changes nothing else. */
  function DoDump(s: State): (t: State)
    ensures t == s.(dumping := true)
  {
    s.(dumping := true)
  }

  // ------------------------------------------------------------ repetitions

  /**
   * `array_int`: reads a 4-byte count and accepts it when `0 <= count < limit`,
   * writing one count line whatever the flag.  A rejected count raises with
   * only the count consumed and no line written, before any element is read.
   */
  function ArrayInt(s: State, name: string, limit: int): (r: Step<nat>)
    ensures r.res.Ok? <==> ParseInt(s).res.Ok? && 0 <= ParseInt(s).res.value < limit
    ensures r.res.Ok? ==>
      r.res.value == ParseInt(s).res.value &&
      r.st == ParseInt(s).st.(lines := s.lines + [CountLine(name, r.res.value)])
    ensures r.res.Err? ==> r.st == ParseInt(s).st
    ensures ParseInt(s).res.Ok? && r.res.Err? ==>
      r.res.error == CountOutOfRange(name, limit, ParseInt(s).res.value)
  {
    var p := ParseInt(s);
    if p.res.Err? then Step(p.st, Err(p.res.error))
    else if 0 <= p.res.value < limit then
      Step(Output(p.st, CountLine(name, p.res.value), false), Ok(p.res.value))
    else Step(p.st, Err(CountOutOfRange(name, limit, p.res.value)))
  }

  /**
   * `array_short`: reads a 2-byte count with no bound and always writes its
   * line; a negative count gives no iterations.
   */
  function ArrayShort(s: State, name: string): (r: Step<nat>)
    ensures r.res.Ok? <==> ParseShort(s).res.Ok?
    ensures r.res.Ok? ==>
      var count := ParseShort(s).res.value;
      r.res.value == Iterations(count) &&
      r.st == ParseShort(s).st.(lines := s.lines + [ShortCountLine(name, count)])
    ensures r.res.Err? ==> r.st == ParseShort(s).st
  {
    var p := ParseShort(s);
    if p.res.Err? then Step(p.st, Err(p.res.error))
    else Step(Output(p.st, ShortCountLine(name, p.res.value), false), Ok(Iterations(p.res.value)))
  }

  // ------------------------------------------------------------ dump lines

  /**
   * `dump_bytes(n)`: the offset is taken before the read; the cursor moves
   * as `read(n)` moves it whether or not dumping is on.
   */
  function DumpBytes(s: State, n: int): (t: State)
    ensures t == Read(s, n).0.(lines := t.lines)
    ensures t.lines == s.lines + (if s.dumping then [BytesLine(s.pos, Read(s, n).1)] else [])
  {
    var (t, b) := Read(s, n);
    Output(t, BytesLine(s.pos, b), true)
  }

  /** `dump_pstring`: as `dump_bytes`, over `parse_pstring`, which may raise. */
  function DumpPString(s: State): (r: Step<()>)
    ensures r.res.Ok? <==> ParsePString(s).res.Ok?
    ensures r.res.Err? ==> r == Step(ParsePString(s).st, Err(ParsePString(s).res.error))
    ensures r.st == ParsePString(s).st.(lines := r.st.lines)
    ensures r.res.Ok? ==>
      r.st.lines == s.lines + (if s.dumping then [PStringLine(s.pos, ParsePString(s).res.value)] else [])
  {
    var p := ParsePString(s);
    if p.res.Err? then Step(p.st, Err(p.res.error))
    else Step(Output(p.st, PStringLine(s.pos, p.res.value), true), Ok(()))
  }

  /** `dump_int`: as `dump_bytes`, over `parse_int`, which may raise. */
  function DumpInt(s: State): (r: Step<()>)
    ensures r.res.Ok? <==> ParseInt(s).res.Ok?
    ensures r.res.Err? ==> r == Step(ParseInt(s).st, Err(ParseInt(s).res.error))
    ensures r.st == ParseInt(s).st.(lines := r.st.lines)
    ensures r.res.Ok? ==>
      r.st.lines == s.lines + (if s.dumping then [IntLine(s.pos, ParseInt(s).res.value)] else [])
  {
    var p := ParseInt(s);
    if p.res.Err? then Step(p.st, Err(p.res.error))
    else Step(Output(p.st, IntLine(s.pos, p.res.value), true), Ok(()))
  }

  /** `dump_short`: as `dump_bytes`, over `parse_short`, which may raise. */
  function DumpShort(s: State): (r: Step<()>)
    ensures r.res.Ok? <==> ParseShort(s).res.Ok?
    ensures r.res.Err? ==> r == Step(ParseShort(s).st, Err(ParseShort(s).res.error))
    ensures r.st == ParseShort(s).st.(lines := r.st.lines)
    ensures r.res.Ok? ==>
      r.st.lines == s.lines + (if s.dumping then [ShortLine(s.pos, ParseShort(s).res.value)] else [])
  {
    var p := ParseShort(s);
    if p.res.Err? then Step(p.st, Err(p.res.error))
    else Step(Output(p.st, ShortLine(s.pos, p.res.value), true), Ok(()))
  }

  // ---------------------------------------------------------------- lemmas

  /** Two consecutive reads of `n` and `m` bytes read what one read of `n + m` reads. */
  lemma ReadConcat(s: State, n: nat, m: nat)
    ensures var (t, a) := Read(s, n);
            var (u, b) := Read(t, m);
            u == Read(s, n + m).0 && a + b == Read(s, n + m).1
  {
    var (t, a) := Read(s, n);
    var (u, b) := Read(t, m);
    assert s.input[s.pos..t.pos] + s.input[t.pos..u.pos] == s.input[s.pos..u.pos];
  }

  /** Parsing a short from its encoding gives it back and consumes exactly two bytes. */
  lemma ParseShortEncoded(s: State, v: int)
    requires InRange(v, ShortWidth) && At(s, Encode(v, ShortWidth))
    ensures ParseShort(s) == Step(s.(pos := s.pos + 2), Ok(v))
  {
    DecodeEncode(v, ShortWidth);
  }

  /** Parsing an int from its encoding gives it back and consumes exactly four bytes. */
  lemma ParseIntEncoded(s: State, v: int)
    requires InRange(v, IntWidth) && At(s, Encode(v, IntWidth))
    ensures ParseInt(s) == Step(s.(pos := s.pos + 4), Ok(v))
  {
    DecodeEncode(v, IntWidth);
  }

  /** The bytes of a length-prefixed string: its length as a short, then the string. */
  function EncodePString(b: seq<byte>): (e: seq<byte>)
    requires InRange(|b|, ShortWidth)
    ensures |e| == 2 + |b| && e[2..] == b
  {
    Encode(|b|, ShortWidth) + b
  }

  /** Parsing an encoded string gives it back and consumes exactly `2 + len` bytes. */
  lemma ParsePStringEncoded(s: State, b: seq<byte>)
    requires InRange(|b|, ShortWidth) && At(s, EncodePString(b))
    ensures ParsePString(s) == Step(s.(pos := s.pos + 2 + |b|), Ok(b))
  {
    var e := EncodePString(b);
    assert s.input[s.pos..s.pos + 2] == e[..2];
    ParseShortEncoded(s, |b|);
    assert s.input[s.pos + 2..s.pos + 2 + |b|] == e[2..];
  }

  /**
   * `dump_pstring` over an encoded string: it succeeds, consumes `2 + len`
   * bytes and, with dumping on, writes the string with the offset of its
   * length prefix.
   */
  lemma DumpPStringEncoded(s: State, b: seq<byte>)
    requires InRange(|b|, ShortWidth) && At(s, EncodePString(b))
    ensures DumpPString(s) ==
      Step(s.(pos := s.pos + 2 + |b|,
              lines := s.lines + (if s.dumping then [PStringLine(s.pos, b)] else [])), Ok(()))
  {
    ParsePStringEncoded(s, b);
  }

  /**
   * `expect_int` over the encoding of `v`: consumes the four bytes and
   * succeeds exactly when `v` is the expected value, else reports both.
   */
  lemma ExpectIntEncoded(s: State, v: int, expected: int)
    requires InRange(v, IntWidth) && At(s, Encode(v, IntWidth))
    ensures ExpectInt(s, expected).st == s.(pos := s.pos + 4)
    ensures ExpectInt(s, expected).res ==
      if v == expected then Ok(()) else Err(Unexpected(IntValue(expected), IntValue(v)))
  {
    ParseIntEncoded(s, v);
  }

  /** `expect_short` over the encoding of `v`, as for `expect_int`. */
  lemma ExpectShortEncoded(s: State, v: int, expected: int)
    requires InRange(v, ShortWidth) && At(s, Encode(v, ShortWidth))
    ensures ExpectShort(s, expected).st == s.(pos := s.pos + 2)
    ensures ExpectShort(s, expected).res ==
      if v == expected then Ok(()) else Err(Unexpected(IntValue(expected), IntValue(v)))
  {
    ParseShortEncoded(s, v);
  }

  /**
   * `array_int` over the encoding of `count`: exactly four bytes are
   * consumed whether or not the count is accepted; an accepted count writes
   * its line and a rejected one writes nothing.  In particular a zero count
   * yields no iterations after exactly the four bytes of the count.
   */
  lemma ArrayIntEncoded(s: State, name: string, limit: int, count: int)
    requires InRange(count, IntWidth) && At(s, Encode(count, IntWidth))
    ensures ArrayInt(s, name, limit).st.pos == s.pos + 4
    ensures 0 <= count < limit ==>
      ArrayInt(s, name, limit) ==
        Step(s.(pos := s.pos + 4, lines := s.lines + [CountLine(name, count)]), Ok(count))
    ensures !(0 <= count < limit) ==>
      ArrayInt(s, name, limit) ==
        Step(s.(pos := s.pos + 4), Err(CountOutOfRange(name, limit, count)))
  {
    ParseIntEncoded(s, count);
  }

  /** `array_short` over the encoding of `count`: always one line; negative counts iterate zero times. */
  lemma ArrayShortEncoded(s: State, name: string, count: int)
    requires InRange(count, ShortWidth) && At(s, Encode(count, ShortWidth))
    ensures ArrayShort(s, name) ==
      Step(s.(pos := s.pos + 2, lines := s.lines + [ShortCountLine(name, count)]),
           Ok(if count < 0 then 0 else count))
  {
    ParseShortEncoded(s, count);
  }

  /**
   * The dump flag never changes what a `dump_*` call reads or raises: run
   * from two states that differ only in the flag and the lines, the cursor
   * and the outcome are the same; only the written line is suppressed.
   */
  lemma DumpIgnoresFlag(s: State, dumping: bool, lines: seq<Line>, n: int)
    ensures var t := s.(dumping := dumping, lines := lines);
      && DumpBytes(t, n).pos == DumpBytes(s, n).pos
      && DumpPString(t).st.pos == DumpPString(s).st.pos && DumpPString(t).res == DumpPString(s).res
      && DumpInt(t).st.pos == DumpInt(s).st.pos && DumpInt(t).res == DumpInt(s).res
      && DumpShort(t).st.pos == DumpShort(s).st.pos && DumpShort(t).res == DumpShort(s).res
  {
  }
}
