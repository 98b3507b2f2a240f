/**
 * Class `Parser` of parse.py: a forward-only cursor over a byte stream that
 * writes lines to a destination.  The stream is an in-memory byte sequence
 * with a position, the destination a growing sequence of lines.  Every
 * method is proved to move the object from `old(State())` to the state the
 * matching function of ParserSpec gives, and to return its result.
 */
module Parse {
  import opened Codec
  import opened Trace
  import Spec = ParserSpec

  class Parser {
    /** The bytes of the stream being parsed. */
    const input: seq<byte>
    /** The stream position (`tell()`). */
    var pos: nat
    /** The `_dump` flag: whether lines written with `dump=True` appear. */
    var dumping: bool
    /** The lines written to the destination so far, oldest first. */
    var lines: seq<Line>

    ghost predicate Valid()
      reads this
    {
      pos <= |input|
    }

    /** The object's state as ParserSpec sees it. */
    function State(): Spec.State
      reads this
      requires Valid()
    {
      Spec.ParserState(input, pos, dumping, lines)
    }

    /** `__init__`: dumping starts switched on. */
    constructor (input: seq<byte>)
      ensures Valid() && State() == Spec.Start(input)
    {
      this.input := input;
      pos := 0;
      dumping := true;
      lines := [];
    }

    method NoDump()
      requires Valid()
      modifies this
      ensures Valid() && State() == Spec.NoDump(old(State()))
    {
      dumping := false;
    }

    method DoDump()
      requires Valid()
      modifies this
      ensures Valid() && State() == Spec.DoDump(old(State()))
    {
      dumping := true;
    }

    method Output(line: Line, dump: bool)
      requires Valid()
      modifies this
      ensures Valid() && State() == Spec.Output(old(State()), line, dump)
    {
      if dumping || !dump {
        lines := lines + [line];
      }
    }

    method Read(n: int) returns (b: seq<byte>)
      requires Valid()
      modifies this
      ensures Valid() && (State(), b) == Spec.Read(old(State()), n)
    {
      var k := if 0 <= n <= |input| - pos then n else |input| - pos;
      b := input[pos..pos + k];
      pos := pos + k;
    }

    method Skip(n: int)
      requires Valid()
      modifies this
      ensures Valid() && State() == Spec.Skip(old(State()), n)
    {
      var _ := Read(n);
    }

    /** `tell()`: the offset of the next byte to be read. */
    method Tell() returns (offset: nat)
      requires Valid()
      ensures offset == pos && offset <= |input|
    {
      offset := pos;
    }

    method ParseStruct(width: nat) returns (r: Result<int>)
      requires Valid() && width > 0
      modifies this
      ensures Valid() && Spec.Step(State(), r) == Spec.ParseStruct(old(State()), width)
    {
      var b := Read(width);
      if |b| == width {
        r := Ok(Decode(b));
      } else {
        r := Err(Truncated(width, |b|));
      }
    }

    method ParseShort() returns (r: Result<int>)
      requires Valid()
      modifies this
      ensures Valid() && Spec.Step(State(), r) == Spec.ParseShort(old(State()))
    {
      r := ParseStruct(ShortWidth);
    }

    method ParseInt() returns (r: Result<int>)
      requires Valid()
      modifies this
      ensures Valid() && Spec.Step(State(), r) == Spec.ParseInt(old(State()))
    {
      r := ParseStruct(IntWidth);
    }

    method ParsePString() returns (r: Result<seq<byte>>)
      requires Valid()
      modifies this
      ensures Valid() && Spec.Step(State(), r) == Spec.ParsePString(old(State()))
    {
      var n := ParseShort();
      if n.Err? {
        return Err(n.error);
      }
      var b := Read(n.value);
      r := Ok(b);
    }

    method ExpectPString(expected: seq<byte>) returns (r: Result<()>)
      requires Valid()
      modifies this
      ensures Valid() && Spec.Step(State(), r) == Spec.ExpectPString(old(State()), expected)
    {
      var got := ParsePString();
      if got.Err? {
        return Err(got.error);
      }
      r := Spec.Expect(BytesValue(expected), BytesValue(got.value));
    }

    method ExpectInt(expected: int) returns (r: Result<()>)
      requires Valid()
      modifies this
      ensures Valid() && Spec.Step(State(), r) == Spec.ExpectInt(old(State()), expected)
    {
      var got := ParseInt();
      if got.Err? {
        return Err(got.error);
      }
      r := Spec.Expect(IntValue(expected), IntValue(got.value));
    }

    method ExpectShort(expected: int) returns (r: Result<()>)
      requires Valid()
      modifies this
      ensures Valid() && Spec.Step(State(), r) == Spec.ExpectShort(old(State()), expected)
    {
      var got := ParseShort();
      if got.Err? {
        return Err(got.error);
      }
      r := Spec.Expect(IntValue(expected), IntValue(got.value));
    }

    method ExpectBytes(expected: seq<byte>) returns (r: Result<()>)
      requires Valid()
      modifies this
      ensures Valid() && Spec.Step(State(), r) == Spec.ExpectBytes(old(State()), expected)
    {
      var got := Read(|expected|);
      r := Spec.Expect(BytesValue(expected), BytesValue(got));
    }

    /** `array_int`: returns the number of iterations of the range it would return. */
    method ArrayInt(name: string, limit: int) returns (r: Result<nat>)
      requires Valid()
      modifies this
      ensures Valid() && Spec.Step(State(), r) == Spec.ArrayInt(old(State()), name, limit)
    {
      var count := ParseInt();
      if count.Err? {
        return Err(count.error);
      }
      if 0 <= count.value < limit {
        Output(CountLine(name, count.value), false);
        r := Ok(count.value);
      } else {
        r := Err(CountOutOfRange(name, limit, count.value));
      }
    }

    /** `array_short`: returns the number of iterations of the range it would return. */
    method ArrayShort(name: string) returns (r: Result<nat>)
      requires Valid()
      modifies this
      ensures Valid() && Spec.Step(State(), r) == Spec.ArrayShort(old(State()), name)
    {
      var count := ParseShort();
      if count.Err? {
        return Err(count.error);
      }
      Output(ShortCountLine(name, count.value), false);
      r := Ok(Spec.Iterations(count.value));
    }

    method DumpBytes(n: int)
      requires Valid()
      modifies this
      ensures Valid() && State() == Spec.DumpBytes(old(State()), n)
    {
      var offset := Tell();
      var b := Read(n);
      Output(BytesLine(offset, b), true);
    }

    method DumpPString() returns (r: Result<()>)
      requires Valid()
      modifies this
      ensures Valid() && Spec.Step(State(), r) == Spec.DumpPString(old(State()))
    {
      var offset := Tell();
      var text := ParsePString();
      if text.Err? {
        return Err(text.error);
      }
      Output(PStringLine(offset, text.value), true);
      r := Ok(());
    }

    method DumpInt() returns (r: Result<()>)
      requires Valid()
      modifies this
      ensures Valid() && Spec.Step(State(), r) == Spec.DumpInt(old(State()))
    {
      var offset := Tell();
      var value := ParseInt();
      if value.Err? {
        return Err(value.error);
      }
      Output(IntLine(offset, value.value), true);
      r := Ok(());
    }

    method DumpShort() returns (r: Result<()>)
      requires Valid()
      modifies this
      ensures Valid() && Spec.Step(State(), r) == Spec.DumpShort(old(State()))
    {
      var offset := Tell();
      var value := ParseShort();
      if value.Err? {
        return Err(value.error);
      }
      Output(ShortLine(offset, value.value), true);
      r := Ok(());
    }
  }
}
