# world.dat parser core, modelled in Dafny

This project models the `Parser` class of `parse.py`. `Parser` decodes the
`world.dat` save file with a forward-only cursor. It covers:

- little-endian signed 16-bit (`parse_short`) and 32-bit (`parse_int`) fields, read through `parse_struct`;
- length-prefixed byte strings (`parse_pstring`);
- `expect_*` checks, which read a field and then compare it with a constant;
- the count readers `array_int` (bounded) and `array_short` (unbounded);
- the line output channel, where `no_dump`/`do_dump` silence the lines written with `dump=True`.

It also models the helpers of `WorldDatParser` that read the file header, the
world name, the generated raw blocks and the tag blocks, and the opening of
`dump()` that runs these helpers with dump lines switched off.

The model has five modules:

- `Codec` (codec.dfy) has the integer decoding done by `struct.unpack('<h')`
  and `struct.unpack('<i')`, and the encoding that inverts it. Both round
  trips are proved.
- `Trace` (trace.dfy) defines the lines, the compared values, the exceptions
  and a `Result` type that stands for "returned a value or raised".
- `ParserSpec` (parser_spec.dfy) gives every `Parser` operation as a pure
  function from a state to the next state and a result. The state holds the
  stream bytes, the cursor, the dump flag and the lines written so far. Each
  function's contract states what the operation promises. Lemmas prove what
  each operation does on encoded input.
- `Parse` (parser.dfy) has the class `Parser`. Its fields are the stream,
  `pos`, `dumping` and `lines`. Each method changes these fields in place and
  is proved to reach exactly the state and result of the `ParserSpec`
  function of the same name. `Tell` has no such function: it changes
  nothing, so its contract states its result directly.
- `WorldDat` (world_dat.dfy) gives the `WorldDatParser` helpers as recursive
  functions and lemmas. For well-formed blocks, built by encoding lists of
  strings, lemmas state exactly where the cursor ends and which lines are
  written. It also has methods over a `Parser` whose nested
  loops are proved to compute those functions.

The stream is an in-memory byte sequence with a position. The destination is
a sequence of structured lines. A raised exception is an `Err` result, and
the parser's state stays as the failed call left it: bytes already read stay
consumed, as they do in the source.

## Model

| member | source | states |
|---|---|---|
| Codec.Unsigned | parse.py:30-31 | the unsigned little-endian value of `n` bytes is below 256^n |
| Codec.FromUnsigned | parse.py:30-31 | encoding an unsigned value at width `n` gives exactly `n` bytes |
| Codec.ToSigned | parse.py:30-31 | the two's-complement reading lies in the signed range and is negative exactly when the sign bit is set |
| Codec.ToUnsigned | parse.py:30-31 | the unsigned form of a signed value fits the width, and reading it back as signed gives the value again |
| Codec.Decode | parse.py:33-37 | decoding a field of `n` bytes gives a value in the signed range of that width |
| Codec.Encode | parse.py:33-37 | encoding at width `n` gives exactly `n` bytes |
| Codec.UnsignedOfFromUnsigned | parse.py:30-31 | reading back the bytes written for an unsigned value gives that value |
| Codec.FromUnsignedOfUnsigned | parse.py:30-31 | writing the value read from any bytes gives those bytes back |
| Codec.DecodeEncode | parse.py:33-37 | encoding a signed value and then decoding it gives the value back, at every width |
| Codec.EncodeDecode | parse.py:33-37 | decoding any bytes and then encoding the result gives the same bytes, so no two fields decode alike |
| Codec.Ranges | parse.py:33-37 | a short holds values in [-0x8000, 0x8000) and an int holds values in [-0x8000_0000, 0x8000_0000) |
| ParserSpec.Read | parse.py:21-22 | never fails; changes only the cursor; returns exactly the bytes between the old and new cursor; returns `n` bytes when that many remain and otherwise stops at the end; a negative count reads the rest |
| ParserSpec.Skip | parse.py:24-25 | moves the cursor exactly as `read(n)` does and changes nothing else |
| ParserSpec.ParseStruct | parse.py:30-31 | fails exactly when fewer than `width` bytes remain, and the error reports the width and the bytes left; on success it consumes exactly `width` bytes and returns their signed value; on failure the cursor is at the end |
| ParserSpec.ParseShort | parse.py:33-34 | on success the value is a signed 16-bit value and exactly 2 bytes are consumed; fails exactly when fewer than 2 bytes remain |
| ParserSpec.ParseInt | parse.py:36-37 | on success the value is a signed 32-bit value and exactly 4 bytes are consumed; fails exactly when fewer than 4 bytes remain |
| ParserSpec.ParsePString | parse.py:39-41 | fails exactly when the 2-byte length is missing; on success the value is the bytes after the length and the cursor moves by 2 plus its size; a length in range gives exactly that many bytes; a too-large or negative length reads to the end |
| ParserSpec.Expect | parse.py:43-45 | fails exactly when the value read differs from the expected one, and then reports both values |
| ParserSpec.ExpectPString | parse.py:47-48 | leaves the cursor where `parse_pstring` leaves it, even on a mismatch; succeeds exactly when the string read equals the expected one |
| ParserSpec.ExpectInt | parse.py:50-51 | leaves the cursor where `parse_int` leaves it, even on a mismatch; succeeds exactly when the int read equals the expected one |
| ParserSpec.ExpectShort | parse.py:53-54 | leaves the cursor where `parse_short` leaves it, even on a mismatch; succeeds exactly when the short read equals the expected one |
| ParserSpec.ExpectBytes | parse.py:56-57 | reads `len(expected)` bytes, or fewer at the end; succeeds exactly when the stream holds the expected bytes at the cursor |
| ParserSpec.Output | parse.py:16-19 | a line written with `dump` set is appended only while dumping is on; any other line is always appended; nothing but the lines changes |
| ParserSpec.NoDump | parse.py:10-11 | only the dump flag changes, to off |
| ParserSpec.DoDump | parse.py:13-14 | only the dump flag changes, to on |
| ParserSpec.ArrayInt | parse.py:59-66 | accepts exactly when the int read satisfies `0 <= count < limit`; on acceptance it writes one count line whatever the flag and returns the count; on rejection it raises the out-of-range error with no line written and only the count consumed |
| ParserSpec.ArrayShort | parse.py:68-71 | no bound check; always writes one line with the raw count; returns the number of iterations, which is zero for a negative count |
| ParserSpec.DumpBytes | parse.py:73-74 | moves the cursor as `read(n)` does whatever the flag; while dumping, appends one line with the offset taken before the read and the bytes read |
| ParserSpec.DumpPString | parse.py:76-77 | has the cursor and outcome of `parse_pstring` whatever the flag; on success while dumping, appends one line with the offset taken before the read |
| ParserSpec.DumpInt | parse.py:79-80 | has the cursor and outcome of `parse_int` whatever the flag; on success while dumping, appends one line with the offset taken before the read |
| ParserSpec.DumpShort | parse.py:82-83 | has the cursor and outcome of `parse_short` whatever the flag; on success while dumping, appends one line with the offset taken before the read |
| ParserSpec.ReadConcat | parse.py:21-22 | a read of `n` bytes followed by a read of `m` bytes returns the same bytes and cursor as one read of `n + m` |
| ParserSpec.ParseShortEncoded | parse.py:33-34 | parsing the encoding of any short returns it and consumes exactly 2 bytes |
| ParserSpec.ParseIntEncoded | parse.py:36-37 | parsing the encoding of any int returns it and consumes exactly 4 bytes |
| ParserSpec.EncodePString | parse.py:39-41 | an encoded string is 2 bytes longer than the string and ends with the string itself |
| ParserSpec.ParsePStringEncoded | parse.py:39-41 | parsing an encoded string returns it and consumes exactly 2 plus its length |
| ParserSpec.DumpPStringEncoded | parse.py:76-77 | over an encoded string, `dump_pstring` succeeds, consumes exactly 2 plus its length, and writes the string with the offset of its length prefix exactly when dumping is on |
| ParserSpec.ExpectIntEncoded | parse.py:50-51 | over an encoded value, `expect_int` consumes 4 bytes; it succeeds exactly when the value is the expected one, and otherwise reports both values |
| ParserSpec.ExpectShortEncoded | parse.py:53-54 | over an encoded value, `expect_short` consumes 2 bytes; it succeeds exactly when the value is the expected one, and otherwise reports both values |
| ParserSpec.ArrayIntEncoded | parse.py:59-66 | over an encoded count, exactly 4 bytes are consumed whether or not the count is accepted; an accepted count writes its line; a rejected one raises the out-of-range error and writes nothing; a zero count gives zero iterations |
| ParserSpec.ArrayShortEncoded | parse.py:68-71 | over an encoded count, exactly 2 bytes are consumed and the count line is written; a negative count gives zero iterations |
| ParserSpec.DumpIgnoresFlag | parse.py:73-83 | states that differ only in dump flag and lines give every `dump_*` call the same cursor and the same outcome |
| Parse.Parser.constructor | parse.py:5-8 | a new parser is at offset 0 with dumping on and no lines written |
| Parse.Parser.NoDump | parse.py:10-11 | the new state is `ParserSpec.NoDump` of the old one |
| Parse.Parser.DoDump | parse.py:13-14 | the new state is `ParserSpec.DoDump` of the old one |
| Parse.Parser.Output | parse.py:16-19 | the new state is `ParserSpec.Output` of the old one |
| Parse.Parser.Read | parse.py:21-22 | the new state and the bytes returned are those of `ParserSpec.Read` |
| Parse.Parser.Skip | parse.py:24-25 | the new state is `ParserSpec.Skip` of the old one |
| Parse.Parser.Tell | parse.py:27-28 | returns the current offset, which lies within the stream |
| Parse.Parser.ParseStruct | parse.py:30-31 | the new state and the result are those of `ParserSpec.ParseStruct` |
| Parse.Parser.ParseShort | parse.py:33-34 | the new state and the result are those of `ParserSpec.ParseShort` |
| Parse.Parser.ParseInt | parse.py:36-37 | the new state and the result are those of `ParserSpec.ParseInt` |
| Parse.Parser.ParsePString | parse.py:39-41 | the new state and the result are those of `ParserSpec.ParsePString` |
| Parse.Parser.ExpectPString | parse.py:47-48 | the new state and the result are those of `ParserSpec.ExpectPString` |
| Parse.Parser.ExpectInt | parse.py:50-51 | the new state and the result are those of `ParserSpec.ExpectInt` |
| Parse.Parser.ExpectShort | parse.py:53-54 | the new state and the result are those of `ParserSpec.ExpectShort` |
| Parse.Parser.ExpectBytes | parse.py:56-57 | the new state and the result are those of `ParserSpec.ExpectBytes` |
| Parse.Parser.ArrayInt | parse.py:59-66 | the new state and the iteration count are those of `ParserSpec.ArrayInt` |
| Parse.Parser.ArrayShort | parse.py:68-71 | the new state and the iteration count are those of `ParserSpec.ArrayShort` |
| Parse.Parser.DumpBytes | parse.py:73-74 | the new state is `ParserSpec.DumpBytes` of the old one |
| Parse.Parser.DumpPString | parse.py:76-77 | the new state and the result are those of `ParserSpec.DumpPString` |
| Parse.Parser.DumpInt | parse.py:79-80 | the new state and the result are those of `ParserSpec.DumpInt` |
| Parse.Parser.DumpShort | parse.py:82-83 | the new state and the result are those of `ParserSpec.DumpShort` |
| WorldDat.WorldHeader | parse.py:180-183 | fails exactly when the 2-byte version is missing; otherwise consumes 2 + 168 bytes, or stops at the end of a shorter stream without failing, and writes only the version line whatever the flag |
| WorldDat.WorldName | parse.py:185-188 | has the cursor and outcome of `parse_pstring`; on success writes the name's length and then the name, whatever the flag |
| WorldDat.PStrings | parse.py:198-199 | never moves the cursor back and only appends lines; with dumping off it writes no line at all |
| WorldDat.TagBlock | parse.py:196-199 | never moves the cursor back; the first line it writes is the block's heading, whatever the outcome |
| WorldDat.TagBlocks | parse.py:190-199 | never moves the cursor back, keeps the flag and only appends lines |
| WorldDat.RawList | parse.py:177-178 | one raw list never moves the cursor back, keeps the flag and only appends lines |
| WorldDat.RawLists | parse.py:176-178 | never moves the cursor back, keeps the flag and only appends lines |
| WorldDat.RawBlock | parse.py:174-178 | never moves the cursor back; the first line it writes is the block's heading, whatever the outcome |
| WorldDat.RawBlocks | parse.py:171-178 | never moves the cursor back, keeps the flag and only appends lines |
| WorldDat.Prologue | parse.py:86-93 | never moves the cursor back and only appends lines; dumping is back on exactly when every helper succeeded |
| WorldDat.QuietTagBlock | parse.py:196-199 | with dumping off, a tag block writes no dump line |
| WorldDat.QuietTagBlocks | parse.py:190-199 | with dumping off, the tag blocks write no dump line |
| WorldDat.QuietRawLists | parse.py:176-178 | with dumping off, raw lists write no dump line |
| WorldDat.QuietRawBlock | parse.py:174-178 | with dumping off, a raw block writes no dump line |
| WorldDat.QuietRawBlocks | parse.py:171-178 | with dumping off, the raw blocks write no dump line |
| WorldDat.QuietPrologue | parse.py:86-93 | the opening of `dump()` writes no dump line, whatever the input and whether or not it fails |
| WorldDat.EmptyTagBlock | parse.py:196-199 | a tag block whose count is zero succeeds, consumes exactly the 4 count bytes and writes its heading and a zero count line |
| WorldDat.EmptyTagBlocks | parse.py:190-199 | tag blocks whose counts are all zero succeed, consume exactly 4 bytes per kind, and write each heading followed by its zero count line |
| WorldDat.PStringsEncoded | parse.py:198-199 | over `n` encoded strings, `n` string dumps succeed, leave the cursor right after the last string, and, when dumping, write each string with the offset of its length prefix, in order; with dumping off they write nothing |
| WorldDat.TagBlockEncoded | parse.py:196-199 | over a count below 0x10000 and that many encoded strings, a tag block succeeds, consumes exactly the count and the strings, and writes its heading, the count line and, when dumping, each string at its offset |
| WorldDat.TagBlocksEncoded | parse.py:190-199 | over one encoded block per kind, the tag blocks succeed, leave the cursor right after the last block, and write for each kind in order its heading, its count and, when dumping, its strings at their offsets |
| WorldDat.RawListEncoded | parse.py:177-178 | over a count below 0x10000 and that many encoded strings, a raw list succeeds, consumes exactly the count and the strings, and writes the count line and, when dumping, each string at its offset |
| WorldDat.RawListsEncoded | parse.py:176-178 | over encoded raw lists, the lists succeed, leave the cursor right after the last one, and write for each list in order its count and, when dumping, its strings |
| WorldDat.RawBlockEncoded | parse.py:174-178 | over a count below 0x10000 and that many encoded raw lists, a raw block succeeds, consumes exactly its bytes, and writes its heading, the count line and the lists' lines |
| WorldDat.RawBlocksEncoded | parse.py:171-178 | over one encoded raw block per kind, the raw blocks succeed, leave the cursor right after the last block, and write for each kind in order its heading, its count and its lists' lines |
| WorldDat.DumpWorldHeader | parse.py:180-183 | the parser's new state and the result are those of `WorldDat.WorldHeader` |
| WorldDat.DumpWorldName | parse.py:185-188 | the parser's new state and the result are those of `WorldDat.WorldName` |
| WorldDat.DumpPStrings | parse.py:198-199 | the loop of string dumps reaches the state and result of `WorldDat.PStrings` |
| WorldDat.DumpTagBlocks | parse.py:190-199 | the nested loops reach the state and result of `WorldDat.TagBlocks` over the 20 tag kinds |
| WorldDat.DumpTagBlock | parse.py:197-199 | the body of the loop over tag kinds reaches the state and result of `WorldDat.TagBlock` |
| WorldDat.DumpTagBlocksOf | parse.py:196-199 | the loop over any list of kinds reaches the state and result of `WorldDat.TagBlocks` over that list |
| WorldDat.DumpRawList | parse.py:177-178 | reading one raw list reaches the state and result of `WorldDat.RawList` |
| WorldDat.DumpRawLists | parse.py:176-178 | the loop reaches the state and result of `WorldDat.RawLists` |
| WorldDat.DumpRawBlock | parse.py:175-178 | the body of the loop over raw kinds reaches the state and result of `WorldDat.RawBlock` |
| WorldDat.DumpRawBlocksOf | parse.py:174-178 | the loop over any list of kinds reaches the state and result of `WorldDat.RawBlocks` over that list |
| WorldDat.DumpGeneratedRawBlocks | parse.py:171-178 | the nested loops reach the state and result of `WorldDat.RawBlocks` over the 4 raw kinds |
| WorldDat.DumpPrologue | parse.py:86-93 | reaches the state and result of `WorldDat.Prologue` over the fixed raw and tag kinds |

## Left out

- `main` (parse.py:201-208): it reads the command-line argument and opens the file. This is process glue.
- The file object and `write`/`flush` on the destination are I/O. The stream is a byte sequence with a position. The destination is a sequence of lines that only grows.
- Text formatting: lines are records (kind, offset, value). The `%` formatting and the hex rendering of bytes are not modelled.
- ParserSpec.DumpPString: the `.decode()` (UTF-8) of the string is not modelled. The line carries the raw bytes. The model therefore does not raise on invalid UTF-8, but the source does, after the string is consumed and even with dumping off.
- WorldDat.WorldName: the `decode('CP437')` of the name is not modelled. The line carries the raw bytes. CP437 maps every byte, so no failure is lost.
- ParserSpec.Read: a negative count reads the rest of the stream. An in-memory stream behaves this way. The buffered file object that `main` opens accepts only -1 and rejects smaller counts with `ValueError`. That error is not modelled. A negative count can only come from `parse_pstring`.
- `array_int` and `array_short` return a `range`. The model returns its number of iterations, because callers only iterate over it.
- `struct.Struct` objects: only the two formats the parser uses ('<h' and '<i') are modelled, as a signed width.
- The body of `WorldDatParser.dump` after its opening (parse.py:94-160) is one file version's magic strings and repeat counts. The commented-out splitting code (parse.py:162-169) does not run. Only the opening (parse.py:87-93) is modelled, with the kind lists passed to `WorldDat.Prologue` as parameters.
- `WorldDatParser` is a subclass of `Parser`. Its helpers are modelled as methods that take a `Parser`. `DumpPStrings`, `DumpRawList`, `DumpRawLists`, `DumpTagBlock` and `DumpRawBlock` are the source's inner loops and loop bodies, split out as methods. `DumpTagBlocksOf` and `DumpRawBlocksOf` are the outer loops over a list of kinds; `DumpTagBlocks` and `DumpGeneratedRawBlocks` pass them the source's fixed lists.
- Exception messages are structured `Trace.Error` values, not text.
