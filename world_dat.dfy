/**
 * The helpers of class `WorldDatParser` in parse.py that read the first
 * blocks of a world.dat file: the header, the world name, the generated
 * raw blocks and the tag blocks, and the opening of `dump()` that runs them
 * with dump lines switched off.  Each is a recursive function over
 * ParserSpec states, and a method over a `Parse.Parser` whose loops are
 * proved to compute it.
 */
module WorldDat {
  import opened Codec
  import opened Trace
  import opened ParserSpec
  import Parse

  /** The bytes `dump_world_header` skips after the version. */
  const HeaderPadding: nat := 168

  /** The kinds of generated raw block, in file order. */
  const RawKinds: seq<string> :=
    ["inorganic_generated", "unknown layer", "creature_layer", "interaction_layer"]

  /** The kinds of tag block, in file order. */
  const TagKinds: seq<string> :=
    ["Material", "Plant", "Body1", "Body2", "Creature", "Item", "Workshop", "EntityCiv",
     "Word", "NameTag", "MainCiv", "Color1", "Shape", "Color2", "Reaction",
     "MaterialTemplate", "TissueTemplate", "BodyDetailPlan", "CreatureVariation",
     "Interaction"]

  // ---------------------------------------------------------- specification

  /**
   * `dump_world_header`: a version short, then 168 skipped bytes, then the
   * version line (written even with dumping off).  Only the version can
   * fail; a stream that ends inside the padding still succeeds.
   */
  function WorldHeader(s: State): (r: Step<()>)
    ensures Advances(s, r.st)
    ensures r.res.Ok? <==> Remaining(s) >= 2
    ensures r.res.Err? ==> r.st == s.(pos := |s.input|)
    ensures r.res.Ok? ==>
      r.st == s.(pos := if Remaining(s) >= 2 + HeaderPadding then s.pos + 2 + HeaderPadding else |s.input|,
                 lines := s.lines + [VersionLine(Decode(s.input[s.pos..s.pos + 2]))])
  {
    var v := ParseShort(s);
    if v.res.Err? then Step(v.st, Err(v.res.error))
    else Step(Output(Skip(v.st, HeaderPadding), VersionLine(v.res.value), false), Ok(()))
  }

  /**
   * `dump_world_name`: a length-prefixed name, then two lines (its length
   * and the name) that are written even with dumping off.
   */
  function WorldName(s: State): (r: Step<()>)
    ensures Advances(s, r.st)
    ensures r.res.Ok? <==> ParsePString(s).res.Ok?
    ensures r.res.Err? ==> r.st == ParsePString(s).st
    ensures r.res.Ok? ==>
      var name := ParsePString(s).res.value;
      r.st == ParsePString(s).st.(lines := s.lines + [NameLengthLine(|name|), NameLine(name)])
  {
    var name := ParsePString(s);
    if name.res.Err? then Step(name.st, Err(name.res.error))
    else
      var t := Output(name.st, NameLengthLine(|name.res.value|), false);
      Step(Output(t, NameLine(name.res.value), false), Ok(()))
  }

  /** `count` successive `dump_pstring` calls, stopping at the first that raises. */
  function PStrings(s: State, count: nat): (r: Step<()>)
    ensures Advances(s, r.st)
    ensures !s.dumping ==> r.st.lines == s.lines
    decreases count
  {
    if count == 0 then Step(s, Ok(()))
    else
      var d := DumpPString(s);
      if d.res.Err? then d else PStrings(d.st, count - 1)
  }

  /** One tag block: its heading line, a bounded count, then that many strings. */
  function TagBlock(s: State, kind: string): (r: Step<()>)
    ensures Advances(s, r.st) && |r.st.lines| > |s.lines|
    ensures r.st.lines[|s.lines|] == TagBlockLine(kind)
  {
    var a := ArrayInt(Output(s, TagBlockLine(kind), false), "Tag", DefaultLimit);
    if a.res.Err? then Step(a.st, Err(a.res.error)) else PStrings(a.st, a.res.value)
  }

  /** `dump_tag_blocks` over `kinds`: one tag block per kind, stopping at the first failure. */
  function TagBlocks(s: State, kinds: seq<string>): (r: Step<()>)
    ensures Advances(s, r.st)
    decreases |kinds|
  {
    if kinds == [] then Step(s, Ok(()))
    else
      var b := TagBlock(s, kinds[0]);
      if b.res.Err? then b else TagBlocks(b.st, kinds[1..])
  }

  /** One raw list: a bounded count, then that many strings. */
  function RawList(s: State): (r: Step<()>)
    ensures Advances(s, r.st)
  {
    var a := ArrayInt(s, "Raw", DefaultLimit);
    if a.res.Err? then Step(a.st, Err(a.res.error)) else PStrings(a.st, a.res.value)
  }

  /** `count` raw lists, stopping at the first failure. */
  function RawLists(s: State, count: nat): (r: Step<()>)
    ensures Advances(s, r.st)
    decreases count
  {
    if count == 0 then Step(s, Ok(()))
    else
      var l := RawList(s);
      if l.res.Err? then l else RawLists(l.st, count - 1)
  }

  /** One generated raw block: its heading line, a bounded count, then that many raw lists. */
  function RawBlock(s: State, kind: string): (r: Step<()>)
    ensures Advances(s, r.st) && |r.st.lines| > |s.lines|
    ensures r.st.lines[|s.lines|] == RawBlockLine(kind)
  {
    var a := ArrayInt(Output(s, RawBlockLine(kind), false), "Raw block", DefaultLimit);
    if a.res.Err? then Step(a.st, Err(a.res.error)) else RawLists(a.st, a.res.value)
  }

  /** `dump_generated_raw_blocks` over `kinds`: one raw block per kind, stopping at the first failure. */
  function RawBlocks(s: State, kinds: seq<string>): (r: Step<()>)
    ensures Advances(s, r.st)
    decreases |kinds|
  {
    if kinds == [] then Step(s, Ok(()))
    else
      var b := RawBlock(s, kinds[0]);
      if b.res.Err? then b else RawBlocks(b.st, kinds[1..])
  }

  /**
   * The opening of `dump()`: dumping off, header, name, raw blocks of the
   * `rawKinds` and tag blocks of the `tagKinds`, then dumping back on.  A
   * failure leaves dumping off.
   */
  function Prologue(s: State, rawKinds: seq<string>, tagKinds: seq<string>): (r: Step<()>)
    ensures r.st.input == s.input && s.pos <= r.st.pos && s.lines <= r.st.lines
    ensures r.st.dumping <==> r.res.Ok?
  {
    var h := WorldHeader(NoDump(s));
    if h.res.Err? then h
    else
      var n := WorldName(h.st);
      if n.res.Err? then n
      else
        var g := RawBlocks(n.st, rawKinds);
        if g.res.Err? then g
        else
          var t := TagBlocks(g.st, tagKinds);
          if t.res.Err? then t else Step(DoDump(t.st), Ok(()))
  }

  // ------------------------------------------------------------------ lemmas

  /** No line written between `s` and `t` is a dump line. */
  ghost predicate Quiet(s: State, t: State)
    requires s.lines <= t.lines
  {
    forall i | |s.lines| <= i < |t.lines| :: !IsDumpLine(t.lines[i])
  }

  /** Two quiet stretches in a row make one. */
  lemma QuietTrans(s: State, t: State, u: State)
    requires s.lines <= t.lines <= u.lines && Quiet(s, t) && Quiet(t, u)
    ensures Quiet(s, u)
  {
  }

  /**
   * With dumping off, a tag block writes no dump line; `TagBlockEncoded`
   * says which lines it does write.
   */
  lemma QuietTagBlock(s: State, kind: string)
    requires !s.dumping
    ensures Quiet(s, TagBlock(s, kind).st)
  {
    var o := Output(s, TagBlockLine(kind), false);
    var a := ArrayInt(o, "Tag", DefaultLimit);
    assert Quiet(s, a.st);
  }

  /** With dumping off, the tag blocks write no dump line (`TagBlocksEncoded` lists the lines). */
  lemma {:induction false} QuietTagBlocks(s: State, kinds: seq<string>)
    requires !s.dumping
    ensures Quiet(s, TagBlocks(s, kinds).st)
    decreases |kinds|
  {
    if kinds != [] {
      var b := TagBlock(s, kinds[0]);
      QuietTagBlock(s, kinds[0]);
      if b.res.Ok? {
        QuietTagBlocks(b.st, kinds[1..]);
        QuietTrans(s, b.st, TagBlocks(b.st, kinds[1..]).st);
      }
    }
  }

  /** With dumping off, raw lists write no dump line (`RawListsEncoded` lists the lines). */
  lemma {:induction false} QuietRawLists(s: State, count: nat)
    requires !s.dumping
    ensures Quiet(s, RawLists(s, count).st)
    decreases count
  {
    if count > 0 {
      var l := RawList(s);
      var a := ArrayInt(s, "Raw", DefaultLimit);
      assert Quiet(s, l.st);
      if l.res.Ok? {
        QuietRawLists(l.st, count - 1);
        QuietTrans(s, l.st, RawLists(l.st, count - 1).st);
      }
    }
  }

  /** With dumping off, a raw block writes no dump line (`RawBlockEncoded` lists the lines). */
  lemma QuietRawBlock(s: State, kind: string)
    requires !s.dumping
    ensures Quiet(s, RawBlock(s, kind).st)
  {
    var o := Output(s, RawBlockLine(kind), false);
    var a := ArrayInt(o, "Raw block", DefaultLimit);
    assert Quiet(s, a.st);
    if a.res.Ok? {
      QuietRawLists(a.st, a.res.value);
    }
  }

  /** With dumping off, the raw blocks write no dump line. */
  lemma {:induction false} QuietRawBlocks(s: State, kinds: seq<string>)
    requires !s.dumping
    ensures Quiet(s, RawBlocks(s, kinds).st)
    decreases |kinds|
  {
    if kinds != [] {
      var b := RawBlock(s, kinds[0]);
      QuietRawBlock(s, kinds[0]);
      if b.res.Ok? {
        QuietRawBlocks(b.st, kinds[1..]);
        QuietTrans(s, b.st, RawBlocks(b.st, kinds[1..]).st);
      }
    }
  }

  /**
   * The opening of `dump()` writes no dump line: every string it reads
   * while dumping is switched off is silenced.
   */
  lemma QuietPrologue(s: State, rawKinds: seq<string>, tagKinds: seq<string>)
    ensures Quiet(s, Prologue(s, rawKinds, tagKinds).st)
  {
    var h := WorldHeader(NoDump(s));
    assert Quiet(s, h.st);
    if h.res.Ok? {
      var n := WorldName(h.st);
      assert Quiet(s, n.st);
      if n.res.Ok? {
        var g := RawBlocks(n.st, rawKinds);
        QuietRawBlocks(n.st, rawKinds);
        QuietTrans(s, n.st, g.st);
        if g.res.Ok? {
          var t := TagBlocks(g.st, tagKinds);
          QuietTagBlocks(g.st, tagKinds);
          QuietTrans(s, g.st, t.st);
          assert Prologue(s, rawKinds, tagKinds).st.lines == t.st.lines;
        }
      }
    }
  }

  /** The lines of tag blocks whose counts are all zero: each heading, then its zero count. */
  function EmptyTagLines(kinds: seq<string>): (ls: seq<Line>)
    ensures |ls| == 2 * |kinds|
  {
    if kinds == [] then [] else [TagBlockLine(kinds[0]), CountLine("Tag", 0)] + EmptyTagLines(kinds[1..])
  }

  /** The stream holds `n` zero bytes at the cursor. */
  predicate ZerosAt(s: State, n: nat)
  {
    s.pos + n <= |s.input| && forall i | s.pos <= i < s.pos + n :: s.input[i] == 0
  }

  /** A tag block whose count is zero consumes the four count bytes and writes two lines. */
  lemma EmptyTagBlock(s: State, kind: string)
    requires ZerosAt(s, 4)
    ensures TagBlock(s, kind) ==
      Step(s.(pos := s.pos + 4, lines := s.lines + [TagBlockLine(kind), CountLine("Tag", 0)]), Ok(()))
  {
    var o := Output(s, TagBlockLine(kind), false);
    assert Encode(0, IntWidth) == [0, 0, 0, 0] by {
      assert FromUnsigned(0, 1) == [0];
      assert FromUnsigned(0, 2) == [0, 0];
      assert FromUnsigned(0, 3) == [0, 0, 0];
    }
    assert o.input[o.pos..o.pos + 4] == [0, 0, 0, 0];
    ArrayIntEncoded(o, "Tag", DefaultLimit, 0);
  }

  /** Regrouping appended lines, which the inductive steps over written lines need. */
  lemma Associative(a: seq<Line>, b: seq<Line>, c: seq<Line>)
    ensures (a + b) + c == a + (b + c)
  {
  }

  /** Regrouping four runs of appended lines, which the steps over whole blocks need. */
  lemma Regroup(a: seq<Line>, b: seq<Line>, c: seq<Line>, d: seq<Line>)
    ensures a + b + c + d == a + (b + c + d)
  {
    Associative(a, b, c);
    Associative(a, b + c, d);
  }

  /**
   * Tag blocks whose counts are all zero consume exactly four bytes per
   * kind, succeed, and write each heading followed by its zero count.
   */
  lemma {:induction false} EmptyTagBlocks(s: State, kinds: seq<string>)
    requires ZerosAt(s, 4 * |kinds|)
    ensures TagBlocks(s, kinds) ==
      Step(s.(pos := s.pos + 4 * |kinds|, lines := s.lines + EmptyTagLines(kinds)), Ok(()))
    decreases |kinds|
  {
    if kinds != [] {
      var rest := kinds[1..];
      EmptyTagBlock(s, kinds[0]);
      var t := TagBlock(s, kinds[0]).st;
      assert TagBlocks(s, kinds) == TagBlocks(t, rest);
      EmptyTagBlocks(t, rest);
      Associative(s.lines, [TagBlockLine(kinds[0]), CountLine("Tag", 0)], EmptyTagLines(rest));
    }
  }

  // ------------------------------------------------- well-formed blocks

  /** Every string fits the 2-byte length prefix that `parse_pstring` reads. */
  predicate ShortStrings(xs: seq<seq<byte>>)
  {
    forall i | 0 <= i < |xs| :: InRange(|xs[i]|, ShortWidth)
  }

  /** The bytes of `xs` as successive length-prefixed strings. */
  function EncodePStrings(xs: seq<seq<byte>>): (e: seq<byte>)
    requires ShortStrings(xs)
    ensures |e| >= 2 * |xs|
  {
    if xs == [] then [] else EncodePString(xs[0]) + EncodePStrings(xs[1..])
  }

  /** The lines `dump_pstring` writes with dumping on for `xs` read from `offset` onward. */
  function PStringLines(offset: nat, xs: seq<seq<byte>>): (ls: seq<Line>)
    requires ShortStrings(xs)
    ensures |ls| == |xs|
    decreases |xs|
  {
    if xs == [] then [] else [PStringLine(offset, xs[0])] + PStringLines(offset + 2 + |xs[0]|, xs[1..])
  }

  /** The dump lines `ls` as they appear: all of them with dumping on, none with it off. */
  function Dumped(dumping: bool, ls: seq<Line>): seq<Line>
  {
    if dumping then ls else []
  }

  /** A list that `array_int` accepts: fewer than the default limit of short strings. */
  predicate StringList(xs: seq<seq<byte>>)
  {
    ShortStrings(xs) && |xs| < DefaultLimit
  }

  /** The bytes of a tag block's body or of a raw list: the 4-byte count, then the strings. */
  function EncodeStringList(xs: seq<seq<byte>>): (e: seq<byte>)
    requires StringList(xs)
    ensures |e| >= 4
  {
    Ranges();
    Encode(|xs|, IntWidth) + EncodePStrings(xs)
  }

  /** Every list of `ls` is one `array_int` accepts. */
  predicate StringLists(ls: seq<seq<seq<byte>>>)
  {
    forall i | 0 <= i < |ls| :: StringList(ls[i])
  }

  /** The bytes of successive counted string lists. */
  function EncodeStringLists(ls: seq<seq<seq<byte>>>): (e: seq<byte>)
    requires StringLists(ls)
    ensures |e| >= 4 * |ls|
  {
    if ls == [] then [] else EncodeStringList(ls[0]) + EncodeStringLists(ls[1..])
  }

  /** The lines raw lists `ls` read from `offset` onward write: each count, then its strings. */
  function RawListLines(offset: nat, ls: seq<seq<seq<byte>>>, dumping: bool): (lines: seq<Line>)
    requires StringLists(ls)
    ensures |lines| >= |ls|
    decreases |ls|
  {
    if ls == [] then []
    else
      [CountLine("Raw", |ls[0]|)] + Dumped(dumping, PStringLines(offset + 4, ls[0]))
        + RawListLines(offset + |EncodeStringList(ls[0])|, ls[1..], dumping)
  }

  /** The lines tag blocks of `kinds` holding `blocks` write: heading, count, then strings. */
  function TagBlockLines(offset: nat, kinds: seq<string>, blocks: seq<seq<seq<byte>>>, dumping: bool): (lines: seq<Line>)
    requires |kinds| == |blocks| && StringLists(blocks)
    ensures |lines| >= 2 * |kinds|
    decreases |kinds|
  {
    if kinds == [] then []
    else
      [TagBlockLine(kinds[0]), CountLine("Tag", |blocks[0]|)] + Dumped(dumping, PStringLines(offset + 4, blocks[0]))
        + TagBlockLines(offset + |EncodeStringList(blocks[0])|, kinds[1..], blocks[1..], dumping)
  }

  /** A raw block `array_int` accepts: fewer than the default limit of accepted raw lists. */
  predicate RawBlockBody(ls: seq<seq<seq<byte>>>)
  {
    StringLists(ls) && |ls| < DefaultLimit
  }

  /** The bytes of a raw block: its 4-byte count of raw lists, then the lists. */
  function EncodeRawBlock(ls: seq<seq<seq<byte>>>): (e: seq<byte>)
    requires RawBlockBody(ls)
    ensures |e| >= 4
  {
    Ranges();
    Encode(|ls|, IntWidth) + EncodeStringLists(ls)
  }

  /** Every raw block of `bs` is one `array_int` accepts. */
  predicate RawBlockBodies(bs: seq<seq<seq<seq<byte>>>>)
  {
    forall i | 0 <= i < |bs| :: RawBlockBody(bs[i])
  }

  /** The bytes of successive raw blocks. */
  function EncodeRawBlocks(bs: seq<seq<seq<seq<byte>>>>): (e: seq<byte>)
    requires RawBlockBodies(bs)
    ensures |e| >= 4 * |bs|
  {
    if bs == [] then [] else EncodeRawBlock(bs[0]) + EncodeRawBlocks(bs[1..])
  }

  /** The lines raw blocks of `kinds` holding `bs` write: heading, count, then the raw lists. */
  function RawBlockLines(offset: nat, kinds: seq<string>, bs: seq<seq<seq<seq<byte>>>>, dumping: bool): (lines: seq<Line>)
    requires |kinds| == |bs| && RawBlockBodies(bs)
    ensures |lines| >= 2 * |kinds|
    decreases |kinds|
  {
    if kinds == [] then []
    else
      [RawBlockLine(kinds[0]), CountLine("Raw block", |bs[0]|)] + RawListLines(offset + 4, bs[0], dumping)
        + RawBlockLines(offset + |EncodeRawBlock(bs[0])|, kinds[1..], bs[1..], dumping)
  }

  /** The stream holds `a + b` at the cursor exactly when it holds `a` there and `b` right after. */
  lemma AtConcat(s: State, a: seq<byte>, b: seq<byte>)
    requires At(s, a + b)
    ensures At(s, a) && At(s.(pos := s.pos + |a|), b)
  {
    var all := s.input[s.pos..s.pos + |a| + |b|];
    assert s.input[s.pos..s.pos + |a|] == all[..|a|];
    assert s.input[s.pos + |a|..s.pos + |a| + |b|] == all[|a|..];
  }

  /** The state after one `dump_pstring` of `b` that raised nothing. */
  function AfterPString(s: State, b: seq<byte>): (t: State)
    requires s.pos + 2 + |b| <= |s.input|
    ensures t.pos == s.pos + 2 + |b|
  {
    s.(pos := s.pos + 2 + |b|, lines := s.lines + Dumped(s.dumping, [PStringLine(s.pos, b)]))
  }

  /** The stream holds the strings `xs` one after the other, each with its length prefix. */
  predicate PStringsAt(s: State, xs: seq<seq<byte>>)
    requires ShortStrings(xs)
    decreases |xs|
  {
    xs == [] ||
    (At(s, EncodePString(xs[0])) && (assert ShortStrings(xs[1..]); PStringsAt(AfterPString(s, xs[0]), xs[1..])))
  }

  /** The strings' encodings, concatenated, lie at the cursor: then they follow one another there. */
  lemma {:induction false} PStringsAtEncoded(s: State, xs: seq<seq<byte>>)
    requires ShortStrings(xs) && At(s, EncodePStrings(xs))
    ensures PStringsAt(s, xs)
    decreases |xs|
  {
    if xs != [] {
      var rest := xs[1..];
      assert ShortStrings(rest);
      var first := EncodePString(xs[0]);
      AtConcat(s, first, EncodePStrings(rest));
      var t := AfterPString(s, xs[0]);
      PStringsAtEncoded(t, rest);
    }
  }

  /** With an encoded string at the cursor, the first of `count` dumps succeeds and the rest follow it. */
  lemma PStringsFirst(s: State, b: seq<byte>, count: nat)
    requires InRange(|b|, ShortWidth) && At(s, EncodePString(b)) && count > 0
    ensures PStrings(s, count) == PStrings(AfterPString(s, b), count - 1)
  {
    var t := AfterPString(s, b);
    DumpPStringEncoded(s, b);
    assert DumpPString(s) == Step(t, Ok(()));
  }

  /** The state after dumping the strings `xs` one after the other, none raising. */
  function AfterPStrings(s: State, xs: seq<seq<byte>>): State
    requires ShortStrings(xs) && PStringsAt(s, xs)
    decreases |xs|
  {
    if xs == [] then s
    else
      assert ShortStrings(xs[1..]);
      AfterPStrings(AfterPString(s, xs[0]), xs[1..])
  }

  /** `count` dumps over `count` strings that follow one another succeed and end in their final state. */
  lemma {:induction false} PStringsReach(s: State, xs: seq<seq<byte>>)
    requires ShortStrings(xs) && PStringsAt(s, xs)
    ensures PStrings(s, |xs|) == Step(AfterPStrings(s, xs), Ok(()))
    decreases |xs|
  {
    if xs != [] {
      var rest := xs[1..];
      assert ShortStrings(rest);
      var t := AfterPString(s, xs[0]);
      PStringsFirst(s, xs[0], |xs|);
      PStringsReach(t, rest);
      assert AfterPStrings(s, xs) == AfterPStrings(t, rest);
      assert PStrings(s, |xs|) == PStrings(t, |rest|);
    }
  }

  /** After the strings, the cursor is past the last one and, while dumping, each string has its line. */
  lemma {:induction false} AfterPStringsState(s: State, xs: seq<seq<byte>>)
    requires ShortStrings(xs) && PStringsAt(s, xs)
    ensures AfterPStrings(s, xs) ==
      s.(pos := s.pos + |EncodePStrings(xs)|, lines := s.lines + Dumped(s.dumping, PStringLines(s.pos, xs)))
    decreases |xs|
  {
    if xs != [] {
      var rest := xs[1..];
      assert ShortStrings(rest);
      var t := AfterPString(s, xs[0]);
      AfterPStringsState(t, rest);
      var head := Dumped(s.dumping, [PStringLine(s.pos, xs[0])]);
      var tail := Dumped(s.dumping, PStringLines(t.pos, rest));
      assert Dumped(s.dumping, PStringLines(s.pos, xs)) == head + tail;
      Associative(s.lines, head, tail);
    }
  }

  /**
   * `count` string dumps over `count` encoded strings: all succeed, the
   * cursor ends right after the last one, and with dumping on each string
   * is written with the offset of its length prefix.
   */
  lemma PStringsEncoded(s: State, xs: seq<seq<byte>>)
    requires ShortStrings(xs) && At(s, EncodePStrings(xs))
    ensures PStrings(s, |xs|) ==
      Step(s.(pos := s.pos + |EncodePStrings(xs)|,
              lines := s.lines + Dumped(s.dumping, PStringLines(s.pos, xs))), Ok(()))
  {
    PStringsAtEncoded(s, xs);
    PStringsReach(s, xs);
    AfterPStringsState(s, xs);
  }

  /** A counted list at the cursor: the count `array_int` reads, and the strings right after. */
  lemma StringListSplit(s: State, xs: seq<seq<byte>>)
    requires StringList(xs) && At(s, EncodeStringList(xs))
    ensures InRange(|xs|, IntWidth) && At(s, Encode(|xs|, IntWidth))
    ensures At(s.(pos := s.pos + 4), EncodePStrings(xs))
  {
    Ranges();
    AtConcat(s, Encode(|xs|, IntWidth), EncodePStrings(xs));
  }

  /** The state after a tag block of `kind` holding `xs`, read without error. */
  function AfterTagBlock(s: State, kind: string, xs: seq<seq<byte>>): State
    requires StringList(xs) && s.pos + |EncodeStringList(xs)| <= |s.input|
  {
    s.(pos := s.pos + |EncodeStringList(xs)|,
       lines := s.lines + [TagBlockLine(kind), CountLine("Tag", |xs|)] + Dumped(s.dumping, PStringLines(s.pos + 4, xs)))
  }

  /**
   * A tag block over its encoded strings: it succeeds, consumes the count
   * and the strings, and writes the heading, the count and the strings'
   * dump lines.
   */
  lemma TagBlockEncoded(s: State, kind: string, xs: seq<seq<byte>>)
    requires StringList(xs) && At(s, EncodeStringList(xs))
    ensures TagBlock(s, kind) ==
      Step(s.(pos := s.pos + |EncodeStringList(xs)|,
              lines := s.lines + [TagBlockLine(kind), CountLine("Tag", |xs|)]
                       + Dumped(s.dumping, PStringLines(s.pos + 4, xs))), Ok(()))
  {
    var o := Output(s, TagBlockLine(kind), false);
    StringListSplit(o, xs);
    ArrayIntEncoded(o, "Tag", DefaultLimit, |xs|);
    var a := o.(pos := o.pos + 4, lines := o.lines + [CountLine("Tag", |xs|)]);
    assert ArrayInt(o, "Tag", DefaultLimit) == Step(a, Ok(|xs|));
    PStringsEncoded(a, xs);
    assert TagBlock(s, kind) == PStrings(a, |xs|);
    assert s.lines + [TagBlockLine(kind)] + [CountLine("Tag", |xs|)] == s.lines + [TagBlockLine(kind), CountLine("Tag", |xs|)];
  }

  /** The state after a raw list holding `xs`, read without error. */
  function AfterRawList(s: State, xs: seq<seq<byte>>): State
    requires StringList(xs) && s.pos + |EncodeStringList(xs)| <= |s.input|
  {
    s.(pos := s.pos + |EncodeStringList(xs)|,
       lines := s.lines + [CountLine("Raw", |xs|)] + Dumped(s.dumping, PStringLines(s.pos + 4, xs)))
  }

  /** One raw list over its encoded strings: as a tag block, without the heading. */
  lemma RawListEncoded(s: State, xs: seq<seq<byte>>)
    requires StringList(xs) && At(s, EncodeStringList(xs))
    ensures RawList(s) ==
      Step(s.(pos := s.pos + |EncodeStringList(xs)|,
              lines := s.lines + [CountLine("Raw", |xs|)]
                       + Dumped(s.dumping, PStringLines(s.pos + 4, xs))), Ok(()))
  {
    StringListSplit(s, xs);
    ArrayIntEncoded(s, "Raw", DefaultLimit, |xs|);
    var a := s.(pos := s.pos + 4, lines := s.lines + [CountLine("Raw", |xs|)]);
    assert ArrayInt(s, "Raw", DefaultLimit) == Step(a, Ok(|xs|));
    PStringsEncoded(a, xs);
    assert RawList(s) == PStrings(a, |xs|);
  }

  /** The stream holds the counted lists `ls` one after the other. */
  predicate StringListsAt(s: State, ls: seq<seq<seq<byte>>>)
    requires StringLists(ls)
    decreases |ls|
  {
    ls == [] ||
    (At(s, EncodeStringList(ls[0])) &&
     (assert StringLists(ls[1..]); StringListsAt(s.(pos := s.pos + |EncodeStringList(ls[0])|), ls[1..])))
  }

  /** The lists' encodings, concatenated, lie at the cursor: then they follow one another there. */
  lemma {:induction false} StringListsAtEncoded(s: State, ls: seq<seq<seq<byte>>>)
    requires StringLists(ls) && At(s, EncodeStringLists(ls))
    ensures StringListsAt(s, ls)
    decreases |ls|
  {
    if ls != [] {
      var rest := ls[1..];
      assert StringLists(rest);
      var first := EncodeStringList(ls[0]);
      AtConcat(s, first, EncodeStringLists(rest));
      var t := s.(pos := s.pos + |first|);
      StringListsAtEncoded(t, rest);
    }
  }

  /** Where the counted lists follow one another depends on the stream and the cursor only. */
  lemma {:induction false} StringListsAtMoved(s: State, t: State, ls: seq<seq<seq<byte>>>)
    requires StringLists(ls) && StringListsAt(s, ls) && t.input == s.input && t.pos == s.pos
    ensures StringListsAt(t, ls)
    decreases |ls|
  {
    if ls != [] {
      var rest := ls[1..];
      assert StringLists(rest);
      var n := |EncodeStringList(ls[0])|;
      StringListsAtMoved(s.(pos := s.pos + n), t.(pos := t.pos + n), rest);
    }
  }

  /** The state after the raw lists `ls`, read one after the other without error. */
  function AfterRawLists(s: State, ls: seq<seq<seq<byte>>>): State
    requires StringLists(ls) && StringListsAt(s, ls)
    decreases |ls|
  {
    if ls == [] then s
    else
      var t := AfterRawList(s, ls[0]);
      assert StringLists(ls[1..]);
      StringListsAtMoved(s.(pos := t.pos), t, ls[1..]);
      AfterRawLists(t, ls[1..])
  }

  /** `RawListEncoded`, with the final state named. */
  lemma RawListReach(s: State, xs: seq<seq<byte>>)
    requires StringList(xs) && At(s, EncodeStringList(xs))
    ensures RawList(s) == Step(AfterRawList(s, xs), Ok(()))
  {
    RawListEncoded(s, xs);
  }

  /** Raw lists that follow one another all succeed and end in their final state. */
  lemma {:induction false} RawListsReach(s: State, ls: seq<seq<seq<byte>>>)
    requires StringLists(ls) && StringListsAt(s, ls)
    ensures RawLists(s, |ls|) == Step(AfterRawLists(s, ls), Ok(()))
    decreases |ls|
  {
    if ls != [] {
      var rest := ls[1..];
      assert StringLists(rest);
      var t := AfterRawList(s, ls[0]);
      RawListReach(s, ls[0]);
      StringListsAtMoved(s.(pos := t.pos), t, rest);
      RawListsReach(t, rest);
      assert AfterRawLists(s, ls) == AfterRawLists(t, rest);
      assert RawLists(s, |ls|) == RawLists(t, |rest|);
    }
  }

  /** After the raw lists, the cursor is right past the last one. */
  lemma {:induction false} AfterRawListsPos(s: State, ls: seq<seq<seq<byte>>>)
    requires StringLists(ls) && StringListsAt(s, ls)
    ensures AfterRawLists(s, ls).pos == s.pos + |EncodeStringLists(ls)|
    ensures AfterRawLists(s, ls).input == s.input && AfterRawLists(s, ls).dumping == s.dumping
    decreases |ls|
  {
    if ls != [] {
      var rest := ls[1..];
      assert StringLists(rest);
      var t := AfterRawList(s, ls[0]);
      StringListsAtMoved(s.(pos := t.pos), t, rest);
      AfterRawListsPos(t, rest);
      assert AfterRawLists(s, ls) == AfterRawLists(t, rest);
      assert EncodeStringLists(ls) == EncodeStringList(ls[0]) + EncodeStringLists(rest);
    }
  }

  /** After the raw lists, each list has written its count and, while dumping, its strings. */
  lemma {:induction false} AfterRawListsLines(s: State, ls: seq<seq<seq<byte>>>)
    requires StringLists(ls) && StringListsAt(s, ls)
    ensures AfterRawLists(s, ls).lines == s.lines + RawListLines(s.pos, ls, s.dumping)
    decreases |ls|
  {
    if ls != [] {
      var rest := ls[1..];
      assert StringLists(rest);
      var t := AfterRawList(s, ls[0]);
      StringListsAtMoved(s.(pos := t.pos), t, rest);
      AfterRawListsLines(t, rest);
      assert AfterRawLists(s, ls) == AfterRawLists(t, rest);
      var count := [CountLine("Raw", |ls[0]|)];
      var strings := Dumped(s.dumping, PStringLines(s.pos + 4, ls[0]));
      var tail := RawListLines(t.pos, rest, s.dumping);
      assert RawListLines(s.pos, ls, s.dumping) == count + strings + tail;
      Regroup(s.lines, count, strings, tail);
    }
  }

  /**
   * Raw lists over their encodings: all succeed, the cursor ends right after
   * the last one, and each list writes its count and, while dumping, its strings.
   */
  lemma RawListsEncoded(s: State, ls: seq<seq<seq<byte>>>)
    requires StringLists(ls) && At(s, EncodeStringLists(ls))
    ensures RawLists(s, |ls|) ==
      Step(s.(pos := s.pos + |EncodeStringLists(ls)|, lines := s.lines + RawListLines(s.pos, ls, s.dumping)), Ok(()))
  {
    StringListsAtEncoded(s, ls);
    RawListsReach(s, ls);
    AfterRawListsPos(s, ls);
    AfterRawListsLines(s, ls);
  }

  /** A raw block at the cursor: the count `array_int` reads, and the raw lists right after. */
  lemma RawBlockSplit(s: State, ls: seq<seq<seq<byte>>>)
    requires RawBlockBody(ls) && At(s, EncodeRawBlock(ls))
    ensures InRange(|ls|, IntWidth) && At(s, Encode(|ls|, IntWidth))
    ensures At(s.(pos := s.pos + 4), EncodeStringLists(ls))
  {
    Ranges();
    AtConcat(s, Encode(|ls|, IntWidth), EncodeStringLists(ls));
  }

  /** The state after a generated raw block of `kind` holding the raw lists `ls`, read without error. */
  function AfterRawBlock(s: State, kind: string, ls: seq<seq<seq<byte>>>): State
    requires RawBlockBody(ls) && s.pos + |EncodeRawBlock(ls)| <= |s.input|
  {
    s.(pos := s.pos + |EncodeRawBlock(ls)|,
       lines := s.lines + [RawBlockLine(kind), CountLine("Raw block", |ls|)] + RawListLines(s.pos + 4, ls, s.dumping))
  }

  /**
   * A generated raw block over its encoded raw lists: it succeeds, consumes
   * the count and the lists, and writes the heading, the count and the lists' lines.
   */
  lemma RawBlockEncoded(s: State, kind: string, ls: seq<seq<seq<byte>>>)
    requires RawBlockBody(ls) && At(s, EncodeRawBlock(ls))
    ensures RawBlock(s, kind) ==
      Step(s.(pos := s.pos + |EncodeRawBlock(ls)|,
              lines := s.lines + [RawBlockLine(kind), CountLine("Raw block", |ls|)]
                       + RawListLines(s.pos + 4, ls, s.dumping)), Ok(()))
  {
    var o := Output(s, RawBlockLine(kind), false);
    RawBlockSplit(o, ls);
    ArrayIntEncoded(o, "Raw block", DefaultLimit, |ls|);
    var a := o.(pos := o.pos + 4, lines := o.lines + [CountLine("Raw block", |ls|)]);
    assert ArrayInt(o, "Raw block", DefaultLimit) == Step(a, Ok(|ls|));
    RawListsEncoded(a, ls);
    assert RawBlock(s, kind) == RawLists(a, |ls|);
    assert s.lines + [RawBlockLine(kind)] + [CountLine("Raw block", |ls|)] ==
      s.lines + [RawBlockLine(kind), CountLine("Raw block", |ls|)];
  }

  /** The state after the tag blocks of `kinds` holding `blocks`, read one after the other without error. */
  function AfterTagBlocks(s: State, kinds: seq<string>, blocks: seq<seq<seq<byte>>>): State
    requires |kinds| == |blocks| && StringLists(blocks) && StringListsAt(s, blocks)
    decreases |kinds|
  {
    if kinds == [] then s
    else
      var t := AfterTagBlock(s, kinds[0], blocks[0]);
      assert StringLists(blocks[1..]);
      StringListsAtMoved(s.(pos := t.pos), t, blocks[1..]);
      AfterTagBlocks(t, kinds[1..], blocks[1..])
  }

  /** `TagBlockEncoded`, with the final state named. */
  lemma TagBlockReach(s: State, kind: string, xs: seq<seq<byte>>)
    requires StringList(xs) && At(s, EncodeStringList(xs))
    ensures TagBlock(s, kind) == Step(AfterTagBlock(s, kind, xs), Ok(()))
  {
    TagBlockEncoded(s, kind, xs);
  }

  /** Tag blocks that follow one another all succeed and end in their final state. */
  lemma {:induction false} TagBlocksReach(s: State, kinds: seq<string>, blocks: seq<seq<seq<byte>>>)
    requires |kinds| == |blocks| && StringLists(blocks) && StringListsAt(s, blocks)
    ensures TagBlocks(s, kinds) == Step(AfterTagBlocks(s, kinds, blocks), Ok(()))
    decreases |kinds|
  {
    if kinds != [] {
      var rest := blocks[1..];
      assert StringLists(rest);
      var t := AfterTagBlock(s, kinds[0], blocks[0]);
      TagBlockReach(s, kinds[0], blocks[0]);
      StringListsAtMoved(s.(pos := t.pos), t, rest);
      TagBlocksReach(t, kinds[1..], rest);
      assert AfterTagBlocks(s, kinds, blocks) == AfterTagBlocks(t, kinds[1..], rest);
      assert TagBlocks(s, kinds) == TagBlocks(t, kinds[1..]);
    }
  }

  /** After the tag blocks, the cursor is right past the last one. */
  lemma {:induction false} AfterTagBlocksPos(s: State, kinds: seq<string>, blocks: seq<seq<seq<byte>>>)
    requires |kinds| == |blocks| && StringLists(blocks) && StringListsAt(s, blocks)
    ensures AfterTagBlocks(s, kinds, blocks).pos == s.pos + |EncodeStringLists(blocks)|
    ensures AfterTagBlocks(s, kinds, blocks).input == s.input && AfterTagBlocks(s, kinds, blocks).dumping == s.dumping
    decreases |kinds|
  {
    if kinds != [] {
      var rest := blocks[1..];
      assert StringLists(rest);
      var t := AfterTagBlock(s, kinds[0], blocks[0]);
      StringListsAtMoved(s.(pos := t.pos), t, rest);
      AfterTagBlocksPos(t, kinds[1..], rest);
      assert AfterTagBlocks(s, kinds, blocks) == AfterTagBlocks(t, kinds[1..], rest);
      assert EncodeStringLists(blocks) == EncodeStringList(blocks[0]) + EncodeStringLists(rest);
    }
  }

  /** After the tag blocks, each block has written its heading, its count and its strings' lines. */
  lemma {:induction false} AfterTagBlocksLines(s: State, kinds: seq<string>, blocks: seq<seq<seq<byte>>>)
    requires |kinds| == |blocks| && StringLists(blocks) && StringListsAt(s, blocks)
    ensures AfterTagBlocks(s, kinds, blocks).lines == s.lines + TagBlockLines(s.pos, kinds, blocks, s.dumping)
    decreases |kinds|
  {
    if kinds != [] {
      var rest := blocks[1..];
      assert StringLists(rest);
      var t := AfterTagBlock(s, kinds[0], blocks[0]);
      StringListsAtMoved(s.(pos := t.pos), t, rest);
      AfterTagBlocksLines(t, kinds[1..], rest);
      assert AfterTagBlocks(s, kinds, blocks) == AfterTagBlocks(t, kinds[1..], rest);
      var head := [TagBlockLine(kinds[0]), CountLine("Tag", |blocks[0]|)];
      var strings := Dumped(s.dumping, PStringLines(s.pos + 4, blocks[0]));
      var tail := TagBlockLines(t.pos, kinds[1..], rest, s.dumping);
      assert TagBlockLines(s.pos, kinds, blocks, s.dumping) == head + strings + tail;
      Regroup(s.lines, head, strings, tail);
    }
  }

  /**
   * `dump_tag_blocks` over encoded blocks, one per kind: every block
   * succeeds, the cursor ends right after the last one, and each block
   * writes its heading, its count and, while dumping, its strings.
   */
  lemma TagBlocksEncoded(s: State, kinds: seq<string>, blocks: seq<seq<seq<byte>>>)
    requires |kinds| == |blocks| && StringLists(blocks) && At(s, EncodeStringLists(blocks))
    ensures TagBlocks(s, kinds) ==
      Step(s.(pos := s.pos + |EncodeStringLists(blocks)|,
              lines := s.lines + TagBlockLines(s.pos, kinds, blocks, s.dumping)), Ok(()))
  {
    StringListsAtEncoded(s, blocks);
    TagBlocksReach(s, kinds, blocks);
    AfterTagBlocksPos(s, kinds, blocks);
    AfterTagBlocksLines(s, kinds, blocks);
  }

  /** The stream holds the raw blocks `bs` one after the other. */
  predicate RawBlocksAt(s: State, bs: seq<seq<seq<seq<byte>>>>)
    requires RawBlockBodies(bs)
    decreases |bs|
  {
    bs == [] ||
    (At(s, EncodeRawBlock(bs[0])) &&
     (assert RawBlockBodies(bs[1..]); RawBlocksAt(s.(pos := s.pos + |EncodeRawBlock(bs[0])|), bs[1..])))
  }

  /** The blocks' encodings, concatenated, lie at the cursor: then they follow one another there. */
  lemma {:induction false} RawBlocksAtEncoded(s: State, bs: seq<seq<seq<seq<byte>>>>)
    requires RawBlockBodies(bs) && At(s, EncodeRawBlocks(bs))
    ensures RawBlocksAt(s, bs)
    decreases |bs|
  {
    if bs != [] {
      var rest := bs[1..];
      assert RawBlockBodies(rest);
      var first := EncodeRawBlock(bs[0]);
      AtConcat(s, first, EncodeRawBlocks(rest));
      var t := s.(pos := s.pos + |first|);
      RawBlocksAtEncoded(t, rest);
    }
  }

  /** Where the raw blocks follow one another depends on the stream and the cursor only. */
  lemma {:induction false} RawBlocksAtMoved(s: State, t: State, bs: seq<seq<seq<seq<byte>>>>)
    requires RawBlockBodies(bs) && RawBlocksAt(s, bs) && t.input == s.input && t.pos == s.pos
    ensures RawBlocksAt(t, bs)
    decreases |bs|
  {
    if bs != [] {
      var rest := bs[1..];
      assert RawBlockBodies(rest);
      var n := |EncodeRawBlock(bs[0])|;
      RawBlocksAtMoved(s.(pos := s.pos + n), t.(pos := t.pos + n), rest);
    }
  }

  /** The state after the raw blocks of `kinds` holding `bs`, read one after the other without error. */
  function AfterRawBlocks(s: State, kinds: seq<string>, bs: seq<seq<seq<seq<byte>>>>): State
    requires |kinds| == |bs| && RawBlockBodies(bs) && RawBlocksAt(s, bs)
    decreases |kinds|
  {
    if kinds == [] then s
    else
      var t := AfterRawBlock(s, kinds[0], bs[0]);
      assert RawBlockBodies(bs[1..]);
      RawBlocksAtMoved(s.(pos := t.pos), t, bs[1..]);
      AfterRawBlocks(t, kinds[1..], bs[1..])
  }

  /** `RawBlockEncoded`, with the final state named. */
  lemma RawBlockReach(s: State, kind: string, ls: seq<seq<seq<byte>>>)
    requires RawBlockBody(ls) && At(s, EncodeRawBlock(ls))
    ensures RawBlock(s, kind) == Step(AfterRawBlock(s, kind, ls), Ok(()))
  {
    RawBlockEncoded(s, kind, ls);
  }

  /** Raw blocks that follow one another all succeed and end in their final state. */
  lemma {:induction false} RawBlocksReach(s: State, kinds: seq<string>, bs: seq<seq<seq<seq<byte>>>>)
    requires |kinds| == |bs| && RawBlockBodies(bs) && RawBlocksAt(s, bs)
    ensures RawBlocks(s, kinds) == Step(AfterRawBlocks(s, kinds, bs), Ok(()))
    decreases |kinds|
  {
    if kinds != [] {
      var rest := bs[1..];
      assert RawBlockBodies(rest);
      var t := AfterRawBlock(s, kinds[0], bs[0]);
      RawBlockReach(s, kinds[0], bs[0]);
      RawBlocksAtMoved(s.(pos := t.pos), t, rest);
      RawBlocksReach(t, kinds[1..], rest);
      assert AfterRawBlocks(s, kinds, bs) == AfterRawBlocks(t, kinds[1..], rest);
      assert RawBlocks(s, kinds) == RawBlocks(t, kinds[1..]);
    }
  }

  /** After the raw blocks, the cursor is right past the last one. */
  lemma {:induction false} AfterRawBlocksPos(s: State, kinds: seq<string>, bs: seq<seq<seq<seq<byte>>>>)
    requires |kinds| == |bs| && RawBlockBodies(bs) && RawBlocksAt(s, bs)
    ensures AfterRawBlocks(s, kinds, bs).pos == s.pos + |EncodeRawBlocks(bs)|
    ensures AfterRawBlocks(s, kinds, bs).input == s.input && AfterRawBlocks(s, kinds, bs).dumping == s.dumping
    decreases |kinds|
  {
    if kinds != [] {
      var rest := bs[1..];
      assert RawBlockBodies(rest);
      var t := AfterRawBlock(s, kinds[0], bs[0]);
      RawBlocksAtMoved(s.(pos := t.pos), t, rest);
      AfterRawBlocksPos(t, kinds[1..], rest);
      assert AfterRawBlocks(s, kinds, bs) == AfterRawBlocks(t, kinds[1..], rest);
      assert EncodeRawBlocks(bs) == EncodeRawBlock(bs[0]) + EncodeRawBlocks(rest);
    }
  }

  /** After the raw blocks, each block has written its heading, its count and its raw lists' lines. */
  lemma {:induction false} AfterRawBlocksLines(s: State, kinds: seq<string>, bs: seq<seq<seq<seq<byte>>>>)
    requires |kinds| == |bs| && RawBlockBodies(bs) && RawBlocksAt(s, bs)
    ensures AfterRawBlocks(s, kinds, bs).lines == s.lines + RawBlockLines(s.pos, kinds, bs, s.dumping)
    decreases |kinds|
  {
    if kinds != [] {
      var rest := bs[1..];
      assert RawBlockBodies(rest);
      var t := AfterRawBlock(s, kinds[0], bs[0]);
      RawBlocksAtMoved(s.(pos := t.pos), t, rest);
      AfterRawBlocksLines(t, kinds[1..], rest);
      assert AfterRawBlocks(s, kinds, bs) == AfterRawBlocks(t, kinds[1..], rest);
      var head := [RawBlockLine(kinds[0]), CountLine("Raw block", |bs[0]|)];
      var lists := RawListLines(s.pos + 4, bs[0], s.dumping);
      var tail := RawBlockLines(t.pos, kinds[1..], rest, s.dumping);
      assert RawBlockLines(s.pos, kinds, bs, s.dumping) == head + lists + tail;
      Regroup(s.lines, head, lists, tail);
    }
  }

  /**
   * `dump_generated_raw_blocks` over encoded blocks, one per kind: every
   * block succeeds, the cursor ends right after the last one, and each
   * block writes its heading, its count and its raw lists' lines.
   */
  lemma RawBlocksEncoded(s: State, kinds: seq<string>, bs: seq<seq<seq<seq<byte>>>>)
    requires |kinds| == |bs| && RawBlockBodies(bs) && At(s, EncodeRawBlocks(bs))
    ensures RawBlocks(s, kinds) ==
      Step(s.(pos := s.pos + |EncodeRawBlocks(bs)|,
              lines := s.lines + RawBlockLines(s.pos, kinds, bs, s.dumping)), Ok(()))
  {
    RawBlocksAtEncoded(s, bs);
    RawBlocksReach(s, kinds, bs);
    AfterRawBlocksPos(s, kinds, bs);
    AfterRawBlocksLines(s, kinds, bs);
  }

  // ---------------------------------------------------------- the methods

  method DumpWorldHeader(p: Parse.Parser) returns (r: Result<()>)
    requires p.Valid()
    modifies p
    ensures p.Valid() && Step(p.State(), r) == WorldHeader(old(p.State()))
  {
    var version := p.ParseShort();
    if version.Err? {
      return Err(version.error);
    }
    p.Skip(HeaderPadding);
    p.Output(VersionLine(version.value), false);
    r := Ok(());
  }

  method DumpWorldName(p: Parse.Parser) returns (r: Result<()>)
    requires p.Valid()
    modifies p
    ensures p.Valid() && Step(p.State(), r) == WorldName(old(p.State()))
  {
    var name := p.ParsePString();
    if name.Err? {
      return Err(name.error);
    }
    p.Output(NameLengthLine(|name.value|), false);
    p.Output(NameLine(name.value), false);
    r := Ok(());
  }

  /** One step of `count` string dumps: the first dump, then the other `count - 1` unless it raised. */
  lemma PStringsNext(s: State, count: nat, t: State, d: Result<()>)
    requires count > 0 && DumpPString(s) == Step(t, d)
    ensures d.Err? ==> PStrings(s, count) == Step(t, d)
    ensures d.Ok? ==> PStrings(s, count) == PStrings(t, count - 1)
  {
  }

  /** The inner loop of both block kinds: `count` string dumps. */
  method DumpPStrings(p: Parse.Parser, count: nat) returns (r: Result<()>)
    requires p.Valid()
    modifies p
    ensures p.Valid() && Step(p.State(), r) == PStrings(old(p.State()), count)
  {
    ghost var start := p.State();
    ghost var left := count;
    var j := 0;
    while j < count
      invariant j <= count && left == count - j && p.Valid()
      invariant PStrings(start, count) == PStrings(p.State(), left)
    {
      ghost var before := p.State();
      var d := p.DumpPString();
      PStringsNext(before, left, p.State(), d);
      if d.Err? {
        return d;
      }
      j, left := j + 1, left - 1;
    }
    r := Ok(());
  }

  /** One tag block: its heading, a bounded count, then that many strings. */
  method DumpTagBlock(p: Parse.Parser, kind: string) returns (r: Result<()>)
    requires p.Valid()
    modifies p
    ensures p.Valid() && Step(p.State(), r) == TagBlock(old(p.State()), kind)
  {
    p.Output(TagBlockLine(kind), false);
    var count := p.ArrayInt("Tag", DefaultLimit);
    if count.Err? {
      return count.Propagate();
    }
    r := DumpPStrings(p, count.value);
  }

  /** The tag blocks of `kinds`, one after the other, stopping at the first failure. */
  method DumpTagBlocksOf(p: Parse.Parser, kinds: seq<string>) returns (r: Result<()>)
    requires p.Valid()
    modifies p
    ensures p.Valid() && Step(p.State(), r) == TagBlocks(old(p.State()), kinds)
  {
    var i := 0;
    while i < |kinds|
      invariant i <= |kinds| && p.Valid()
      invariant TagBlocks(old(p.State()), kinds) == TagBlocks(p.State(), kinds[i..])
    {
      assert kinds[i..][0] == kinds[i] && kinds[i..][1..] == kinds[i + 1..];
      r := DumpTagBlock(p, kinds[i]);
      if r.Err? {
        return;
      }
      i := i + 1;
    }
    r := Ok(());
  }

  /** `dump_tag_blocks`: the tag blocks of the twenty kinds, in file order. */
  method DumpTagBlocks(p: Parse.Parser) returns (r: Result<()>)
    requires p.Valid()
    modifies p
    ensures p.Valid() && Step(p.State(), r) == TagBlocks(old(p.State()), TagKinds)
  {
    r := DumpTagBlocksOf(p, TagKinds);
  }

  /** One raw list: a bounded count, then that many length-prefixed strings. */
  method DumpRawList(p: Parse.Parser) returns (r: Result<()>)
    requires p.Valid()
    modifies p
    ensures p.Valid() && Step(p.State(), r) == RawList(old(p.State()))
  {
    var n := p.ArrayInt("Raw", DefaultLimit);
    if n.Err? {
      return n.Propagate();
    }
    r := DumpPStrings(p, n.value);
  }

  /** One step of `count` raw lists: the first list, then the other `count - 1` unless it raised. */
  lemma RawListsNext(s: State, count: nat, t: State, d: Result<()>)
    requires count > 0 && RawList(s) == Step(t, d)
    ensures d.Err? ==> RawLists(s, count) == Step(t, d)
    ensures d.Ok? ==> RawLists(s, count) == RawLists(t, count - 1)
  {
  }

  /** The middle loop of a raw block: `count` raw lists. */
  method DumpRawLists(p: Parse.Parser, count: nat) returns (r: Result<()>)
    requires p.Valid()
    modifies p
    ensures p.Valid() && Step(p.State(), r) == RawLists(old(p.State()), count)
  {
    ghost var start := p.State();
    ghost var left := count;
    var j := 0;
    while j < count
      invariant j <= count && left == count - j && p.Valid()
      invariant RawLists(start, count) == RawLists(p.State(), left)
    {
      ghost var before := p.State();
      r := DumpRawList(p);
      RawListsNext(before, left, p.State(), r);
      if r.Err? {
        return;
      }
      j, left := j + 1, left - 1;
    }
    r := Ok(());
  }

  /** One generated raw block: its heading, a bounded count, then that many raw lists. */
  method DumpRawBlock(p: Parse.Parser, kind: string) returns (r: Result<()>)
    requires p.Valid()
    modifies p
    ensures p.Valid() && Step(p.State(), r) == RawBlock(old(p.State()), kind)
  {
    p.Output(RawBlockLine(kind), false);
    var count := p.ArrayInt("Raw block", DefaultLimit);
    if count.Err? {
      return count.Propagate();
    }
    r := DumpRawLists(p, count.value);
  }

  /** The generated raw blocks of `kinds`, one after the other, stopping at the first failure. */
  method DumpRawBlocksOf(p: Parse.Parser, kinds: seq<string>) returns (r: Result<()>)
    requires p.Valid()
    modifies p
    ensures p.Valid() && Step(p.State(), r) == RawBlocks(old(p.State()), kinds)
  {
    var i := 0;
    while i < |kinds|
      invariant i <= |kinds| && p.Valid()
      invariant RawBlocks(old(p.State()), kinds) == RawBlocks(p.State(), kinds[i..])
    {
      assert kinds[i..][0] == kinds[i] && kinds[i..][1..] == kinds[i + 1..];
      r := DumpRawBlock(p, kinds[i]);
      if r.Err? {
        return;
      }
      i := i + 1;
    }
    r := Ok(());
  }

  /** `dump_generated_raw_blocks`: the raw blocks of the four kinds, in file order. */
  method DumpGeneratedRawBlocks(p: Parse.Parser) returns (r: Result<()>)
    requires p.Valid()
    modifies p
    ensures p.Valid() && Step(p.State(), r) == RawBlocks(old(p.State()), RawKinds)
  {
    r := DumpRawBlocksOf(p, RawKinds);
  }

  /** The opening of `dump()`, up to switching dump lines back on. */
  method DumpPrologue(p: Parse.Parser) returns (r: Result<()>)
    requires p.Valid()
    modifies p
    ensures p.Valid() && Step(p.State(), r) == Prologue(old(p.State()), RawKinds, TagKinds)
  {
    ghost var s := p.State();
    p.NoDump();
    r := DumpWorldHeader(p);
    if r.Err? {
      return;
    }
    r := DumpWorldName(p);
    if r.Err? {
      return;
    }
    ghost var n := p.State();
    r := DumpGeneratedRawBlocks(p);
    if r.Err? {
      assert RawBlocks(n, RawKinds).res.Err?;
      return;
    }
    ghost var g := p.State();
    assert RawBlocks(n, RawKinds) == Step(g, r);
    r := DumpTagBlocks(p);
    if r.Err? {
      assert TagBlocks(g, TagKinds).res.Err?;
      return;
    }
    assert TagBlocks(g, TagKinds) == Step(p.State(), r);
    p.DoDump();
    r := Ok(());
  }
}
