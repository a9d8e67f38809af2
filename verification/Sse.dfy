/**
  Reading server-sent events: `data` lines are collected until a blank line, joined
  by newlines; every other field is skipped (section 9.2.6 of the WHATWG HTML
  Living Standard).
 */
module Sse {
  import opened Utf8
  import opened LineReader

  const CR: Byte := 13
  const SPACE: Byte := 32

  /** The bytes of `data:`. */
  const DATA: Bytes := [100, 97, 116, 97, 58]

  function TrimEnd(line: Bytes): (t: Bytes)
    ensures t <= line && (t == [] || (t[|t| - 1] != CR && t[|t| - 1] != NEWLINE))
  {
    if line != [] && (line[|line| - 1] == CR || line[|line| - 1] == NEWLINE) then TrimEnd(line[..|line| - 1]) else line
  }

  /** What a data line carries: one space after the colon is not part of it. */
  function Text(line: Bytes): Bytes
    requires DATA <= line
  {
    if 5 < |line| && line[5] == SPACE then line[6..] else line[5..]
  }

  function JoinLines(lines: seq<Bytes>): Bytes {
    if lines == [] then [] else if |lines| == 1 then lines[0]
    else lines[0] + [NEWLINE] + JoinLines(lines[1..])
  }

  datatype Event = Event(data: Bytes) | Closed | Oversized | Broken(why: Outcome)

  function Collect(data: seq<Bytes>, line: Bytes): seq<Bytes> {
    if DATA <= line then data + [Text(line)] else data
  }

  /** What the next call returns and leaves, by the bytes alone. */
  function NextEvent(rest: Bytes, data: seq<Bytes>, buffered: nat): (Event, Bytes)
    decreases |rest|
  {
    var next := Next(rest);
    if next.EndOfStream? then (Closed, [])
    else if !next.Line? then (Broken(next), [])
    else
      var line := TrimEnd(next.bytes);
      if buffered + |line| > MAX_MESSAGE_BYTES then (Oversized, [])
      else if line == [] && data != [] then (Event(JoinLines(data)), After(rest))
      else NextEvent(After(rest), if line == [] then data else Collect(data, line), buffered + |line|)
  }

  method NextSseData(reader: ByteReader) returns (r: Event)
    requires reader.Valid()
    modifies reader
    ensures reader.Valid() && r == NextEvent(old(reader.Rest()), [], 0).0
    ensures r.Event? || r.Closed? ==> reader.Rest() == NextEvent(old(reader.Rest()), [], 0).1
  {
    hide Next, After, Flatten, TrimEnd, JoinLines, Collect;
    ghost var all := reader.Rest();
    var data: seq<Bytes>, buffered: nat := [], 0;
    while true
      invariant reader.Valid() && NextEvent(all, [], 0) == NextEvent(reader.Rest(), data, buffered)
      decreases |reader.Rest()|
    {
      Shrinks(reader.Rest());
      var next, _ := ReadLineCapped(reader);
      if next.EndOfStream? {
        return Closed;
      }
      if !next.Line? {
        return Broken(next);
      }
      var line := TrimEnd(next.bytes);
      buffered := buffered + |line|;
      if buffered > MAX_MESSAGE_BYTES {
        return Oversized;
      }
      if line == [] {
        if data != [] {
          return Event(JoinLines(data));
        }
      } else {
        data := Collect(data, line);
      }
    }
  }

  lemma Shrinks(rest: Bytes)
    ensures Next(rest).Line? ==> |After(rest)| < |rest|
    ensures Next(rest).EndOfStream? ==> After(rest) == []
  {
  }

  // ----- Encoding -----

  datatype Field = Data(text: Bytes) | Other(line: Bytes)

  function LineOf(f: Field): Bytes {
    match f
    case Data(text) => DATA + [SPACE] + text
    case Other(line) => line
  }

  function LinesOf(fs: seq<Field>): seq<Bytes> {
    if fs == [] then [] else [LineOf(fs[0])] + LinesOf(fs[1..])
  }

  /** A line of UTF-8 within the cap; a comment or another field is neither blank nor a data line. */
  predicate FieldOk(f: Field) {
    && NEWLINE !in LineOf(f) && WellFormed(LineOf(f)) && |LineOf(f)| <= MAX_MESSAGE_BYTES
    && (f.Other? ==> TrimEnd(f.line) != [] && !(DATA <= TrimEnd(f.line)))
  }

  /** What the lines count towards the cap. */
  function Size(fs: seq<Field>): nat {
    if fs == [] then 0 else |TrimEnd(LineOf(fs[0]))| + Size(fs[1..])
  }

  /** The data lines of an event, without trailing carriage returns. */
  function Texts(fs: seq<Field>): seq<Bytes> {
    if fs == [] then []
    else (if fs[0].Data? then [TrimEnd(fs[0].text)] else []) + Texts(fs[1..])
  }

  /** Any fields, none included, and the blank line that ends them, which may hold carriage returns. */
  datatype Block = Block(fields: seq<Field>, crs: nat)

  predicate BlockOk(b: Block) {
    (forall f | f in b.fields :: FieldOk(f)) && b.crs <= MAX_MESSAGE_BYTES
  }

  function Returns(n: nat): (r: Bytes)
    ensures |r| == n && forall i | 0 <= i < n :: r[i] == CR
  {
    seq(n, _ => CR)
  }

  function EncodeBlock(b: Block): Bytes {
    Unlines(LinesOf(b.fields)) + (Returns(b.crs) + [NEWLINE])
  }

  // ----- Reading back -----

  lemma {:induction false} TrimAfter(prefix: Bytes, text: Bytes)
    requires prefix != [] && prefix[|prefix| - 1] != CR && prefix[|prefix| - 1] != NEWLINE
    ensures TrimEnd(prefix + text) == prefix + TrimEnd(text)
    decreases |text|
  {
    if text == [] {
      assert prefix + text == prefix;
    } else {
      var n := |text| - 1;
      assert (prefix + text)[..|prefix + text| - 1] == prefix + text[..n];
      if text[n] == CR || text[n] == NEWLINE {
        TrimAfter(prefix, text[..n]);
      }
    }
  }

  lemma FieldLine(f: Field, data: seq<Bytes>)
    requires FieldOk(f)
    ensures var line := TrimEnd(LineOf(f));
            && line != [] && |line| <= |LineOf(f)|
            && Collect(data, line) == data + if f.Data? then [TrimEnd(f.text)] else []
  {
    if f.Data? {
      TrimAfter(DATA + [SPACE], f.text);
      var line := TrimEnd(LineOf(f));
      assert line == DATA + [SPACE] + TrimEnd(f.text);
      assert line[6..] == TrimEnd(f.text) && line[..5] == DATA;
    }
  }

  lemma NextIs(line: Bytes, more: Bytes)
    requires NEWLINE !in line && WellFormed(line) && |line| <= MAX_MESSAGE_BYTES
    ensures Next(line + ([NEWLINE] + more)) == Line(line) && After(line + ([NEWLINE] + more)) == more
  {
    var rest := [NEWLINE] + more;
    BreakAfter(line, rest);
    assert Break(rest) == 0 && rest[1..] == more && line + rest[..0] == line;
  }

  lemma EncodeFirst(b: Block, rest: Bytes)
    requires b.fields != []
    ensures EncodeBlock(b) + rest ==
            LineOf(b.fields[0]) + ([NEWLINE] + (EncodeBlock(Block(b.fields[1..], b.crs)) + rest))
  {
    assert LinesOf(b.fields)[1..] == LinesOf(b.fields[1..]);
  }

  lemma OneLine(line: Bytes, more: Bytes, data: seq<Bytes>, buffered: nat)
    requires NEWLINE !in line && WellFormed(line) && |line| <= MAX_MESSAGE_BYTES
    ensures NextEvent(line + ([NEWLINE] + more), data, buffered) ==
            if buffered + |TrimEnd(line)| > MAX_MESSAGE_BYTES then (Oversized, [])
            else if TrimEnd(line) == [] && data != [] then (Event(JoinLines(data)), more)
            else NextEvent(more, if TrimEnd(line) == [] then data else Collect(data, TrimEnd(line)), buffered + |TrimEnd(line)|)
  {
    hide Next, After, WellFormed, JoinLines, Collect;
    NextIs(line, more);
  }

  lemma TextsFirst(fs: seq<Field>, data: seq<Bytes>, data': seq<Bytes>)
    requires fs != [] && data' == data + if fs[0].Data? then [TrimEnd(fs[0].text)] else []
    ensures data + Texts(fs) == data' + Texts(fs[1..])
  {
  }

  lemma {:induction false} BlankLine(n: nat)
    ensures TrimEnd(Returns(n)) == [] && WellFormed(Returns(n)) && NEWLINE !in Returns(n)
  {
    if n == 0 {
      assert Returns(n) == [];
    } else {
      BlankLine(n - 1);
      assert Returns(n)[..n - 1] == Returns(n - 1);
      AsciiBefore([CR], Returns(n - 1));
      assert Returns(n) == [CR] + Returns(n - 1);
    }
  }

  lemma EndOfBlock(crs: nat, rest: Bytes, data: seq<Bytes>, buffered: nat)
    requires crs <= MAX_MESSAGE_BYTES && buffered <= MAX_MESSAGE_BYTES
    ensures NextEvent(EncodeBlock(Block([], crs)) + rest, data, buffered) ==
            if data != [] then (Event(JoinLines(data)), rest) else NextEvent(rest, [], buffered)
  {
    hide NextEvent, WellFormed, JoinLines, TrimEnd;
    assert Unlines(LinesOf([])) == [];
    assert EncodeBlock(Block([], crs)) + rest == Returns(crs) + ([NEWLINE] + rest);
    BlankLine(crs);
    OneLine(Returns(crs), rest, data, buffered);
  }

  /**
    One block: over the cap it is refused, with data it is an event, and without it is
    skipped while its bytes go on counting.
   */
  lemma {:induction false} ReadsBlock(b: Block, rest: Bytes, data: seq<Bytes>, buffered: nat)
    requires BlockOk(b) && buffered <= MAX_MESSAGE_BYTES
    ensures var total := buffered + Size(b.fields);
            NextEvent(EncodeBlock(b) + rest, data, buffered) ==
            if total > MAX_MESSAGE_BYTES then (Oversized, [])
            else if data + Texts(b.fields) != [] then (Event(JoinLines(data + Texts(b.fields))), rest)
            else NextEvent(rest, [], total)
    decreases |b.fields|
  {
    hide NextEvent, WellFormed, JoinLines, Collect, TrimEnd, LineOf, EncodeBlock, Texts;
    var fs := b.fields;
    if fs == [] {
      NoTexts();
      assert data + [] == data;
      EndOfBlock(b.crs, rest, data, buffered);
    } else {
      var line, more := LineOf(fs[0]), Block(fs[1..], b.crs);
      assert fs[0] in fs;
      FieldLine(fs[0], data);
      EncodeFirst(b, rest);
      OneLine(line, EncodeBlock(more) + rest, data, buffered);
      var data' := Collect(data, TrimEnd(line));
      TextsFirst(fs, data, data');
      if buffered + |TrimEnd(line)| <= MAX_MESSAGE_BYTES {
        ReadsBlock(more, rest, data', buffered + |TrimEnd(line)|);
      }
    }
  }

  lemma NoTexts()
    ensures Texts([]) == []
  {
  }

  function EncodeBlocks(blocks: seq<Block>): Bytes {
    if blocks == [] then [] else EncodeBlock(blocks[0]) + EncodeBlocks(blocks[1..])
  }

  /** The cap, counted since the last event. */
  predicate WithinCap(blocks: seq<Block>, buffered: nat) {
    blocks == [] ||
    (var total := buffered + Size(blocks[0].fields);
     total <= MAX_MESSAGE_BYTES && WithinCap(blocks[1..], if Texts(blocks[0].fields) != [] then 0 else total))
  }

  /** Calling until the stream closes. */
  function ReadEvents(rest: Bytes, calls: nat): (seq<Bytes>, Event)
    decreases calls
  {
    ReadOn(NextEvent(rest, [], 0), calls)
  }

  function ReadOn(next: (Event, Bytes), calls: nat): (seq<Bytes>, Event)
    decreases calls, 0
  {
    if !next.0.Event? || calls == 0 then ([], next.0)
    else
      var (es, last) := ReadEvents(next.1, calls - 1);
      ([next.0.data] + es, last)
  }

  /** The events a stream holds: its blocks with data. */
  function PayloadsOf(blocks: seq<Block>): seq<Bytes> {
    if blocks == [] then []
    else (if Texts(blocks[0].fields) != [] then [JoinLines(Texts(blocks[0].fields))] else []) + PayloadsOf(blocks[1..])
  }

  /**
    A stream of blocks, events and others, is read back as its events in order and then
    closed, exactly if it stays within the cap.
   */
  lemma {:induction false} BlocksReadBack(blocks: seq<Block>, buffered: nat)
    requires (forall b | b in blocks :: BlockOk(b)) && buffered <= MAX_MESSAGE_BYTES
    ensures ReadOn(NextEvent(EncodeBlocks(blocks), [], buffered), |PayloadsOf(blocks)|) == (PayloadsOf(blocks), Closed)
            <==> WithinCap(blocks, buffered)
    decreases |blocks|
  {
    hide BlockOk, EncodeBlock, JoinLines, Texts, Size, NextEvent;
    if blocks == [] {
      NothingLeft(buffered);
    } else {
      var b, rest := blocks[0], blocks[1..];
      assert b in blocks;
      var total := buffered + Size(b.fields);
      ReadsBlock(b, EncodeBlocks(rest), [], buffered);
      assert [] + Texts(b.fields) == Texts(b.fields);
      var n := |PayloadsOf(rest)|;
      if total <= MAX_MESSAGE_BYTES {
        if Texts(b.fields) != [] {
          BlocksReadBack(rest, 0);
          var payload, read := JoinLines(Texts(b.fields)), ReadEvents(EncodeBlocks(rest), n);
          assert ([payload] + read.0)[1..] == read.0 && ([payload] + PayloadsOf(rest))[1..] == PayloadsOf(rest);
          assert ReadOn(NextEvent(EncodeBlocks(blocks), [], buffered), n + 1) == ([payload] + read.0, read.1);
        } else {
          BlocksReadBack(rest, total);
          assert [] + PayloadsOf(rest) == PayloadsOf(rest);
        }
      }
    }
  }

  lemma NothingLeft(buffered: nat)
    ensures NextEvent([], [], buffered) == (Closed, [])
  {
  }

  lemma EventsReadBack(blocks: seq<Block>)
    requires forall b | b in blocks :: BlockOk(b)
    ensures ReadEvents(EncodeBlocks(blocks), |PayloadsOf(blocks)|) == (PayloadsOf(blocks), Closed) <==> WithinCap(blocks, 0)
  {
    hide BlockOk, PayloadsOf, EncodeBlocks, NextEvent, WithinCap;
    BlocksReadBack(blocks, 0);
  }

  // ----- Whole payloads -----

  /** The lines of a payload; there is always at least one. */
  function Segments(p: Bytes): (r: seq<Bytes>)
    ensures r != [] && forall l | l in r :: NEWLINE !in l
    decreases |p|
  {
    var n := Break(p);
    if n == |p| then [p] else [p[..n]] + Segments(p[n + 1..])
  }

  lemma {:induction false} SegmentsJoin(p: Bytes)
    ensures JoinLines(Segments(p)) == p
    decreases |p|
  {
    var n := Break(p);
    if n < |p| {
      SegmentsJoin(p[n + 1..]);
      assert Segments(p)[1..] == Segments(p[n + 1..]);
      assert p == p[..n] + [NEWLINE] + p[n + 1..];
    }
  }

  lemma {:induction false} SegmentsWellFormed(p: Bytes)
    requires WellFormed(p)
    ensures forall l | l in Segments(p) :: WellFormed(l)
    decreases |p|
  {
    var n := Break(p);
    if n < |p| {
      assert p == p[..n] + [NEWLINE] + p[n + 1..];
      CutAtAscii(p[..n], NEWLINE, p[n + 1..]);
      SegmentsWellFormed(p[n + 1..]);
    }
  }

  function DataFields(lines: seq<Bytes>): seq<Field> {
    if lines == [] then [] else [Data(lines[0])] + DataFields(lines[1..])
  }

  function Trimmed(lines: seq<Bytes>): seq<Bytes> {
    if lines == [] then [] else [TrimEnd(lines[0])] + Trimmed(lines[1..])
  }

  lemma {:induction false} DataFieldsTexts(lines: seq<Bytes>)
    ensures Texts(DataFields(lines)) == Trimmed(lines)
  {
    hide TrimEnd;
    if lines != [] {
      DataFieldsTexts(lines[1..]);
    }
  }

  predicate EndsInReturn(line: Bytes) {
    line != [] && line[|line| - 1] == CR
  }

  lemma {:induction false} TrimmedLength(lines: seq<Bytes>)
    requires forall l | l in lines :: NEWLINE !in l
    ensures |JoinLines(Trimmed(lines))| <= |JoinLines(lines)|
    ensures JoinLines(Trimmed(lines)) == JoinLines(lines) <==> forall l | l in lines :: !EndsInReturn(l)
  {
    if lines != [] {
      var l, t := lines[0], TrimEnd(lines[0]);
      assert l in lines;
      assert |t| <= |l| && (|t| == |l| <==> !EndsInReturn(l)) && (|t| == |l| ==> t == l);
      TrimmedLength(lines[1..]);
      assert Trimmed(lines)[1..] == Trimmed(lines[1..]);
      assert forall x :: x in lines <==> x == l || x in lines[1..];
      if |lines| > 1 {
        assert Trimmed(lines[1..]) != [];
        var j, k := JoinLines(lines[1..]), JoinLines(Trimmed(lines[1..]));
        assert JoinLines(lines) == l + [NEWLINE] + j && JoinLines(Trimmed(lines)) == t + [NEWLINE] + k;
        assert (l + [NEWLINE] + j)[|l| + 1..] == j && (t + [NEWLINE] + k)[|t| + 1..] == k;
      }
    }
  }

  lemma {:induction false} TextsOf(before: seq<Field>, fs: seq<Field>, after: seq<Field>)
    requires forall f | f in before || f in after :: f.Other?
    ensures Texts(before + fs + after) == Texts(fs)
    decreases |before|, |fs|, |after|
  {
    var all := before + fs + after;
    if before != [] {
      assert all[1..] == before[1..] + fs + after && all[0] == before[0] && before[0] in before;
      TextsOf(before[1..], fs, after);
    } else if fs != [] {
      assert all[1..] == [] + fs[1..] + after && all[0] == fs[0];
      TextsOf([], fs[1..], after);
    } else if after != [] {
      assert all[1..] == [] + [] + after[1..] && all[0] == after[0] && after[0] in after;
      TextsOf([], [], after[1..]);
    }
  }

  /** A payload as data lines with other fields around them, or other fields alone, or a stray blank line. */
  datatype Item = Message(payload: Bytes, before: seq<Field>, after: seq<Field>, crs: nat)
                | Skipped(others: seq<Field>, crs: nat)

  function BlockOf(i: Item): Block {
    match i
    case Message(p, before, after, crs) => Block(before + DataFields(Segments(p)) + after, crs)
    case Skipped(others, crs) => Block(others, crs)
  }

  /** The payload is UTF-8, and no line is over the cap for lines. */
  predicate ItemOk(i: Item) {
    && i.crs <= MAX_MESSAGE_BYTES
    && match i
       case Message(p, before, after, _) =>
         && WellFormed(p) && (forall l | l in Segments(p) :: |DATA| + 1 + |l| <= MAX_MESSAGE_BYTES)
         && forall f | f in before + after :: f.Other? && FieldOk(f)
       case Skipped(others, _) => forall f | f in others :: f.Other? && FieldOk(f)
  }

  function BlocksOf(items: seq<Item>): seq<Block> {
    if items == [] then [] else [BlockOf(items[0])] + BlocksOf(items[1..])
  }

  function Payloads(items: seq<Item>): seq<Bytes> {
    if items == [] then [] else (if items[0].Message? then [items[0].payload] else []) + Payloads(items[1..])
  }

  /** No line of any payload ends in a carriage return. */
  predicate NoReturns(items: seq<Item>) {
    forall i, l | i in items && i.Message? && l in Segments(i.payload) :: !EndsInReturn(l)
  }

  lemma ItemTexts(i: Item)
    requires ItemOk(i)
    ensures i.Skipped? ==> Texts(BlockOf(i).fields) == []
    ensures i.Message? ==> Texts(BlockOf(i).fields) != []
    ensures i.Message? ==>
              (JoinLines(Texts(BlockOf(i).fields)) == i.payload <==> forall l | l in Segments(i.payload) :: !EndsInReturn(l))
  {
    hide WellFormed, JoinLines, TrimEnd, FieldOk;
    if i.Message? {
      var lines := Segments(i.payload);
      SegmentsJoin(i.payload);
      DataFieldsTexts(lines);
      TextsOf(i.before, DataFields(lines), i.after);
      TrimmedLength(lines);
      assert Trimmed(lines) != [];
    } else {
      NoTexts();
      TextsOf(i.others, [], []);
      assert i.others + [] + [] == i.others;
    }
  }

  lemma {:induction false} ItemsPayloads(items: seq<Item>)
    requires forall i | i in items :: ItemOk(i)
    ensures |PayloadsOf(BlocksOf(items))| == |Payloads(items)|
    ensures PayloadsOf(BlocksOf(items)) == Payloads(items) <==> NoReturns(items)
  {
    hide ItemOk, JoinLines, Texts, BlockOf, Segments;
    if items != [] {
      var i, rest := items[0], items[1..];
      assert i in items;
      ItemTexts(i);
      ItemsPayloads(rest);
      assert BlocksOf(items)[1..] == BlocksOf(rest) && BlocksOf(items)[0] == BlockOf(i);
      assert forall x :: x in items <==> x == i || x in rest;
      var a, b := PayloadsOf(BlocksOf(rest)), Payloads(rest);
      if i.Message? {
        var t := JoinLines(Texts(BlockOf(i).fields));
        assert ([t] + a)[1..] == a && ([i.payload] + b)[1..] == b && ([t] + a)[0] == t;
      } else {
        assert [] + a == a && [] + b == b;
      }
    }
  }

  /**
    Any sequence of payloads, with comments, other fields and stray blank lines between
    and around them and within the cap counted since the last event, is read back in
    order and then closed, exactly if no line of a payload ends in a carriage return.
   */
  lemma PayloadsRoundTripIff(items: seq<Item>)
    requires (forall i | i in items :: ItemOk(i)) && WithinCap(BlocksOf(items), 0)
    ensures ReadEvents(EncodeBlocks(BlocksOf(items)), |Payloads(items)|) == (Payloads(items), Closed) <==> NoReturns(items)
  {
    hide ItemOk, BlockOk, PayloadsOf, Payloads, ReadEvents, EncodeBlocks, NoReturns, WithinCap, BlockOf;
    ItemsPayloads(items);
    BlocksAreOk(items);
    EventsReadBack(BlocksOf(items));
  }

  lemma {:induction false} DataFieldsOk(lines: seq<Bytes>)
    requires forall l | l in lines :: NEWLINE !in l && WellFormed(l) && |DATA| + 1 + |l| <= MAX_MESSAGE_BYTES
    ensures forall f | f in DataFields(lines) :: FieldOk(f)
  {
    hide WellFormed, TrimEnd;
    if lines != [] {
      assert lines[0] in lines;
      AsciiBefore(DATA + [SPACE], lines[0]);
      DataFieldsOk(lines[1..]);
    }
  }

  lemma ItemBlockOk(i: Item)
    requires ItemOk(i)
    ensures BlockOk(BlockOf(i))
  {
    hide WellFormed, FieldOk;
    if i.Message? {
      SegmentsWellFormed(i.payload);
      DataFieldsOk(Segments(i.payload));
    }
  }

  lemma {:induction false} BlocksAreOk(items: seq<Item>)
    requires forall i | i in items :: ItemOk(i)
    ensures forall b | b in BlocksOf(items) :: BlockOk(b)
  {
    hide BlockOk, BlockOf, ItemOk;
    if items != [] {
      assert items[0] in items;
      ItemBlockOk(items[0]);
      BlocksAreOk(items[1..]);
    }
  }
}
