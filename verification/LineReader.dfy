/**
  Reading newline-terminated messages with a cap that is enforced while reading.
  The reader hands out its bytes in pieces of arbitrary size; the lines do not depend
  on how.
 */
module LineReader {
  import opened Utf8

  /** A buffered reader: what `fill_buf` will hand out, piece by piece. */
  class ByteReader {
    var chunks: seq<Bytes>

    /** Only the end of the stream is an empty piece. */
    ghost predicate Valid()
      reads this
    {
      forall c | c in chunks :: c != []
    }

    ghost function Rest(): Bytes
      reads this
    {
      Flatten(chunks)
    }

    constructor (chunks: seq<Bytes>)
      requires forall c | c in chunks :: c != []
      ensures Valid() && Rest() == Flatten(chunks)
    {
      this.chunks := chunks;
    }

    method FillBuf() returns (available: Bytes)
      requires Valid()
      ensures available <= Rest() && (available == [] <==> Rest() == [])
      ensures chunks == [] ==> available == []
      ensures chunks != [] ==> available == chunks[0]
    {
      available := if chunks == [] then [] else chunks[0];
      assert chunks != [] ==> chunks[0] in chunks;
    }

    method Consume(n: nat)
      requires Valid() && chunks != [] && n <= |chunks[0]|
      modifies this
      ensures Valid() && Rest() == old(Rest())[n..]
      ensures |Rest()| == |old(Rest())| - n
    {
      ghost var rest := Rest();
      assert rest == chunks[0] + Flatten(chunks[1..]);
      var left, more := chunks[0][n..], chunks[1..];
      assert forall c | c in more :: c in chunks;
      if left == [] {
        chunks := more;
      } else {
        chunks := [left] + more;
        assert chunks[1..] == more;
      }
      assert rest[n..] == left + Flatten(more);
    }
  }

  function Flatten(chunks: seq<Bytes>): Bytes {
    if chunks == [] then [] else chunks[0] + Flatten(chunks[1..])
  }

  const NEWLINE: Byte := 10
  const MAX_MESSAGE_BYTES := 8 * 1024 * 1024

  /** Where the first newline is, or the length. */
  function Break(b: Bytes): (n: nat)
    ensures n <= |b| && (forall i | 0 <= i < n :: b[i] != NEWLINE) && (n < |b| ==> b[n] == NEWLINE)
  {
    if b == [] || b[0] == NEWLINE then 0 else 1 + Break(b[1..])
  }

  lemma BreakIs(b: Bytes, n: nat)
    requires n <= |b| && (forall i | 0 <= i < n :: b[i] != NEWLINE) && (n < |b| ==> b[n] == NEWLINE)
    ensures Break(b) == n
  {
    if n > 0 {
      BreakIs(b[1..], n - 1);
    }
  }

  /** Bytes without a newline only push the first newline back. */
  lemma BreakAfter(line: Bytes, rest: Bytes)
    requires NEWLINE !in line
    ensures Break(line + rest) == |line| + Break(rest)
    ensures (line + rest)[..Break(line + rest)] == line + rest[..Break(rest)]
    ensures After(line + rest) == After(rest)
  {
    var n := Break(rest);
    BreakIs(line + rest, |line| + n);
    assert (line + rest)[..|line| + n] == line + rest[..n];
    if n < |rest| {
      assert (line + rest)[|line| + n + 1..] == rest[n + 1..];
    }
  }

  // ----- One line -----

  datatype Outcome = EndOfStream | Line(bytes: Bytes) | TooLong | NotUtf8

  predicate Accepted(line: Bytes) {
    |line| <= MAX_MESSAGE_BYTES && WellFormed(line)
  }

  /** What one call returns, by the bytes alone. */
  function Next(rest: Bytes): Outcome {
    var line := rest[..Break(rest)];
    if rest == [] then EndOfStream
    else if |line| > MAX_MESSAGE_BYTES then TooLong
    else if WellFormed(line) then Line(line) else NotUtf8
  }

  function After(rest: Bytes): Bytes {
    if Break(rest) < |rest| then rest[Break(rest) + 1..] else []
  }

  method FindNewline(b: Bytes) returns (n: nat)
    ensures n == Break(b)
  {
    n := 0;
    while n < |b| && b[n] != NEWLINE
      invariant n <= |b| && forall i | 0 <= i < n :: b[i] != NEWLINE
    {
      n := n + 1;
    }
    BreakIs(b, n);
  }

  /** The result and the bytes left depend only on the bytes, and no more than the cap is ever buffered. */
  method ReadLineCapped(reader: ByteReader) returns (r: Outcome, buffered: nat)
    requires reader.Valid()
    modifies reader
    ensures reader.Valid() && r == Next(old(reader.Rest()))
    ensures r.Line? || r.NotUtf8? || r.EndOfStream? ==> reader.Rest() == After(old(reader.Rest()))
    ensures buffered <= MAX_MESSAGE_BYTES
  {
    hide Break, Flatten, Next, Decoded, After;
    ghost var all := reader.Rest();
    var line: Bytes := [];
    buffered := 0;
    assert line + all == all;
    while true
      invariant reader.Valid() && buffered == |line| <= MAX_MESSAGE_BYTES && NEWLINE !in line
      invariant Next(line + reader.Rest()) == Next(all) && After(line + reader.Rest()) == After(all)
      decreases |reader.Rest()|
    {
      ghost var rest := reader.Rest();
      NextAfter(line, rest);
      var available := reader.FillBuf();
      if available == [] {
        return if line == [] then EndOfStream else Decoded(line), buffered;
      }
      var newline := FindNewline(available);
      PieceBreaks(rest, available);
      if newline < |available| {
        if |line| + newline > MAX_MESSAGE_BYTES {
          return TooLong, buffered;
        }
        line := line + available[..newline];
        reader.Consume(newline + 1);
        return Decoded(line), |line|;
      }
      if |line| + |available| > MAX_MESSAGE_BYTES {
        return TooLong, buffered;
      }
      Regroup(line, available, rest);
      line := line + available;
      reader.Consume(|available|);
      buffered := |line|;
    }
  }

  lemma Regroup(line: Bytes, available: Bytes, rest: Bytes)
    requires available <= rest
    ensures line + rest == (line + available) + rest[|available|..]
  {
  }

  /** What the bytes read so far mean for the result. */
  lemma NextAfter(line: Bytes, rest: Bytes)
    requires NEWLINE !in line
    ensures Next(line + rest) ==
            if line == [] && rest == [] then EndOfStream
            else if |line| + Break(rest) > MAX_MESSAGE_BYTES then TooLong
            else Decoded(line + rest[..Break(rest)])
    ensures After(line + rest) == After(rest) && (rest == [] ==> line + rest[..Break(rest)] == line && After(rest) == [])
  {
    BreakAfter(line, rest);
  }

  /** What one piece says about the first newline of the rest. */
  lemma PieceBreaks(rest: Bytes, available: Bytes)
    requires available <= rest
    ensures Break(available) < |available| ==>
              && Break(rest) == Break(available) && rest[..Break(rest)] == available[..Break(available)]
              && After(rest) == rest[Break(available) + 1..]
    ensures Break(available) == |available| ==> Break(rest) >= |available| && NEWLINE !in available
  {
    if Break(available) < |available| {
      BreakIs(rest, Break(available));
    }
    assert forall i | 0 <= i < |available| :: rest[i] == available[i];
  }

  function Decoded(line: Bytes): Outcome {
    if WellFormed(line) then Line(line) else NotUtf8
  }

  // ----- All lines -----

  /** The split at newlines; a final unterminated line counts, an empty one does not. */
  function Split(b: Bytes): seq<Bytes>
    decreases |b|
  {
    if b == [] then [] else [b[..Break(b)]] + Split(After(b))
  }

  function OkPrefix(lines: seq<Bytes>): (n: nat)
    ensures n <= |lines| && (forall i | 0 <= i < n :: Accepted(lines[i])) && (n < |lines| ==> !Accepted(lines[n]))
  {
    if lines == [] || !Accepted(lines[0]) then 0 else 1 + OkPrefix(lines[1..])
  }

  /**
    Repeated reading returns the split at newlines up to the first line that is over
    the cap or not UTF-8, and fails exactly there.
   */
  method ReadAllLines(reader: ByteReader) returns (lines: seq<Bytes>, last: Outcome)
    requires reader.Valid()
    modifies reader
    ensures var all := Split(old(reader.Rest()));
            var n := OkPrefix(all);
            && lines == all[..n]
            && (n == |all| ==> last == EndOfStream)
            && (n < |all| ==> last == if |all[n]| > MAX_MESSAGE_BYTES then TooLong else NotUtf8)
  {
    hide Accepted, Break, After, Flatten;
    ghost var all := Split(reader.Rest());
    lines := [];
    while true
      invariant reader.Valid() && all == lines + Split(reader.Rest())
      invariant forall i | 0 <= i < |lines| :: Accepted(lines[i])
      decreases |reader.Rest()|
    {
      ghost var rest := reader.Rest();
      NextLine(rest);
      var r, _ := ReadLineCapped(reader);
      if !r.Line? {
        OkPrefixIs(all, |lines|);
        assert all[..|lines|] == lines;
        return lines, r;
      }
      assert all == (lines + [r.bytes]) + Split(After(rest));
      lines := lines + [r.bytes];
    }
  }

  /** One call takes the first line of the split, or reports why not. */
  lemma NextLine(rest: Bytes)
    ensures rest == [] <==> Split(rest) == []
    ensures Next(rest) ==
            if rest == [] then EndOfStream
            else if |Split(rest)[0]| > MAX_MESSAGE_BYTES then TooLong
            else if Accepted(Split(rest)[0]) then Line(Split(rest)[0]) else NotUtf8
    ensures rest != [] ==> Split(rest) == [Split(rest)[0]] + Split(After(rest)) && |After(rest)| < |rest|
    ensures rest != [] && |Split(rest)[0]| > MAX_MESSAGE_BYTES ==> !Accepted(Split(rest)[0])
  {
  }

  lemma OkPrefixIs(lines: seq<Bytes>, n: nat)
    requires n <= |lines| && (forall i | 0 <= i < n :: Accepted(lines[i])) && (n < |lines| ==> !Accepted(lines[n]))
    ensures OkPrefix(lines) == n
  {
    if n > 0 {
      OkPrefixIs(lines[1..], n - 1);
    }
  }

  function Unlines(lines: seq<Bytes>): Bytes {
    if lines == [] then [] else lines[0] + [NEWLINE] + Unlines(lines[1..])
  }

  lemma SplitOne(line: Bytes, more: Bytes)
    requires NEWLINE !in line
    ensures Split(line + ([NEWLINE] + more)) == [line] + Split(more)
  {
    var rest := [NEWLINE] + more;
    BreakAfter(line, rest);
    assert Break(rest) == 0 && rest[1..] == more && line + rest[..0] == line;
  }

  /** Splitting undoes terminating lines with newlines. */
  lemma {:induction false} SplitUnlines(lines: seq<Bytes>, rest: Bytes)
    requires forall l | l in lines :: NEWLINE !in l
    ensures Split(Unlines(lines) + rest) == lines + Split(rest)
  {
    hide Split, Break;
    if lines == [] {
      assert Unlines(lines) + rest == rest;
    } else {
      var more := Unlines(lines[1..]) + rest;
      SplitUnlines(lines[1..], rest);
      SplitOne(lines[0], more);
      assert Unlines(lines) + rest == lines[0] + ([NEWLINE] + more);
      assert lines == [lines[0]] + lines[1..];
    }
  }
}
