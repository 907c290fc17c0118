/** Lines from standard input, read from a buffer that yields whatever has
    arrived: they depend on the bytes alone, not on how they arrived. Which
    bytes are UTF-8 is a parameter. */
module Stdin {
  import opened Basics

  const MAX_LINE := 1024 * 1024
  const NEWLINE: byte := 10
  const RETURN: byte := 13

  /** What the buffer does when asked for more: some bytes, an interrupted
      call, or an error. After these comes the end. */
  datatype Fill = Data(bytes: seq<byte>) | Interrupted | Broken

  datatype Result = Text(bytes: seq<byte>) | TooLong | End | NotUtf8 | Failed

  /** Buffers are not empty before the end. */
  predicate ValidInput(input: seq<Fill>) {
    forall i | 0 <= i < |input| && input[i].Data? :: input[i].bytes != []
  }

  /** The bytes that come before the first error, or all of them. */
  function Ahead(input: seq<Fill>): seq<byte> {
    if input == [] || input[0].Broken? then []
    else (if input[0].Data? then input[0].bytes else []) + Ahead(input[1..])
  }

  /** What comes after the first error, if there is one. */
  function Beyond(input: seq<Fill>): (r: Option<seq<Fill>>)
    ensures r.Some? ==> |r.value| < |input|
  {
    if input == [] then None else if input[0].Broken? then Some(input[1..]) else Beyond(input[1..])
  }

  // --- What the lines are ---

  /** Where the first newline is, or the length if there is none. */
  function Position(data: seq<byte>): (n: nat)
    ensures n <= |data| && (n < |data| ==> data[n] == NEWLINE)
  {
    if data == [] || data[0] == NEWLINE then 0 else 1 + Position(data[1..])
  }

  function Stripped(line: seq<byte>): seq<byte> {
    if line != [] && line[|line| - 1] == RETURN then line[..|line| - 1] else line
  }

  function Classified(line: seq<byte>, utf8: seq<byte> -> bool): Result {
    if |line| > MAX_LINE then TooLong else if utf8(line) then Text(line) else NotUtf8
  }

  function AfterLine(data: seq<byte>): seq<byte> {
    if Position(data) < |data| then data[Position(data) + 1..] else []
  }

  function FirstResult(data: seq<byte>, utf8: seq<byte> -> bool): Result {
    if data == [] then End else Classified(Stripped(data[..Position(data)]), utf8)
  }

  /** Everything reading gives, up to the end. */
  function Lines(data: seq<byte>, utf8: seq<byte> -> bool): seq<Result>
    decreases |data|
  {
    if data == [] then [End] else [FirstResult(data, utf8)] + Lines(AfterLine(data), utf8)
  }

  /** What the lines that end give: one that does not is lost to an error. */
  function Ended(data: seq<byte>, utf8: seq<byte> -> bool): seq<Result>
    decreases |data|
  {
    if Position(data) == |data| then [] else [FirstResult(data, utf8)] + Ended(AfterLine(data), utf8)
  }

  /** Everything reading gives, with an error wherever one comes. */
  function Results(input: seq<Fill>, utf8: seq<byte> -> bool): seq<Result>
    decreases |input|
  {
    match Beyond(input)
    case None => Lines(Ahead(input), utf8)
    case Some(rest) => Ended(Ahead(input), utf8) + ([Failed] + Results(rest, utf8))
  }

  lemma {:induction false} PositionJoins(a: seq<byte>, b: seq<byte>)
    ensures Position(a + b) == if Position(a) < |a| then Position(a) else |a| + Position(b)
  {
    if a == [] {
      assert a + b == b;
    } else {
      assert (a + b)[1..] == a[1..] + b;
      PositionJoins(a[1..], b);
    }
  }

  // --- Reading one ---

  /** An error comes before the line ends. */
  predicate Interfered(input: seq<Fill>) {
    Beyond(input).Some? && Position(Ahead(input)) == |Ahead(input)|
  }

  /** Where a read stands, with `seen` of the line behind it. */
  predicate Keeps(line: seq<byte>, tooLong: bool, seen: seq<byte>) {
    && Position(seen) == |seen|
    && (tooLong <==> |seen| > MAX_LINE + 1) && line == if tooLong then [] else seen
  }

  /** Take part of a line, unless it has become too long. */
  method TakePart(line0: seq<byte>, tooLong0: bool, part: seq<byte>, ghost seen: seq<byte>)
    returns (line: seq<byte>, tooLong: bool)
    requires Keeps(line0, tooLong0, seen) && Position(part) == |part|
    ensures Keeps(line, tooLong, seen + part)
  {
    PositionJoins(seen, part);
    line, tooLong := line0, tooLong0;
    if !tooLong {
      if |line| + |part| > MAX_LINE + 1 {
        line, tooLong := [], true;
      } else {
        line := line + part;
      }
    }
  }

  /** Take the line ending off, and say what the line is. */
  method Finish(line0: seq<byte>, tooLong: bool, utf8: seq<byte> -> bool, ghost seen: seq<byte>) returns (r: Result)
    requires Keeps(line0, tooLong, seen)
    ensures r == Classified(Stripped(seen), utf8)
  {
    var line := line0;
    if line != [] && line[|line| - 1] == RETURN {
      line := line[..|line| - 1];
    }
    if tooLong || |line| > MAX_LINE {
      return TooLong;
    }
    r := if utf8(line) then Text(line) else NotUtf8;
  }

  lemma PrefixHasNone(data: seq<byte>)
    ensures Position(data[..Position(data)]) == Position(data)
  {
    var n := Position(data);
    PositionJoins(data[..n], data[n..]);
    assert data[..n] + data[n..] == data;
  }

  /** The buffer once so much of it has been used. */
  function Consumed(input: seq<Fill>, used: nat): seq<Fill>
    requires input != [] && input[0].Data? && used <= |input[0].bytes|
  {
    if used < |input[0].bytes| then [Data(input[0].bytes[used..])] + input[1..] else input[1..]
  }

  lemma ConsumedIs(input: seq<Fill>, used: nat)
    requires input != [] && input[0].Data? && used <= |input[0].bytes| && ValidInput(input)
    ensures ValidInput(Consumed(input, used)) && Beyond(Consumed(input, used)) == Beyond(input)
    ensures Ahead(Consumed(input, used)) == input[0].bytes[used..] + Ahead(input[1..])
  {
    var c := Consumed(input, used);
    if used < |input[0].bytes| {
      assert c[1..] == input[1..];
    }
  }

  /** The line ends in the next buffer. */
  lemma EndsThere(seen: seq<byte>, buf: seq<byte>, after: seq<byte>, at: nat)
    requires Position(seen) == |seen| && at == Position(buf) < |buf|
    ensures var data := seen + (buf + after);
      Position(data) == |seen| + at && data[..|seen| + at] == seen + buf[..at] && AfterLine(data) == buf[at + 1..] + after
  {
    PositionJoins(seen, buf + after);
    PositionJoins(buf, after);
    CutAt(seen, buf, after, at);
  }

  lemma CutAt(a: seq<byte>, b: seq<byte>, c: seq<byte>, at: nat)
    requires at < |b|
    ensures (a + (b + c))[..|a| + at] == a + b[..at] && (a + (b + c))[|a| + at + 1..] == b[at + 1..] + c
  {
  }

  /** The line ended in this buffer: what the buffers hold is read as it. */
  lemma PartIsLine(seen: seq<byte>, buf: seq<byte>, after: seq<byte>, data: seq<byte>, at: nat, utf8: seq<byte> -> bool)
    requires Position(seen) == |seen| && at == Position(buf) < |buf| && data == seen + (buf + after)
    ensures Position(data) < |data| && FirstResult(data, utf8) == Classified(Stripped(seen + buf[..at]), utf8)
    ensures AfterLine(data) == buf[at + 1..] + after
  {
    EndsThere(seen, buf, after, at);
    LineUpTo(data, |seen| + at, seen + buf[..at], utf8);
  }

  lemma LineUpTo(data: seq<byte>, n: nat, line: seq<byte>, utf8: seq<byte> -> bool)
    requires n == Position(data) < |data| && data[..n] == line
    ensures FirstResult(data, utf8) == Classified(Stripped(line), utf8)
  {
  }

  /** One buffer's worth: how much of it the line used, and the result if the
      line ended in it. */
  method ReadPart(buf: seq<byte>, line0: seq<byte>, tooLong0: bool, utf8: seq<byte> -> bool, ghost seen: seq<byte>, ghost after: seq<byte>, ghost data: seq<byte>)
    returns (line: seq<byte>, tooLong: bool, r: Option<Result>, used: nat)
    requires buf != [] && Keeps(line0, tooLong0, seen) && data == seen + (buf + after)
    ensures used <= |buf|
    ensures r.Some? ==> r.value == FirstResult(data, utf8) && AfterLine(data) == buf[used..] + after && Position(data) < |data|
    ensures r.None? ==> used == |buf| && Keeps(line, tooLong, seen + buf)
  {
    var at := Position(buf);
    PrefixHasNone(buf);
    line, tooLong := TakePart(line0, tooLong0, buf[..at], seen);
    if at < |buf| {
      PartIsLine(seen, buf, after, data, at, utf8);
      var end := Finish(line, tooLong, utf8, seen + buf[..at]);
      r, used := Some(end), at + 1;
    } else {
      assert buf[..at] == buf;
      r, used := None, at;
    }
  }

  /** A line that ends, or the input's last, is what it is whatever follows;
      one that an error comes before the end of is an error. */
  method ReadLine(input: seq<Fill>, utf8: seq<byte> -> bool) returns (r: Result, rest: seq<Fill>)
    requires ValidInput(input)
    ensures ValidInput(rest)
    ensures Interfered(input) ==> r == Failed && rest == Beyond(input).value
    ensures !Interfered(input) ==> r == FirstResult(Ahead(input), utf8) && Ahead(rest) == AfterLine(Ahead(input)) && Beyond(rest) == Beyond(input)
  {
    ghost var data, seen: seq<byte> := Ahead(input), [];
    var line, tooLong := [], false;
    rest := input;
    while rest != [] && !rest[0].Broken?
      invariant ValidInput(rest) && Beyond(rest) == Beyond(input)
      invariant data == seen + Ahead(rest) && Keeps(line, tooLong, seen)
      decreases |rest|
    {
      if rest[0].Interrupted? {
        assert Ahead(rest) == Ahead(rest[1..]);
        rest := rest[1..];
      } else {
        var buf := rest[0].bytes;
        ghost var after := Ahead(rest[1..]);
        var end, used;
        line, tooLong, end, used := ReadPart(buf, line, tooLong, utf8, seen, after, data);
        ConsumedIs(rest, used);
        rest := Consumed(rest, used);
        if end.Some? {
          return end.value, rest;
        }
        Associative(seen, buf, after);
        seen := seen + buf;
      }
    }
    assert seen + [] == seen;
    if rest != [] {
      return Failed, rest[1..];
    }
    r := FinishInput(line, tooLong, utf8, seen);
  }

  /** The input is over: whatever there is of a line is the last one. */
  method FinishInput(line: seq<byte>, tooLong: bool, utf8: seq<byte> -> bool, ghost seen: seq<byte>) returns (r: Result)
    requires Keeps(line, tooLong, seen)
    ensures r == FirstResult(seen, utf8) && AfterLine(seen) == []
  {
    if line == [] && !tooLong {
      return End;
    }
    assert seen[..|seen|] == seen;
    r := Finish(line, tooLong, utf8, seen);
  }

  // --- Reading them all ---

  lemma LinesStep(data: seq<byte>, utf8: seq<byte> -> bool)
    ensures FirstResult(data, utf8) == End <==> data == []
    ensures data != [] ==> |AfterLine(data)| < |data|
    ensures Lines(data, utf8) == [FirstResult(data, utf8)] + if data == [] then [] else Lines(AfterLine(data), utf8)
  {
  }

  /** How many errors there are. */
  function Errors(input: seq<Fill>): nat
    decreases |input|
  {
    match Beyond(input)
    case None => 0
    case Some(rest) => 1 + Errors(rest)
  }

  /** What reading gives depends on what is ahead and beyond alone. */
  lemma ResultsStep(input: seq<Fill>, rest: seq<Fill>, utf8: seq<byte> -> bool)
    requires Interfered(input) ==> rest == Beyond(input).value
    requires !Interfered(input) ==> Ahead(rest) == AfterLine(Ahead(input)) && Beyond(rest) == Beyond(input)
    ensures Interfered(input) ==> Results(input, utf8) == [Failed] + Results(rest, utf8) && Errors(rest) < Errors(input)
    ensures !Interfered(input) ==> Errors(rest) == Errors(input) && FirstResult(Ahead(input), utf8) != Failed
    ensures !Interfered(input) && Ahead(input) == [] ==> Results(input, utf8) == [End]
    ensures !Interfered(input) && Ahead(input) != [] ==>
              Results(input, utf8) == [FirstResult(Ahead(input), utf8)] + Results(rest, utf8) && |Ahead(rest)| < |Ahead(input)|
  {
    var data := Ahead(input);
    LinesStep(data, utf8);
    if Interfered(input) {
      assert [] + ([Failed] + Results(rest, utf8)) == [Failed] + Results(rest, utf8);
    } else if Beyond(input).Some? {
      Associative([FirstResult(data, utf8)], Ended(AfterLine(data), utf8), [Failed] + Results(Beyond(input).value, utf8));
    }
  }

  /** The reader thread's loop: line after line, past errors, to the end. */
  method ReadLines(input: seq<Fill>, utf8: seq<byte> -> bool) returns (queue: seq<Result>)
    requires ValidInput(input)
    ensures queue == Results(input, utf8)
  {
    queue := [];
    var rest, ended := input, false;
    ghost var left := Results(input, utf8);
    while !ended
      invariant ValidInput(rest) && left == (if ended then [] else Results(rest, utf8))
      invariant Results(input, utf8) == queue + left
      decreases !ended, Errors(rest), |Ahead(rest)|
    {
      var line, after := ReadLine(rest, utf8);
      ResultsStep(rest, after, utf8);
      LinesStep(Ahead(rest), utf8);
      rest, ended := after, line.End?;
      left := if ended then [] else Results(rest, utf8);
      Associative(queue, [line], left);
      queue := queue + [line];
    }
  }

  // --- Lines written one after another are read back ---

  predicate Writable(line: seq<byte>, utf8: seq<byte> -> bool) {
    && Position(line) == |line| && |line| <= MAX_LINE && utf8(line)
    && (line != [] ==> line[|line| - 1] != RETURN)
  }

  function Ending(windows: bool): seq<byte> {
    if windows then [RETURN, NEWLINE] else [NEWLINE]
  }

  function Written(lines: seq<seq<byte>>, windows: bool): seq<byte> {
    if lines == [] then [] else lines[0] + Ending(windows) + Written(lines[1..], windows)
  }

  function Texts(lines: seq<seq<byte>>): seq<Result> {
    if lines == [] then [] else [Text(lines[0])] + Texts(lines[1..])
  }

  function WithReturn(line: seq<byte>, windows: bool): seq<byte> {
    if windows then line + [RETURN] else line
  }

  lemma ReturnStripped(line: seq<byte>, windows: bool, utf8: seq<byte> -> bool)
    requires Writable(line, utf8)
    ensures Position(WithReturn(line, windows)) == |WithReturn(line, windows)| && Stripped(WithReturn(line, windows)) == line
    ensures line + Ending(windows) == WithReturn(line, windows) + [NEWLINE]
  {
    assert Position([RETURN]) == 1 by { assert [RETURN][1..] == []; }
    PositionJoins(line, [RETURN]);
  }

  lemma Terminated(line: seq<byte>, after: seq<byte>)
    requires Position(line) == |line|
    ensures var data := line + ([NEWLINE] + after);
      Position(data) == |line| && data[..|line|] == line && AfterLine(data) == after
  {
    PositionJoins(line, [NEWLINE] + after);
    AroundOne(line, NEWLINE, after);
  }

  lemma AroundOne(a: seq<byte>, x: byte, c: seq<byte>)
    ensures var s := a + ([x] + c); s[..|a|] == a && s[|a|] == x && s[|a| + 1..] == c
  {
  }

  /** The first of the lines, with its ending. */
  lemma FirstIs(line: seq<byte>, after: seq<byte>, windows: bool, utf8: seq<byte> -> bool)
    requires Writable(line, utf8)
    ensures var data := line + Ending(windows) + after; FirstResult(data, utf8) == Text(line) && AfterLine(data) == after
  {
    var whole := WithReturn(line, windows);
    ReturnStripped(line, windows, utf8);
    Terminated(whole, after);
    Associative(whole, [NEWLINE], after);
  }

  /** The line that the input ends without ending, if there is one, and the end. */
  function LastResults(last: seq<byte>): seq<Result> {
    if last == [] then [End] else [Text(last), End]
  }

  lemma LastIs(last: seq<byte>, utf8: seq<byte> -> bool)
    requires Writable(last, utf8)
    ensures Lines(last, utf8) == LastResults(last)
  {
    assert last[..|last|] == last;
    LinesStep(last, utf8);
    LinesStep([], utf8);
  }

  /** Lines come back as they were written, whichever endings they have, and a
      last one without an ending too. */
  lemma {:induction false} WrittenLinesRead(lines: seq<seq<byte>>, last: seq<byte>, windows: bool, utf8: seq<byte> -> bool)
    requires (forall i | 0 <= i < |lines| :: Writable(lines[i], utf8)) && Writable(last, utf8)
    ensures Lines(Written(lines, windows) + last, utf8) == Texts(lines) + LastResults(last)
  {
    if lines == [] {
      assert [] + last == last;
      LastIs(last, utf8);
    } else {
      var after := Written(lines[1..], windows) + last;
      Associative(lines[0] + Ending(windows), Written(lines[1..], windows), last);
      WrittenLinesRead(lines[1..], last, windows, utf8);
      OneMoreLine(lines[0], after, windows, utf8);
      Associative([Text(lines[0])], Texts(lines[1..]), LastResults(last));
    }
  }

  lemma OneMoreLine(line: seq<byte>, after: seq<byte>, windows: bool, utf8: seq<byte> -> bool)
    requires Writable(line, utf8)
    ensures Lines(line + Ending(windows) + after, utf8) == [Text(line)] + Lines(after, utf8)
  {
    FirstIs(line, after, windows, utf8);
    LinesStep(line + Ending(windows) + after, utf8);
  }
}
