/** The log's queue between the tasks that log and the thread that writes: it is
    bounded, so it may drop lines, but it keeps their order and counts what it
    drops.

    One step is one section under the queue's lock, or what a thread does
    between two of them. Flushers do nothing to each other or to the queue, so
    the state has one of them. */
module LogQueue {
  import opened Basics

  /** Lines are numbered in the order they were logged. */
  datatype Line = Line(serial: nat, text: seq<byte>)

  function Bytes(lines: seq<Line>): nat {
    if lines == [] then 0 else |lines[0].text| + Bytes(lines[1..])
  }

  lemma {:induction false} BytesJoin(a: seq<Line>, b: seq<Line>)
    ensures Bytes(a + b) == Bytes(a) + Bytes(b)
  {
    if a == [] {
      assert a + b == b;
    } else {
      assert (a + b)[1..] == a[1..] + b;
      BytesJoin(a[1..], b);
    }
  }

  lemma BytesSplit(lines: seq<Line>, k: nat)
    requires k <= |lines|
    ensures Bytes(lines) == Bytes(lines[..k]) + Bytes(lines[k..])
  {
    BytesJoin(lines[..k], lines[k..]);
    assert lines[..k] + lines[k..] == lines;
  }

  // --- Dropping and taking ---

  /** What is left once the oldest lines have been dropped to make room, but
      never the newest one. */
  function Trimmed(lines: seq<Line>, inFlight: nat, cap: nat): seq<Line> {
    if Bytes(lines) + inFlight > cap && |lines| > 1 then Trimmed(lines[1..], inFlight, cap) else lines
  }

  /** It is the longest end of the queue that fits, or the last line. */
  lemma {:induction false} TrimmedIs(lines: seq<Line>, inFlight: nat, cap: nat)
    ensures var kept := Trimmed(lines, inFlight, cap);
      && |kept| <= |lines| && kept == lines[|lines| - |kept|..] && (lines != [] ==> kept != [])
      && (Bytes(kept) + inFlight <= cap || |kept| <= 1)
      && (|kept| < |lines| ==> Bytes(lines[|lines| - |kept| - 1..]) + inFlight > cap)
  {
    if Bytes(lines) + inFlight > cap && |lines| > 1 {
      TrimmedIs(lines[1..], inFlight, cap);
      var kept := Trimmed(lines, inFlight, cap);
      if |kept| < |lines| - 1 {
        assert lines[|lines| - |kept| - 1..] == lines[1..][|lines[1..]| - |kept| - 1..];
      } else {
        assert lines[0..] == lines;
      }
    }
  }

  /** How many lines a batch takes, with so many bytes in it already. */
  function BatchSize(lines: seq<Line>, bytes: nat, batchMax: nat, first: bool): (k: nat)
    ensures k <= |lines| && (first && lines != [] ==> k > 0)
  {
    if lines == [] || (!first && bytes + |lines[0].text| > batchMax) then 0
    else 1 + BatchSize(lines[1..], bytes + |lines[0].text|, batchMax, false)
  }

  /** As many of the oldest as fit, or one. */
  lemma {:induction false} BatchIs(lines: seq<Line>, bytes: nat, batchMax: nat, first: bool)
    ensures var k := BatchSize(lines, bytes, batchMax, first);
      && (k == 0 || (first && k == 1) || bytes + Bytes(lines[..k]) <= batchMax)
      && (0 < k < |lines| ==> bytes + Bytes(lines[..k + 1]) > batchMax)
      && (!first && k == 0 && lines != [] ==> bytes + Bytes(lines[..1]) > batchMax)
  {
    var k := BatchSize(lines, bytes, batchMax, first);
    if lines != [] {
      assert lines[..1][1..] == [];
    }
    if k > 0 {
      BatchIs(lines[1..], bytes + |lines[0].text|, batchMax, false);
      assert lines[..k][1..] == lines[1..][..k - 1];
      if k < |lines| {
        assert lines[..k + 1][1..] == lines[1..][..k];
      }
    }
  }

  /** One line moved from the queue to the batch. */
  lemma MovesOver(taken: seq<Line>, lines: seq<Line>, bytes: nat, batchMax: nat)
    requires lines != [] && (taken == [] || bytes + |lines[0].text| <= batchMax) && bytes == Bytes(taken)
    ensures taken + lines == taken + [lines[0]] + lines[1..]
    ensures bytes + |lines[0].text| == Bytes(taken + [lines[0]])
    ensures BatchSize(lines, bytes, batchMax, taken == []) == 1 + BatchSize(lines[1..], bytes + |lines[0].text|, batchMax, false)
  {
    BytesJoin(taken, [lines[0]]);
    assert [lines[0]][1..] == [];
  }

  /** The loop that pops lines off the queue into a batch. */
  method TakeBatch(all: seq<Line>, batchMax: nat) returns (taken: seq<Line>, lines: seq<Line>, bytes: nat)
    ensures var k := BatchSize(all, 0, batchMax, true); taken == all[..k] && lines == all[k..] && bytes == Bytes(taken)
  {
    taken, lines, bytes := [], all, 0;
    while lines != [] && (taken == [] || bytes + |lines[0].text| <= batchMax)
      invariant all == taken + lines && bytes == Bytes(taken)
      invariant |taken| + BatchSize(lines, bytes, batchMax, taken == []) == BatchSize(all, 0, batchMax, true)
      decreases |lines|
    {
      MovesOver(taken, lines, bytes, batchMax);
      bytes := bytes + |lines[0].text|;
      taken := taken + [lines[0]];
      lines := lines[1..];
    }
  }

  // --- The queue, as the threads change it ---

  datatype Queue = Queue(lines: seq<Line>, inFlight: nat, dropped: nat, writing: bool, sleeping: bool)

  function Pushed(q: Queue, line: Line, cap: nat): Queue {
    var kept := Trimmed(q.lines + [line], q.inFlight, cap);
    TrimmedIs(q.lines + [line], q.inFlight, cap);
    q.(lines := kept, dropped := q.dropped + (|q.lines| + 1 - |kept|), sleeping := false)
  }

  function Left(q: Queue, batchMax: nat): Queue {
    var k := BatchSize(q.lines, 0, batchMax, true);
    Queue(q.lines[k..], Bytes(q.lines[..k]), 0, true, false)
  }

  class SharedQueue {
    var lines: seq<Line>
    var queued: nat
    var inFlight: nat
    var dropped: nat
    var writing: bool
    var sleeping: bool

    ghost predicate Valid()
      reads this
    {
      queued == Bytes(lines)
    }

    ghost function Now(): Queue
      reads this
    {
      Queue(lines, inFlight, dropped, writing, sleeping)
    }

    constructor ()
      ensures Valid() && Now() == Queue([], 0, 0, false, false)
    {
      lines, queued, inFlight, dropped, writing, sleeping := [], 0, 0, 0, false, false;
    }

    /** Append a line, making room; whether the writer must be woken. */
    method Push(line: Line, cap: nat) returns (wake: bool)
      requires Valid()
      modifies this
      ensures Valid() && Now() == Pushed(old(Now()), line, cap) && wake == old(sleeping)
    {
      BytesJoin(lines, [line]);
      queued := queued + |line.text|;
      lines := lines + [line];
      ghost var all := lines;
      while queued + inFlight > cap && |lines| > 1
        invariant Valid() && lines != [] && |lines| <= |all| && dropped == old(dropped) + (|all| - |lines|)
        invariant Trimmed(lines, inFlight, cap) == Trimmed(all, inFlight, cap)
        invariant inFlight == old(inFlight) && writing == old(writing) && sleeping == old(sleeping)
        decreases |lines|
      {
        queued := queued - |lines[0].text|;
        lines := lines[1..];
        dropped := dropped + 1;
      }
      wake := sleeping;
      sleeping := false;
    }

    /** Take a batch off the front, and the count of lines dropped before it. */
    method Take(batchMax: nat) returns (taken: seq<Line>, lost: nat)
      requires Valid()
      modifies this
      ensures Valid() && Now() == Left(old(Now()), batchMax)
      ensures taken == old(lines)[..BatchSize(old(lines), 0, batchMax, true)] && lost == old(dropped)
    {
      sleeping := false;
      writing := true;
      BytesSplit(lines, BatchSize(lines, 0, batchMax, true));
      var bytes;
      taken, lines, bytes := TakeBatch(lines, batchMax);
      queued := queued - bytes;
      inFlight := bytes;
      lost := dropped;
      dropped := 0;
    }
  }
}
