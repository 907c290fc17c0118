/** The log as a whole: any number of tasks logging, the writer thread, and a
    flush, in any order. */
module LogMachine {
  import opened Basics
  import opened LogQueue

  function Max(a: nat, b: nat): nat {
    if a < b then b else a
  }

  function BatchMax(cap: nat): nat {
    Max(cap / 16, 4096)
  }

  /** The writer is about to lock the queue, waits for lines, has been woken (by
      a notification or by nothing), or is writing. */
  datatype Writer = Top | Asleep | Woken | Busy(lines: seq<Line>, lost: nat)

  /** A flush is waiting, and has been told to look again or not, or is over
      because there was nothing left to wait for. */
  datatype Flush = NotFlushing | Waiting(told: bool) | Flushed

  datatype State = State(
    q: Queue,
    writer: Writer,
    wakes: nat,            // loggers that have yet to notify the writer
    logged: seq<Line>,     // everything ever logged
    written: seq<Line>,    // everything ever written
    reported: nat,         // lines reported dropped, in all
    flush: Flush)

  datatype Step = Log(text: seq<byte>) | Notify | Spurious | WriterTurn | WriteDone | FlushCheck | FlushTimeout

  predicate Enabled(s: State, step: Step) {
    match step
    case Log(_) => true
    case Notify => s.wakes > 0
    case Spurious => s.writer.Asleep?
    case WriterTurn => s.writer.Top? || s.writer.Woken?
    case WriteDone => s.writer.Busy?
    case FlushCheck => !s.flush.Flushed?
    case FlushTimeout => s.flush.Waiting?
  }

  /** Something `flush` must wait for. */
  predicate Work(q: Queue) {
    q.lines != [] || q.dropped > 0 || q.writing
  }

  function WriterTurns(s: State, cap: nat): State {
    var q := if s.writer.Top? then s.q.(inFlight := 0) else s.q;
    if q.lines == [] && q.dropped == 0 then
      s.(q := q.(writing := false, sleeping := true), writer := Asleep,
         flush := if s.flush.Waiting? then Waiting(true) else s.flush)
    else
      var k := BatchSize(q.lines, 0, BatchMax(cap), true);
      s.(q := Left(q, BatchMax(cap)), writer := Busy(q.lines[..k], q.dropped))
  }

  function Apply(s: State, step: Step, cap: nat): State
    requires Enabled(s, step)
  {
    match step
    case Log(text) =>
      var line := Line(|s.logged|, text);
      s.(q := Pushed(s.q, line, cap), logged := s.logged + [line], wakes := s.wakes + if s.q.sleeping then 1 else 0)
    case Notify => s.(wakes := s.wakes - 1, writer := if s.writer.Asleep? then Woken else s.writer)
    case Spurious => s.(writer := Woken)
    case WriterTurn => WriterTurns(s, cap)
    case WriteDone => s.(written := s.written + s.writer.lines, reported := s.reported + s.writer.lost, writer := Top)
    case FlushCheck => s.(flush := if Work(s.q) then Waiting(false) else Flushed)
    case FlushTimeout => s.(flush := NotFlushing)
  }

  function Start(): State {
    State(Queue([], 0, 0, false, false), Top, 0, [], [], 0, NotFlushing)
  }

  predicate Reaches(start: State, steps: seq<Step>, s: State, cap: nat)
    decreases |steps|
  {
    if steps == [] then s == start
    else Enabled(start, steps[0]) && Reaches(Apply(start, steps[0], cap), steps[1..], s, cap)
  }

  // --- What is in the writer's hands ---

  function InHand(w: Writer): seq<Line> {
    if w.Busy? then w.lines else []
  }

  function LostInHand(w: Writer): nat {
    if w.Busy? then w.lost else 0
  }

  /** Everything not dropped: written, being written, queued. */
  function Kept(s: State): seq<Line> {
    s.written + InHand(s.writer) + s.q.lines
  }

  // --- Order and counts ---

  predicate Numbered(logged: seq<Line>) {
    forall i | 0 <= i < |logged| :: logged[i].serial == i
  }

  /** Some of what was logged, in the order it was logged. */
  predicate InOrder(kept: seq<Line>, logged: seq<Line>) {
    && (forall i | 0 <= i < |kept| :: kept[i].serial < |logged| && logged[kept[i].serial] == kept[i])
    && (forall i, j | 0 <= i < j < |kept| :: kept[i].serial < kept[j].serial)
  }

  lemma InOrderAppend(kept: seq<Line>, logged: seq<Line>, line: Line)
    requires InOrder(kept, logged) && line.serial == |logged|
    ensures InOrder(kept + [line], logged + [line])
  {
    var more := logged + [line];
    assert forall i | 0 <= i < |logged| :: more[i] == logged[i];
    assert more[|logged|] == line;
  }

  lemma InOrderDrop(a: seq<Line>, b: seq<Line>, k: nat, logged: seq<Line>)
    requires InOrder(a + b, logged) && k <= |b|
    ensures InOrder(a + b[k..], logged)
  {
    var c, d := a + b, a + b[k..];
    forall i | 0 <= i < |d| ensures d[i] == c[if i < |a| then i else i + k] {}
  }

  predicate OrderInv(s: State) {
    && Numbered(s.logged) && InOrder(Kept(s), s.logged)
    && |s.logged| == |Kept(s)| + s.reported + LostInHand(s.writer) + s.q.dropped
  }

  lemma LogKeepsOrder(s: State, text: seq<byte>, cap: nat)
    requires OrderInv(s)
    ensures OrderInv(Apply(s, Log(text), cap))
  {
    var line, t := Line(|s.logged|, text), Apply(s, Log(text), cap);
    TrimmedIs(s.q.lines + [line], s.q.inFlight, cap);
    OrderAfterPush(s, t, line, |s.q.lines| + 1 - |t.q.lines|);
  }

  /** The newest line is added, and some of the oldest are dropped. */
  lemma OrderAfterPush(s: State, t: State, line: Line, k: nat)
    requires OrderInv(s) && line.serial == |s.logged| && k <= |s.q.lines| + 1
    requires t.q.lines == (s.q.lines + [line])[k..] && t.q.dropped == s.q.dropped + k && t.logged == s.logged + [line]
    requires t.written == s.written && t.writer == s.writer && t.reported == s.reported
    ensures OrderInv(t)
  {
    AppendThenDrop(s.written + InHand(s.writer), s.q.lines, line, k, s.logged);
    NumberedAppend(s.logged, line);
  }

  lemma AppendThenDrop(before: seq<Line>, lines: seq<Line>, line: Line, k: nat, logged: seq<Line>)
    requires InOrder(before + lines, logged) && line.serial == |logged| && k <= |lines| + 1
    ensures InOrder(before + (lines + [line])[k..], logged + [line])
  {
    InOrderAppend(before + lines, logged, line);
    assert before + lines + [line] == before + (lines + [line]);
    InOrderDrop(before, lines + [line], k, logged + [line]);
  }

  lemma NumberedAppend(logged: seq<Line>, line: Line)
    requires Numbered(logged) && line.serial == |logged|
    ensures Numbered(logged + [line])
  {
  }

  lemma OrderKept(s: State, step: Step, cap: nat)
    requires OrderInv(s) && Enabled(s, step)
    ensures OrderInv(Apply(s, step, cap))
  {
    var t := Apply(s, step, cap);
    match step
    case Log(text) => LogKeepsOrder(s, text, cap);
    case WriterTurn =>
      assert Kept(t) == Kept(s) by {
        assert InHand(s.writer) == [];
        if t.writer.Busy? {
          var k := |t.writer.lines|;
          assert s.q.lines[..k] + s.q.lines[k..] == s.q.lines;
        }
      }
    case _ => assert Kept(t) == Kept(s);
  }

  // --- Sleeping and flushing ---

  predicate SleepInv(s: State) {
    && (s.writer.Busy? ==> s.q.writing)
    && (s.writer.Asleep? ==> s.wakes > 0 || (s.q.sleeping && s.q.lines == [] && s.q.dropped == 0))
    && (s.flush == Waiting(false) ==> Work(s.q))
  }

  lemma SleepKept(s: State, step: Step, cap: nat)
    requires SleepInv(s) && Enabled(s, step)
    ensures SleepInv(Apply(s, step, cap))
  {
    if step.Log? {
      TrimmedIs(s.q.lines + [Line(|s.logged|, step.text)], s.q.inFlight, cap);
    }
  }

  // --- Memory ---

  function Longest(lines: seq<Line>): nat {
    if lines == [] then 0 else Max(Longest(lines[..|lines| - 1]), |lines[|lines| - 1].text|)
  }

  lemma {:induction false} LongestIs(lines: seq<Line>, i: nat)
    requires i < |lines|
    ensures |lines[i].text| <= Longest(lines)
  {
    if i < |lines| - 1 {
      LongestIs(lines[..|lines| - 1], i);
    }
  }

  lemma LongestGrows(lines: seq<Line>, line: Line)
    ensures Longest(lines) <= Longest(lines + [line])
  {
    assert (lines + [line])[..|lines|] == lines;
  }

  predicate MemoryInv(s: State, cap: nat) {
    && (Bytes(s.q.lines) + s.q.inFlight <= cap || |s.q.lines| <= 1)
    && s.q.inFlight <= Max(BatchMax(cap), Longest(s.logged))
    && (s.writer.Busy? ==> s.q.inFlight == Bytes(s.writer.lines))
  }

  lemma TakeBounded(s: State, cap: nat)
    requires MemoryInv(s, cap) && OrderInv(s) && Enabled(s, WriterTurn)
    ensures MemoryInv(Apply(s, WriterTurn, cap), cap)
  {
    var t, lines := Apply(s, WriterTurn, cap), s.q.lines;
    if t.writer.Busy? {
      var k := |t.writer.lines|;
      BatchIs(lines, 0, BatchMax(cap), true);
      BytesSplit(lines, k);
      if k == 1 {
        assert lines[..1][1..] == [];
        var last := |s.written|;
        assert Kept(s)[last] == lines[0];
        LongestIs(s.logged, lines[0].serial);
      }
    }
  }

  lemma MemoryKept(s: State, step: Step, cap: nat)
    requires MemoryInv(s, cap) && OrderInv(s) && Enabled(s, step)
    ensures MemoryInv(Apply(s, step, cap), cap)
  {
    if step.Log? {
      var line := Line(|s.logged|, step.text);
      TrimmedIs(s.q.lines + [line], s.q.inFlight, cap);
      LongestGrows(s.logged, line);
    } else if step.WriterTurn? {
      TakeBounded(s, cap);
    }
  }

  // --- Every run ---

  predicate Inv(s: State, cap: nat) {
    OrderInv(s) && SleepInv(s) && MemoryInv(s, cap)
  }

  lemma InvKept(s: State, step: Step, cap: nat)
    requires Inv(s, cap) && Enabled(s, step)
    ensures Inv(Apply(s, step, cap), cap)
  {
    OrderKept(s, step, cap);
    SleepKept(s, step, cap);
    MemoryKept(s, step, cap);
  }

  lemma {:induction false} InvHolds(start: State, steps: seq<Step>, s: State, cap: nat)
    requires Inv(start, cap) && Reaches(start, steps, s, cap)
    ensures Inv(s, cap)
    decreases |steps|
  {
    if steps != [] {
      InvKept(start, steps[0], cap);
      InvHolds(Apply(start, steps[0], cap), steps[1..], s, cap);
    }
  }

  /** What is written, being written and queued is what was logged, in order,
      less what was dropped, and every drop is reported or still to be. */
  lemma LinesKeepOrder(steps: seq<Step>, s: State, cap: nat)
    requires Reaches(Start(), steps, s, cap)
    ensures InOrder(s.written + InHand(s.writer) + s.q.lines, s.logged)
    ensures |s.logged| == |s.written| + |InHand(s.writer)| + |s.q.lines| + s.reported + LostInHand(s.writer) + s.q.dropped
  {
    InvHolds(Start(), steps, s, cap);
  }

  /** The writer never waits while there is work, but for a notification that
      is on its way. */
  lemma WriterWakesForWork(steps: seq<Step>, s: State, cap: nat)
    requires Reaches(Start(), steps, s, cap)
    ensures s.writer.Asleep? && (s.q.lines != [] || s.q.dropped > 0) ==> s.wakes > 0
  {
    InvHolds(Start(), steps, s, cap);
  }

  /** Looking now, the flush would end. */
  predicate FlushEnds(s: State, cap: nat) {
    Enabled(s, FlushCheck) && Apply(s, FlushCheck, cap).flush.Flushed?
  }

  /** A flush that ends by itself leaves every line written or reported, and
      one that waits untold has something to wait for. */
  lemma FlushLeavesNothing(steps: seq<Step>, s: State, cap: nat)
    requires Reaches(Start(), steps, s, cap)
    ensures FlushEnds(s, cap) ==> InOrder(s.written, s.logged) && |s.logged| == |s.written| + s.reported
    ensures s.flush == Waiting(false) ==> Work(s.q)
  {
    InvHolds(Start(), steps, s, cap);
    NothingLeft(s, cap);
  }

  lemma NothingLeft(s: State, cap: nat)
    requires Inv(s, cap)
    ensures FlushEnds(s, cap) ==> InOrder(s.written, s.logged) && |s.logged| == |s.written| + s.reported
    ensures s.flush == Waiting(false) ==> Work(s.q)
  {
    if !Work(s.q) {
      assert Kept(s) == s.written;
    }
  }

  /** Bytes the log holds: queued, and taken but not known to be written. */
  function Held(s: State): nat {
    Bytes(s.q.lines) + s.q.inFlight
  }

  lemma OneLineBytes(lines: seq<Line>)
    requires |lines| == 1
    ensures Bytes(lines) == |lines[0].text|
  {
    assert lines[1..] == [];
  }

  lemma Bounded(s: State, cap: nat)
    requires OrderInv(s) && MemoryInv(s, cap)
    ensures Held(s) <= Max(cap, Max(BatchMax(cap), Longest(s.logged)) + Longest(s.logged))
  {
    if |s.q.lines| == 1 {
      var i := |s.written| + |InHand(s.writer)|;
      OneLineBytes(s.q.lines);
      assert Kept(s)[i] == s.q.lines[0];
      LongestIs(s.logged, s.q.lines[0].serial);
    }
  }

  /** Within the cap unless only one line is queued; then, that line and a
      batch, which is itself small or one line. */
  lemma MemoryBounded(steps: seq<Step>, s: State, cap: nat)
    requires Reaches(Start(), steps, s, cap)
    ensures Held(s) <= cap || |s.q.lines| <= 1
    ensures Held(s) <= Max(cap, Max(BatchMax(cap), Longest(s.logged)) + Longest(s.logged))
  {
    InvHolds(Start(), steps, s, cap);
    Bounded(s, cap);
  }

  lemma OneMoreStep(start: State, step: Step, steps: seq<Step>, s: State, cap: nat)
    requires Enabled(start, step) && Reaches(Apply(start, step, cap), steps, s, cap)
    ensures Reaches(start, [step] + steps, s, cap)
  {
    assert ([step] + steps)[1..] == steps;
  }

  /** One line logged to a queue with nothing queued. */
  lemma LoggedAlone(s: State, text: seq<byte>, cap: nat)
    requires s.q.lines == []
    ensures Apply(s, Log(text), cap).q.lines == [Line(|s.logged|, text)]
  {
  }

  lemma TakenAlone(s: State, line: Line, cap: nat)
    requires s.q.lines == [line] && Enabled(s, WriterTurn)
    ensures var t := Apply(s, WriterTurn, cap); t.q.lines == [] && t.q.inFlight == |line.text| && t.logged == s.logged
  {
    assert BatchSize([line], 0, BatchMax(cap), true) == 1 by { assert [line][1..] == []; }
    assert [line][..1] == [line];
    OneLineBytes([line]);
  }

  lemma LongestOfTwo(a: Line, b: Line)
    ensures Longest([a] + [b]) == Max(|a.text|, |b.text|)
  {
    assert ([a] + [b])[..1] == [a];
    assert Longest([a]) == |a.text| by { assert [a][..0] == []; }
  }

  /** A line in flight and a line queued, both too long for the queue. */
  lemma TwoLongLines(text: seq<byte>, cap: nat) returns (steps: seq<Step>, s: State)
    requires |text| > cap
    ensures Reaches(Start(), steps, s, cap)
    ensures Longest(s.logged) == |text| && Held(s) == 2 * |text|
  {
    var a, b := Line(0, text), Line(1, text);
    var s1 := Apply(Start(), Log(text), cap);
    LoggedAlone(Start(), text, cap);
    var s2 := Apply(s1, WriterTurn, cap);
    TakenAlone(s1, a, cap);
    s := Apply(s2, Log(text), cap);
    LoggedAlone(s2, text, cap);
    OneLineBytes([b]);
    assert s.logged == [a] + [b];
    LongestOfTwo(a, b);
    OneMoreStep(s2, Log(text), [], s, cap);
    OneMoreStep(s1, WriterTurn, [Log(text)] + [], s, cap);
    OneMoreStep(Start(), Log(text), [WriterTurn] + ([Log(text)] + []), s, cap);
    steps := [Log(text)] + ([WriterTurn] + ([Log(text)] + []));
  }

  /** In every run, give or take one line, the log holds no more than the cap. */
  ghost predicate GiveOrTakeOneLine(cap: nat, longest: nat) {
    forall steps, s | Reaches(Start(), steps, s, cap) && Longest(s.logged) <= longest :: Held(s) <= cap + longest
  }

  /** That is so exactly when no line is longer than the cap (which is at least
      4 KiB, while a line can have more than 64). */
  lemma OneLineOver(cap: nat, longest: nat)
    requires cap >= 4096
    ensures GiveOrTakeOneLine(cap, longest) <==> longest <= cap
  {
    if longest <= cap {
      forall steps, s | Reaches(Start(), steps, s, cap) && Longest(s.logged) <= longest
        ensures Held(s) <= cap + longest
      {
        MemoryBounded(steps, s, cap);
      }
    } else {
      var text := seq(longest, _ => 0 as byte);
      var steps, s := TwoLongLines(text, cap);
    }
  }
}
