/** Signals, from the handlers that note them to the queue tasks take them from.
    A handler sets its signal's bit and then writes a byte to a pipe, which may
    be full; one thread reads the pipe, takes all the bits and queues them.
    Bits are a set of codes, and only how many bytes the pipe holds matters. */
module Signals {
  import opened Basics

  const CODES := 5
  const BUFFER := 64

  /** The thread is in `read`, has come back from it, or has taken these bits
      and is about to queue them. */
  datatype Reader = Reading | Back | Holding(codes: set<nat>)

  datatype State = State(
    pending: set<nat>,
    writing: nat,           // handlers that have set their bit and not written yet
    pipe: nat,              // bytes in the pipe
    room: nat,              // and how many fit
    reader: Reader,
    queue: seq<nat>,
    watching: nat)          // tasks registered to be woken, and not woken yet

  datatype Step =
    | Note(code: nat)       // a handler sets its bit
    | Write                 // and writes its byte, if there is room
    | Read(n: nat)
    | Interrupted           // `read` comes back without a byte
    | Swap
    | Enqueue
    | Next                  // a task takes a signal, if there is one
    | Watch                 // a task that found none registers, unless one has come

  // --- Queueing what was pending ---

  /** The codes below `n` that are pending and not queued yet, in order. */
  function Added(queue: seq<nat>, pending: set<nat>, n: nat): seq<nat> {
    if n == 0 then []
    else Added(queue, pending, n - 1) + if n - 1 in pending && n - 1 !in queue then [n - 1] else []
  }

  /** The loop over the codes, with the queue's lock held. */
  method QueueCodes(queue0: seq<nat>, pending: set<nat>, codes: nat) returns (queue: seq<nat>)
    ensures queue == queue0 + Added(queue0, pending, codes)
  {
    queue := queue0;
    for code := 0 to codes
      invariant queue == queue0 + Added(queue0, pending, code)
    {
      AddedAre(queue0, pending, code, code);
      if code in pending && code !in queue {
        queue := queue + [code];
      }
    }
  }

  lemma {:induction false} AddedAre(queue: seq<nat>, pending: set<nat>, n: nat, c: nat)
    ensures c in Added(queue, pending, n) <==> c < n && c in pending && c !in queue
  {
    if n > 0 { AddedAre(queue, pending, n - 1, c); }
  }

  lemma {:induction false} AddedDiffer(queue: seq<nat>, pending: set<nat>, n: nat)
    ensures Distinct(Added(queue, pending, n))
  {
    if n > 0 {
      AddedDiffer(queue, pending, n - 1);
      AddedAre(queue, pending, n - 1, n - 1);
    }
  }

  /** Everything pending ends up queued, and nothing twice. */
  lemma QueuedOnce(queue: seq<nat>, pending: set<nat>, n: nat, c: nat)
    requires Distinct(queue)
    ensures Distinct(queue + Added(queue, pending, n))
    ensures c in queue + Added(queue, pending, n) <==> c in queue || (c in pending && c < n)
  {
    var more := Added(queue, pending, n);
    AddedDiffer(queue, pending, n);
    AddedAre(queue, pending, n, c);
    forall i | 0 <= i < |more| ensures more[i] !in queue {
      AddedAre(queue, pending, n, more[i]);
    }
  }

  // --- Steps ---

  predicate Enabled(s: State, step: Step) {
    match step
    case Note(code) => code < CODES
    case Write => s.writing > 0
    case Read(n) => s.reader.Reading? && 0 < n <= s.pipe && n <= BUFFER
    case Interrupted => s.reader.Reading?
    case Swap => s.reader.Back?
    case Enqueue => s.reader.Holding?
    case Next => true
    case Watch => true
  }

  function Apply(s: State, step: Step): State
    requires Enabled(s, step)
  {
    match step
    case Note(code) => s.(pending := s.pending + {code}, writing := s.writing + 1)
    case Write => s.(writing := s.writing - 1, pipe := if s.pipe < s.room then s.pipe + 1 else s.pipe)
    case Read(n) => s.(pipe := s.pipe - n, reader := Back)
    case Interrupted => s.(reader := Back)
    case Swap => s.(pending := {}, reader := if s.pending == {} then Reading else Holding(s.pending))
    case Enqueue =>
      s.(queue := s.queue + Added(s.queue, s.reader.codes, CODES), watching := 0, reader := Reading)
    case Next => if s.queue == [] then s else s.(queue := s.queue[1..])
    case Watch => if s.queue == [] then s.(watching := s.watching + 1) else s
  }

  predicate Init(s: State) {
    s.pending == {} && s.writing == 0 && s.pipe == 0 && s.room > 0 && s.reader == Reading && s.queue == [] && s.watching == 0
  }

  predicate Reaches(start: State, steps: seq<Step>, s: State)
    decreases |steps|
  {
    if steps == [] then s == start
    else Enabled(start, steps[0]) && Reaches(Apply(start, steps[0]), steps[1..], s)
  }

  // --- Every run ---

  function Held(r: Reader): set<nat> {
    if r.Holding? then r.codes else {}
  }

  /** A pending bit has a handler yet to write, a byte in the pipe, or the
      reader on its way to it. */
  predicate Inv(s: State) {
    && s.room > 0
    && (s.pending != {} ==> s.writing > 0 || s.pipe > 0 || s.reader.Back?)
    && (forall c | c in s.pending :: c < CODES) && (forall c | c in Held(s.reader) :: c < CODES)
    && (s.reader.Holding? ==> s.reader.codes != {})
    && Distinct(s.queue) && (forall i | 0 <= i < |s.queue| :: s.queue[i] < CODES)
    && (s.watching > 0 ==> s.queue == [])
  }

  lemma InvKept(s: State, step: Step)
    requires Inv(s) && Enabled(s, step)
    ensures Inv(Apply(s, step))
  {
    if step.Enqueue? {
      var t := Apply(s, step);
      forall i | 0 <= i < |t.queue| ensures t.queue[i] < CODES {
        QueuedOnce(s.queue, s.reader.codes, CODES, t.queue[i]);
      }
      QueuedOnce(s.queue, s.reader.codes, CODES, 0);
    }
  }

  lemma {:induction false} InvHolds(start: State, steps: seq<Step>, s: State)
    requires Inv(start) && Reaches(start, steps, s)
    ensures Inv(s)
    decreases |steps|
  {
    if steps != [] {
      InvKept(start, steps[0]);
      InvHolds(Apply(start, steps[0]), steps[1..], s);
    }
  }

  /** While a signal is pending the reader will come for it; no signal is
      queued twice at once; and no task waits while there is one to take. */
  lemma PendingIsOnItsWay(start: State, steps: seq<Step>, s: State)
    requires Init(start) && Reaches(start, steps, s)
    ensures s.pending != {} ==> s.writing > 0 || s.pipe > 0 || s.reader.Back?
    ensures Distinct(s.queue) && |s.queue| <= CODES
    ensures s.watching > 0 ==> s.queue == []
  {
    InvHolds(start, steps, s);
    FewCodes(s.queue, CODES);
  }

  lemma {:induction false} FewCodes(queue: seq<nat>, codes: nat)
    requires Distinct(queue) && forall i | 0 <= i < |queue| :: queue[i] < codes
    ensures |queue| <= codes
    decreases codes
  {
    if queue != [] {
      assert queue[0] < codes;
      var top := codes - 1;
      if k :| 0 <= k < |queue| && queue[k] == top {
        FewCodes(queue[..k] + queue[k + 1..], top);
      } else {
        FewCodes(queue, top);
      }
    }
  }

  /** Noted, and not queued in any state of the run after that. */
  predicate NotQueuedYet(s: State, steps: seq<Step>, c: nat)
    decreases |steps|
  {
    c !in s.queue
    && (steps != [] && Enabled(s, steps[0]) ==> NotQueuedYet(Apply(s, steps[0]), steps[1..], c))
  }

  /** No caught signal is lost: from when its bit is set until it is on the
      queue, it is pending or in the reader's hands. */
  lemma {:induction false} NothingLost(s: State, steps: seq<Step>, t: State, c: nat)
    requires Inv(s) && Reaches(s, steps, t) && (c in s.pending || c in Held(s.reader))
    requires NotQueuedYet(s, steps, c)
    ensures c in t.pending || c in Held(t.reader)
    decreases |steps|
  {
    if steps != [] {
      var next := Apply(s, steps[0]);
      InvKept(s, steps[0]);
      if steps[0].Enqueue? {
        QueuedOnce(s.queue, s.reader.codes, CODES, c);
        assert c !in next.queue;
      }
      NothingLost(next, steps[1..], t, c);
    }
  }

  // --- And it gets there ---

  lemma OneMoreStep(s: State, step: Step, steps: seq<Step>, r: State)
    requires Enabled(s, step) && Reaches(Apply(s, step), steps, r)
    ensures Reaches(s, [step] + steps, r)
  {
    assert ([step] + steps)[1..] == steps;
  }

  /** Steps of the reader and of handlers that have set their bits. */
  predicate Helps(step: Step) {
    step.Write? || step.Read? || step.Swap? || step.Enqueue?
  }

  /** What the reader holds, it can queue. */
  lemma HeldIsQueued(s: State, c: nat) returns (steps: seq<Step>, r: State)
    requires Inv(s) && c in Held(s.reader)
    ensures Reaches(s, steps, r) && c in r.queue && forall i | 0 <= i < |steps| :: Helps(steps[i])
  {
    QueuedOnce(s.queue, s.reader.codes, CODES, c);
    r := Apply(s, Enqueue);
    OneMoreStep(s, Enqueue, [], r);
    steps := [Enqueue] + [];
  }

  lemma BackIsQueued(s: State, c: nat) returns (steps: seq<Step>, r: State)
    requires Inv(s) && s.reader.Back? && c in s.pending
    ensures Reaches(s, steps, r) && c in r.queue && forall i | 0 <= i < |steps| :: Helps(steps[i])
  {
    InvKept(s, Swap);
    var more;
    more, r := HeldIsQueued(Apply(s, Swap), c);
    OneMoreStep(s, Swap, more, r);
    steps := [Swap] + more;
  }

  lemma PipedIsQueued(s: State, c: nat) returns (steps: seq<Step>, r: State)
    requires Inv(s) && s.reader.Reading? && s.pipe > 0 && c in s.pending
    ensures Reaches(s, steps, r) && c in r.queue && forall i | 0 <= i < |steps| :: Helps(steps[i])
  {
    InvKept(s, Read(1));
    var more;
    more, r := BackIsQueued(Apply(s, Read(1)), c);
    OneMoreStep(s, Read(1), more, r);
    steps := [Read(1)] + more;
  }

  lemma ReadingIsQueued(s: State, c: nat) returns (steps: seq<Step>, r: State)
    requires Inv(s) && s.reader.Reading? && c in s.pending
    ensures Reaches(s, steps, r) && c in r.queue && forall i | 0 <= i < |steps| :: Helps(steps[i])
  {
    if s.pipe > 0 {
      steps, r := PipedIsQueued(s, c);
    } else {
      InvKept(s, Write);
      var more;
      more, r := PipedIsQueued(Apply(s, Write), c);
      OneMoreStep(s, Write, more, r);
      steps := [Write] + more;
    }
  }

  /** From any state a run can get to, the reader and the handlers under way
      can by themselves get a noted signal onto the queue. */
  lemma PendingGetsQueued(s: State, c: nat) returns (steps: seq<Step>, r: State)
    requires Inv(s) && (c in s.pending || c in Held(s.reader))
    ensures Reaches(s, steps, r) && c in r.queue && forall i | 0 <= i < |steps| :: Helps(steps[i])
  {
    if c in Held(s.reader) {
      steps, r := HeldIsQueued(s, c);
    } else if s.reader.Back? {
      steps, r := BackIsQueued(s, c);
    } else if s.reader.Reading? {
      steps, r := ReadingIsQueued(s, c);
    } else {
      InvKept(s, Enqueue);
      var more;
      more, r := ReadingIsQueued(Apply(s, Enqueue), c);
      OneMoreStep(s, Enqueue, more, r);
      steps := [Enqueue] + more;
    }
  }
}
