/** Waiting for one socket with edge-triggered events: the event queue of one
    worker at a time watches the socket, ownership moves between workers, and
    no waiter is ever left behind on a socket that is ready. */
module Readiness {
  import opened Basics

  type Worker = nat
  datatype Dir = Read | Write
  datatype Waiter = Waiter(wait: nat, dir: Dir)

  /** What a worker thread is doing, as far as this socket is concerned. */
  datatype Doing =
    | AtLoop
    | InTask(blocked: set<Dir>)  // operations that have returned WouldBlock since the task was resumed

  datatype State = State(
    ready: set<Dir>,
    owner: Option<Worker>,
    closed: bool,
    waiters: seq<Waiter>,
    doing: map<Worker, Doing>,
    pending: map<Worker, set<Dir>>,  // in the worker's event queue
    hand: map<Worker, set<Dir>>,     // collected by the worker, not handled yet
    woken: map<Worker, seq<nat>>,    // taken off the list, about to be woken
    closing: seq<nat>,               // taken off the list by closing, about to be woken
    claimed: set<nat>)

  datatype Step =
    | BecomeReady(dir: Dir)                      // data, room, the end or an error arrives
    | Resume(w: Worker)                          // the worker runs a task
    | Consume(w: Worker, dir: Dir, all: bool)    // an operation succeeds
    | WouldBlock(w: Worker, dir: Dir)
    | Watch(w: Worker, wait: nat, dir: Dir)      // watch_io
    | Suspend(w: Worker)
    | Poll(w: Worker, got: set<Dir>)
    | Handle(w: Worker)
    | Wake(w: Worker)
    | Claim(wait: nat)                           // by a timer, a canceller or another source
    | Forget(wait: nat)                          // the task is back, and removes itself
    | Close
    | CloseWake

  predicate Known(s: State, w: Worker) {
    w in s.doing && w in s.pending && w in s.hand && w in s.woken
  }

  /** An operation in this direction has just returned WouldBlock, or this
      worker's queue does not watch the socket. */
  predicate MayWatch(s: State, w: Worker, dir: Dir) {
    w in s.doing && s.doing[w].InTask? && (dir in s.doing[w].blocked || s.owner != Some(w))
  }

  predicate Enabled(s: State, step: Step) {
    match step
    case BecomeReady(_) => s.owner.Some? ==> Known(s, s.owner.value)
    case Resume(w) => Known(s, w) && s.doing[w] == AtLoop && s.hand[w] == {} && s.woken[w] == []
    case Consume(w, dir, _) => Known(s, w) && s.doing[w].InTask? && dir in s.ready
    case WouldBlock(w, dir) => Known(s, w) && s.doing[w].InTask? && dir !in s.ready
    case Watch(w, _, dir) => Known(s, w) && MayWatch(s, w, dir) && (s.owner.Some? ==> Known(s, s.owner.value))
    case Suspend(w) => Known(s, w) && s.doing[w].InTask?
    case Poll(w, got) => Known(s, w) && s.doing[w] == AtLoop && s.hand[w] == {} && s.pending[w] <= got
    case Handle(w) => Known(s, w) && s.hand[w] != {}
    case Wake(w) => Known(s, w) && s.woken[w] != []
    case Claim(_) => true
    case Forget(_) => true
    case Close => true
    case CloseWake => s.closing != []
  }

  // --- The waiters' list ---

  function Kept(waiters: seq<Waiter>, dirs: set<Dir>): (r: seq<Waiter>)
    ensures forall x :: x in r <==> x in waiters && x.dir !in dirs
  {
    if waiters == [] then []
    else if waiters[0].dir in dirs then Kept(waiters[1..], dirs)
    else [waiters[0]] + Kept(waiters[1..], dirs)
  }

  function Hit(waiters: seq<Waiter>, dirs: set<Dir>): (r: seq<nat>)
    ensures forall x | x in waiters && x.dir in dirs :: x.wait in r
  {
    if waiters == [] then []
    else if waiters[0].dir in dirs then [waiters[0].wait] + Hit(waiters[1..], dirs)
    else Hit(waiters[1..], dirs)
  }

  function Without(waiters: seq<Waiter>, wait: nat): (r: seq<Waiter>)
    ensures forall x :: x in r <==> x in waiters && x.wait != wait
  {
    if waiters == [] then []
    else if waiters[0].wait == wait then Without(waiters[1..], wait)
    else [waiters[0]] + Without(waiters[1..], wait)
  }

  function Waits(waiters: seq<Waiter>): seq<nat> {
    if waiters == [] then [] else [waiters[0].wait] + Waits(waiters[1..])
  }

  function Dirs(readable: bool, writable: bool): set<Dir> {
    (if readable then {Read} else {}) + (if writable then {Write} else {})
  }

  lemma {:induction false} SplitLast(waiters: seq<Waiter>, x: Waiter, dirs: set<Dir>)
    ensures Kept(waiters + [x], dirs) == Kept(waiters, dirs) + (if x.dir in dirs then [] else [x])
    ensures Hit(waiters + [x], dirs) == Hit(waiters, dirs) + (if x.dir in dirs then [x.wait] else [])
  {
    if waiters != [] {
      assert (waiters + [x])[1..] == waiters[1..] + [x];
      SplitLast(waiters[1..], x, dirs);
    }
  }

  /** The pass `poll_events` makes over a socket's waiters under its lock. */
  method Split(waiters: seq<Waiter>, readable: bool, writable: bool) returns (kept: seq<Waiter>, hit: seq<nat>)
    ensures kept == Kept(waiters, Dirs(readable, writable)) && hit == Hit(waiters, Dirs(readable, writable))
  {
    kept, hit := [], [];
    for i := 0 to |waiters|
      invariant kept == Kept(waiters[..i], Dirs(readable, writable))
      invariant hit == Hit(waiters[..i], Dirs(readable, writable))
    {
      var x := waiters[i];
      SplitLast(waiters[..i], x, Dirs(readable, writable));
      assert waiters[..i + 1] == waiters[..i] + [x];
      if (if x.dir == Write then writable else readable) { hit := hit + [x.wait]; } else { kept := kept + [x]; }
    }
    assert waiters[..|waiters|] == waiters;
  }

  // --- What the steps do ---

  /** `watch_io`: list the waiter, and see that its readiness is reported. Registering
      with a queue, or re-arming there, reports readiness that is already
      there; leaving a queue drops what it had not reported. */
  function WatchIo(s: State, w: Worker, wait: nat, dir: Dir): State
    requires Known(s, w) && (s.owner.Some? ==> Known(s, s.owner.value))
  {
    if s.closed then s
    else
      var s1 := s.(waiters := s.waiters + [Waiter(wait, dir)]);
      if s.owner == Some(w) then s1
      else if s.owner.Some? && |s1.waiters| > 1 then
        s1.(pending := s.pending[s.owner.value := s.pending[s.owner.value] + s.ready])
      else
        var left := if s.owner.Some? then s.pending[s.owner.value := {}] else s.pending;
        s1.(pending := left[w := left[w] + s.ready], owner := Some(w))
  }

  function Apply(s: State, step: Step): State
    requires Enabled(s, step)
  {
    match step
    case BecomeReady(dir) =>
      var s1 := s.(ready := s.ready + {dir});
      if s.owner.None? then s1
      else s1.(pending := s.pending[s.owner.value := s.pending[s.owner.value] + {dir}])
    case Resume(w) => s.(doing := s.doing[w := InTask({})])
    case Consume(w, dir, all) => if all then s.(ready := s.ready - {dir}) else s
    case WouldBlock(w, dir) => s.(doing := s.doing[w := InTask(s.doing[w].blocked + {dir})])
    case Watch(w, wait, dir) => WatchIo(s, w, wait, dir)
    case Suspend(w) => s.(doing := s.doing[w := AtLoop])
    case Poll(w, got) => s.(hand := s.hand[w := got], pending := s.pending[w := {}])
    case Handle(w) =>
      s.(waiters := Kept(s.waiters, s.hand[w]), woken := s.woken[w := s.woken[w] + Hit(s.waiters, s.hand[w])],
         hand := s.hand[w := {}])
    case Wake(w) => s.(claimed := s.claimed + {s.woken[w][0]}, woken := s.woken[w := s.woken[w][1..]])
    case Claim(wait) => s.(claimed := s.claimed + {wait})
    case Forget(wait) => s.(waiters := Without(s.waiters, wait))
    case Close => s.(closed := true, waiters := [], closing := s.closing + Waits(s.waiters))
    case CloseWake => s.(claimed := s.claimed + {s.closing[0]}, closing := s.closing[1..])
  }

  predicate Init(s: State) {
    && s.owner == None && s.waiters == [] && !s.closed && s.closing == []
    && (forall w | w in s.doing :: Known(s, w) && s.doing[w] == AtLoop && s.pending[w] == {} && s.hand[w] == {} && s.woken[w] == [])
  }

  predicate Reaches(start: State, steps: seq<Step>, s: State)
    decreases |steps|
  {
    if steps == [] then s == start
    else Enabled(start, steps[0]) && Reaches(Apply(start, steps[0]), steps[1..], s)
  }

  // --- The invariant ---

  /** Readiness in this direction is on its way to the waiters: in the owner's
      event queue, or collected from it and not handled yet. */
  predicate Coming(s: State, dir: Dir) {
    s.owner.Some? && Known(s, s.owner.value) &&
    (dir in s.pending[s.owner.value] || dir in s.hand[s.owner.value])
  }

  predicate NoneMissed(s: State) {
    forall x | x in s.waiters && x.dir in s.ready :: Coming(s, x.dir)
  }

  /** Readiness since a running task's WouldBlock is still in its own worker's
      queue, which can't be emptied until the task suspends. */
  predicate BlockedKnows(s: State, w: Worker) {
    w in s.doing && s.doing[w].InTask? && s.owner == Some(w) && Known(s, w) ==>
      forall d | d in s.doing[w].blocked && d in s.ready :: d in s.pending[w]
  }

  ghost predicate Inv(s: State) {
    && NoneMissed(s) && (forall w :: BlockedKnows(s, w))
    && (s.waiters != [] ==> s.owner.Some?)
    && (s.owner.Some? ==> Known(s, s.owner.value))
  }

  lemma BlockedKept(s: State, step: Step, w: Worker)
    requires BlockedKnows(s, w) && Enabled(s, step)
    ensures BlockedKnows(Apply(s, step), w)
  {
  }

  lemma MissedNoneKept(s: State, step: Step)
    requires Inv(s) && Enabled(s, step)
    ensures NoneMissed(Apply(s, step))
  {
    if step.Watch? { assert BlockedKnows(s, step.w); }
  }

  lemma InvKept(s: State, step: Step)
    requires Inv(s) && Enabled(s, step)
    ensures Inv(Apply(s, step))
  {
    MissedNoneKept(s, step);
    forall w ensures BlockedKnows(Apply(s, step), w) { BlockedKept(s, step, w); }
  }

  lemma {:induction false} InvHolds(start: State, steps: seq<Step>, s: State)
    requires Inv(start) && Reaches(start, steps, s)
    ensures Inv(s)
    decreases |steps|
  {
    if steps != [] {
      InvKept(start, steps[0]);
      InvHolds(Apply(start, steps[0]), steps[1..], s);
    }
  }

  /** In every run whose waits follow a WouldBlock, while the socket is ready in
      a direction some task waits for, an event for it is pending at the owning
      worker's queue or in that worker's hands. */
  lemma ReadinessNeverMissed(start: State, steps: seq<Step>, s: State, x: Waiter)
    requires Init(start) && Reaches(start, steps, s)
    requires x in s.waiters && x.dir in s.ready
    ensures Coming(s, x.dir)
  {
    InvHolds(start, steps, s);
  }

  lemma HandleWakes(s: State, x: Waiter)
    requires x in s.waiters && s.owner.Some? && Known(s, s.owner.value) && x.dir in s.hand[s.owner.value]
    ensures Enabled(s, Handle(s.owner.value))
    ensures var r := Apply(s, Handle(s.owner.value)); x !in r.waiters && x.wait in r.woken[s.owner.value]
  {
  }

  /** ... so the owner, back at its loop, gets to the waiter by polling and
      handling alone: it is taken off the list, to be woken. */
  lemma ComingArrives(s: State, x: Waiter) returns (steps: seq<Step>, r: State)
    requires x in s.waiters && Coming(s, x.dir) && s.doing[s.owner.value] == AtLoop
    ensures Reaches(s, steps, r) && x !in r.waiters
    ensures s.owner.value in r.woken && x.wait in r.woken[s.owner.value]
    ensures forall step | step in steps :: step == Handle(s.owner.value) || (step.Poll? && step.w == s.owner.value)
  {
    var w := s.owner.value;
    if s.hand[w] == {} {
      var poll := Poll(w, s.pending[w]);
      var s1 := Apply(s, poll);
      HandleWakes(s1, x);
      steps, r := [poll, Handle(w)], Apply(s1, Handle(w));
      assert Reaches(s1, [Handle(w)], r) && steps[1..] == [Handle(w)];
    } else {
      var s1 := Apply(s, Handle(w));
      assert Reaches(s, [Handle(w)], s1);
      if x.dir in s.hand[w] {
        HandleWakes(s, x);
        steps, r := [Handle(w)], s1;
      } else {
        assert x in s1.waiters && Coming(s1, x.dir);
        var poll := Poll(w, s1.pending[w]);
        var s2 := Apply(s1, poll);
        HandleWakes(s2, x);
        steps, r := [Handle(w), poll, Handle(w)], Apply(s2, Handle(w));
        assert Reaches(s2, [Handle(w)], r);
        assert [poll, Handle(w)][1..] == [Handle(w)];
        assert Reaches(s1, [poll, Handle(w)], r) && steps[1..] == [poll, Handle(w)];
      }
    }
  }

  /** Why a wait must follow a WouldBlock: adding a waiter on the worker that
      owns the socket keeps the promise exactly when the direction is not ready
      or its event has not been handled yet. */
  lemma WatchKeepsPromise(s: State, w: Worker, wait: nat, dir: Dir)
    requires Inv(s) && Known(s, w) && !s.closed
    ensures NoneMissed(WatchIo(s, w, wait, dir)) <==> (s.owner != Some(w) || dir !in s.ready || Coming(s, dir))
  {
    var r := WatchIo(s, w, wait, dir);
    assert Waiter(wait, dir) in r.waiters;
    if s.owner == Some(w) {
      assert forall x :: x in r.waiters <==> x in s.waiters || x == Waiter(wait, dir);
    }
  }

  /** Closed means nobody is listed. */
  predicate ClosedEmpty(s: State) {
    s.closed ==> s.waiters == []
  }

  lemma ClosedEmptyKept(s: State, step: Step)
    requires ClosedEmpty(s) && Enabled(s, step)
    ensures ClosedEmpty(Apply(s, step)) && (s.closed ==> Apply(s, step).closed)
  {
  }

  /** Over every run: once the socket is closed nobody is on the list, and
      nobody ever joins it again. */
  lemma {:induction false} ClosedListEmpty(start: State, steps: seq<Step>, s: State)
    requires (Init(start) || ClosedEmpty(start)) && Reaches(start, steps, s)
    ensures s.closed ==> s.waiters == []
    ensures start.closed ==> s.closed
    decreases |steps|
  {
    if steps != [] {
      ClosedEmptyKept(start, steps[0]);
      ClosedListEmpty(Apply(start, steps[0]), steps[1..], s);
    }
  }

  lemma {:induction false} WaitsOfAll(waiters: seq<Waiter>, x: Waiter)
    requires x in waiters
    ensures x.wait in Waits(waiters)
  {
    if x != waiters[0] { WaitsOfAll(waiters[1..], x); }
  }

  lemma {:induction false} ClosingIsWoken(s: State, steps: seq<Step>, r: State, wait: nat)
    requires (wait in s.closing || wait in s.claimed) && Reaches(s, steps, r)
    ensures wait in r.closing || wait in r.claimed
    decreases |steps|
  {
    if steps != [] {
      var next := Apply(s, steps[0]);
      if steps[0].CloseWake? {
        assert s.closing == [s.closing[0]] + s.closing[1..];
      }
      ClosingIsWoken(next, steps[1..], r, wait);
    }
  }

  /** Everyone listed when the socket is closed is woken for it: in every state
      of every run after that their waits are claimed, or about to be. */
  lemma CloseWakesAll(s: State, x: Waiter, steps: seq<Step>, r: State)
    requires x in s.waiters && Reaches(Apply(s, Close), steps, r)
    ensures x.wait in r.closing || x.wait in r.claimed
  {
    WaitsOfAll(s.waiters, x);
    ClosingIsWoken(Apply(s, Close), steps, r, x.wait);
  }
}
