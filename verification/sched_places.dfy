/** Where a task's turn to run is: in every reachable state each task is in
    exactly one place, and its state bits say which kind. */
module SchedPlaces {
  import opened Sched

  /** Somewhere tasks on their way to running can be. */
  datatype Slot =
    | RunQueue(w: ThreadId)
    | Injected
    | InPush(th: ThreadId)  // marked NOTIFIED by this thread, about to be pushed
    | InHand(th: ThreadId)  // taken from a queue by this worker: running, or between queues

  function Contents(s: State, slot: Slot): seq<TaskId> {
    match slot
    case RunQueue(w) => if w in s.queues then s.queues[w] else []
    case Injected => s.inject
    case InPush(th) => if th in s.threads && s.threads[th].op.Pushing? then [s.threads[th].op.task] else []
    case InHand(th) =>
      if th !in s.threads then []
      else match s.threads[th].run
        case Idle => []
        case Ending(_) => []
        case Carrying(ts) => ts
        case Popped(t) => [t]
        case Running(t) => [t]
        case Left(t, _) => [t]
        case Marking(t) => [t]
        case Requeueing(t) => [t]
  }

  predicate Holds(s: State, t: TaskId, slot: Slot, i: nat) {
    i < |Contents(s, slot)| && Contents(s, slot)[i] == t
  }

  /** The bits a task has while it is in `slot`. */
  predicate BitsIn(s: State, slot: Slot, bits: Bits) {
    if slot.InHand? && slot.th in s.threads && (s.threads[slot.th].run.Running? || s.threads[slot.th].run.Left?) then
      bits == RUNNING || bits == RUNNING_NOTIFIED
    else if slot.InHand? && slot.th in s.threads && s.threads[slot.th].run.Marking? then
      bits == RUNNING_NOTIFIED
    else
      bits == QUEUED
  }

  ghost predicate OnePlace(s: State) {
    forall t, p, i, q, j | Holds(s, t, p, i) && Holds(s, t, q, j) :: p == q && i == j
  }

  ghost predicate PlacesAgree(s: State) {
    forall t, p, i | Holds(s, t, p, i) :: t in s.tasks && BitsIn(s, p, s.tasks[t].bits)
  }

  ghost predicate Placed(s: State, t: TaskId) {
    exists p, i :: Holds(s, t, p, i)
  }

  /** A task with no place is suspended or done. */
  ghost predicate BitsPlaced(s: State) {
    forall t | t in s.tasks && s.tasks[t].bits != SUSPENDED && s.tasks[t].bits != DONE :: Placed(s, t)
  }

  /** Only workers run tasks, and a thread's operation names a real task. */
  predicate ThreadOk(s: State, th: ThreadId) {
    th in s.threads ==>
      && (s.threads[th].run != Idle ==> th in s.queues)
      && (s.threads[th].op != Quiet ==> s.threads[th].op.task in s.tasks)
      && (s.threads[th].run.Ending? ==>
            s.threads[th].run.task in s.tasks && s.tasks[s.threads[th].run.task].bits == DONE)
  }

  predicate TaskOk(s: State, t: TaskId) {
    t in s.tasks && s.tasks[t].finished ==> s.tasks[t].bits == DONE
  }

  ghost predicate Shape(s: State) {
    && s.queues.Keys <= s.threads.Keys && s.timers.Keys == s.queues.Keys
    && (forall th :: ThreadOk(s, th))
    && (forall t :: TaskOk(s, t))
  }

  ghost predicate Inv(s: State) {
    Shape(s) && OnePlace(s) && PlacesAgree(s) && BitsPlaced(s)
  }

  // --- Every step moves tasks in one of four ways ---

  datatype Move =
    | Stay
    | Shift(src: Slot, dst: Slot, n: nat)  // the first n of src to the end of dst
    | Enter(dst: Slot, t: TaskId)          // a task that had no place
    | Leave(src: Slot)                     // a task suspended, or done

  function MoveOf(s: State, step: Step): Move
    requires Enabled(s, step)
  {
    match step
    case ByWaker(th, Spawn(t)) => Enter(InPush(th), t)
    case ByWaker(th, Cas(ok)) =>
      if ok && !s.threads[th].op.run then Enter(InPush(th), s.threads[th].op.task) else Stay
    case ByWaker(th, Push) => Shift(InPush(th), if th in s.queues then RunQueue(th) else Injected, 1)
    case ByQueue(th, Pop) => Shift(RunQueue(th), InHand(th), 1)
    case ByRun(th, Settle) =>
      var run := s.threads[th].run;
      if run.why == ForReturn || (run.why == ForWait && s.tasks[run.task].bits == RUNNING) then Leave(InHand(th)) else Stay
    case ByQueue(th, Requeue) => Shift(InHand(th), RunQueue(th), 1)
    case ByQueue(th, TakeInjected) => Shift(Injected, InHand(th), 1)
    case ByQueue(th, Steal(victim)) => Shift(RunQueue(victim), InHand(th), Half(|s.queues[victim]|))
    case ByQueue(th, Deliver) => Shift(InHand(th), RunQueue(th), |s.threads[th].run.tasks|)
    case _ => Stay
  }

  /** What is in `slot` after `move`. */
  function Moved(s: State, move: Move, slot: Slot): seq<TaskId>
    requires move.Shift? ==> move.n <= |Contents(s, move.src)| && move.src != move.dst
  {
    match move
    case Stay => Contents(s, slot)
    case Shift(src, dst, n) =>
      if slot == src then Contents(s, src)[n..]
      else if slot == dst then Contents(s, dst) + Contents(s, src)[..n]
      else Contents(s, slot)
    case Enter(dst, t) => if slot == dst then Contents(s, dst) + [t] else Contents(s, slot)
    case Leave(src) => if slot == src then [] else Contents(s, slot)
  }

  predicate MoveOk(s: State, move: Move) {
    && (move.Shift? ==> move.n <= |Contents(s, move.src)| && move.src != move.dst)
    && (move.Enter? ==> Contents(s, move.dst) == [])
    && (move.Leave? ==> |Contents(s, move.src)| == 1)
  }

  lemma WakerMoves(s: State, th: ThreadId, step: WakerStep, slot: Slot)
    requires WakerEnabled(s, th, step)
    ensures var move := MoveOf(s, ByWaker(th, step));
            MoveOk(s, move) && Contents(WakerApply(s, th, step), slot) == Moved(s, move, slot)
  {
  }

  lemma EnderMoves(s: State, th: ThreadId, step: EnderStep, slot: Slot)
    requires EnderEnabled(s, th, step)
    ensures Contents(EnderApply(s, th, step), slot) == Contents(s, slot)
  {
  }

  lemma QueueMoves(s: State, th: ThreadId, step: QueueStep, slot: Slot)
    requires QueueEnabled(s, th, step)
    ensures var move := MoveOf(s, ByQueue(th, step));
            MoveOk(s, move) && Contents(QueueApply(s, th, step), slot) == Moved(s, move, slot)
  {
    match step
    case Steal(victim) => StealMoves(s, th, victim, slot);
    case Deliver => DeliverMoves(s, th, slot);
    case _ => OneMoves(s, th, step, slot);
  }

  lemma StealMoves(s: State, th: ThreadId, victim: ThreadId, slot: Slot)
    requires QueueEnabled(s, th, Steal(victim))
    ensures var move := MoveOf(s, ByQueue(th, Steal(victim)));
            MoveOk(s, move) && Contents(QueueApply(s, th, Steal(victim)), slot) == Moved(s, move, slot)
  {
  }

  lemma DeliverMoves(s: State, th: ThreadId, slot: Slot)
    requires QueueEnabled(s, th, Deliver)
    ensures var move := MoveOf(s, ByQueue(th, Deliver));
            MoveOk(s, move) && Contents(QueueApply(s, th, Deliver), slot) == Moved(s, move, slot)
  {
    var tasks := s.threads[th].run.tasks;
    assert tasks[..|tasks|] == tasks && tasks[|tasks|..] == [];
  }

  lemma OneMoves(s: State, th: ThreadId, step: QueueStep, slot: Slot)
    requires QueueEnabled(s, th, step) && !step.Steal? && !step.Deliver?
    ensures var move := MoveOf(s, ByQueue(th, step));
            MoveOk(s, move) && Contents(QueueApply(s, th, step), slot) == Moved(s, move, slot)
  {
  }

  lemma RunMoves(s: State, th: ThreadId, step: RunStep, slot: Slot)
    requires RunEnabled(s, th, step)
    ensures var move := MoveOf(s, ByRun(th, step));
            MoveOk(s, move) && Contents(RunApply(s, th, step), slot) == Moved(s, move, slot)
  {
  }

  lemma CodeMoves(s: State, th: ThreadId, step: CodeStep, slot: Slot)
    requires CodeEnabled(s, th, step)
    ensures Contents(CodeApply(s, th, step), slot) == Contents(s, slot)
  {
  }

  ghost predicate MovesBy(s: State, move: Move, s': State) {
    MoveOk(s, move) && forall slot :: Contents(s', slot) == Moved(s, move, slot)
  }

  lemma StepMoves(s: State, step: Step)
    requires Enabled(s, step)
    ensures MovesBy(s, MoveOf(s, step), Apply(s, step))
  {
    var any := Injected;
    match step
    case ByWaker(th, waker) =>
      WakerMoves(s, th, waker, any);
      forall slot { WakerMoves(s, th, waker, slot); }
    case ByEnder(th, ender) => forall slot { EnderMoves(s, th, ender, slot); }
    case ByQueue(th, queue) =>
      QueueMoves(s, th, queue, any);
      forall slot { QueueMoves(s, th, queue, slot); }
    case ByRun(th, run) =>
      RunMoves(s, th, run, any);
      forall slot { RunMoves(s, th, run, slot); }
    case ByCode(th, code) => forall slot { CodeMoves(s, th, code, slot); }
    case Tick(_) =>
  }

  /** What is at `i` of `slot` after a move was here before it. */
  function Came(s: State, move: Move, slot: Slot, i: nat): (Slot, int)
  {
    match move
    case Shift(src, dst, n) =>
      if slot == src then (src, i + n)
      else if slot == dst && |Contents(s, dst)| <= i then (src, i - |Contents(s, dst)|)
      else (slot, i)
    case _ => (slot, i)
  }

  lemma CameFrom(s: State, move: Move, s': State, t: TaskId, slot: Slot, i: nat)
    requires MovesBy(s, move, s') && Holds(s', t, slot, i)
    ensures var (p, j) := Came(s, move, slot, i);
            (move == Enter(slot, t) && i == 0) || (0 <= j && Holds(s, t, p, j) && (move.Leave? ==> p != move.src))
  {
    assert Contents(s', slot) == Moved(s, move, slot);
    match move
    case Stay =>
    case Shift(src, dst, n) => ShiftedFrom(Contents(s, src), Contents(s, dst), n, i);
    case Enter(dst, _) => EnteredAt(Contents(s, dst), move.t, i);
    case Leave(_) =>
  }

  lemma ShiftedFrom(src: seq<TaskId>, dst: seq<TaskId>, n: nat, i: nat)
    requires n <= |src|
    ensures i < |src[n..]| ==> src[n..][i] == src[i + n]
    ensures i < |dst + src[..n]| ==> (dst + src[..n])[i] == if i < |dst| then dst[i] else src[i - |dst|]
  {
  }

  lemma EnteredAt(dst: seq<TaskId>, t: TaskId, i: nat)
    requires dst == []
    ensures i < |dst + [t]| ==> i == 0 && (dst + [t])[i] == t
  {
  }

  lemma WentTo(s: State, move: Move, s': State, t: TaskId, slot: Slot, i: nat)
    requires MovesBy(s, move, s') && Holds(s, t, slot, i) && (move.Leave? ==> slot != move.src)
    ensures Placed(s', t)
  {
    if move.Shift? && slot == move.src {
      if i < move.n {
        assert Contents(s', move.dst) == Moved(s, move, move.dst);
        assert Holds(s', t, move.dst, |Contents(s, move.dst)| + i);
      } else {
        assert Contents(s', slot) == Moved(s, move, slot);
        assert Holds(s', t, slot, i - move.n);
      }
    } else {
      assert Contents(s', slot) == Moved(s, move, slot);
      assert Holds(s', t, slot, i);
    }
  }

  lemma CameInjective(s: State, move: Move, s': State, p: Slot, i: nat, q: Slot, j: nat)
    requires MovesBy(s, move, s') && i < |Contents(s', p)| && j < |Contents(s', q)|
    requires Came(s, move, p, i) == Came(s, move, q, j)
    ensures p == q && i == j
  {
    assert Contents(s', p) == Moved(s, move, p) && Contents(s', q) == Moved(s, move, q);
  }

  lemma OnlyOne(s: State, t: TaskId, p: Slot, i: nat, q: Slot, j: nat)
    requires OnePlace(s) && Holds(s, t, p, i) && Holds(s, t, q, j)
    ensures p == q && i == j
  {
  }

  lemma SamePlace(s: State, move: Move, s': State, t: TaskId, p: Slot, i: nat, q: Slot, j: nat)
    requires OnePlace(s) && MovesBy(s, move, s') && (move.Enter? ==> !Placed(s, move.t))
    requires Holds(s', t, p, i) && Holds(s', t, q, j)
    ensures p == q && i == j
  {
    CameFrom(s, move, s', t, p, i);
    CameFrom(s, move, s', t, q, j);
    if !(move.Enter? && move.t == t) {
      var (p0, i0) := Came(s, move, p, i);
      var (q0, j0) := Came(s, move, q, j);
      OnlyOne(s, t, p0, i0, q0, j0);
      CameInjective(s, move, s', p, i, q, j);
    }
  }

  lemma OnePlaceKept(s: State, move: Move, s': State)
    requires OnePlace(s) && MovesBy(s, move, s') && (move.Enter? ==> !Placed(s, move.t))
    ensures OnePlace(s')
  {
    forall t, p, i, q, j | Holds(s', t, p, i) && Holds(s', t, q, j)
      ensures p == q && i == j
    {
      SamePlace(s, move, s', t, p, i, q, j);
    }
  }

  // --- The bits follow ---

  /** `t` is at `i` of `slot`, and its bits say so. */
  predicate WellAt(s: State, t: TaskId, slot: Slot, i: nat) {
    Holds(s, t, slot, i) && t in s.tasks && BitsIn(s, slot, s.tasks[t].bits)
  }

  lemma WakerAgrees(s: State, th: ThreadId, step: WakerStep, t: TaskId, slot: Slot, i: nat)
    requires WakerEnabled(s, th, step) && Holds(WakerApply(s, th, step), t, slot, i)
    requires var (p, j) := Came(s, MoveOf(s, ByWaker(th, step)), slot, i);
             MoveOf(s, ByWaker(th, step)) == Enter(slot, t) || (0 <= j && WellAt(s, t, p, j))
    ensures WellAt(WakerApply(s, th, step), t, slot, i)
  {
  }

  lemma EnderAgrees(s: State, th: ThreadId, step: EnderStep, t: TaskId, slot: Slot, i: nat)
    requires EnderEnabled(s, th, step) && Holds(EnderApply(s, th, step), t, slot, i)
    requires WellAt(s, t, slot, i)
    ensures WellAt(EnderApply(s, th, step), t, slot, i)
  {
  }

  lemma QueueAgrees(s: State, th: ThreadId, step: QueueStep, t: TaskId, slot: Slot, i: nat)
    requires QueueEnabled(s, th, step) && Holds(QueueApply(s, th, step), t, slot, i)
    requires var (p, j) := Came(s, MoveOf(s, ByQueue(th, step)), slot, i); 0 <= j && WellAt(s, t, p, j)
    ensures WellAt(QueueApply(s, th, step), t, slot, i)
  {
  }

  lemma RunAgrees(s: State, th: ThreadId, step: RunStep, t: TaskId, slot: Slot, i: nat)
    requires RunEnabled(s, th, step) && Holds(RunApply(s, th, step), t, slot, i)
    requires WellAt(s, t, slot, i) && (t == s.threads[th].run.task && step != Finish ==> slot == InHand(th))
    ensures WellAt(RunApply(s, th, step), t, slot, i)
  {
  }

  lemma CodeAgrees(s: State, th: ThreadId, step: CodeStep, t: TaskId, slot: Slot, i: nat)
    requires CodeEnabled(s, th, step) && Holds(CodeApply(s, th, step), t, slot, i)
    requires WellAt(s, t, slot, i)
    ensures WellAt(CodeApply(s, th, step), t, slot, i)
  {
  }

  lemma EnterFresh(s: State, step: Step)
    requires PlacesAgree(s) && Enabled(s, step) && MoveOf(s, step).Enter?
    ensures !Placed(s, MoveOf(s, step).t)
  {
    var t := MoveOf(s, step).t;
    forall p, i ensures !Holds(s, t, p, i) {}
  }

  lemma AgreeAt(s: State, step: Step, t: TaskId, slot: Slot, i: nat)
    requires OnePlace(s) && PlacesAgree(s) && Enabled(s, step) && Holds(Apply(s, step), t, slot, i)
    ensures WellAt(Apply(s, step), t, slot, i)
  {
    StepMoves(s, step);
    CameFrom(s, MoveOf(s, step), Apply(s, step), t, slot, i);
    match step
    case ByWaker(th, waker) => WakerAgrees(s, th, waker, t, slot, i);
    case ByEnder(th, ender) => EnderAgrees(s, th, ender, t, slot, i);
    case ByQueue(th, queue) => QueueAgrees(s, th, queue, t, slot, i);
    case ByRun(th, run) =>
      if t == s.threads[th].run.task && run != Finish {
        OnlyOne(s, t, slot, i, InHand(th), 0);
      }
      RunAgrees(s, th, run, t, slot, i);
    case ByCode(th, code) => CodeAgrees(s, th, code, t, slot, i);
    case Tick(_) =>
  }

  predicate OnItsWay(s: State, t: TaskId) {
    t in s.tasks && s.tasks[t].bits != SUSPENDED && s.tasks[t].bits != DONE
  }

  lemma RunWayKept(s: State, th: ThreadId, step: RunStep, t: TaskId)
    requires RunEnabled(s, th, step) && OnItsWay(RunApply(s, th, step), t)
    requires step != Finish ==> OnItsWay(s, s.threads[th].run.task)
    ensures OnItsWay(s, t)
    ensures MoveOf(s, ByRun(th, step)).Leave? ==>
              Contents(s, InHand(th)) == [s.threads[th].run.task] && t != s.threads[th].run.task
  {
  }

  predicate SameBits(s: State, r: State, t: TaskId) {
    && (t in r.tasks <==> t in s.tasks)
    && (t in r.tasks && t in s.tasks ==> r.tasks[t].bits == s.tasks[t].bits && r.tasks[t].finished == s.tasks[t].finished)
  }

  lemma EnderBits(s: State, th: ThreadId, step: EnderStep, t: TaskId)
    requires EnderEnabled(s, th, step)
    ensures SameBits(s, EnderApply(s, th, step), t)
  {
  }

  lemma QueueBits(s: State, th: ThreadId, step: QueueStep, t: TaskId)
    requires QueueEnabled(s, th, step)
    ensures SameBits(s, QueueApply(s, th, step), t)
  {
  }

  lemma CodeBits(s: State, th: ThreadId, step: CodeStep, t: TaskId)
    requires CodeEnabled(s, th, step)
    ensures SameBits(s, CodeApply(s, th, step), t)
  {
  }

  /** Steps that touch no state bits. */
  lemma BitsFixed(s: State, step: Step, t: TaskId)
    requires Enabled(s, step) && !step.ByRun? && !step.ByWaker?
    ensures SameBits(s, Apply(s, step), t)
  {
    match step
    case ByEnder(th, ender) => EnderBits(s, th, ender, t);
    case ByQueue(th, queue) => QueueBits(s, th, queue, t);
    case ByCode(th, code) => CodeBits(s, th, code, t);
    case Tick(_) =>
  }

  lemma WakerWayKept(s: State, th: ThreadId, step: WakerStep, t: TaskId)
    requires WakerEnabled(s, th, step) && OnItsWay(WakerApply(s, th, step), t)
    ensures (MoveOf(s, ByWaker(th, step)).Enter? && MoveOf(s, ByWaker(th, step)).t == t) || OnItsWay(s, t)
  {
  }

  lemma PlacedKept(s: State, step: Step, t: TaskId)
    requires PlacesAgree(s) && BitsPlaced(s) && Enabled(s, step) && OnItsWay(Apply(s, step), t)
    ensures Placed(Apply(s, step), t)
  {
    var move, s' := MoveOf(s, step), Apply(s, step);
    StepMoves(s, step);
    if step.ByRun? {
      if step.run != Finish { assert Holds(s, s.threads[step.th].run.task, InHand(step.th), 0); }
      RunWayKept(s, step.th, step.run, t);
    } else if step.ByWaker? {
      WakerWayKept(s, step.th, step.waker, t);
    } else {
      BitsFixed(s, step, t);
    }
    if move.Enter? && move.t == t {
      assert Contents(s', move.dst) == Moved(s, move, move.dst);
      assert Holds(s', t, move.dst, 0);
    } else {
      var slot, i :| Holds(s, t, slot, i);
      WentTo(s, move, s', t, slot, i);
    }
  }

  lemma WakerShape(s: State, th: ThreadId, step: WakerStep, x: ThreadId, t: TaskId)
    requires WakerEnabled(s, th, step) && ThreadOk(s, x) && TaskOk(s, t)
    ensures ThreadOk(WakerApply(s, th, step), x) && TaskOk(WakerApply(s, th, step), t)
  {
  }

  lemma EnderShape(s: State, th: ThreadId, step: EnderStep, x: ThreadId)
    requires EnderEnabled(s, th, step) && ThreadOk(s, x)
    ensures ThreadOk(EnderApply(s, th, step), x)
  {
  }

  lemma QueueShape(s: State, th: ThreadId, step: QueueStep, x: ThreadId)
    requires QueueEnabled(s, th, step) && ThreadOk(s, x)
    ensures ThreadOk(QueueApply(s, th, step), x)
  {
  }

  lemma RunShape(s: State, th: ThreadId, step: RunStep, x: ThreadId, t: TaskId)
    requires RunEnabled(s, th, step) && ThreadOk(s, x) && ThreadOk(s, th) && TaskOk(s, t)
    requires step != Finish ==> OnItsWay(s, s.threads[th].run.task)
    ensures ThreadOk(RunApply(s, th, step), x) && TaskOk(RunApply(s, th, step), t)
  {
    RunTaskOk(s, th, step, t);
    RunThreadOk(s, th, step, x);
  }

  lemma RunTaskOk(s: State, th: ThreadId, step: RunStep, t: TaskId)
    requires RunEnabled(s, th, step) && ThreadOk(s, th) && TaskOk(s, t)
    requires step != Finish ==> OnItsWay(s, s.threads[th].run.task)
    ensures TaskOk(RunApply(s, th, step), t)
  {
  }

  lemma RunThreadOk(s: State, th: ThreadId, step: RunStep, x: ThreadId)
    requires RunEnabled(s, th, step) && ThreadOk(s, x)
    requires step != Finish ==> OnItsWay(s, s.threads[th].run.task)
    ensures ThreadOk(RunApply(s, th, step), x)
  {
  }

  lemma CodeShape(s: State, th: ThreadId, step: CodeStep, x: ThreadId)
    requires CodeEnabled(s, th, step) && ThreadOk(s, x)
    ensures ThreadOk(CodeApply(s, th, step), x)
  {
  }

  lemma ShapeAt(s: State, step: Step, x: ThreadId, t: TaskId)
    requires Shape(s) && PlacesAgree(s) && Enabled(s, step)
    ensures ThreadOk(Apply(s, step), x) && TaskOk(Apply(s, step), t)
  {
    assert ThreadOk(s, x) && TaskOk(s, t);
    if !step.ByRun? && !step.ByWaker? { BitsFixed(s, step, t); }
    match step
    case ByWaker(th, waker) => WakerShape(s, th, waker, x, t);
    case ByEnder(th, ender) => EnderShape(s, th, ender, x);
    case ByQueue(th, queue) => QueueShape(s, th, queue, x);
    case ByRun(th, run) =>
      if run != Finish { assert Holds(s, s.threads[th].run.task, InHand(th), 0); }
      RunShape(s, th, run, x, t);
    case ByCode(th, code) => CodeShape(s, th, code, x);
    case Tick(_) =>
  }

  // --- Over every run ---

  lemma InvKept(s: State, step: Step)
    requires Inv(s) && Enabled(s, step)
    ensures Inv(Apply(s, step))
  {
    StepMoves(s, step);
    if MoveOf(s, step).Enter? { EnterFresh(s, step); }
    OnePlaceKept(s, MoveOf(s, step), Apply(s, step));
    forall t, slot, i | Holds(Apply(s, step), t, slot, i)
      ensures WellAt(Apply(s, step), t, slot, i)
    {
      AgreeAt(s, step, t, slot, i);
    }
    forall t | OnItsWay(Apply(s, step), t)
      ensures Placed(Apply(s, step), t)
    {
      PlacedKept(s, step, t);
    }
    forall x ensures ThreadOk(Apply(s, step), x) { ShapeAt(s, step, x, 0); }
    forall t ensures TaskOk(Apply(s, step), t) { ShapeAt(s, step, 0, t); }
  }

  lemma {:induction false} InvHolds(start: State, steps: seq<Step>, s: State)
    requires Inv(start) && Reaches(start, steps, s)
    ensures Inv(s)
    decreases |steps|
  {
    if steps != [] {
      InvKept(start, steps[0]);
      InvHolds(Apply(start, steps[0]), steps[1..], s);
    }
  }

  /** A worker doing this is running `t`, or has not yet stored that it stopped. */
  predicate Runs(run: Run, t: TaskId) {
    (run.Running? || run.Left? || run.Marking?) && run.task == t
  }

  lemma InvInit(s: State)
    requires Init(s)
    ensures Inv(s)
  {
    forall t, p, i ensures !Holds(s, t, p, i) {}
  }

  /** In every reachable state a task that exists is suspended, done, or in
      exactly one place, its state bits tell which, and at most one worker has
      its coroutine. */
  lemma ExactlyOnePlace(start: State, steps: seq<Step>, s: State, t: TaskId)
    requires Init(start) && Reaches(start, steps, s) && t in s.tasks
    ensures s.tasks[t].bits in {SUSPENDED, QUEUED, RUNNING, RUNNING_NOTIFIED, DONE}
    ensures s.tasks[t].bits in {SUSPENDED, DONE} <==> !Placed(s, t)
    ensures forall p, i, q, j | Holds(s, t, p, i) && Holds(s, t, q, j) :: p == q && i == j
    ensures s.tasks[t].bits.running <==> exists w | w in s.threads :: Runs(s.threads[w].run, t)
    ensures forall w, v | w in s.threads && v in s.threads && Runs(s.threads[w].run, t) && Runs(s.threads[v].run, t) :: w == v
    ensures s.tasks[t].finished ==> s.tasks[t].bits == DONE
  {
    InvInit(start);
    InvHolds(start, steps, s);
    assert TaskOk(s, t);
    if OnItsWay(s, t) {
      var p, i :| Holds(s, t, p, i);
      assert BitsIn(s, p, s.tasks[t].bits);
      assert s.tasks[t].bits.running ==> p.InHand? && Runs(s.threads[p.th].run, t);
    }
    forall w | w in s.threads && Runs(s.threads[w].run, t) ensures Holds(s, t, InHand(w), 0) && s.tasks[t].bits.running {
      assert Holds(s, t, InHand(w), 0);
    }
    forall w, v | w in s.threads && v in s.threads && Runs(s.threads[w].run, t) && Runs(s.threads[v].run, t)
      ensures w == v
    {
      OnlyOne(s, t, InHand(w), 0, InHand(v), 0);
    }
  }
}
