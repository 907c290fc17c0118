/** Waits: no wake-up is lost, a wait's outcome is true of it, cancelling
    reaches every cancellable wait, and timers end with their waits. */
module SchedWaits {
  import opened Basics
  import opened Sched
  import P = SchedPlaces

  /** From begin_wait until the task is resumed, unless it yielded in between:
      while here, a claimed wait must bring the task back to a queue. */
  predicate InWait(phase: Phase) {
    phase == Beginning || phase == SelfWaking || phase == Armed || phase == Committed || phase == Waiting
  }

  /** Phases only the running coroutine can be in. */
  predicate OnStack(phase: Phase) {
    phase == Beginning || phase == SelfWaking || phase == Armed || phase == Committed || phase == Cleaning
  }

  /** The wait has set its timer, if it has one. */
  predicate TimerSet(phase: Phase) {
    phase == Committed || phase == Waiting || phase == Cleaning
  }

  /** A suspended task is in a wait; one partway through starting or leaving a
      wait is on a worker. */
  predicate PhaseOk(task: Task) {
    && (task.bits == SUSPENDED ==> task.phase == Waiting)
    && (OnStack(task.phase) ==> task.bits.running)
    && (task.timer.Some? ==> TimerSet(task.phase))
  }

  /** How a wait ended is true of it. */
  predicate OutcomeOk(task: Task, nextWait: nat, now: int) {
    && (task.wait == 0 || task.wait == task.cur) && task.cur < nextWait && (task.phase != Free ==> 0 < task.cur)
    && (task.phase == SelfWaking ==> task.cancellable && task.cancelled)
    && (task.woke == Cancelled ==> task.cancellable && task.cancelled)
    && (task.woke == TimedOut ==> task.deadline.Some? && task.deadline.value <= now
                                  && (TimerSet(task.phase) || task.phase == Free))
  }

  predicate TaskInv(s: State, t: TaskId) {
    t in s.tasks ==> PhaseOk(s.tasks[t]) && OutcomeOk(s.tasks[t], s.nextWait, s.now)
  }

  /** A task its worker has taken back from the coroutine stopped where it said. */
  predicate StopOk(tasks: map<TaskId, Task>, run: Run) {
    && (run.Left? ==> run.task in tasks &&
                      match run.why
                      case ForWait => tasks[run.task].phase == Waiting
                      case ForYield => tasks[run.task].phase == Free || tasks[run.task].phase == Stale
                      case ForReturn => tasks[run.task].phase == Free)
    && (run.Marking? ==> run.task in tasks && tasks[run.task].phase == Waiting)
  }

  /** A canceller's task is cancelled, and the wait it will end is cancellable. */
  predicate CancelOk(tasks: map<TaskId, Task>, nextWait: nat, op: Op) {
    && (op.CancelSet? || op.CancelSaw? || op.CancelSure? ==> op.task in tasks && tasks[op.task].cancelled)
    && (op.CancelSaw? || op.CancelSure? ==> 0 < op.wait < nextWait)
    && (op.CancelSure? && op.wait == tasks[op.task].wait ==> tasks[op.task].cancellable)
  }

  predicate ThreadInv(s: State, th: ThreadId) {
    th in s.threads ==> StopOk(s.tasks, s.threads[th].run) && CancelOk(s.tasks, s.nextWait, s.threads[th].op)
  }

  /** A timer that is set belongs to the wait its task is still in. */
  predicate TimerInv(s: State, w: ThreadId, e: Timer) {
    w in s.timers && e in s.timers[w] ==>
      && e.task in s.tasks && s.tasks[e.task].timer == Some((w, e))
      && 0 < e.wait == s.tasks[e.task].cur && s.tasks[e.task].deadline == Some(e.at)
  }

  /** A timer that has fired is due, and is its wait's own deadline. */
  predicate DueInv(s: State, e: Timer) {
    && e.at <= s.now && 0 < e.wait < s.nextWait && e.task in s.tasks
    && (e.wait == s.tasks[e.task].cur ==>
          && s.tasks[e.task].deadline == Some(e.at)
          && (TimerSet(s.tasks[e.task].phase) || s.tasks[e.task].phase == Free))
  }

  predicate Claimant(s: State, th: ThreadId, t: TaskId) {
    th in s.threads && (s.threads[th].op == Claimed(t) || (s.threads[th].op.Loaded? && s.threads[th].op.task == t))
  }

  /** A thread has claimed `t`'s wait and is on its way to `schedule`. */
  ghost predicate BeingWoken(s: State, t: TaskId) {
    exists th :: Claimant(s, th, t)
  }

  predicate NeedsWaker(s: State, t: TaskId) {
    t in s.tasks && InWait(s.tasks[t].phase) && s.tasks[t].wait == 0 && !s.tasks[t].bits.notified && !s.tasks[t].bits.done
  }

  predicate Canceller(s: State, th: ThreadId, t: TaskId) {
    th in s.threads && t in s.tasks &&
    s.threads[th].op in {CancelSet(t), CancelSaw(t, s.tasks[t].wait), CancelSure(t, s.tasks[t].wait)}
  }

  /** Someone will still end `t`'s wait with Cancelled: a canceller, or the
      task itself before it finishes begin_wait. */
  ghost predicate BeingCancelled(s: State, t: TaskId) {
    t in s.tasks && (s.tasks[t].phase == Beginning || s.tasks[t].phase == SelfWaking || exists th :: Canceller(s, th, t))
  }

  predicate NeedsCancel(s: State, t: TaskId) {
    t in s.tasks && s.tasks[t].cancelled && s.tasks[t].cancellable && s.tasks[t].wait != 0
  }

  ghost predicate Inv(s: State) {
    && 0 < s.nextWait
    && (forall t :: TaskInv(s, t))
    && (forall th :: ThreadInv(s, th))
    && (forall w, e :: TimerInv(s, w, e))
    && (forall th, e | th in s.threads && e in s.threads[th].due :: DueInv(s, e))
    && (forall t | NeedsWaker(s, t) :: BeingWoken(s, t))
    && (forall t | NeedsCancel(s, t) :: BeingCancelled(s, t))
  }

  // --- Tasks ---

  lemma WakerTask(s: State, th: ThreadId, step: WakerStep, t: TaskId)
    requires 0 < s.nextWait && WakerEnabled(s, th, step) && TaskInv(s, t)
    ensures TaskInv(WakerApply(s, th, step), t)
  {
  }

  lemma EnderTask(s: State, th: ThreadId, step: EnderStep, t: TaskId)
    requires EnderEnabled(s, th, step) && TaskInv(s, t) && CancelOk(s.tasks, s.nextWait, s.threads[th].op)
    requires step.Fire? ==> DueInv(s, step.timer)
    ensures TaskInv(EnderApply(s, th, step), t)
  {
  }

  lemma QueueTask(s: State, th: ThreadId, step: QueueStep, t: TaskId)
    requires QueueEnabled(s, th, step) && TaskInv(s, t)
    ensures TaskInv(QueueApply(s, th, step), t)
  {
  }

  lemma RunTask(s: State, th: ThreadId, step: RunStep, t: TaskId)
    requires RunEnabled(s, th, step) && TaskInv(s, t) && StopOk(s.tasks, s.threads[th].run)
    ensures TaskInv(RunApply(s, th, step), t)
  {
  }

  lemma SteppedPhase(s: State, th: ThreadId, step: CodeStep)
    requires CodeEnabled(s, th, step)
    requires var task := s.tasks[s.threads[th].run.task]; task.bits.running && PhaseOk(task)
    ensures PhaseOk(Stepped(s, th, step))
  {
  }

  lemma SteppedOutcome(s: State, th: ThreadId, step: CodeStep)
    requires 0 < s.nextWait && CodeEnabled(s, th, step)
    requires OutcomeOk(s.tasks[s.threads[th].run.task], s.nextWait, s.now)
    ensures OutcomeOk(Stepped(s, th, step), if step.BeginWait? then s.nextWait + 1 else s.nextWait, s.now)
  {
  }

  lemma CodeTask(s: State, th: ThreadId, step: CodeStep, t: TaskId)
    requires 0 < s.nextWait && CodeEnabled(s, th, step) && TaskInv(s, t) && s.tasks[s.threads[th].run.task].bits.running
    ensures TaskInv(CodeApply(s, th, step), t)
  {
    if t == s.threads[th].run.task {
      SteppedPhase(s, th, step);
      SteppedOutcome(s, th, step);
    }
  }

  // --- Threads ---

  /** No other worker has the task `th` has in its hands. */
  predicate Apart(s: State, th: ThreadId, x: ThreadId) {
    th in s.threads && x in s.threads && x != th ==>
      var mine, other := s.threads[th].run, s.threads[x].run;
      (mine.Running? || mine.Popped?) && (other.Left? || other.Marking?) ==> mine.task != other.task
  }

  lemma WakerThread(s: State, th: ThreadId, step: WakerStep, x: ThreadId)
    requires WakerEnabled(s, th, step) && ThreadInv(s, x)
    ensures ThreadInv(WakerApply(s, th, step), x)
  {
  }

  lemma EnderThread(s: State, th: ThreadId, step: EnderStep, x: ThreadId)
    requires EnderEnabled(s, th, step) && ThreadInv(s, x)
    requires s.threads[th].op.CancelSet? ==> TaskInv(s, s.threads[th].op.task)
    ensures ThreadInv(EnderApply(s, th, step), x)
  {
    if x in s.threads {
      EnderStop(s, th, step, x);
      EnderCancel(s, th, step, x);
    }
  }

  lemma EnderStop(s: State, th: ThreadId, step: EnderStep, x: ThreadId)
    requires EnderEnabled(s, th, step) && x in s.threads && StopOk(s.tasks, s.threads[x].run)
    ensures var r := EnderApply(s, th, step); StopOk(r.tasks, r.threads[x].run)
  {
  }

  lemma EnderCancel(s: State, th: ThreadId, step: EnderStep, x: ThreadId)
    requires EnderEnabled(s, th, step) && x in s.threads && CancelOk(s.tasks, s.nextWait, s.threads[x].op)
    requires s.threads[th].op.CancelSet? ==> TaskInv(s, s.threads[th].op.task)
    ensures var r := EnderApply(s, th, step); CancelOk(r.tasks, r.nextWait, r.threads[x].op)
  {
  }

  lemma QueueThread(s: State, th: ThreadId, step: QueueStep, x: ThreadId)
    requires QueueEnabled(s, th, step) && ThreadInv(s, x)
    ensures ThreadInv(QueueApply(s, th, step), x)
  {
  }

  lemma RunThread(s: State, th: ThreadId, step: RunStep, x: ThreadId)
    requires RunEnabled(s, th, step) && ThreadInv(s, x) && Apart(s, th, x)
    ensures ThreadInv(RunApply(s, th, step), x)
  {
    if x in s.threads {
      RunStop(s, th, step, x);
      RunCancel(s, th, step, x);
    }
  }

  lemma RunStop(s: State, th: ThreadId, step: RunStep, x: ThreadId)
    requires RunEnabled(s, th, step) && x in s.threads && StopOk(s.tasks, s.threads[x].run) && Apart(s, th, x)
    ensures var r := RunApply(s, th, step); StopOk(r.tasks, r.threads[x].run)
  {
  }

  lemma RunCancel(s: State, th: ThreadId, step: RunStep, x: ThreadId)
    requires RunEnabled(s, th, step) && x in s.threads && CancelOk(s.tasks, s.nextWait, s.threads[x].op)
    ensures var r := RunApply(s, th, step); CancelOk(r.tasks, r.nextWait, r.threads[x].op)
  {
  }

  lemma CodeThread(s: State, th: ThreadId, step: CodeStep, x: ThreadId)
    requires CodeEnabled(s, th, step) && ThreadInv(s, x) && Apart(s, th, x)
    ensures ThreadInv(CodeApply(s, th, step), x)
  {
    if x in s.threads {
      CodeStop(s, th, step, x);
      CodeCancel(s, th, step, x);
    }
  }

  lemma CodeStop(s: State, th: ThreadId, step: CodeStep, x: ThreadId)
    requires CodeEnabled(s, th, step) && x in s.threads && StopOk(s.tasks, s.threads[x].run) && Apart(s, th, x)
    ensures var r := CodeApply(s, th, step); StopOk(r.tasks, r.threads[x].run)
  {
  }

  lemma CodeCancel(s: State, th: ThreadId, step: CodeStep, x: ThreadId)
    requires CodeEnabled(s, th, step) && x in s.threads && CancelOk(s.tasks, s.nextWait, s.threads[x].op)
    ensures var r := CodeApply(s, th, step); CancelOk(r.tasks, r.nextWait, r.threads[x].op)
  {
  }

  // --- Timers ---

  lemma WakerTimer(s: State, th: ThreadId, step: WakerStep, w: ThreadId, e: Timer)
    requires WakerEnabled(s, th, step) && TimerInv(s, w, e)
    ensures TimerInv(WakerApply(s, th, step), w, e)
  {
  }

  lemma EnderTimer(s: State, th: ThreadId, step: EnderStep, w: ThreadId, e: Timer)
    requires EnderEnabled(s, th, step) && TimerInv(s, w, e)
    ensures TimerInv(EnderApply(s, th, step), w, e)
  {
  }

  lemma QueueTimer(s: State, th: ThreadId, step: QueueStep, w: ThreadId, e: Timer)
    requires QueueEnabled(s, th, step) && TimerInv(s, w, e)
    ensures TimerInv(QueueApply(s, th, step), w, e)
  {
  }

  lemma RunTimer(s: State, th: ThreadId, step: RunStep, w: ThreadId, e: Timer)
    requires RunEnabled(s, th, step) && TimerInv(s, w, e)
    ensures TimerInv(RunApply(s, th, step), w, e)
  {
  }

  lemma CodeTimer(s: State, th: ThreadId, step: CodeStep, w: ThreadId, e: Timer)
    requires CodeEnabled(s, th, step) && TimerInv(s, w, e) && TaskInv(s, s.threads[th].run.task)
    ensures TimerInv(CodeApply(s, th, step), w, e)
  {
  }

  lemma WakerDue(s: State, th: ThreadId, step: WakerStep, e: Timer)
    requires WakerEnabled(s, th, step) && DueInv(s, e)
    ensures DueInv(WakerApply(s, th, step), e)
  {
  }

  lemma EnderDue(s: State, th: ThreadId, step: EnderStep, x: ThreadId, e: Timer)
    requires EnderEnabled(s, th, step) && x in s.threads && e in EnderApply(s, th, step).threads[x].due
    requires e in s.threads[x].due ==> DueInv(s, e)
    requires TimerInv(s, x, e) && (e.task in s.tasks ==> TaskInv(s, e.task))
    ensures DueInv(EnderApply(s, th, step), e)
  {
  }

  lemma QueueDue(s: State, th: ThreadId, step: QueueStep, e: Timer)
    requires QueueEnabled(s, th, step) && DueInv(s, e)
    ensures DueInv(QueueApply(s, th, step), e)
  {
  }

  lemma RunDue(s: State, th: ThreadId, step: RunStep, e: Timer)
    requires RunEnabled(s, th, step) && DueInv(s, e)
    ensures DueInv(RunApply(s, th, step), e)
  {
  }

  lemma CodeDue(s: State, th: ThreadId, step: CodeStep, e: Timer)
    requires CodeEnabled(s, th, step) && DueInv(s, e)
    ensures DueInv(CodeApply(s, th, step), e)
  {
  }

  // --- Wake-ups on their way ---

  lemma WakerWoken(s: State, th: ThreadId, step: WakerStep, t: TaskId, x: ThreadId)
    requires WakerEnabled(s, th, step) && NeedsWaker(WakerApply(s, th, step), t)
    requires NeedsWaker(s, t) ==> Claimant(s, x, t)
    ensures Claimant(WakerApply(s, th, step), x, t) || Claimant(WakerApply(s, th, step), th, t)
  {
  }

  lemma EnderWoken(s: State, th: ThreadId, step: EnderStep, t: TaskId, x: ThreadId)
    requires EnderEnabled(s, th, step) && NeedsWaker(EnderApply(s, th, step), t)
    requires NeedsWaker(s, t) ==> Claimant(s, x, t)
    ensures Claimant(EnderApply(s, th, step), x, t) || Claimant(EnderApply(s, th, step), th, t)
  {
  }

  lemma QueueWoken(s: State, th: ThreadId, step: QueueStep, t: TaskId, x: ThreadId)
    requires QueueEnabled(s, th, step) && NeedsWaker(QueueApply(s, th, step), t)
    requires NeedsWaker(s, t) ==> Claimant(s, x, t)
    ensures Claimant(QueueApply(s, th, step), x, t)
  {
  }

  lemma RunWoken(s: State, th: ThreadId, step: RunStep, t: TaskId, x: ThreadId)
    requires RunEnabled(s, th, step) && NeedsWaker(RunApply(s, th, step), t)
    requires NeedsWaker(s, t) ==> Claimant(s, x, t)
    requires PhaseOk(s.tasks[s.threads[th].run.task])
    requires s.threads[th].run.Popped? ==> s.tasks[s.threads[th].run.task].bits == QUEUED
    ensures Claimant(RunApply(s, th, step), x, t)
  {
    RunNeedsNoOther(s, th, step, t);
    RunKeepsOps(s, th, step, x);
  }

  /** A turn of `run_task` leaves no wait in need of a waker that was not. */
  lemma RunNeedsNoOther(s: State, th: ThreadId, step: RunStep, t: TaskId)
    requires RunEnabled(s, th, step) && NeedsWaker(RunApply(s, th, step), t)
    requires PhaseOk(s.tasks[s.threads[th].run.task])
    requires s.threads[th].run.Popped? ==> s.tasks[s.threads[th].run.task].bits == QUEUED
    ensures NeedsWaker(s, t)
  {
  }

  lemma RunKeepsOps(s: State, th: ThreadId, step: RunStep, x: ThreadId)
    requires RunEnabled(s, th, step)
    ensures x in s.threads ==> RunApply(s, th, step).threads[x].op == s.threads[x].op
  {
  }

  lemma CodeWoken(s: State, th: ThreadId, step: CodeStep, t: TaskId, x: ThreadId)
    requires 0 < s.nextWait && CodeEnabled(s, th, step) && NeedsWaker(CodeApply(s, th, step), t)
    requires NeedsWaker(s, t) ==> Claimant(s, x, t)
    ensures Claimant(CodeApply(s, th, step), x, t) || Claimant(CodeApply(s, th, step), th, t)
  {
  }

  // --- Cancellations on their way ---

  predicate CancelledBy(s: State, t: TaskId, x: ThreadId) {
    t in s.tasks && (s.tasks[t].phase == Beginning || s.tasks[t].phase == SelfWaking || Canceller(s, x, t))
  }

  lemma WakerCancelled(s: State, th: ThreadId, step: WakerStep, t: TaskId, x: ThreadId)
    requires WakerEnabled(s, th, step) && NeedsCancel(WakerApply(s, th, step), t)
    requires NeedsCancel(s, t) ==> CancelledBy(s, t, x)
    ensures CancelledBy(WakerApply(s, th, step), t, x)
  {
  }

  lemma EnderCancelled(s: State, th: ThreadId, step: EnderStep, t: TaskId, x: ThreadId)
    requires EnderEnabled(s, th, step) && NeedsCancel(EnderApply(s, th, step), t)
    requires NeedsCancel(s, t) ==> CancelledBy(s, t, x)
    ensures CancelledBy(EnderApply(s, th, step), t, x) || CancelledBy(EnderApply(s, th, step), t, th)
  {
  }

  lemma QueueCancelled(s: State, th: ThreadId, step: QueueStep, t: TaskId, x: ThreadId)
    requires QueueEnabled(s, th, step) && NeedsCancel(QueueApply(s, th, step), t)
    requires NeedsCancel(s, t) ==> CancelledBy(s, t, x)
    ensures CancelledBy(QueueApply(s, th, step), t, x)
  {
  }

  lemma RunCancelled(s: State, th: ThreadId, step: RunStep, t: TaskId, x: ThreadId)
    requires RunEnabled(s, th, step) && NeedsCancel(RunApply(s, th, step), t)
    requires NeedsCancel(s, t) ==> CancelledBy(s, t, x)
    ensures CancelledBy(RunApply(s, th, step), t, x)
  {
  }

  lemma CodeCancelled(s: State, th: ThreadId, step: CodeStep, t: TaskId, x: ThreadId)
    requires CodeEnabled(s, th, step) && NeedsCancel(CodeApply(s, th, step), t)
    requires NeedsCancel(s, t) ==> CancelledBy(s, t, x)
    requires OutcomeOk(s.tasks[s.threads[th].run.task], s.nextWait, s.now)
    ensures CancelledBy(CodeApply(s, th, step), t, x)
  {
  }

  // --- Every step keeps it all ---

  /** What the placement invariant says of the task in a worker's hands. */
  lemma HandBits(s: State, th: ThreadId)
    requires P.PlacesAgree(s) && th in s.threads && (s.threads[th].run.Running? || s.threads[th].run.Popped?)
    ensures s.threads[th].run.task in s.tasks
    ensures s.threads[th].run.Running? ==> s.tasks[s.threads[th].run.task].bits.running
    ensures s.threads[th].run.Popped? ==> s.tasks[s.threads[th].run.task].bits == QUEUED
  {
    assert P.Holds(s, s.threads[th].run.task, P.InHand(th), 0);
  }

  lemma HandsApart(s: State, th: ThreadId, x: ThreadId)
    requires P.OnePlace(s)
    ensures Apart(s, th, x)
  {
    if !Apart(s, th, x) {
      P.OnlyOne(s, s.threads[th].run.task, P.InHand(th), 0, P.InHand(x), 0);
    }
  }

  lemma TaskKept(s: State, step: Step, t: TaskId)
    requires P.Inv(s) && Inv(s) && Enabled(s, step)
    ensures TaskInv(Apply(s, step), t)
  {
    assert TaskInv(s, t);
    match step
    case ByWaker(th, waker) => WakerTask(s, th, waker, t);
    case ByEnder(th, ender) => assert ThreadInv(s, th); EnderTask(s, th, ender, t);
    case ByQueue(th, queue) => QueueTask(s, th, queue, t);
    case ByRun(th, run) => assert ThreadInv(s, th); RunTask(s, th, run, t);
    case ByCode(th, code) => HandBits(s, th); CodeTask(s, th, code, t);
    case Tick(_) =>
  }

  lemma ThreadKept(s: State, step: Step, x: ThreadId)
    requires P.Inv(s) && Inv(s) && Enabled(s, step)
    ensures ThreadInv(Apply(s, step), x)
  {
    assert ThreadInv(s, x);
    match step
    case ByWaker(th, waker) => WakerThread(s, th, waker, x);
    case ByEnder(th, ender) =>
      if s.threads[th].op.CancelSet? { assert TaskInv(s, s.threads[th].op.task); }
      EnderThread(s, th, ender, x);
    case ByQueue(th, queue) => QueueThread(s, th, queue, x);
    case ByRun(th, run) => HandsApart(s, th, x); RunThread(s, th, run, x);
    case ByCode(th, code) => HandsApart(s, th, x); CodeThread(s, th, code, x);
    case Tick(_) =>
  }

  lemma TimerKept(s: State, step: Step, w: ThreadId, e: Timer)
    requires Inv(s) && Enabled(s, step)
    ensures TimerInv(Apply(s, step), w, e)
  {
    assert TimerInv(s, w, e);
    match step
    case ByWaker(th, waker) => WakerTimer(s, th, waker, w, e);
    case ByEnder(th, ender) => EnderTimer(s, th, ender, w, e);
    case ByQueue(th, queue) => QueueTimer(s, th, queue, w, e);
    case ByRun(th, run) => RunTimer(s, th, run, w, e);
    case ByCode(th, code) => assert TaskInv(s, s.threads[th].run.task); CodeTimer(s, th, code, w, e);
    case Tick(_) =>
  }

  lemma WakerDueSame(s: State, th: ThreadId, step: WakerStep, x: ThreadId)
    requires WakerEnabled(s, th, step) && x in s.threads
    ensures WakerApply(s, th, step).threads[x].due == s.threads[x].due
  {
  }

  lemma QueueDueSame(s: State, th: ThreadId, step: QueueStep, x: ThreadId)
    requires QueueEnabled(s, th, step) && x in s.threads
    ensures QueueApply(s, th, step).threads[x].due == s.threads[x].due
  {
  }

  lemma CodeDueSame(s: State, th: ThreadId, step: CodeStep, x: ThreadId)
    requires CodeEnabled(s, th, step) && x in s.threads
    ensures CodeApply(s, th, step).threads[x].due == s.threads[x].due
  {
  }

  lemma DueSame(s: State, step: Step, x: ThreadId)
    requires Enabled(s, step) && !step.ByEnder? && x in s.threads
    ensures Apply(s, step).threads[x].due == s.threads[x].due
  {
    match step
    case ByWaker(th, waker) => WakerDueSame(s, th, waker, x);
    case ByQueue(th, queue) => QueueDueSame(s, th, queue, x);
    case ByCode(th, code) => CodeDueSame(s, th, code, x);
    case _ =>
  }

  lemma DueKept(s: State, step: Step, x: ThreadId, e: Timer)
    requires Inv(s) && Enabled(s, step) && x in s.threads && e in Apply(s, step).threads[x].due
    ensures DueInv(Apply(s, step), e)
  {
    if !step.ByEnder? { DueSame(s, step, x); }
    assert e in s.threads[x].due ==> DueInv(s, e);
    match step
    case ByWaker(th, waker) => WakerDue(s, th, waker, e);
    case ByEnder(th, ender) =>
      assert TimerInv(s, x, e) && TaskInv(s, e.task);
      EnderDue(s, th, ender, x, e);
    case ByQueue(th, queue) => QueueDue(s, th, queue, e);
    case ByRun(th, run) => RunDue(s, th, run, e);
    case ByCode(th, code) => CodeDue(s, th, code, e);
    case Tick(_) =>
  }

  lemma WokenKept(s: State, step: Step, t: TaskId)
    requires P.Inv(s) && Inv(s) && Enabled(s, step) && NeedsWaker(Apply(s, step), t)
    ensures BeingWoken(Apply(s, step), t)
  {
    var x: ThreadId := 0;
    if NeedsWaker(s, t) { assert BeingWoken(s, t); x :| Claimant(s, x, t); }
    match step
    case ByWaker(th, waker) => WakerWoken(s, th, waker, t, x);
    case ByEnder(th, ender) => EnderWoken(s, th, ender, t, x);
    case ByQueue(th, queue) => QueueWoken(s, th, queue, t, x);
    case ByRun(th, run) =>
      if s.threads[th].run.Popped? { HandBits(s, th); }
      assert TaskInv(s, s.threads[th].run.task);
      RunWoken(s, th, run, t, x);
    case ByCode(th, code) => CodeWoken(s, th, code, t, x);
    case Tick(_) => assert Claimant(Apply(s, step), x, t);
  }

  lemma CancelKept(s: State, step: Step, t: TaskId)
    requires Inv(s) && Enabled(s, step) && NeedsCancel(Apply(s, step), t)
    ensures BeingCancelled(Apply(s, step), t)
  {
    var x: ThreadId := 0;
    if NeedsCancel(s, t) {
      assert BeingCancelled(s, t);
      if exists y :: Canceller(s, y, t) { x :| Canceller(s, x, t); }
    }
    match step
    case ByWaker(th, waker) => WakerCancelled(s, th, waker, t, x);
    case ByEnder(th, ender) => EnderCancelled(s, th, ender, t, x);
    case ByQueue(th, queue) => QueueCancelled(s, th, queue, t, x);
    case ByRun(th, run) => RunCancelled(s, th, run, t, x);
    case ByCode(th, code) => assert TaskInv(s, s.threads[th].run.task); CodeCancelled(s, th, code, t, x);
    case Tick(_) => assert CancelledBy(Apply(s, step), t, x);
  }

  lemma InvKept(s: State, step: Step)
    requires P.Inv(s) && Inv(s) && Enabled(s, step)
    ensures Inv(Apply(s, step))
  {
    var s' := Apply(s, step);
    forall t ensures TaskInv(s', t) { TaskKept(s, step, t); }
    forall th ensures ThreadInv(s', th) { ThreadKept(s, step, th); }
    forall w, e ensures TimerInv(s', w, e) { TimerKept(s, step, w, e); }
    forall th, e | th in s'.threads && e in s'.threads[th].due ensures DueInv(s', e) { DueKept(s, step, th, e); }
    forall t | NeedsWaker(s', t) ensures BeingWoken(s', t) { WokenKept(s, step, t); }
    forall t | NeedsCancel(s', t) ensures BeingCancelled(s', t) { CancelKept(s, step, t); }
  }

  lemma {:induction false} InvHolds(start: State, steps: seq<Step>, s: State)
    requires P.Inv(start) && Inv(start) && Reaches(start, steps, s)
    ensures P.Inv(s) && Inv(s)
    decreases |steps|
  {
    if steps != [] {
      P.InvKept(start, steps[0]);
      InvKept(start, steps[0]);
      InvHolds(Apply(start, steps[0]), steps[1..], s);
    }
  }

  lemma Reached(start: State, steps: seq<Step>, s: State)
    requires Init(start) && Reaches(start, steps, s)
    ensures P.Inv(s) && Inv(s)
  {
    P.InvInit(start);
    InvHolds(start, steps, s);
  }

  // --- Over every run ---

  /** Nobody is claiming a wait of `t`, scheduling or pushing it, and no worker
      has it but to run it. */
  predicate LeftAlone(s: State, t: TaskId) {
    forall th | th in s.threads ::
      && !Claimant(s, th, t) && s.threads[th].op != Pushing(t)
      && (t in P.Contents(s, P.InHand(th)) ==> s.threads[th].run == Running(t))
  }

  /** No lost wake-up: a suspended task whose wait has been claimed has its
      claimant on the way to `schedule`; once nobody is in the middle of
      anything with it, a task in a claimed wait is queued or running. */
  lemma NoLostWakeup(start: State, steps: seq<Step>, s: State, t: TaskId)
    requires Init(start) && Reaches(start, steps, s) && t in s.tasks
    ensures s.tasks[t].bits == SUSPENDED && s.tasks[t].wait == 0 ==> BeingWoken(s, t)
    ensures LeftAlone(s, t) && s.tasks[t].wait == 0 && s.tasks[t].bits != DONE ==>
              || (exists w, i :: P.Holds(s, t, P.RunQueue(w), i))
              || (exists i :: P.Holds(s, t, P.Injected, i))
              || (exists w | w in s.threads :: s.threads[w].run == Running(t))
  {
    Reached(start, steps, s);
    assert TaskInv(s, t);
    assert NeedsWaker(s, t) ==> BeingWoken(s, t);
    if LeftAlone(s, t) && s.tasks[t].wait == 0 && s.tasks[t].bits != DONE {
      assert P.OnItsWay(s, t);
      var p, i :| P.Holds(s, t, p, i);
      assert p.InHand? ==> t in P.Contents(s, P.InHand(p.th));
    }
  }

  /** However a task's last wait ended, it is true of that wait: Cancelled only
      if it was cancellable and the task cancelled, TimedOut only once its own
      deadline had passed. */
  lemma OutcomesAreTrue(start: State, steps: seq<Step>, s: State, t: TaskId)
    requires Init(start) && Reaches(start, steps, s) && t in s.tasks
    ensures s.tasks[t].woke == Cancelled ==> s.tasks[t].cancellable && s.tasks[t].cancelled
    ensures s.tasks[t].woke == TimedOut ==> s.tasks[t].deadline.Some? && s.tasks[t].deadline.value <= s.now
  {
    Reached(start, steps, s);
    assert TaskInv(s, t);
  }

  /** Once `cancel` and `begin_wait` are both done, in either order, no
      cancellable wait of a cancelled task is left unclaimed. */
  lemma CancelReaches(start: State, steps: seq<Step>, s: State, t: TaskId)
    requires Init(start) && Reaches(start, steps, s) && t in s.tasks
    requires s.tasks[t].cancelled && s.tasks[t].cancellable
    requires s.tasks[t].phase != Beginning && s.tasks[t].phase != SelfWaking
    requires forall th :: !Canceller(s, th, t)
    ensures s.tasks[t].wait == 0
  {
    Reached(start, steps, s);
    assert NeedsCancel(s, t) ==> BeingCancelled(s, t);
  }

  /** No timer outlives its wait: those set belong to tasks still in the wait
      they were set for, at most one each. */
  lemma TimersEndWithWaits(start: State, steps: seq<Step>, s: State, w: ThreadId, e: Timer)
    requires Init(start) && Reaches(start, steps, s) && w in s.timers && e in s.timers[w]
    ensures e.task in s.tasks && e.wait == s.tasks[e.task].cur && TimerSet(s.tasks[e.task].phase)
    ensures forall v, f | v in s.timers && f in s.timers[v] && f.task == e.task :: v == w && f == e
  {
    Reached(start, steps, s);
    assert TimerInv(s, w, e) && TaskInv(s, e.task);
    forall v, f | v in s.timers && f in s.timers[v] && f.task == e.task
      ensures v == w && f == e
    {
      assert TimerInv(s, v, f);
    }
  }
}
