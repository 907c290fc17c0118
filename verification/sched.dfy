/** The task scheduler as a transition system: any number of tasks, worker
    threads and plain threads, whose atomic operations interleave freely.

    Each mutex section and each atomic operation on a task's state bits is one
    step. Two groups of operations are taken as one step each: the three stores
    of `begin_wait`, and a wake-up's claim of a wait id together with its store
    of the outcome. */
module Sched {
  import opened Basics

  type TaskId = nat
  type ThreadId = nat

  /** How a wait ended. */
  datatype Woke = Ready | TimedOut | Cancelled

  /** The atomic state byte of a task. */
  datatype Bits = Bits(running: bool, notified: bool, done: bool)

  const SUSPENDED := Bits(false, false, false)
  const QUEUED := Bits(false, true, false)
  const RUNNING := Bits(true, false, false)
  const RUNNING_NOTIFIED := Bits(true, true, false)
  const DONE := Bits(false, false, true)

  /** How far the task's own code has got with its current wait. */
  datatype Phase =
    | Free       // not in a wait
    | Beginning  // begin_wait has stored the id, and not looked at `cancelled` yet
    | SelfWaking // begin_wait saw `cancelled`, and is about to wake the wait itself
    | Armed      // begin_wait has returned; the task hasn't suspended since
    | Stale      // as Armed, but the task has yielded since begin_wait
    | Committed  // the timer is set, and suspending comes next
    | Waiting    // suspended for the wait
    | Cleaning   // resumed, its timer not removed yet

  /** A timer entry: `wait` of `task` ends at `at`. */
  datatype Timer = Timer(at: int, wait: nat, task: TaskId)

  datatype Task = Task(
    bits: Bits,
    wait: nat,              // the wait's id, 0 once claimed
    woke: Woke,
    cancelled: bool,
    cancellable: bool,
    timer: Option<(ThreadId, Timer)>,
    finished: bool,
    phase: Phase,           // the task's program counter
    cur: nat,               // the id its last begin_wait drew
    deadline: Option<int>)  // the deadline that wait suspended with

  datatype Why = ForWait | ForYield | ForReturn

  /** What a worker is doing with a task it took from a queue. */
  datatype Run =
    | Idle
    | Popped(task: TaskId)
    | Running(task: TaskId)
    | Left(task: TaskId, why: Why)  // the coroutine handed control back
    | Marking(task: TaskId)         // woken while suspending: NOTIFIED not stored yet
    | Requeueing(task: TaskId)
    | Ending(task: TaskId)          // DONE stored, `finished` not set yet
    | Carrying(tasks: seq<TaskId>)  // stolen or injected tasks, between two queues

  /** A wake-up, push or cancel a thread is in the middle of. */
  datatype Op =
    | Quiet
    | Claimed(task: TaskId)             // claimed the wait; `schedule` comes next
    | Loaded(task: TaskId, run: bool)   // `schedule` loaded the state: running or not
    | Pushing(task: TaskId)             // set NOTIFIED; `push` comes next
    | CancelSet(task: TaskId)           // `cancel` has stored the flag
    | CancelSaw(task: TaskId, wait: nat)
    | CancelSure(task: TaskId, wait: nat)

  datatype Thread = Thread(run: Run, op: Op, due: set<Timer>)

  /** Threads with a queue are workers; the others are plain threads. */
  datatype State = State(
    tasks: map<TaskId, Task>,
    threads: map<ThreadId, Thread>,
    queues: map<ThreadId, seq<TaskId>>,
    inject: seq<TaskId>,
    timers: map<ThreadId, set<Timer>>,
    nextWait: nat,
    now: int)

  /** Waking and queueing tasks: any thread, at any time. */
  datatype WakerStep =
    | Spawn(t: TaskId)
    | Push
    | Claim(t: TaskId)
    | Load
    | Cas(ok: bool)

  /** Ending waits for another reason: cancelling, by any thread, and timers. */
  datatype EnderStep =
    | CancelStore(t: TaskId)
    | CancelLoad
    | CancelCheck
    | CancelWake
    | Collect(upTo: int)
    | Fire(timer: Timer)

  /** A worker taking tasks from queues and putting them on. */
  datatype QueueStep =
    | Pop
    | Requeue
    | TakeInjected
    | Steal(victim: ThreadId)
    | Deliver

  /** A worker around the task it runs. */
  datatype RunStep =
    | Resume
    | Settle
    | Mark
    | Finish

  /** What a running task does about waiting. */
  datatype CodeStep =
    | BeginWait(cancellable: bool)
    | CheckCancelled
    | SelfWake
    | Abandon
    | ParkLoad
    | Commit(at: Option<int>)
    | Suspend(why: Why)
    | Clean

  datatype Step =
    | ByWaker(th: ThreadId, waker: WakerStep)
    | ByEnder(th: ThreadId, ender: EnderStep)
    | ByQueue(th: ThreadId, queue: QueueStep)
    | ByRun(th: ThreadId, run: RunStep)
    | ByCode(th: ThreadId, code: CodeStep)
    | Tick(to: int)

  // --- Small updates ---

  function SetTask(s: State, t: TaskId, task: Task): State {
    s.(tasks := s.tasks[t := task])
  }

  function SetRun(s: State, th: ThreadId, run: Run): State
    requires th in s.threads
  {
    s.(threads := s.threads[th := s.threads[th].(run := run)])
  }

  function SetOp(s: State, th: ThreadId, op: Op): State
    requires th in s.threads
  {
    s.(threads := s.threads[th := s.threads[th].(op := op)])
  }

  function SetQueue(s: State, w: ThreadId, queue: seq<TaskId>): State {
    s.(queues := s.queues[w := queue])
  }

  /** The tasks a thief takes from a queue this long: half, rounded up. */
  function Half(n: nat): nat {
    (n + 1) / 2
  }

  // --- Which steps can be taken ---

  /** Thread `th` is between operations. */
  predicate Between(s: State, th: ThreadId) {
    th in s.threads && s.threads[th].op == Quiet
  }

  /** Worker `th` is at the top of its loop. */
  predicate AtTop(s: State, th: ThreadId) {
    Between(s, th) && s.threads[th].run == Idle && s.threads[th].due == {} && th in s.queues && th in s.timers
  }

  /** Thread `th` is in the middle of an operation on a known task. */
  predicate InOp(s: State, th: ThreadId) {
    th in s.threads && s.threads[th].op != Quiet && s.threads[th].op.task in s.tasks
  }

  /** Worker `th` has one known task in its hands. */
  predicate InRun(s: State, th: ThreadId) {
    && Between(s, th) && th in s.queues && th in s.timers
    && !s.threads[th].run.Idle? && !s.threads[th].run.Carrying? && s.threads[th].run.task in s.tasks
  }

  predicate WakerEnabled(s: State, th: ThreadId, step: WakerStep) {
    match step
    case Spawn(t) => Between(s, th) && t !in s.tasks
    case Push => InOp(s, th) && s.threads[th].op.Pushing?
    case Claim(t) => Between(s, th) && t in s.tasks && s.tasks[t].wait != 0
    case Load => InOp(s, th) && s.threads[th].op.Claimed?
    case Cas(ok) =>
      InOp(s, th) && s.threads[th].op.Loaded? &&
      (ok ==> s.tasks[s.threads[th].op.task].bits == Bits(s.threads[th].op.run, false, false))
  }

  predicate EnderEnabled(s: State, th: ThreadId, step: EnderStep) {
    match step
    case CancelStore(t) => Between(s, th) && t in s.tasks
    case CancelLoad => InOp(s, th) && s.threads[th].op.CancelSet?
    case CancelCheck => InOp(s, th) && s.threads[th].op.CancelSaw?
    case CancelWake => InOp(s, th) && s.threads[th].op.CancelSure?
    case Collect(upTo) => AtTop(s, th) && upTo <= s.now
    case Fire(timer) => Between(s, th) && timer in s.threads[th].due && timer.task in s.tasks
  }

  predicate QueueEnabled(s: State, th: ThreadId, step: QueueStep) {
    match step
    case Pop => AtTop(s, th) && s.queues[th] != []
    case Requeue => InRun(s, th) && s.threads[th].run.Requeueing?
    case TakeInjected => AtTop(s, th) && s.inject != []
    case Steal(victim) => AtTop(s, th) && victim in s.queues && victim != th && s.queues[victim] != []
    case Deliver => Between(s, th) && th in s.queues && s.threads[th].run.Carrying?
  }

  predicate RunEnabled(s: State, th: ThreadId, step: RunStep) {
    InRun(s, th) &&
    match step
    case Resume => s.threads[th].run.Popped?
    case Settle => s.threads[th].run.Left?
    case Mark => s.threads[th].run.Marking?
    case Finish => s.threads[th].run.Ending?
  }

  predicate CodeEnabled(s: State, th: ThreadId, step: CodeStep) {
    InRun(s, th) && s.threads[th].run.Running? &&
    var task := s.tasks[s.threads[th].run.task];
    match step
    case BeginWait(_) => task.phase == Free
    case CheckCancelled => task.phase == Beginning
    case SelfWake => task.phase == SelfWaking
    case Abandon => task.phase == Armed || task.phase == Stale
    case ParkLoad => task.phase == Armed || task.phase == Stale
    case Commit(_) => task.phase == Armed
    case Suspend(ForWait) => task.phase == Committed
    case Suspend(ForYield) => task.phase == Free || task.phase == Armed || task.phase == Stale
    case Suspend(ForReturn) => task.phase == Free
    case Clean => task.phase == Cleaning && (task.timer.Some? ==> task.timer.value.0 in s.timers)
  }

  predicate Enabled(s: State, step: Step) {
    match step
    case ByWaker(th, waker) => WakerEnabled(s, th, waker)
    case ByEnder(th, ender) => EnderEnabled(s, th, ender)
    case ByQueue(th, queue) => QueueEnabled(s, th, queue)
    case ByRun(th, run) => RunEnabled(s, th, run)
    case ByCode(th, code) => CodeEnabled(s, th, code)
    case Tick(to) => s.now <= to
  }

  // --- What they do ---

  /** No step adds or removes a thread, or forgets a task. */
  predicate SameThreads(s: State, r: State) {
    && r.threads.Keys == s.threads.Keys && r.queues.Keys == s.queues.Keys && r.timers.Keys == s.timers.Keys
    && s.tasks.Keys <= r.tasks.Keys
  }

  /** `schedule` has loaded the state bits: nothing to do if the task is
      queued or done, else on to the compare-and-swap. */
  function AfterLoad(s: State, th: ThreadId, t: TaskId): State
    requires th in s.threads && t in s.tasks
  {
    var bits := s.tasks[t].bits;
    SetOp(s, th, if bits.notified || bits.done then Quiet else Loaded(t, bits.running))
  }

  /** `wake`: if the task's wait is still `wait`, claim it. */
  function Wake(s: State, th: ThreadId, t: TaskId, wait: nat, woke: Woke): State
    requires th in s.threads && t in s.tasks
  {
    if wait != 0 && s.tasks[t].wait == wait then
      SetOp(SetTask(s, t, s.tasks[t].(wait := 0, woke := woke)), th, Claimed(t))
    else
      SetOp(s, th, Quiet)
  }

  function WakerApply(s: State, th: ThreadId, step: WakerStep): (r: State)
    requires WakerEnabled(s, th, step)
    ensures SameThreads(s, r)
  {
    var op := s.threads[th].op;
    match step
    case Spawn(t) =>
      var task := Task(QUEUED, 0, Ready, false, false, None, false, Free, 0, None);
      SetOp(SetTask(s, t, task), th, Pushing(t))
    case Push =>
      var s1 := SetOp(s, th, Quiet);
      if th in s.queues then SetQueue(s1, th, s.queues[th] + [op.task]) else s1.(inject := s.inject + [op.task])
    case Claim(t) => Wake(s, th, t, s.tasks[t].wait, Ready)
    case Load => AfterLoad(s, th, op.task)
    case Cas(ok) =>
      if ok then
        var s1 := SetTask(s, op.task, s.tasks[op.task].(bits := Bits(op.run, true, false)));
        SetOp(s1, th, if op.run then Quiet else Pushing(op.task))
      else
        AfterLoad(s, th, op.task)
  }

  function EnderApply(s: State, th: ThreadId, step: EnderStep): (r: State)
    requires EnderEnabled(s, th, step)
    ensures SameThreads(s, r)
  {
    var op := s.threads[th].op;
    match step
    case CancelStore(t) =>
      SetOp(SetTask(s, t, s.tasks[t].(cancelled := true)), th, CancelSet(t))
    case CancelLoad =>
      var wait := s.tasks[op.task].wait;
      SetOp(s, th, if wait == 0 then Quiet else CancelSaw(op.task, wait))
    case CancelCheck =>
      SetOp(s, th, if s.tasks[op.task].cancellable then CancelSure(op.task, op.wait) else Quiet)
    case CancelWake => Wake(s, th, op.task, op.wait, Cancelled)
    case Collect(upTo) =>
      var due := set e | e in s.timers[th] && e.at <= upTo;
      s.(timers := s.timers[th := s.timers[th] - due],
         threads := s.threads[th := s.threads[th].(due := due)])
    case Fire(timer) =>
      var s1 := s.(threads := s.threads[th := s.threads[th].(due := s.threads[th].due - {timer})]);
      Wake(s1, th, timer.task, timer.wait, TimedOut)
  }

  function QueueApply(s: State, th: ThreadId, step: QueueStep): (r: State)
    requires QueueEnabled(s, th, step)
    ensures SameThreads(s, r)
  {
    match step
    case Pop => SetRun(SetQueue(s, th, s.queues[th][1..]), th, Popped(s.queues[th][0]))
    case Requeue => SetRun(SetQueue(s, th, s.queues[th] + [s.threads[th].run.task]), th, Idle)
    case TakeInjected => SetRun(s.(inject := s.inject[1..]), th, Carrying(s.inject[..1]))
    case Steal(victim) =>
      var queue := s.queues[victim];
      SetRun(SetQueue(s, victim, queue[Half(|queue|)..]), th, Carrying(queue[..Half(|queue|)]))
    case Deliver => SetRun(SetQueue(s, th, s.queues[th] + s.threads[th].run.tasks), th, Idle)
  }

  function RunApply(s: State, th: ThreadId, step: RunStep): (r: State)
    requires RunEnabled(s, th, step)
    ensures SameThreads(s, r)
  {
    var run := s.threads[th].run;
    var task := s.tasks[run.task];
    match step
    case Resume =>
      var phase := if task.phase == Waiting then Cleaning else task.phase;
      SetRun(SetTask(s, run.task, task.(bits := RUNNING, phase := phase)), th, Running(run.task))
    case Settle =>
      (match run.why
       case ForWait =>
         if task.bits == RUNNING then SetRun(SetTask(s, run.task, task.(bits := SUSPENDED)), th, Idle)
         else SetRun(s, th, Marking(run.task))
       case ForYield => SetRun(SetTask(s, run.task, task.(bits := QUEUED)), th, Requeueing(run.task))
       case ForReturn => SetRun(SetTask(s, run.task, task.(bits := DONE)), th, Ending(run.task)))
    case Mark => SetRun(SetTask(s, run.task, task.(bits := QUEUED)), th, Requeueing(run.task))
    case Finish => SetRun(SetTask(s, run.task, task.(finished := true)), th, Idle)
  }

  /** What its own step does to the task `th` runs. */
  function Stepped(s: State, th: ThreadId, step: CodeStep): Task
    requires CodeEnabled(s, th, step)
  {
    var t := s.threads[th].run.task;
    var task := s.tasks[t];
    match step
    case BeginWait(cancellable) =>
      task.(wait := s.nextWait, cur := s.nextWait, woke := Ready, cancellable := cancellable, deadline := None,
            phase := Beginning)
    case CheckCancelled => task.(phase := if task.cancellable && task.cancelled then SelfWaking else Armed)
    case SelfWake =>
      if task.wait != 0 && task.wait == task.cur then task.(phase := Armed, wait := 0, woke := Cancelled)
      else task.(phase := Armed)
    case Abandon => task.(wait := 0, phase := Free)
    case ParkLoad => task.(phase := if task.wait == 0 then Free else Armed)
    case Commit(None) => task.(phase := Committed)
    case Commit(Some(at)) =>
      task.(phase := Committed, timer := Some((th, Timer(at, task.cur, t))), deadline := Some(at))
    case Suspend(ForWait) => task.(phase := Waiting)
    case Suspend(ForYield) => task.(phase := if task.phase == Armed then Stale else task.phase)
    case Suspend(ForReturn) => task
    case Clean => task.(timer := None, phase := Free)
  }

  function CodeApply(s: State, th: ThreadId, step: CodeStep): (r: State)
    requires CodeEnabled(s, th, step)
    ensures SameThreads(s, r)
  {
    var t := s.threads[th].run.task;
    var task := s.tasks[t];
    var s1 := SetTask(s, t, Stepped(s, th, step));
    match step
    case BeginWait(_) => s1.(nextWait := s.nextWait + 1)
    case SelfWake => if task.wait != 0 && task.wait == task.cur then SetOp(s1, th, Claimed(t)) else s1
    case Commit(Some(at)) => s1.(timers := s.timers[th := s.timers[th] + {Timer(at, task.cur, t)}])
    case Suspend(why) => SetRun(s1, th, Left(t, why))
    case Clean =>
      if task.timer.None? then s1
      else
        var (w, timer) := task.timer.value;
        s1.(timers := s.timers[w := s.timers[w] - {timer}])
    case _ => s1
  }

  function Apply(s: State, step: Step): (r: State)
    requires Enabled(s, step)
    ensures SameThreads(s, r)
  {
    match step
    case ByWaker(th, waker) => WakerApply(s, th, waker)
    case ByEnder(th, ender) => EnderApply(s, th, ender)
    case ByQueue(th, queue) => QueueApply(s, th, queue)
    case ByRun(th, run) => RunApply(s, th, run)
    case ByCode(th, code) => CodeApply(s, th, code)
    case Tick(to) => s.(now := to)
  }

  /** Some threads, some of them workers, and no tasks yet. */
  predicate Init(s: State) {
    && s.tasks == map[] && s.inject == [] && 0 < s.nextWait
    && s.queues.Keys <= s.threads.Keys && s.timers.Keys == s.queues.Keys
    && (forall th | th in s.threads :: s.threads[th] == Thread(Idle, Quiet, {}))
    && (forall w | w in s.queues :: s.queues[w] == [] && s.timers[w] == {})
  }

  /** `s` is the state after taking `steps` in order from `start`. */
  predicate Reaches(start: State, steps: seq<Step>, s: State)
    decreases |steps|
  {
    if steps == [] then s == start
    else Enabled(start, steps[0]) && Reaches(Apply(start, steps[0]), steps[1..], s)
  }
}
