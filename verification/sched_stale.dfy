/** Why a task that has yielded since `begin_wait` must look at its wait again
    before suspending for it: a run in which one that did not would sleep with
    its wait claimed and nobody left to wake it. */
module SchedStale {
  import opened Basics
  import opened Sched
  import W = SchedWaits

  /** One task, worker 0 and plain thread 1. */
  function At(task: Task, run: Run, op: Op, waker: Op, queue: seq<TaskId>, nextWait: nat): State {
    State(map[0 := task], map[0 := Thread(run, op, {}), 1 := Thread(Idle, waker, {})],
          map[0 := queue], [], map[0 := {}], nextWait, 0)
  }

  lemma AtTask(task: Task, run: Run, op: Op, waker: Op, queue: seq<TaskId>, nextWait: nat, task': Task)
    ensures SetTask(At(task, run, op, waker, queue, nextWait), 0, task') == At(task', run, op, waker, queue, nextWait)
  {
    assert map[0 := task][0 := task'] == map[0 := task'];
  }

  lemma AtRun(task: Task, run: Run, op: Op, waker: Op, queue: seq<TaskId>, nextWait: nat, run': Run)
    ensures SetRun(At(task, run, op, waker, queue, nextWait), 0, run') == At(task, run', op, waker, queue, nextWait)
  {
    var threads := At(task, run, op, waker, queue, nextWait).threads;
    assert threads[0 := Thread(run', op, {})] == map[0 := Thread(run', op, {}), 1 := Thread(Idle, waker, {})];
  }

  lemma AtOp(task: Task, run: Run, op: Op, waker: Op, queue: seq<TaskId>, nextWait: nat, op': Op)
    ensures SetOp(At(task, run, op, waker, queue, nextWait), 0, op') == At(task, run, op', waker, queue, nextWait)
  {
    var threads := At(task, run, op, waker, queue, nextWait).threads;
    assert threads[0 := Thread(run, op', {})] == map[0 := Thread(run, op', {}), 1 := Thread(Idle, waker, {})];
  }

  lemma AtWaker(task: Task, run: Run, op: Op, waker: Op, queue: seq<TaskId>, nextWait: nat, waker': Op)
    ensures SetOp(At(task, run, op, waker, queue, nextWait), 1, waker') == At(task, run, op, waker', queue, nextWait)
  {
    var threads := At(task, run, op, waker, queue, nextWait).threads;
    assert threads[1 := Thread(Idle, waker', {})] == map[0 := Thread(run, op, {}), 1 := Thread(Idle, waker', {})];
  }

  lemma AtQueue(task: Task, run: Run, op: Op, waker: Op, queue: seq<TaskId>, nextWait: nat, queue': seq<TaskId>)
    ensures SetQueue(At(task, run, op, waker, queue, nextWait), 0, queue') == At(task, run, op, waker, queue', nextWait)
  {
    assert map[0 := queue][0 := queue'] == map[0 := queue'];
  }

  predicate Leads(s: State, step: Step, r: State) {
    Enabled(s, step) && Apply(s, step) == r
  }

  lemma Then(s: State, step: Step, next: State, steps: seq<Step>, r: State)
    requires Leads(s, step, next) && Reaches(next, steps, r)
    ensures Reaches(s, [step] + steps, r)
  {
    assert ([step] + steps)[1..] == steps;
  }

  // --- The steps of the run ---

  lemma PopStep(task: Task, nextWait: nat)
    ensures Leads(At(task, Idle, Quiet, Quiet, [0], nextWait), ByQueue(0, Pop), At(task, Popped(0), Quiet, Quiet, [], nextWait))
  {
    assert [0][1..] == [];
    AtQueue(task, Idle, Quiet, Quiet, [0], nextWait, []);
    AtRun(task, Idle, Quiet, Quiet, [], nextWait, Popped(0));
  }

  lemma ResumeStep(task: Task, nextWait: nat)
    requires task.phase != Waiting
    ensures Leads(At(task, Popped(0), Quiet, Quiet, [], nextWait), ByRun(0, Resume),
                  At(task.(bits := RUNNING), Running(0), Quiet, Quiet, [], nextWait))
  {
    AtTask(task, Popped(0), Quiet, Quiet, [], nextWait, task.(bits := RUNNING));
    AtRun(task.(bits := RUNNING), Popped(0), Quiet, Quiet, [], nextWait, Running(0));
  }

  /** A wait begun with id `n`. */
  function Begun(n: nat, phase: Phase): Task {
    Task(RUNNING, n, Ready, false, false, None, false, phase, n, None)
  }

  function Spawned(): Task {
    Task(QUEUED, 0, Ready, false, false, None, false, Free, 0, None)
  }

  lemma BeginSteps()
    ensures var s := At(Spawned().(bits := RUNNING), Running(0), Quiet, Quiet, [], 1);
      Leads(s, ByCode(0, BeginWait(false)), At(Begun(1, Beginning), Running(0), Quiet, Quiet, [], 2))
    ensures Leads(At(Begun(1, Beginning), Running(0), Quiet, Quiet, [], 2), ByCode(0, CheckCancelled),
                  At(Begun(1, Armed), Running(0), Quiet, Quiet, [], 2))
  {
    AtTask(Spawned().(bits := RUNNING), Running(0), Quiet, Quiet, [], 1, Begun(1, Beginning));
    AtTask(Begun(1, Beginning), Running(0), Quiet, Quiet, [], 2, Begun(1, Armed));
  }

  /** The wait claimed by thread 1, and the task marked. */
  function Claimed0(bits: Bits, phase: Phase): Task {
    Begun(1, phase).(wait := 0, bits := bits)
  }

  lemma WakeSteps()
    ensures Leads(At(Begun(1, Armed), Running(0), Quiet, Quiet, [], 2), ByWaker(1, Claim(0)),
                  At(Claimed0(RUNNING, Armed), Running(0), Quiet, Claimed(0), [], 2))
    ensures Leads(At(Claimed0(RUNNING, Armed), Running(0), Quiet, Claimed(0), [], 2), ByWaker(1, Load),
                  At(Claimed0(RUNNING, Armed), Running(0), Quiet, Loaded(0, true), [], 2))
    ensures Leads(At(Claimed0(RUNNING, Armed), Running(0), Quiet, Loaded(0, true), [], 2), ByWaker(1, Cas(true)),
                  At(Claimed0(RUNNING_NOTIFIED, Armed), Running(0), Quiet, Quiet, [], 2))
  {
    AtTask(Begun(1, Armed), Running(0), Quiet, Quiet, [], 2, Claimed0(RUNNING, Armed));
    AtWaker(Claimed0(RUNNING, Armed), Running(0), Quiet, Quiet, [], 2, Claimed(0));
    AtWaker(Claimed0(RUNNING, Armed), Running(0), Quiet, Claimed(0), [], 2, Loaded(0, true));
    AtTask(Claimed0(RUNNING, Armed), Running(0), Quiet, Loaded(0, true), [], 2, Claimed0(RUNNING_NOTIFIED, Armed));
    AtWaker(Claimed0(RUNNING_NOTIFIED, Armed), Running(0), Quiet, Loaded(0, true), [], 2, Quiet);
  }

  lemma YieldSteps()
    ensures Leads(At(Claimed0(RUNNING_NOTIFIED, Armed), Running(0), Quiet, Quiet, [], 2), ByCode(0, Suspend(ForYield)),
                  At(Claimed0(RUNNING_NOTIFIED, Stale), Left(0, ForYield), Quiet, Quiet, [], 2))
    ensures Leads(At(Claimed0(RUNNING_NOTIFIED, Stale), Left(0, ForYield), Quiet, Quiet, [], 2), ByRun(0, Settle),
                  At(Claimed0(QUEUED, Stale), Requeueing(0), Quiet, Quiet, [], 2))
  {
    AtTask(Claimed0(RUNNING_NOTIFIED, Armed), Running(0), Quiet, Quiet, [], 2, Claimed0(RUNNING_NOTIFIED, Stale));
    AtRun(Claimed0(RUNNING_NOTIFIED, Stale), Running(0), Quiet, Quiet, [], 2, Left(0, ForYield));
    AtTask(Claimed0(RUNNING_NOTIFIED, Stale), Left(0, ForYield), Quiet, Quiet, [], 2, Claimed0(QUEUED, Stale));
    AtRun(Claimed0(QUEUED, Stale), Left(0, ForYield), Quiet, Quiet, [], 2, Requeueing(0));
  }

  lemma RequeueStep(task: Task)
    ensures Leads(At(task, Requeueing(0), Quiet, Quiet, [], 2), ByQueue(0, Requeue), At(task, Idle, Quiet, Quiet, [0], 2))
  {
    assert [] + [0] == [0];
    AtQueue(task, Requeueing(0), Quiet, Quiet, [], 2, [0]);
    AtRun(task, Requeueing(0), Quiet, Quiet, [0], 2, Idle);
  }

  function Start(): State {
    State(map[], map[0 := Thread(Idle, Quiet, {}), 1 := Thread(Idle, Quiet, {})], map[0 := []], [], map[0 := {}], 1, 0)
  }

  lemma SpawnSteps()
    ensures Init(Start())
    ensures Leads(Start(), ByWaker(0, Spawn(0)), At(Spawned(), Idle, Pushing(0), Quiet, [], 1))
    ensures Leads(At(Spawned(), Idle, Pushing(0), Quiet, [], 1), ByWaker(0, Push), At(Spawned(), Idle, Quiet, Quiet, [0], 1))
  {
    assert SetTask(Start(), 0, Spawned()) == At(Spawned(), Idle, Quiet, Quiet, [], 1);
    AtOp(Spawned(), Idle, Quiet, Quiet, [], 1, Pushing(0));
    AtOp(Spawned(), Idle, Pushing(0), Quiet, [], 1, Quiet);
    assert [] + [0] == [0];
    AtQueue(Spawned(), Idle, Quiet, Quiet, [], 1, [0]);
  }

  // --- The run ---

  /** Where the run arrives: the task runs, stale, its wait claimed and its
      notification spent on the yield. */
  function Arrived(): State {
    At(Claimed0(RUNNING, Stale), Running(0), Quiet, Quiet, [], 2)
  }

  lemma FromYield() returns (steps: seq<Step>)
    ensures Reaches(At(Claimed0(RUNNING_NOTIFIED, Armed), Running(0), Quiet, Quiet, [], 2), steps, Arrived())
  {
    YieldSteps();
    RequeueStep(Claimed0(QUEUED, Stale));
    PopStep(Claimed0(QUEUED, Stale), 2);
    ResumeStep(Claimed0(QUEUED, Stale), 2);
    steps := [];
    steps := [ByRun(0, Resume)] + steps;
    Then(At(Claimed0(QUEUED, Stale), Popped(0), Quiet, Quiet, [], 2), ByRun(0, Resume), Arrived(), [], Arrived());
    Then(At(Claimed0(QUEUED, Stale), Idle, Quiet, Quiet, [0], 2), ByQueue(0, Pop),
         At(Claimed0(QUEUED, Stale), Popped(0), Quiet, Quiet, [], 2), steps, Arrived());
    steps := [ByQueue(0, Pop)] + steps;
    Then(At(Claimed0(QUEUED, Stale), Requeueing(0), Quiet, Quiet, [], 2), ByQueue(0, Requeue),
         At(Claimed0(QUEUED, Stale), Idle, Quiet, Quiet, [0], 2), steps, Arrived());
    steps := [ByQueue(0, Requeue)] + steps;
    Then(At(Claimed0(RUNNING_NOTIFIED, Stale), Left(0, ForYield), Quiet, Quiet, [], 2), ByRun(0, Settle),
         At(Claimed0(QUEUED, Stale), Requeueing(0), Quiet, Quiet, [], 2), steps, Arrived());
    steps := [ByRun(0, Settle)] + steps;
    Then(At(Claimed0(RUNNING_NOTIFIED, Armed), Running(0), Quiet, Quiet, [], 2), ByCode(0, Suspend(ForYield)),
         At(Claimed0(RUNNING_NOTIFIED, Stale), Left(0, ForYield), Quiet, Quiet, [], 2), steps, Arrived());
    steps := [ByCode(0, Suspend(ForYield))] + steps;
  }

  lemma FromBegin() returns (steps: seq<Step>)
    ensures Reaches(At(Spawned().(bits := RUNNING), Running(0), Quiet, Quiet, [], 1), steps, Arrived())
  {
    BeginSteps();
    WakeSteps();
    steps := FromYield();
    Then(At(Claimed0(RUNNING, Armed), Running(0), Quiet, Loaded(0, true), [], 2), ByWaker(1, Cas(true)),
         At(Claimed0(RUNNING_NOTIFIED, Armed), Running(0), Quiet, Quiet, [], 2), steps, Arrived());
    steps := [ByWaker(1, Cas(true))] + steps;
    Then(At(Claimed0(RUNNING, Armed), Running(0), Quiet, Claimed(0), [], 2), ByWaker(1, Load),
         At(Claimed0(RUNNING, Armed), Running(0), Quiet, Loaded(0, true), [], 2), steps, Arrived());
    steps := [ByWaker(1, Load)] + steps;
    Then(At(Begun(1, Armed), Running(0), Quiet, Quiet, [], 2), ByWaker(1, Claim(0)),
         At(Claimed0(RUNNING, Armed), Running(0), Quiet, Claimed(0), [], 2), steps, Arrived());
    steps := [ByWaker(1, Claim(0))] + steps;
    Then(At(Begun(1, Beginning), Running(0), Quiet, Quiet, [], 2), ByCode(0, CheckCancelled),
         At(Begun(1, Armed), Running(0), Quiet, Quiet, [], 2), steps, Arrived());
    steps := [ByCode(0, CheckCancelled)] + steps;
    Then(At(Spawned().(bits := RUNNING), Running(0), Quiet, Quiet, [], 1), ByCode(0, BeginWait(false)),
         At(Begun(1, Beginning), Running(0), Quiet, Quiet, [], 2), steps, Arrived());
    steps := [ByCode(0, BeginWait(false))] + steps;
  }

  lemma FromStart() returns (steps: seq<Step>)
    ensures Init(Start()) && Reaches(Start(), steps, Arrived())
  {
    SpawnSteps();
    PopStep(Spawned(), 1);
    ResumeStep(Spawned(), 1);
    steps := FromBegin();
    Then(At(Spawned(), Popped(0), Quiet, Quiet, [], 1), ByRun(0, Resume),
         At(Spawned().(bits := RUNNING), Running(0), Quiet, Quiet, [], 1), steps, Arrived());
    steps := [ByRun(0, Resume)] + steps;
    Then(At(Spawned(), Idle, Quiet, Quiet, [0], 1), ByQueue(0, Pop),
         At(Spawned(), Popped(0), Quiet, Quiet, [], 1), steps, Arrived());
    steps := [ByQueue(0, Pop)] + steps;
    Then(At(Spawned(), Idle, Pushing(0), Quiet, [], 1), ByWaker(0, Push),
         At(Spawned(), Idle, Quiet, Quiet, [0], 1), steps, Arrived());
    steps := [ByWaker(0, Push)] + steps;
    Then(Start(), ByWaker(0, Spawn(0)), At(Spawned(), Idle, Pushing(0), Quiet, [], 1), steps, Arrived());
    steps := [ByWaker(0, Spawn(0))] + steps;
  }

  /** What suspending for the wait from here would do: the commit without the
      look at the wait, the suspension and the worker's settling of it. */
  lemma SleepSteps()
    ensures Leads(At(Claimed0(RUNNING, Committed), Running(0), Quiet, Quiet, [], 2), ByCode(0, Suspend(ForWait)),
                  At(Claimed0(RUNNING, Waiting), Left(0, ForWait), Quiet, Quiet, [], 2))
    ensures Leads(At(Claimed0(RUNNING, Waiting), Left(0, ForWait), Quiet, Quiet, [], 2), ByRun(0, Settle),
                  At(Claimed0(SUSPENDED, Waiting), Idle, Quiet, Quiet, [], 2))
  {
    AtTask(Claimed0(RUNNING, Committed), Running(0), Quiet, Quiet, [], 2, Claimed0(RUNNING, Waiting));
    AtRun(Claimed0(RUNNING, Waiting), Running(0), Quiet, Quiet, [], 2, Left(0, ForWait));
    AtTask(Claimed0(RUNNING, Waiting), Left(0, ForWait), Quiet, Quiet, [], 2, Claimed0(SUSPENDED, Waiting));
    AtRun(Claimed0(SUSPENDED, Waiting), Left(0, ForWait), Quiet, Quiet, [], 2, Idle);
  }

  /** A reachable state with a running task whose wait has gone stale, from
      which committing to the wait puts it to sleep with the wait claimed and
      no one on the way to wake it. */
  lemma StaleCommitSleeps() returns (start: State, steps: seq<Step>, s: State, sleep: seq<Step>, r: State)
    ensures Init(start) && Reaches(start, steps, s)
    ensures 0 in s.tasks && s.tasks[0].phase == Stale && s.tasks[0].wait == 0
    ensures Reaches(SetTask(s, 0, s.tasks[0].(phase := Committed)), sleep, r)
    ensures 0 in r.tasks && r.tasks[0].bits == SUSPENDED && r.tasks[0].wait == 0 && !W.BeingWoken(r, 0)
  {
    steps := FromStart();
    start, s := Start(), Arrived();
    sleep, r := FallAsleep();
    AtTask(Claimed0(RUNNING, Stale), Running(0), Quiet, Quiet, [], 2, Claimed0(RUNNING, Committed));
  }

  lemma FallAsleep() returns (steps: seq<Step>, r: State)
    ensures Reaches(At(Claimed0(RUNNING, Committed), Running(0), Quiet, Quiet, [], 2), steps, r)
    ensures 0 in r.tasks && r.tasks[0].bits == SUSPENDED && r.tasks[0].wait == 0 && !W.BeingWoken(r, 0)
  {
    SleepSteps();
    var left := At(Claimed0(RUNNING, Waiting), Left(0, ForWait), Quiet, Quiet, [], 2);
    r := At(Claimed0(SUSPENDED, Waiting), Idle, Quiet, Quiet, [], 2);
    Then(left, ByRun(0, Settle), r, [], r);
    steps := [ByRun(0, Settle)] + [];
    Then(At(Claimed0(RUNNING, Committed), Running(0), Quiet, Quiet, [], 2), ByCode(0, Suspend(ForWait)), left, steps, r);
    steps := [ByCode(0, Suspend(ForWait))] + steps;
  }
}
