/** Task groups (`Task.scope!`) on top of the scheduler: closing a group
    returns only once the tasks added to it have finished, whatever is
    cancelled meanwhile. */
module Scope {
  import opened Sched
  import P = SchedPlaces
  import W = SchedWaits

  /** Where the closing task is in its loop over the group's tasks. */
  datatype Closing =
    | Open
    | Checking(todo: seq<TaskId>)  // about to look at whether todo[0] has finished
    | Parked(todo: seq<TaskId>)    // waiting for todo[0], not to be ended by cancelling
    | Returned

  /** One group, the task that closes it, and the scheduler they run on.
      `added` and `owed` are history: every task added so far, and those added
      before the close took the list. */
  datatype Group = Group(
    sched: State,
    closer: TaskId,
    list: seq<TaskId>,
    closing: Closing,
    added: set<TaskId>,
    owed: set<TaskId>)

  datatype GroupStep =
    | Other(step: Step)        // anything else the scheduler does
    | Add(x: TaskId)           // group_add
    | Take                     // group_close takes the list
    | Check                    // wait_finished looks at the flag: finished
    | StartWait(th: ThreadId)  // ... or not: begin an uncancellable wait
    | EndWait                  // park has returned
    | Return

  predicate Finished(s: State, x: TaskId) {
    x in s.tasks && s.tasks[x].finished
  }

  /** The tasks of `list` that have not finished, in order. */
  function Unfinished(s: State, list: seq<TaskId>): (r: seq<TaskId>)
    ensures forall x :: x in r <==> x in list && !Finished(s, x)
  {
    if list == [] then []
    else if Finished(s, list[0]) then Unfinished(s, list[1..])
    else [list[0]] + Unfinished(s, list[1..])
  }

  /** `roc_group_add`, which forgets finished tasks as it goes. */
  method AddTask(s: State, list: seq<TaskId>, x: TaskId) returns (r: seq<TaskId>)
    ensures r == Unfinished(s, list) + [x]
  {
    r := [];
    for i := 0 to |list|
      invariant r + Unfinished(s, list[i..]) == Unfinished(s, list)
    {
      if !Finished(s, list[i]) { r := r + [list[i]]; }
      assert list[i..][1..] == list[i + 1..];
    }
    r := r + [x];
  }

  /** The closing task's own code is the loop below, so it begins and abandons
      no other wait, and does not return. */
  predicate CloserBusy(g: Group, step: Step) {
    && (g.closing.Checking? || g.closing.Parked?) && step.ByCode?
    && (step.code.BeginWait? || step.code.Abandon? || step.code == Suspend(ForReturn))
    && step.th in g.sched.threads && g.sched.threads[step.th].run == Running(g.closer)
  }

  predicate GroupEnabled(g: Group, step: GroupStep) {
    match step
    case Other(step) => Enabled(g.sched, step) && !CloserBusy(g, step)
    case Add(x) => x in g.sched.tasks
    case Take => g.closing == Open
    case Check => g.closing.Checking? && g.closing.todo != [] && Finished(g.sched, g.closing.todo[0])
    case StartWait(th) =>
      && g.closing.Checking? && g.closing.todo != [] && !Finished(g.sched, g.closing.todo[0])
      && CodeEnabled(g.sched, th, BeginWait(false)) && g.sched.threads[th].run.task == g.closer
    case EndWait => g.closing.Parked? && g.closer in g.sched.tasks && g.sched.tasks[g.closer].phase == Free
    case Return => g.closing == Checking([])
  }

  function GroupApply(g: Group, step: GroupStep): Group
    requires GroupEnabled(g, step)
  {
    match step
    case Other(step) => g.(sched := Apply(g.sched, step))
    case Add(x) => g.(list := Unfinished(g.sched, g.list) + [x], added := g.added + {x})
    case Take => g.(list := [], closing := Checking(g.list), owed := g.added)
    case Check => g.(closing := Checking(g.closing.todo[1..]))
    case StartWait(th) =>
      g.(sched := Apply(g.sched, ByCode(th, BeginWait(false))), closing := Parked(g.closing.todo))
    case EndWait =>
      // wait_finished gives up on the task if the wait was cancelled.
      if g.sched.tasks[g.closer].woke == Cancelled && g.closing.todo != [] then
        g.(closing := Checking(g.closing.todo[1..]))
      else
        g.(closing := Checking(g.closing.todo))
    case Return => g.(closing := Returned)
  }

  predicate GroupInit(g: Group) {
    Init(g.sched) && g.list == [] && g.closing == Open && g.added == {} && g.owed == {}
  }

  predicate GroupReaches(start: Group, steps: seq<GroupStep>, g: Group)
    decreases |steps|
  {
    if steps == [] then g == start
    else GroupEnabled(start, steps[0]) && GroupReaches(GroupApply(start, steps[0]), steps[1..], g)
  }

  /** No added task is forgotten before it has finished. */
  predicate KeepsTrack(g: Group) {
    match g.closing
    case Open => forall x | x in g.added :: x in g.list || Finished(g.sched, x)
    case Checking(todo) => forall x | x in g.owed :: x in todo || Finished(g.sched, x)
    case Parked(todo) => forall x | x in g.owed :: x in todo || Finished(g.sched, x)
    case Returned => forall x | x in g.owed :: Finished(g.sched, x)
  }

  ghost predicate GroupInv(g: Group) {
    && P.Inv(g.sched) && W.Inv(g.sched) && KeepsTrack(g)
    && (g.closing.Parked? ==> g.closing.todo != [] && g.closer in g.sched.tasks && !g.sched.tasks[g.closer].cancellable)
  }

  lemma FinishedStays(s: State, step: Step, x: TaskId)
    requires Enabled(s, step) && Finished(s, x)
    ensures Finished(Apply(s, step), x)
  {
    match step
    case ByWaker(_, _) =>
    case ByEnder(th, ender) => P.EnderBits(s, th, ender, x);
    case ByQueue(_, _) =>
    case ByRun(_, _) =>
    case ByCode(th, code) => P.CodeBits(s, th, code, x);
    case Tick(_) =>
  }

  /** Only the closer's own begin_wait could make its wait cancellable. */
  lemma UncancellableStays(g: Group, step: Step)
    requires g.closing.Parked? && Enabled(g.sched, step) && !CloserBusy(g, step)
    requires g.closer in g.sched.tasks && !g.sched.tasks[g.closer].cancellable
    ensures g.closer in Apply(g.sched, step).tasks && !Apply(g.sched, step).tasks[g.closer].cancellable
  {
    match step
    case ByWaker(_, _) =>
    case ByEnder(_, _) =>
    case ByQueue(_, _) =>
    case ByRun(_, _) =>
    case ByCode(th, code) =>
    case Tick(_) =>
  }

  lemma GroupInvKept(g: Group, step: GroupStep)
    requires GroupInv(g) && GroupEnabled(g, step)
    ensures GroupInv(GroupApply(g, step))
  {
    match step
    case Other(step) =>
      P.InvKept(g.sched, step);
      W.InvKept(g.sched, step);
      forall x | Finished(g.sched, x) ensures Finished(Apply(g.sched, step), x) { FinishedStays(g.sched, step, x); }
      if g.closing.Parked? { UncancellableStays(g, step); }
    case StartWait(th) =>
      P.InvKept(g.sched, ByCode(th, BeginWait(false)));
      W.InvKept(g.sched, ByCode(th, BeginWait(false)));
      forall x | Finished(g.sched, x) ensures Finished(GroupApply(g, step).sched, x) {
        FinishedStays(g.sched, ByCode(th, BeginWait(false)), x);
      }
    case EndWait =>
      assert W.TaskInv(g.sched, g.closer);
    case Add(_) =>
    case Take =>
    case Check =>
      forall x | x in g.owed ensures x in g.closing.todo[1..] || Finished(g.sched, x) {
        assert g.closing.todo == [g.closing.todo[0]] + g.closing.todo[1..];
      }
    case Return =>
  }

  lemma {:induction false} GroupInvHolds(start: Group, steps: seq<GroupStep>, g: Group)
    requires GroupInv(start) && GroupReaches(start, steps, g)
    ensures GroupInv(g)
    decreases |steps|
  {
    if steps != [] {
      GroupInvKept(start, steps[0]);
      GroupInvHolds(GroupApply(start, steps[0]), steps[1..], g);
    }
  }

  /** A scope never returns early: when the close has returned, every task
      added before it took the list has finished. */
  lemma ScopeOutlastsTasks(start: Group, steps: seq<GroupStep>, g: Group, x: TaskId)
    requires GroupInit(start) && GroupReaches(start, steps, g)
    requires g.closing == Returned && x in g.owed
    ensures x in g.sched.tasks && g.sched.tasks[x].finished && g.sched.tasks[x].bits == DONE
  {
    P.InvInit(start.sched);
    GroupInvHolds(start, steps, g);
    assert P.TaskOk(g.sched, x);
  }

  /** Over every run in which the close has returned, no task of the scope is
      left running; if not `late`, over those that add none once the close has
      taken the list. */
  ghost predicate LeavesNone(late: bool) {
    forall start, steps, g |
      GroupInit(start) && GroupReaches(start, steps, g) && g.closing == Returned && (late || g.added == g.owed) ::
      forall x | x in g.added :: Finished(g.sched, x)
  }

  lemma OneMoreStep(start: Group, step: GroupStep, steps: seq<GroupStep>, g: Group)
    requires GroupEnabled(start, step) && GroupReaches(GroupApply(start, step), steps, g)
    ensures GroupReaches(start, [step] + steps, g)
  {
    assert ([step] + steps)[1..] == steps;
  }

  /** A task spawned, and added once the close has taken the list: it is not
      waited for, and is still running when the close returns. */
  lemma LateTaskOutlivesScope() returns (start: Group, steps: seq<GroupStep>, g: Group)
    ensures GroupInit(start) && GroupReaches(start, steps, g) && g.closing == Returned
    ensures 0 in g.added && 0 in g.sched.tasks && !Finished(g.sched, 0)
  {
    var idle := State(map[], map[0 := Thread(Idle, Quiet, {})], map[], [], map[], 1, 0);
    start := Group(idle, 1, [], Open, {}, {});
    var spawned := GroupApply(start, Other(ByWaker(0, Spawn(0))));
    var taken := GroupApply(spawned, Take);
    var added := GroupApply(taken, Add(0));
    g := GroupApply(added, Return);
    OneMoreStep(added, Return, [], g);
    OneMoreStep(taken, Add(0), [Return] + [], g);
    OneMoreStep(spawned, Take, [Add(0)] + ([Return] + []), g);
    steps := [Other(ByWaker(0, Spawn(0)))] + ([Take] + ([Add(0)] + ([Return] + [])));
    OneMoreStep(start, Other(ByWaker(0, Spawn(0))), [Take] + ([Add(0)] + ([Return] + [])), g);
  }

  /** What the documentation says of a scope is true exactly of those to which
      nothing is added once the close has taken the list. */
  lemma ScopeLeavesNoneRunning(late: bool)
    ensures LeavesNone(late) <==> !late
  {
    if late {
      var start, steps, g := LateTaskOutlivesScope();
    } else {
      forall start, steps, g, x |
        GroupInit(start) && GroupReaches(start, steps, g) && g.closing == Returned && g.added == g.owed && x in g.added
        ensures Finished(g.sched, x)
      {
        ScopeOutlastsTasks(start, steps, g, x);
      }
    }
  }
}
