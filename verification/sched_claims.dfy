/** A wait ends once: the step that claims it decides how it ended. */
module SchedClaims {
  import opened Basics
  import opened Sched
  import P = SchedPlaces
  import W = SchedWaits

  /** What can become of a task's waits: ids only grow, and how a wait ended is
      settled until the next. */
  predicate Follows(a: Task, b: Task) {
    a.cur <= b.cur && (a.cur == b.cur && a.wait == 0 ==> b.wait == 0 && b.woke == a.woke)
  }

  /** What the claim of a wait in a step records, if it is one. */
  function Records(step: Step): Option<Woke> {
    match step
    case ByWaker(_, Claim(_)) => Some(Ready)
    case ByEnder(_, CancelWake) => Some(Cancelled)
    case ByEnder(_, Fire(_)) => Some(TimedOut)
    case ByCode(_, SelfWake) => Some(Cancelled)
    case _ => None
  }

  /** A wait that ends in this step is claimed for this reason (or abandoned by
      its own task). */
  predicate Ends(a: Task, b: Task, why: Option<Woke>) {
    a.wait != 0 && b.wait == 0 ==> b.cur == a.cur && why == Some(b.woke)
  }

  lemma WakerStepFollows(s: State, th: ThreadId, step: WakerStep, t: TaskId)
    requires WakerEnabled(s, th, step) && t in s.tasks
    ensures t in WakerApply(s, th, step).tasks && Follows(s.tasks[t], WakerApply(s, th, step).tasks[t])
    ensures Ends(s.tasks[t], WakerApply(s, th, step).tasks[t], Records(ByWaker(th, step)))
  {
  }

  lemma EnderStepFollows(s: State, th: ThreadId, step: EnderStep, t: TaskId)
    requires EnderEnabled(s, th, step) && t in s.tasks
    ensures t in EnderApply(s, th, step).tasks && Follows(s.tasks[t], EnderApply(s, th, step).tasks[t])
    ensures Ends(s.tasks[t], EnderApply(s, th, step).tasks[t], Records(ByEnder(th, step)))
  {
  }

  lemma QueueStepFollows(s: State, th: ThreadId, step: QueueStep, t: TaskId)
    requires QueueEnabled(s, th, step) && t in s.tasks
    ensures t in QueueApply(s, th, step).tasks && QueueApply(s, th, step).tasks[t] == s.tasks[t]
  {
  }

  lemma RunStepFollows(s: State, th: ThreadId, step: RunStep, t: TaskId)
    requires RunEnabled(s, th, step) && t in s.tasks
    ensures var r := RunApply(s, th, step);
            t in r.tasks && r.tasks[t].cur == s.tasks[t].cur && r.tasks[t].wait == s.tasks[t].wait && r.tasks[t].woke == s.tasks[t].woke
  {
  }

  lemma SteppedFollows(s: State, th: ThreadId, step: CodeStep)
    requires CodeEnabled(s, th, step) && 0 < s.nextWait && s.tasks[s.threads[th].run.task].cur < s.nextWait
    ensures Follows(s.tasks[s.threads[th].run.task], Stepped(s, th, step))
    ensures !step.Abandon? ==> Ends(s.tasks[s.threads[th].run.task], Stepped(s, th, step), Records(ByCode(th, step)))
  {
  }

  lemma CodeStepTask(s: State, th: ThreadId, step: CodeStep, t: TaskId)
    requires CodeEnabled(s, th, step) && t in s.tasks
    ensures t in CodeApply(s, th, step).tasks
    ensures CodeApply(s, th, step).tasks[t] == if t == s.threads[th].run.task then Stepped(s, th, step) else s.tasks[t]
  {
  }

  lemma StepFollows(s: State, step: Step, t: TaskId)
    requires W.Inv(s) && Enabled(s, step) && t in s.tasks
    ensures t in Apply(s, step).tasks && Follows(s.tasks[t], Apply(s, step).tasks[t])
    ensures !(step.ByCode? && step.code.Abandon?) ==> Ends(s.tasks[t], Apply(s, step).tasks[t], Records(step))
  {
    assert W.TaskInv(s, t);
    match step
    case ByWaker(th, waker) => WakerStepFollows(s, th, waker, t);
    case ByEnder(th, ender) => EnderStepFollows(s, th, ender, t);
    case ByQueue(th, queue) => QueueStepFollows(s, th, queue, t);
    case ByRun(th, run) => RunStepFollows(s, th, run, t);
    case ByCode(th, code) =>
      CodeStepTask(s, th, code, t);
      if t == s.threads[th].run.task { SteppedFollows(s, th, code); }
    case Tick(_) =>
  }

  lemma FollowsOn(a: Task, b: Task, c: Task)
    requires Follows(a, b) && Follows(b, c)
    ensures Follows(a, c)
  {
  }

  lemma {:induction false} RunFollows(s: State, steps: seq<Step>, r: State, t: TaskId)
    requires P.Inv(s) && W.Inv(s) && Reaches(s, steps, r) && t in s.tasks
    ensures t in r.tasks && Follows(s.tasks[t], r.tasks[t])
    decreases |steps|
  {
    if steps != [] {
      var next := Apply(s, steps[0]);
      P.InvKept(s, steps[0]);
      W.InvKept(s, steps[0]);
      StepFollows(s, steps[0], t);
      RunFollows(next, steps[1..], r, t);
      FollowsOn(s.tasks[t], next.tasks[t], r.tasks[t]);
    }
  }

  /** Over every run: until its task begins another wait, what a wait reads is
      what the step that claimed it recorded. A wait claimed by `wake_one` so
      never reads Cancelled or TimedOut, and one that reads Cancelled was
      claimed by cancelling. */
  lemma ClaimDecides(start: State, before: seq<Step>, s: State, step: Step, after: seq<Step>, r: State, t: TaskId)
    requires Init(start) && Reaches(start, before, s) && Enabled(s, step) && Reaches(Apply(s, step), after, r)
    requires t in s.tasks && t in Apply(s, step).tasks && t in r.tasks
    requires s.tasks[t].wait != 0 && Apply(s, step).tasks[t].wait == 0 && !(step.ByCode? && step.code.Abandon?)
    requires r.tasks[t].cur == s.tasks[t].cur
    ensures r.tasks[t].wait == 0 && Records(step) == Some(r.tasks[t].woke)
  {
    W.Reached(start, before, s);
    P.InvKept(s, step);
    W.InvKept(s, step);
    StepFollows(s, step, t);
    RunFollows(Apply(s, step), after, r, t);
  }
}
