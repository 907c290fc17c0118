/** What waits for a unit under `wake_one`: the task-level `Lock` (one unit),
    the helper-thread slots (64 units), and a resource heap's free slots. One
    machine covers all three: a count of free units, and a list of waiters. */
module Pool {
  import opened Basics
  import opened Waiting

  datatype Pool = Pool(capacity: nat, units: nat, held: nat, side: Side)

  datatype Step =
    | Take                                        // a newcomer finds a unit, waiters or not
    | Sleep                                       // a newcomer finds none, and lists itself
    | End(id: nat, cancel: bool)                  // a sleeper times out or is cancelled
    | Back(id: nat, giveUp: bool, again: bool)    // a waiter is back: see TakeOrSleep
    | Release                                     // a unit is given back

  /** A waiter gives up only if its wait was ended by cancelling, which a wait
      claimed by `wake_one` never is: `SchedClaims.ClaimDecides`. */
  predicate Enabled(p: Pool, step: Step) {
    SideInv(p.side) &&
    match step
    case Take => p.units > 0
    case Sleep => p.units == 0
    case End(id, _) => id in p.side.sleeping
    case Back(id, giveUp, _) => Waits(p.side, id) && (giveUp ==> id in p.side.cancelled)
    case Release => p.held > 0
  }

  /** The body of the waiting loop, under the mutex: take a unit if there is
      one, else list the task (or leave, once its deadline has passed). */
  function TakeOrSleep(p: Pool, sleep: bool): Pool
    requires SideInv(p.side)
  {
    if p.units > 0 then p.(units := p.units - 1, held := p.held + 1)
    else if sleep then p.(side := Enlist(p.side))
    else p
  }

  function Apply(p: Pool, step: Step): Pool
    requires Enabled(p, step)
  {
    match step
    case Take => TakeOrSleep(p, true)
    case Sleep => TakeOrSleep(p, true)
    case End(id, cancel) => p.(side := Waiting.End(p.side, id, cancel))
    case Back(id, giveUp, again) =>
      var p1 := p.(side := Leave(p.side, id));
      if giveUp then p1 else TakeOrSleep(p1, again)
    case Release => p.(units := p.units + 1, held := p.held - 1, side := WakeOne(p.side))
  }

  predicate Init(p: Pool) {
    p.units == p.capacity && p.held == 0 && p.side == EMPTY
  }

  predicate Reaches(start: Pool, steps: seq<Step>, p: Pool)
    decreases |steps|
  {
    if steps == [] then p == start
    else Enabled(start, steps[0]) && Reaches(Apply(start, steps[0]), steps[1..], p)
  }

  /** While anyone is asleep, every free unit has a woken waiter on its way to it. */
  predicate Discipline(p: Pool) {
    p.side.sleeping != {} ==> p.units <= |p.side.notified|
  }

  predicate Inv(p: Pool) {
    SideInv(p.side) && Discipline(p) && p.units + p.held == p.capacity
  }

  lemma InvKept(p: Pool, step: Step)
    requires Inv(p) && Enabled(p, step)
    ensures Inv(Apply(p, step))
  {
    if step.Back? && step.id in p.side.notified {
      assert |p.side.notified - {step.id}| == |p.side.notified| - 1;
    }
    if step.Back? && step.id !in p.side.notified {
      assert p.side.notified - {step.id} == p.side.notified;
    }
  }

  lemma {:induction false} InvHolds(start: Pool, steps: seq<Step>, p: Pool)
    requires Inv(start) && Reaches(start, steps, p)
    ensures Inv(p) && p.capacity == start.capacity
    decreases |steps|
  {
    if steps != [] {
      InvKept(start, steps[0]);
      InvHolds(Apply(start, steps[0]), steps[1..], p);
    }
  }

  /** Over every run, despite cancelling, deadlines, barging and early returns:
      units are neither lost nor made up, and while a waiter sleeps no unit is
      free that a woken waiter is not on its way to; so with none on its way,
      every unit is held. */
  lemma NotificationsNeverWasted(start: Pool, steps: seq<Step>, p: Pool)
    requires Init(start) && Reaches(start, steps, p)
    ensures p.units + p.held == start.capacity
    ensures p.side.sleeping != {} ==> p.units <= |p.side.notified|
    ensures p.side.sleeping != {} && p.side.notified == {} ==> p.held == start.capacity
    ensures start.capacity == 1 ==> p.held <= 1
  {
    InvHolds(start, steps, p);
  }

  // --- The same, as objects: one mutex section per method ---

  class Units {
    var free: nat
    const capacity: nat
    const waiters: Waiters
    ghost var held: nat
    ghost var waits: Side

    /** The list of waiters is the one in `waits`. */
    ghost predicate Linked()
      reads this, waiters
    {
      waiters.Valid() && SideInv(waits) && waits.list == waiters.list && waits.next == waiters.next
    }

    ghost predicate Valid()
      reads this, waiters
    {
      Linked() && Inv(View())
    }

    ghost function View(): Pool
      reads this
    {
      Pool(capacity, free, held, waits)
    }

    constructor (capacity: nat)
      ensures Valid() && Init(View()) && fresh(waiters)
    {
      this.capacity, free := capacity, capacity;
      waiters := new Waiters();
      held, waits := 0, EMPTY;
    }

    /** `try_lock`, `try_reserve`: a unit at once or not at all. */
    method TryTake() returns (ok: bool)
      requires Valid()
      modifies this
      ensures Valid() && ok == (old(free) > 0)
      ensures View() == (if ok then Apply(old(View()), Take) else old(View()))
    {
      ok := free > 0;
      if ok {
        InvKept(View(), Take);
        free, held := free - 1, held + 1;
      }
    }

    /** One turn of the waiting loop: a unit if there is one, else the id of the
        wait just begun, if there is to be one. */
    method TakeOrList(sleep: bool) returns (id: Option<nat>)
      requires Linked()
      modifies this, waiters
      ensures Linked() && View() == TakeOrSleep(old(View()), sleep)
      ensures id.Some? <==> old(free) == 0 && sleep
      ensures id.Some? ==> id.value in waits.sleeping
    {
      id := None;
      if free > 0 {
        free, held := free - 1, held + 1;
      } else if sleep {
        var n := waiters.Add();
        waits := Enlist(waits);
        id := Some(n);
      }
    }

    method TakeOrWait() returns (id: Option<nat>)
      requires Valid()
      modifies this, waiters
      ensures id.None? <==> old(free) > 0
      ensures Valid() && View() == Apply(old(View()), if id.None? then Take else Sleep)
      ensures id.Some? ==> id.value in waits.sleeping
    {
      InvKept(View(), if free > 0 then Take else Sleep);
      id := TakeOrList(true);
    }

    /** A waiter back from parking, given up on if it was cancelled. */
    method Return(id: nat, cancelled: bool, pastDeadline: bool) returns (again: Option<nat>)
      requires Valid() && Waits(waits, id) && (cancelled ==> id in waits.cancelled)
      modifies this, waiters
      ensures Valid() && View() == Apply(old(View()), Back(id, cancelled, !pastDeadline))
    {
      InvKept(View(), Back(id, cancelled, !pastDeadline));
      waiters.Remove(id);
      waits := Leave(waits, id);
      again := None;
      if !cancelled {
        again := TakeOrList(!pastDeadline);
      }
    }

    /** A unit is free again, and the first task still waiting is woken. */
    method FreeOne(sleeping: set<nat>)
      requires Linked() && held > 0 && sleeping == waits.sleeping
      modifies this, waiters
      ensures Linked() && free == old(free) + 1 && held == old(held) - 1 && waits == WakeOne(old(waits))
    {
      WakeOneList(waits);
      ghost var after := WakeOne(waits);
      free, held := free + 1, held - 1;
      var woken := waiters.WakeOne(sleeping);
      waits := after;
    }

    /** Dropping a guard, a helper-thread slot, or freeing a heap slot. */
    method GiveBack(sleeping: set<nat>)
      requires Valid() && held > 0 && sleeping == waits.sleeping
      modifies this, waiters
      ensures Valid() && View() == Apply(old(View()), Release)
    {
      InvKept(View(), Release);
      FreeOne(sleeping);
    }
  }
}
