/** Bounded channels: any number of tasks sending and receiving on one queue,
    with values named by the send operation that offered them. */
module Channel {
  import opened Basics
  import opened Waiting

  type Value = nat

  datatype Chan = Chan(
    queue: seq<Value>,
    capacity: nat,
    sendingClosed: bool,
    receiverGone: bool,
    receivers: Side,
    senders: Side,
    receiveWatchers: Side,       // Selects watching for a value
    sendWatchers: Side,          // Selects watching for room
    offers: map<nat, Value>,     // what each wait in `senders` has to send
    used: set<Value>,            // history: every value offered so far,
    accepted: seq<Value>,        // those that entered the queue,
    received: seq<Value>,        // those received,
    dropped: seq<Value>,         // those dropped when the receiver was released,
    refused: set<Value>)         // those reported Closed, Full or Cancelled

  datatype Step =
    | Send(v: Value, wait: bool)
    | SenderBack(id: nat, giveUp: bool)
    | Receive(sleep: bool)
    | ReceiverBack(id: nat, giveUp: bool, sleep: bool)
    | EndSender(id: nat, cancel: bool)
    | EndReceiver(id: nat, cancel: bool)
    | WatchReceive
    | WatchSend
    | UnwatchReceive(id: nat)
    | UnwatchSend(id: nat)
    | CloseSending
    | DropReceiver

  predicate SidesInv(c: Chan) {
    SideInv(c.receivers) && SideInv(c.senders) && SideInv(c.receiveWatchers) && SideInv(c.sendWatchers)
  }

  // --- Mutex sections ---

  function ValueAdded(c: Chan): Chan
    requires SidesInv(c)
  {
    c.(receivers := WakeOne(c.receivers), receiveWatchers := WakeAll(c.receiveWatchers))
  }

  function RoomMade(c: Chan): Chan
    requires SidesInv(c)
  {
    c.(senders := WakeOne(c.senders), sendWatchers := WakeAll(c.sendWatchers))
  }

  function WakeEveryone(c: Chan): Chan
    requires SidesInv(c)
  {
    c.(receivers := WakeAll(c.receivers), senders := WakeAll(c.senders),
       receiveWatchers := WakeAll(c.receiveWatchers), sendWatchers := WakeAll(c.sendWatchers))
  }

  /** One turn of the sending loop with value `v`. */
  function SendTurn(c: Chan, v: Value, wait: bool): Chan
    requires SidesInv(c)
  {
    if c.sendingClosed || c.receiverGone then c.(refused := c.refused + {v})
    else if |c.queue| < c.capacity then ValueAdded(c.(queue := c.queue + [v], accepted := c.accepted + [v]))
    else if !wait then c.(refused := c.refused + {v})
    else c.(senders := Enlist(c.senders), offers := c.offers[c.senders.next + 1 := v])
  }

  /** One turn of the receiving loop; `sleep` unless the deadline has passed. */
  function ReceiveTurn(c: Chan, sleep: bool): Chan
    requires SidesInv(c)
  {
    if c.queue != [] then RoomMade(c.(queue := c.queue[1..], received := c.received + [c.queue[0]]))
    else if c.sendingClosed || !sleep then c
    else c.(receivers := Enlist(c.receivers))
  }

  /** A sender or receiver gives up only if its wait was ended by cancelling,
      which a wait claimed by a wake-up never is: `SchedClaims.ClaimDecides`. */
  predicate Enabled(c: Chan, step: Step) {
    SidesInv(c) &&
    match step
    case Send(v, _) => v !in c.used
    case SenderBack(id, giveUp) => Waits(c.senders, id) && id in c.offers && (giveUp ==> id in c.senders.cancelled)
    case Receive(_) => true
    case ReceiverBack(id, giveUp, _) => Waits(c.receivers, id) && (giveUp ==> id in c.receivers.cancelled)
    case EndSender(id, _) => id in c.senders.sleeping
    case EndReceiver(id, _) => id in c.receivers.sleeping
    case WatchReceive => true
    case WatchSend => true
    case UnwatchReceive(id) => Waits(c.receiveWatchers, id)
    case UnwatchSend(id) => Waits(c.sendWatchers, id)
    case CloseSending => true
    case DropReceiver => true
  }

  function Apply(c: Chan, step: Step): Chan
    requires Enabled(c, step)
  {
    match step
    case Send(v, wait) => SendTurn(c.(used := c.used + {v}), v, wait)
    case SenderBack(id, giveUp) =>
      var c1 := c.(senders := Leave(c.senders, id));
      if giveUp then c1.(refused := c.refused + {c.offers[id]}) else SendTurn(c1, c.offers[id], true)
    case Receive(sleep) => ReceiveTurn(c, sleep)
    case ReceiverBack(id, giveUp, sleep) =>
      var c1 := c.(receivers := Leave(c.receivers, id));
      if giveUp then c1 else ReceiveTurn(c1, sleep)
    case EndSender(id, cancel) => c.(senders := End(c.senders, id, cancel))
    case EndReceiver(id, cancel) => c.(receivers := End(c.receivers, id, cancel))
    case WatchReceive =>
      if c.queue != [] || c.sendingClosed then c else c.(receiveWatchers := Enlist(c.receiveWatchers))
    case WatchSend =>
      if |c.queue| < c.capacity || c.sendingClosed || c.receiverGone then c
      else c.(sendWatchers := Enlist(c.sendWatchers))
    case UnwatchReceive(id) => c.(receiveWatchers := Leave(c.receiveWatchers, id))
    case UnwatchSend(id) => c.(sendWatchers := Leave(c.sendWatchers, id))
    case CloseSending => WakeEveryone(c.(sendingClosed := true))
    case DropReceiver => WakeEveryone(c.(receiverGone := true, queue := [], dropped := c.dropped + c.queue))
  }

  predicate Init(c: Chan) {
    && c.queue == [] && 0 < c.capacity && !c.sendingClosed && !c.receiverGone
    && c.receivers == EMPTY && c.senders == EMPTY && c.receiveWatchers == EMPTY && c.sendWatchers == EMPTY
    && c.used == {} && c.accepted == [] && c.received == [] && c.dropped == [] && c.refused == {}
  }

  predicate Reaches(start: Chan, steps: seq<Step>, c: Chan)
    decreases |steps|
  {
    if steps == [] then c == start
    else Enabled(start, steps[0]) && Reaches(Apply(start, steps[0]), steps[1..], c)
  }

  // --- First in, first out, nothing lost ---

  predicate Fifo(c: Chan) {
    && c.accepted == c.received + c.dropped + c.queue
    && |c.queue| <= c.capacity
    && (c.receiverGone ==> c.queue == [])
    && (!c.receiverGone ==> c.dropped == [])
  }

  lemma SendFifo(c: Chan, v: Value, wait: bool)
    requires Fifo(c) && SidesInv(c)
    ensures Fifo(SendTurn(c, v, wait))
  {
  }

  lemma ReceiveFifo(c: Chan, sleep: bool)
    requires Fifo(c) && SidesInv(c)
    ensures Fifo(ReceiveTurn(c, sleep))
  {
    if c.queue != [] {
      OneReceived(c.received, c.queue);
    }
  }

  lemma OneReceived(received: seq<Value>, queue: seq<Value>)
    requires queue != []
    ensures received + [] + queue == received + [queue[0]] + [] + queue[1..]
  {
  }

  lemma FifoKept(c: Chan, step: Step)
    requires Fifo(c) && Enabled(c, step)
    ensures Fifo(Apply(c, step))
  {
    match step
    case Send(v, wait) => SendFifo(c.(used := c.used + {v}), v, wait);
    case SenderBack(id, giveUp) => SendFifo(c.(senders := Leave(c.senders, id)), c.offers[id], true);
    case Receive(sleep) => ReceiveFifo(c, sleep);
    case ReceiverBack(id, giveUp, sleep) => ReceiveFifo(c.(receivers := Leave(c.receivers, id)), sleep);
    case DropReceiver => assert c.received + c.dropped + c.queue == c.received + (c.dropped + c.queue) + [];
    case _ =>
  }

  // --- Each value's fate is the one reported ---

  /** Values accepted and refused are different ones, each offered once, and
      those of the senders still `waiting` are neither. */
  predicate FatesOf(waiting: set<nat>, offers: map<nat, Value>, used: set<Value>, accepted: seq<Value>, refused: set<Value>) {
    && Distinct(accepted)
    && (forall v | v in accepted :: v in used && v !in refused)
    && refused <= used
    && (forall id | id in waiting :: id in offers && offers[id] in used && offers[id] !in accepted && offers[id] !in refused)
    && (forall a, b | a in waiting && b in waiting && a in offers && b in offers && offers[a] == offers[b] :: a == b)
  }

  predicate Fates(c: Chan) {
    FatesOf(Parked(c.senders), c.offers, c.used, c.accepted, c.refused)
  }

  /** Deciding one undecided value, or leaving it with one more sender. */
  lemma Decide(waiting: set<nat>, offers: map<nat, Value>, used: set<Value>, accepted: seq<Value>, refused: set<Value>, v: Value, id: nat)
    requires FatesOf(waiting, offers, used, accepted, refused) && v in used && v !in accepted && v !in refused
    requires (forall x | x in waiting && x in offers :: offers[x] != v) && id !in waiting
    ensures FatesOf(waiting, offers, used, accepted + [v], refused)
    ensures FatesOf(waiting, offers, used, accepted, refused + {v})
    ensures FatesOf(waiting + {id}, offers[id := v], used, accepted, refused)
  {
  }

  lemma SendFates(c: Chan, v: Value, wait: bool)
    requires Fates(c) && SidesInv(c) && v in c.used && v !in c.accepted && v !in c.refused
    requires forall id | id in Parked(c.senders) && id in c.offers :: c.offers[id] != v
    ensures Fates(SendTurn(c, v, wait))
  {
    ParkedEnlist(c.senders);
    Decide(Parked(c.senders), c.offers, c.used, c.accepted, c.refused, v, c.senders.next + 1);
  }

  lemma SenderBackFates(c: Chan, id: nat, giveUp: bool)
    requires Fates(c) && Enabled(c, SenderBack(id, giveUp))
    ensures Fates(Apply(c, SenderBack(id, giveUp)))
  {
    var c1 := c.(senders := Leave(c.senders, id));
    ParkedLeave(c.senders, id);
    assert Fates(c1);
    if giveUp {
      ParkedEnlist(c1.senders);
      Decide(Parked(c1.senders), c.offers, c.used, c.accepted, c.refused, c.offers[id], c1.senders.next + 1);
    } else {
      SendFates(c1, c.offers[id], true);
    }
  }

  /** The senders waiting and what they offer, and the values decided. */
  predicate SendersSame(c: Chan, t: Chan) {
    && Parked(t.senders) == Parked(c.senders)
    && t.offers == c.offers && t.accepted == c.accepted && t.refused == c.refused && t.used == c.used
  }

  lemma ReceiveStays(c: Chan, sleep: bool)
    requires SidesInv(c)
    ensures SendersSame(c, ReceiveTurn(c, sleep))
  {
    var t := ReceiveTurn(c, sleep);
    if c.queue != [] {
      assert t.senders == WakeOne(c.senders);
      ParkedWakeOne(c.senders);
      assert Parked(t.senders) == Parked(c.senders);
    } else {
      assert t.senders == c.senders;
    }
  }

  lemma SendersStay(c: Chan, step: Step)
    requires Enabled(c, step) && !step.Send? && !step.SenderBack?
    ensures SendersSame(c, Apply(c, step))
  {
    match step
    case Receive(sleep) => ReceiveStays(c, sleep);
    case ReceiverBack(id, giveUp, sleep) =>
      if !giveUp { ReceiveStays(c.(receivers := Leave(c.receivers, id)), sleep); }
    case EndSender(id, cancel) => ParkedEnd(c.senders, id, cancel);
    case CloseSending => ParkedWakeAll(c.senders);
    case DropReceiver => ParkedWakeAll(c.senders);
    case _ =>
  }

  lemma FatesKept(c: Chan, step: Step)
    requires Fates(c) && Enabled(c, step)
    ensures Fates(Apply(c, step))
  {
    match step
    case Send(v, wait) => SendFates(c.(used := c.used + {v}), v, wait);
    case SenderBack(id, giveUp) => SenderBackFates(c, id, giveUp);
    case _ => SendersStay(c, step);
  }

  // --- Nothing vanishes ---

  predicate OfferedBy(c: Chan, id: nat, v: Value) {
    id in Parked(c.senders) && id in c.offers && c.offers[id] == v
  }

  /** Accepted, refused, or with a sender that is waiting. */
  ghost predicate Somewhere(c: Chan, v: Value) {
    v in c.accepted || v in c.refused || exists id :: OfferedBy(c, id, v)
  }

  /** A turn of the sending loop decides its own value or leaves it with a
      sender, and touches no other. */
  lemma SendKeepsTrack(c: Chan, w: Value, wait: bool, v: Value)
    requires SidesInv(c) && (v == w || Somewhere(c, v))
    ensures Somewhere(SendTurn(c, w, wait), v)
  {
    var t := SendTurn(c, w, wait);
    ParkedEnlist(c.senders);
    if v == w {
      assert t.senders != c.senders ==> OfferedBy(t, c.senders.next + 1, v);
    } else if id :| OfferedBy(c, id, v) {
      assert OfferedBy(t, id, v);
    }
  }

  lemma SenderBackKeepsTrack(c: Chan, id: nat, giveUp: bool, v: Value)
    requires Enabled(c, SenderBack(id, giveUp)) && Somewhere(c, v)
    ensures Somewhere(Apply(c, SenderBack(id, giveUp)), v)
  {
    var c1 := c.(senders := Leave(c.senders, id));
    ParkedLeave(c.senders, id);
    if other :| OfferedBy(c, other, v) {
      assert other == id || OfferedBy(c1, other, v);
    }
    if giveUp {
      var t := Apply(c, SenderBack(id, giveUp));
      if other :| OfferedBy(c1, other, v) {
        assert OfferedBy(t, other, v);
      }
    } else {
      SendKeepsTrack(c1, c.offers[id], true, v);
    }
  }

  lemma SameSenders(c: Chan, t: Chan, v: Value)
    requires Somewhere(c, v) && Parked(t.senders) == Parked(c.senders)
    requires t.offers == c.offers && t.accepted == c.accepted && t.refused == c.refused
    ensures Somewhere(t, v)
  {
    if id :| OfferedBy(c, id, v) {
      assert OfferedBy(t, id, v);
    }
  }

  lemma TrackKept(c: Chan, step: Step, v: Value)
    requires Enabled(c, step) && (v in c.used ==> Somewhere(c, v)) && v in Apply(c, step).used
    ensures Somewhere(Apply(c, step), v)
  {
    match step
    case Send(w, wait) =>
      var c1 := c.(used := c.used + {w});
      if v != w { SameSenders(c, c1, v); }
      SendKeepsTrack(c1, w, wait, v);
    case SenderBack(id, giveUp) => SenderBackKeepsTrack(c, id, giveUp, v);
    case _ =>
      SendersStay(c, step);
      SameSenders(c, Apply(c, step), v);
  }

  lemma {:induction false} TrackHolds(start: Chan, steps: seq<Step>, c: Chan, v: Value)
    requires Reaches(start, steps, c) && (v in start.used ==> Somewhere(start, v)) && v in c.used
    ensures Somewhere(c, v)
    decreases |steps|
  {
    if steps != [] {
      var next := Apply(start, steps[0]);
      if v in next.used { TrackKept(start, steps[0], v); }
      TrackHolds(next, steps[1..], c, v);
    }
  }

  // --- Notifications ---

  /** While a receiver sleeps, each value in the queue has a woken receiver on
      its way to it, but for `late` of them; likewise senders and room. Nobody
      sleeps once it is pointless, and no Select watches what is ready. */
  predicate DisciplineBut(c: Chan, lateReceivers: nat, lateSenders: nat) {
    && (c.receivers.sleeping != {} ==> |c.queue| <= |c.receivers.notified| + lateReceivers)
    && (c.senders.sleeping != {} ==> c.capacity - |c.queue| <= |c.senders.notified| + lateSenders)
    && (c.sendingClosed ==> c.receivers.sleeping == {} && c.senders.sleeping == {})
    && (c.receiverGone ==> c.senders.sleeping == {})
    && (c.receiveWatchers.sleeping != {} ==> c.queue == [] && !c.sendingClosed)
    && (c.sendWatchers.sleeping != {} ==> c.capacity <= |c.queue| && !c.sendingClosed && !c.receiverGone)
  }

  predicate Discipline(c: Chan) {
    DisciplineBut(c, 0, 0)
  }

  /** A sender that was woken makes up for itself by taking the room, if any. */
  lemma SendDiscipline(c: Chan, v: Value, wait: bool)
    requires DisciplineBut(c, 0, 1) && SidesInv(c) && |c.queue| <= c.capacity
    ensures Discipline(SendTurn(c, v, wait)) && SidesInv(SendTurn(c, v, wait))
  {
  }

  lemma ReceiveDiscipline(c: Chan, sleep: bool)
    requires DisciplineBut(c, 1, 0) && SidesInv(c) && |c.queue| <= c.capacity
    ensures Discipline(ReceiveTurn(c, sleep)) && SidesInv(ReceiveTurn(c, sleep))
  {
  }

  lemma LeaveCounts(s: Side, id: nat)
    requires SideInv(s) && Waits(s, id)
    ensures |Leave(s, id).notified| == |s.notified| - (if id in s.notified then 1 else 0)
    ensures Leave(s, id).sleeping <= s.sleeping
  {
    if id !in s.notified { assert s.notified - {id} == s.notified; }
  }

  lemma SenderBackDiscipline(c: Chan, id: nat, giveUp: bool)
    requires Discipline(c) && Enabled(c, SenderBack(id, giveUp)) && |c.queue| <= c.capacity
    ensures var r := Apply(c, SenderBack(id, giveUp)); Discipline(r) && SidesInv(r)
  {
    LeaveCounts(c.senders, id);
    if !giveUp { SendDiscipline(c.(senders := Leave(c.senders, id)), c.offers[id], true); }
  }

  lemma ReceiverBackDiscipline(c: Chan, id: nat, giveUp: bool, sleep: bool)
    requires Discipline(c) && Enabled(c, ReceiverBack(id, giveUp, sleep)) && |c.queue| <= c.capacity
    ensures var r := Apply(c, ReceiverBack(id, giveUp, sleep)); Discipline(r) && SidesInv(r)
  {
    LeaveCounts(c.receivers, id);
    if !giveUp { ReceiveDiscipline(c.(receivers := Leave(c.receivers, id)), sleep); }
  }

  lemma DisciplineKept(c: Chan, step: Step)
    requires Discipline(c) && Enabled(c, step) && |c.queue| <= c.capacity
    ensures Discipline(Apply(c, step)) && SidesInv(Apply(c, step))
  {
    match step
    case Send(v, wait) => SendDiscipline(c.(used := c.used + {v}), v, wait);
    case SenderBack(id, giveUp) => SenderBackDiscipline(c, id, giveUp);
    case Receive(sleep) => ReceiveDiscipline(c, sleep);
    case ReceiverBack(id, giveUp, sleep) => ReceiverBackDiscipline(c, id, giveUp, sleep);
    case UnwatchReceive(id) => LeaveCounts(c.receiveWatchers, id);
    case UnwatchSend(id) => LeaveCounts(c.sendWatchers, id);
    case _ =>
  }

  // --- Over every run ---

  ghost predicate Inv(c: Chan) {
    SidesInv(c) && Fifo(c) && Fates(c) && Discipline(c)
  }

  lemma InvKept(c: Chan, step: Step)
    requires Inv(c) && Enabled(c, step)
    ensures Inv(Apply(c, step)) && Apply(c, step).capacity == c.capacity
  {
    FifoKept(c, step);
    FatesKept(c, step);
    DisciplineKept(c, step);
    CapacityKept(c, step);
  }

  lemma CapacityKept(c: Chan, step: Step)
    requires Enabled(c, step)
    ensures Apply(c, step).capacity == c.capacity
  {
  }

  lemma {:induction false} InvHolds(start: Chan, steps: seq<Step>, c: Chan)
    requires Inv(start) && Reaches(start, steps, c)
    ensures Inv(c) && c.capacity == start.capacity
    decreases |steps|
  {
    if steps != [] {
      InvKept(start, steps[0]);
      InvHolds(Apply(start, steps[0]), steps[1..], c);
    }
  }

  /** Bounded, first in first out, and nothing lost: what was accepted is what
      was received, then what was dropped with the receiver, then the queue. */
  lemma ConservedInOrder(start: Chan, steps: seq<Step>, c: Chan)
    requires Init(start) && Reaches(start, steps, c)
    ensures c.accepted == c.received + c.dropped + c.queue
    ensures |c.queue| <= start.capacity
    ensures c.receiverGone ==> c.queue == []
    ensures c.dropped != [] ==> c.receiverGone
  {
    InvHolds(start, steps, c);
  }

  /** No value enters the queue twice, or after its sender was told Closed,
      Full or Cancelled; every value is accepted, refused, or still held by a
      sender in the middle of its send. */
  lemma FatesAreFinal(start: Chan, steps: seq<Step>, c: Chan, v: Value)
    requires Init(start) && Reaches(start, steps, c)
    ensures forall i, j | 0 <= i < j < |c.accepted| :: c.accepted[i] != c.accepted[j]
    ensures v in c.refused ==> v !in c.accepted && v !in c.queue && v !in c.received
    ensures v in c.used ==> Somewhere(c, v)
    ensures (exists id :: OfferedBy(c, id, v)) ==> v !in c.accepted && v !in c.refused
  {
    if v in c.used { TrackHolds(start, steps, c, v); }
    InvHolds(start, steps, c);
    assert forall x | x in c.queue || x in c.received :: x in c.accepted;
  }

  /** While a receiver sleeps every queued value has a woken receiver on its
      way, while a sender sleeps every free place has a woken sender on its
      way, and no Select watches an end that is ready. */
  lemma NobodySleepsThroughWork(start: Chan, steps: seq<Step>, c: Chan)
    requires Init(start) && Reaches(start, steps, c)
    ensures c.receivers.sleeping != {} ==> |c.queue| <= |c.receivers.notified| && !c.sendingClosed
    ensures c.senders.sleeping != {} ==> c.capacity - |c.queue| <= |c.senders.notified| && !c.sendingClosed && !c.receiverGone
    ensures c.receiveWatchers.sleeping != {} ==> c.queue == [] && !c.sendingClosed
    ensures c.sendWatchers.sleeping != {} ==> c.capacity == |c.queue| && !c.sendingClosed && !c.receiverGone
    // So a sleeping sender and a sleeping receiver are never both left with nobody on the way.
    ensures c.receivers.sleeping != {} && c.senders.sleeping != {} ==> c.receivers.notified != {} || c.senders.notified != {}
  {
    InvHolds(start, steps, c);
    assert |c.queue| <= c.capacity && 0 < c.capacity;
  }

  // --- The same, as an object: one mutex section per method ---

  /** Which waits no wake-up has claimed yet, as the wakers find them. */
  datatype Asleep = Asleep(receivers: set<nat>, senders: set<nat>, receiveWatchers: set<nat>, sendWatchers: set<nat>)

  datatype Sent = Sent | Closed | Full | Cancelled | Waiting(id: nat)
  datatype Received = Got(v: Value) | Ended | Empty | WaitingFor(id: nat) | GaveUp

  class ChannelState {
    var queue: seq<Value>
    const capacity: nat
    var sendingClosed: bool
    var receiverGone: bool
    const receivers: Waiters
    const senders: Waiters
    const receiveWatchers: Waiters
    const sendWatchers: Waiters
    ghost var c: Chan

    ghost predicate Lists()
      reads this, receivers, senders, receiveWatchers, sendWatchers
    {
      && receivers != senders && receivers != receiveWatchers && receivers != sendWatchers
      && senders != receiveWatchers && senders != sendWatchers && receiveWatchers != sendWatchers
      && receivers.Valid() && senders.Valid() && receiveWatchers.Valid() && sendWatchers.Valid()
      && c.receivers.list == receivers.list && c.receivers.next == receivers.next
      && c.senders.list == senders.list && c.senders.next == senders.next
      && c.receiveWatchers.list == receiveWatchers.list && c.receiveWatchers.next == receiveWatchers.next
      && c.sendWatchers.list == sendWatchers.list && c.sendWatchers.next == sendWatchers.next
    }

    ghost predicate Same()
      reads this
    {
      c.queue == queue && c.capacity == capacity && c.sendingClosed == sendingClosed && c.receiverGone == receiverGone
    }

    ghost predicate Valid()
      reads this, receivers, senders, receiveWatchers, sendWatchers
    {
      Lists() && Same() && SidesInv(c)
    }

    ghost predicate Sees(asleep: Asleep)
      reads this
    {
      && asleep.receivers == c.receivers.sleeping && asleep.senders == c.senders.sleeping
      && asleep.receiveWatchers == c.receiveWatchers.sleeping && asleep.sendWatchers == c.sendWatchers.sleeping
    }

    constructor (capacity: nat)
      requires 0 < capacity
      ensures Valid() && Init(c)
    {
      this.capacity, queue, sendingClosed, receiverGone := capacity, [], false, false;
      receivers := new Waiters();
      senders := new Waiters();
      receiveWatchers := new Waiters();
      sendWatchers := new Waiters();
      c := Chan([], capacity, false, false, EMPTY, EMPTY, EMPTY, EMPTY, map[], {}, [], [], [], {});
    }

    /** One turn of `roc_channel_send`'s loop. */
    method TrySend(v: Value, wait: bool, asleep: Asleep) returns (r: Sent)
      requires Valid() && Sees(asleep)
      modifies this, receivers, senders, receiveWatchers, sendWatchers
      ensures Valid() && c == SendTurn(old(c), v, wait)
      ensures r == Sent ==> queue == old(queue) + [v] && |queue| <= capacity
      ensures r != Sent ==> queue == old(queue)
      ensures r != Cancelled && (r == Closed <==> sendingClosed || receiverGone)
      ensures r.Waiting? ==> wait && r.id in c.senders.sleeping && r.id in c.offers && c.offers[r.id] == v
    {
      if sendingClosed || receiverGone {
        c := SendTurn(c, v, wait);
        return Closed;
      }
      if |queue| < capacity {
        Accept(v, asleep, wait);
        return Sent;
      }
      c := SendTurn(c, v, wait);
      if !wait {
        return Full;
      }
      var id := senders.Add();
      return Waiting(id);
    }

    method Accept(v: Value, asleep: Asleep, ghost wait: bool)
      requires Valid() && Sees(asleep) && !sendingClosed && !receiverGone && |queue| < capacity
      modifies this, receivers, senders, receiveWatchers, sendWatchers
      ensures Valid() && c == SendTurn(old(c), v, wait) && queue == old(queue) + [v]
      ensures sendingClosed == old(sendingClosed) && receiverGone == old(receiverGone)
    {
      c := SendTurn(c, v, wait);
      queue := queue + [v];
      var woken := receivers.WakeOne(asleep.receivers);
      var watching := receiveWatchers.WakeAll(asleep.receiveWatchers);
    }

    /** One turn of `roc_channel_receive`'s loop. */
    method TryReceive(pastDeadline: bool, asleep: Asleep) returns (r: Received)
      requires Valid() && Sees(asleep)
      modifies this, receivers, senders, receiveWatchers, sendWatchers
      ensures Valid() && c == ReceiveTurn(old(c), !pastDeadline)
      ensures r.Got? <==> old(queue) != []
      ensures r != GaveUp && (r.Got? ==> old(queue) == [r.v] + queue) && (!r.Got? ==> queue == old(queue))
      ensures r == Ended ==> queue == [] && sendingClosed
    {
      if queue != [] {
        c := ReceiveTurn(c, !pastDeadline);
        r := Got(queue[0]);
        queue := queue[1..];
        var woken := senders.WakeOne(asleep.senders);
        var watching := sendWatchers.WakeAll(asleep.sendWatchers);
        return;
      }
      c := ReceiveTurn(c, !pastDeadline);
      if sendingClosed {
        return Ended;
      }
      if pastDeadline {
        return Empty;
      }
      var id := receivers.Add();
      return WaitingFor(id);
    }

    /** A sender back from parking with its value, and how its wait ended. */
    method SenderReturns(id: nat, v: Value, cancelled: bool, asleep: Asleep) returns (r: Sent)
      requires Valid() && Sees(asleep) && Enabled(c, SenderBack(id, cancelled)) && c.offers[id] == v
      modifies this, receivers, senders, receiveWatchers, sendWatchers
      ensures Valid() && c == Apply(old(c), SenderBack(id, cancelled))
      ensures r == Cancelled <==> cancelled
      ensures r == Sent ==> queue == old(queue) + [v]
      ensures r != Sent ==> queue == old(queue)
    {
      senders.Remove(id);
      c := c.(senders := Leave(c.senders, id));
      if cancelled {
        c := c.(refused := c.refused + {v});
        return Cancelled;
      }
      r := TrySend(v, true, asleep.(senders := asleep.senders - {id}));
    }

    method ReceiverReturns(id: nat, cancelled: bool, pastDeadline: bool, asleep: Asleep) returns (r: Received)
      requires Valid() && Sees(asleep) && Enabled(c, ReceiverBack(id, cancelled, !pastDeadline))
      modifies this, receivers, senders, receiveWatchers, sendWatchers
      ensures Valid() && c == Apply(old(c), ReceiverBack(id, cancelled, !pastDeadline))
      ensures r == GaveUp <==> cancelled
      ensures r.Got? ==> old(queue) == [r.v] + queue
      ensures !r.Got? ==> queue == old(queue)
    {
      receivers.Remove(id);
      c := c.(receivers := Leave(c.receivers, id));
      if cancelled {
        return GaveUp;
      }
      r := TryReceive(pastDeadline, asleep.(receivers := asleep.receivers - {id}));
    }

    method WakeLists(asleep: Asleep)
      requires Valid() && Sees(asleep)
      modifies this, receivers, senders, receiveWatchers, sendWatchers
      ensures Valid() && c == WakeEveryone(old(c))
    {
      var a := receivers.WakeAll(asleep.receivers);
      var b := senders.WakeAll(asleep.senders);
      var d := receiveWatchers.WakeAll(asleep.receiveWatchers);
      var e := sendWatchers.WakeAll(asleep.sendWatchers);
      c := WakeEveryone(c);
    }

    /** `close_sending`. */
    method Close(asleep: Asleep)
      requires Valid() && Sees(asleep)
      modifies this, receivers, senders, receiveWatchers, sendWatchers
      ensures Valid() && c == Apply(old(c), CloseSending)
    {
      sendingClosed := true;
      c := c.(sendingClosed := true);
      WakeLists(asleep);
    }

    /** Releasing the receiver: the values left are dropped by the caller. */
    method ReleaseReceiver(asleep: Asleep) returns (undelivered: seq<Value>)
      requires Valid() && Sees(asleep)
      modifies this, receivers, senders, receiveWatchers, sendWatchers
      ensures Valid() && c == Apply(old(c), DropReceiver) && undelivered == old(queue) && queue == []
    {
      undelivered := queue;
      receiverGone, queue := true, [];
      c := c.(receiverGone := true, queue := [], dropped := c.dropped + c.queue);
      WakeLists(asleep);
    }
  }
}
