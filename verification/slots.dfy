/** The resource heap: fixed slots handed out, filled, released and closed. Its
    `free`, `generations`, `live` and each slot's token are the source's; who
    holds a reservation, what is being closed and which tokens were ever issued
    are recorded beside them. Waiting for a free slot is in `Pool`. */
module Slots {
  import opened Basics

  const INDEX_VALUES := 0x1_0000
  const GENERATIONS := 0x1_0000_0000_0000
  const WORD := 0x1_0000_0000_0000_0000

  // --- Tokens ---

  /** A generation shifted past an index, in 64 bits. */
  function Token(generation: nat, index: nat): nat {
    (generation * INDEX_VALUES) % WORD + index
  }

  function TokenIndex(token: nat): nat {
    token % INDEX_VALUES
  }

  function TokenGeneration(token: nat): nat {
    token / INDEX_VALUES
  }

  /** Tokens are taken apart again exactly while generations fit. */
  lemma TokenReads(generation: nat, index: nat)
    requires index < INDEX_VALUES
    ensures TokenIndex(Token(generation, index)) == index
    ensures TokenGeneration(Token(generation, index)) == generation <==> generation < GENERATIONS
  {
    var low := generation % GENERATIONS;
    assert generation * INDEX_VALUES == (generation / GENERATIONS) * WORD + low * INDEX_VALUES;
    assert (generation * INDEX_VALUES) % WORD == low * INDEX_VALUES by {
      Remainder(generation / GENERATIONS, low * INDEX_VALUES);
    }
  }

  lemma Remainder(q: nat, r: nat)
    requires r < WORD
    ensures (q * WORD + r) % WORD == r
  {
  }

  // --- Addresses ---

  function BaseIndex(address: nat, start: nat, stride: nat, count: nat): Option<nat>
    requires stride > 0
  {
    if address < start then None
    else if (address - start) % stride == 0 && (address - start) / stride < count then Some((address - start) / stride)
    else None
  }

  /** An address is a slot's exactly when it is where that slot starts. */
  lemma BaseIndexIs(address: nat, start: nat, stride: nat, count: nat, i: nat)
    requires stride > 0
    ensures BaseIndex(address, start, stride, count) == Some(i) <==> i < count && address == start + i * stride
  {
    if address == start + i * stride {
      Multiple(i, stride);
    } else if address >= start && (address - start) % stride == 0 {
      var q := (address - start) / stride;
      assert address - start == q * stride;
    }
  }

  lemma Multiple(i: nat, stride: nat)
    requires stride > 0
    ensures (i * stride) / stride == i && (i * stride) % stride == 0
  {
    var q, left := (i * stride) / stride, (i * stride) % stride;
    assert (i - q) * stride == left;
    if i > q {
      Times(i - q, stride);
    } else if i < q {
      Times(q - i, stride);
    }
  }

  lemma Times(n: int, stride: nat)
    requires n >= 1
    ensures n * stride >= stride
  {
  }

  // --- The heap ---

  datatype Issue = Issue(index: nat, generation: nat, token: nat)

  datatype Heap = Heap(
    free: seq<nat>,
    generations: seq<nat>,
    live: seq<bool>,
    tokens: seq<nat>,
    reserved: set<nat>,     // claimed, not filled yet
    filling: set<nat>,      // live already, its token not stored yet
    closing: set<nat>,      // released, its resource being dropped
    issued: seq<Issue>)     // every token ever handed out

  datatype Step = Reserve | Insert(i: nat) | Store(i: nat) | Unreserve(i: nat) | Release(i: nat) | Closed(i: nat)

  predicate Enabled(h: Heap, step: Step) {
    match step
    case Reserve => true
    case Insert(i) => i in h.reserved
    case Store(i) => i in h.filling
    case Unreserve(i) => i in h.reserved
    case Release(i) => i < |h.live| && i !in h.filling  // its handle is not out yet
    case Closed(i) => i in h.closing
  }

  function Apply(h: Heap, step: Step): Heap
    requires Enabled(h, step) && Shape(h)
  {
    match step
    case Reserve =>
      if h.free == [] then h
      else var last := |h.free| - 1; h.(free := h.free[..last], reserved := h.reserved + {h.free[last]})
    case Insert(i) =>
      var g := h.generations[i] + 1;
      h.(generations := h.generations[i := g], live := h.live[i := true],
         reserved := h.reserved - {i}, filling := h.filling + {i})
    case Store(i) =>
      var token := Token(h.generations[i], i);
      h.(tokens := h.tokens[i := token], filling := h.filling - {i},
         issued := h.issued + [Issue(i, h.generations[i], token)])
    case Unreserve(i) => h.(free := h.free + [i], reserved := h.reserved - {i})
    case Release(i) => if h.live[i] then h.(live := h.live[i := false], closing := h.closing + {i}) else h
    case Closed(i) => h.(free := h.free + [i], closing := h.closing - {i})
  }

  predicate Shape(h: Heap) {
    && |h.live| == |h.generations| == |h.tokens| < INDEX_VALUES
    && (forall k | 0 <= k < |h.free| :: h.free[k] < |h.live|)
    && (forall i | i in h.reserved :: i < |h.live|) && (forall i | i in h.closing :: i < |h.live|)
    && (forall i | i in h.filling :: i < |h.live|)
  }

  function Fresh(capacity: nat): Heap {
    Heap(seq(capacity, k requires 0 <= k < capacity => capacity - 1 - k), seq(capacity, _ => 0), seq(capacity, _ => false),
         seq(capacity, _ => 0), {}, {}, {}, [])
  }

  predicate Reaches(start: Heap, steps: seq<Step>, h: Heap)
    decreases |steps|
  {
    if steps == [] then h == start
    else Shape(start) && Enabled(start, steps[0]) && Reaches(Apply(start, steps[0]), steps[1..], h)
  }

  lemma ShapeKept(h: Heap, step: Step)
    requires Shape(h) && Enabled(h, step)
    ensures Shape(Apply(h, step)) && |Apply(h, step).live| == |h.live|
  {
  }

  // --- One place each ---

  function Count(b: bool): nat {
    if b then 1 else 0
  }

  predicate OnePlace(h: Heap, i: nat)
    requires i < |h.live|
  {
    Count(i in h.free) + Count(i in h.reserved) + Count(h.live[i]) + Count(i in h.closing) == 1
  }

  predicate PlaceInv(h: Heap) {
    Shape(h) && Distinct(h.free) && forall i | 0 <= i < |h.live| :: OnePlace(h, i)
  }

  /** Taking the last off a list without repeats takes only that. */
  lemma LastOff(free: seq<nat>, i: nat)
    requires free != [] && Distinct(free)
    ensures Distinct(free[..|free| - 1])
    ensures i in free[..|free| - 1] <==> i in free && i != free[|free| - 1]
  {
    assert free == free[..|free| - 1] + [free[|free| - 1]];
  }

  lemma OneOn(free: seq<nat>, x: nat, i: nat)
    ensures i in free + [x] <==> i in free || i == x
    ensures Distinct(free) && x !in free ==> Distinct(free + [x])
  {
  }

  lemma PlaceKept(h: Heap, step: Step, i: nat)
    requires Shape(h) && Enabled(h, step) && i < |h.live| && Distinct(h.free) && OnePlace(h, i)
    ensures |Apply(h, step).live| == |h.live| && OnePlace(Apply(h, step), i)
  {
    match step
    case Reserve => if h.free != [] { LastOff(h.free, i); }
    case Unreserve(x) => OneOn(h.free, x, i);
    case Closed(x) => OneOn(h.free, x, i);
    case _ =>
  }

  lemma FreeKept(h: Heap, step: Step)
    requires Shape(h) && Enabled(h, step) && Distinct(h.free)
    requires (step.Unreserve? || step.Closed?) && step.i < |h.live| ==> OnePlace(h, step.i)
    ensures Distinct(Apply(h, step).free)
  {
    match step
    case Reserve => if h.free != [] { LastOff(h.free, 0); }
    case Unreserve(x) => OneOn(h.free, x, x);
    case Closed(x) => OneOn(h.free, x, x);
    case _ =>
  }

  /** Only the slot a step is about moves. */
  lemma PlacesKept(h: Heap, step: Step)
    requires PlaceInv(h) && Enabled(h, step)
    ensures PlaceInv(Apply(h, step)) && |Apply(h, step).live| == |h.live|
  {
    ShapeKept(h, step);
    FreeKept(h, step);
    forall i | 0 <= i < |h.live| ensures OnePlace(Apply(h, step), i) {
      assert OnePlace(h, i);
      PlaceKept(h, step, i);
    }
  }

  // --- Tokens and generations ---

  predicate IssuedInv(h: Heap)
    requires Shape(h)
  {
    && (forall k | 0 <= k < |h.issued| :: IssuedOk(h, h.issued[k]))
    && (forall j, k | 0 <= j < k < |h.issued| && h.issued[j].index == h.issued[k].index ::
          h.issued[j].generation < h.issued[k].generation)
    && (forall i | i in h.filling :: h.generations[i] > 0)
    && (forall k | 0 <= k < |h.issued| && h.issued[k].index in h.filling :: NewerNow(h, h.issued[k]))
    && (forall i | 0 <= i < |h.live| && h.live[i] && i !in h.filling :: LiveOk(h, i))
  }

  /** A slot being filled has had all its tokens for earlier generations. */
  predicate NewerNow(h: Heap, t: Issue) {
    t.index < |h.generations| && t.generation < h.generations[t.index]
  }

  /** A token belongs to a generation the slot has had. */
  predicate IssuedOk(h: Heap, t: Issue) {
    t.index < |h.generations| && 0 < t.generation <= h.generations[t.index] && t.token == Token(t.generation, t.index)
  }

  predicate LiveOk(h: Heap, i: nat)
    requires i < |h.generations| && i < |h.tokens|
  {
    h.tokens[i] == Token(h.generations[i], i)
  }

  lemma IssuedKept(h: Heap, step: Step)
    requires Shape(h) && IssuedInv(h) && Enabled(h, step)
    ensures Shape(Apply(h, step)) && IssuedInv(Apply(h, step))
  {
    var t := Apply(h, step);
    ShapeKept(h, step);
    forall k | 0 <= k < |h.issued| ensures IssuedOk(t, h.issued[k]) {
      assert IssuedOk(h, h.issued[k]);
    }
    forall i | 0 <= i < |h.live| && t.live[i] && i !in t.filling ensures LiveOk(t, i) {
      assert h.live[i] && i !in h.filling ==> LiveOk(h, i);
    }
    forall k | 0 <= k < |h.issued| && h.issued[k].index in t.filling ensures NewerNow(t, h.issued[k]) {
      assert IssuedOk(h, h.issued[k]);
      assert h.issued[k].index in h.filling ==> NewerNow(h, h.issued[k]);
    }
    if step.Store? { StoreKeepsIssued(h, step.i); }
  }

  lemma StoreKeepsIssued(h: Heap, i: nat)
    requires Shape(h) && IssuedInv(h) && i in h.filling
    ensures var t := Apply(h, Store(i));
      (forall k | 0 <= k < |t.issued| :: IssuedOk(t, t.issued[k]))
      && (forall j, k | 0 <= j < k < |t.issued| && t.issued[j].index == t.issued[k].index ::
            t.issued[j].generation < t.issued[k].generation)
      && (forall k | 0 <= k < |t.issued| && t.issued[k].index in t.filling :: NewerNow(t, t.issued[k]))
  {
    var t, n := Apply(h, Store(i)), |h.issued|;
    assert forall k | 0 <= k < n :: t.issued[k] == h.issued[k];
    forall k | 0 <= k < n ensures IssuedOk(t, h.issued[k]) && (h.issued[k].index == i ==> h.issued[k].generation < h.generations[i]) {
      assert IssuedOk(h, h.issued[k]);
      assert h.issued[k].index == i ==> NewerNow(h, h.issued[k]);
    }
    forall k | 0 <= k < n && h.issued[k].index in t.filling ensures NewerNow(t, h.issued[k]) {
      assert NewerNow(h, h.issued[k]);
    }
  }

  // --- Every run ---

  lemma {:induction false} InvHolds(start: Heap, steps: seq<Step>, h: Heap)
    requires PlaceInv(start) && IssuedInv(start) && Reaches(start, steps, h)
    ensures PlaceInv(h) && IssuedInv(h) && |h.live| == |start.live|
    decreases |steps|
  {
    if steps != [] {
      PlacesKept(start, steps[0]);
      IssuedKept(start, steps[0]);
      InvHolds(Apply(start, steps[0]), steps[1..], h);
    }
  }

  lemma FreshInv(capacity: nat)
    requires capacity < INDEX_VALUES
    ensures PlaceInv(Fresh(capacity)) && IssuedInv(Fresh(capacity)) && |Fresh(capacity).live| == capacity
  {
    var h := Fresh(capacity);
    forall i | 0 <= i < capacity ensures OnePlace(h, i) {
      assert h.free[capacity - 1 - i] == i;
    }
  }

  /** Every slot is free, reserved, live or being closed, and only one of
      those; none is on the free list twice. */
  lemma OnePlaceEach(capacity: nat, steps: seq<Step>, h: Heap, i: nat)
    requires capacity < INDEX_VALUES && Reaches(Fresh(capacity), steps, h) && i < capacity
    ensures |h.live| == capacity && Distinct(h.free)
    ensures Count(i in h.free) + Count(i in h.reserved) + Count(h.live[i]) + Count(i in h.closing) == 1
  {
    FreshInv(capacity);
    InvHolds(Fresh(capacity), steps, h);
    assert OnePlace(h, i);
  }

  /** A slot's tokens have ever greater generations, and while those fit, no
      token is ever issued twice and each says whose it is. */
  lemma TokensAreDistinct(capacity: nat, steps: seq<Step>, h: Heap, j: nat, k: nat)
    requires capacity < INDEX_VALUES && Reaches(Fresh(capacity), steps, h) && j < k < |h.issued|
    ensures h.issued[j].index == h.issued[k].index ==> h.issued[j].generation < h.issued[k].generation
    ensures TokenIndex(h.issued[k].token) == h.issued[k].index
    ensures h.issued[j].generation < GENERATIONS && h.issued[k].generation < GENERATIONS ==>
              h.issued[j].token != h.issued[k].token && TokenGeneration(h.issued[k].token) == h.issued[k].generation
  {
    FreshInv(capacity);
    InvHolds(Fresh(capacity), steps, h);
    var a, b := h.issued[j], h.issued[k];
    assert IssuedOk(h, a) && IssuedOk(h, b);
    TokenReads(a.generation, a.index);
    TokenReads(b.generation, b.index);
  }

  /** What `get` checks of the slot a handle points to. */
  predicate Accepted(h: Heap, i: nat)
    requires Shape(h) && i < |h.live|
  {
    h.live[i] && TokenIndex(h.tokens[i]) == i && TokenGeneration(h.tokens[i]) == h.generations[i]
  }

  /** While generations fit, a slot whose handle is out is accepted exactly
      while it is live. */
  lemma LiveIsAccepted(capacity: nat, steps: seq<Step>, h: Heap, i: nat)
    requires capacity < INDEX_VALUES && Reaches(Fresh(capacity), steps, h) && i < capacity
    ensures Shape(h) && |h.live| == capacity
    ensures i !in h.filling ==> (Accepted(h, i) <==> h.live[i] && h.generations[i] < GENERATIONS)
  {
    FreshInv(capacity);
    InvHolds(Fresh(capacity), steps, h);
    if h.live[i] && i !in h.filling {
      assert LiveOk(h, i);
      TokenReads(h.generations[i], i);
    }
  }

  /** Until a slot is filled again, releasing it again changes nothing. */
  lemma {:induction false} ReleasedOnce(h: Heap, i: nat, steps: seq<Step>, t: Heap)
    requires Shape(h) && i < |h.live| && !h.live[i] && i !in h.filling && Reaches(h, steps, t)
    requires Insert(i) !in steps
    ensures Shape(t) && Enabled(t, Release(i)) && Apply(t, Release(i)) == t
    decreases |steps|
  {
    if steps != [] {
      assert steps[0] in steps;
      ShapeKept(h, steps[0]);
      ReleasedOnce(Apply(h, steps[0]), i, steps[1..], t);
    }
  }

  // --- The heap in place ---

  class ResourceHeap {
    const start: nat
    const stride: nat
    var free: seq<nat>
    var generations: seq<nat>
    var live: seq<bool>
    var tokens: seq<nat>
    ghost var reserved: set<nat>
    ghost var filling: set<nat>
    ghost var closing: set<nat>
    ghost var issued: seq<Issue>

    ghost function Now(): Heap
      reads this
    {
      Heap(free, generations, live, tokens, reserved, filling, closing, issued)
    }

    ghost predicate Valid()
      reads this
    {
      stride > 0 && PlaceInv(Now()) && IssuedInv(Now())
    }

    constructor (start: nat, stride: nat, capacity: nat)
      requires 0 < capacity < INDEX_VALUES && stride > 0
      ensures Valid() && Now() == Fresh(capacity) && this.start == start && this.stride == stride
    {
      this.start, this.stride := start, stride;
      free := seq(capacity, k requires 0 <= k < capacity => capacity - 1 - k);
      generations := seq(capacity, _ => 0);
      live := seq(capacity, _ => false);
      tokens := seq(capacity, _ => 0);
      reserved, filling, closing, issued := {}, {}, {}, [];
      new;
      FreshInv(capacity);
      assert Now() == Fresh(capacity);
    }

    /** Claim a free slot; None if there is none. */
    method TryReserve() returns (index: Option<nat>)
      requires Valid()
      modifies this
      ensures Valid() && Now() == Apply(old(Now()), Reserve)
      ensures index.Some? <==> old(free) != []
      ensures index.Some? ==> index.value in reserved && index.value !in old(reserved)
    {
      PlacesKept(Now(), Reserve);
      IssuedKept(Now(), Reserve);
      if free == [] {
        return None;
      }
      var last := |free| - 1;
      assert OnePlace(Now(), free[last]);
      index := Some(free[last]);
      reserved := reserved + {free[last]};
      free := free[..last];
    }

    /** Fill a reserved slot: under the lock, it is live in a new generation. */
    method Fill(i: nat) returns (generation: nat)
      requires Valid() && i in reserved
      modifies this
      ensures Valid() && Now() == Apply(old(Now()), Insert(i)) && generation == generations[i] && i in filling
    {
      ghost var after := Apply(Now(), Insert(i));
      PlacesKept(Now(), Insert(i));
      IssuedKept(Now(), Insert(i));
      generation := generations[i] + 1;
      generations := generations[i := generation];
      live := live[i := true];
      reserved := reserved - {i};
      filling := filling + {i};
      assert Now() == after;
    }

    /** ... and then, without it, the token its handle leads to is stored. */
    method StoreToken(i: nat, generation: nat) returns (token: nat)
      requires Valid() && i in filling && generation == generations[i]
      modifies this
      ensures Valid() && Now() == Apply(old(Now()), Store(i)) && token == tokens[i]
    {
      PlacesKept(Now(), Store(i));
      IssuedKept(Now(), Store(i));
      token := Token(generation, i);
      tokens := tokens[i := token];
      filling := filling - {i};
      issued := issued + [Issue(i, generation, token)];
    }

    /** A reservation dropped unused. */
    method DropReservation(i: nat)
      requires Valid() && i in reserved
      modifies this
      ensures Valid() && Now() == Apply(old(Now()), Unreserve(i))
    {
      PlacesKept(Now(), Unreserve(i));
      IssuedKept(Now(), Unreserve(i));
      free := free + [i];
      reserved := reserved - {i};
    }

    /** The first half of `release`: whether the address is in the heap, and the
        slot to close, if it is a live one's. */
    method BeginRelease(address: nat) returns (ours: bool, close: Option<nat>)
      requires Valid() && (var i := BaseIndex(address, start, stride, |live|); i.Some? ==> i.value !in filling)
      modifies this
      ensures Valid() && |live| == |old(live)| && (ours <==> start <= address < start + |live| * stride)
      ensures var i := BaseIndex(address, start, stride, |old(live)|);
        close == (if i.Some? && old(live)[i.value] then i else None)
        && Now() == if i.Some? then Apply(old(Now()), Release(i.value)) else old(Now())
    {
      var index := BaseIndex(address, start, stride, |live|);
      Contained(address, start, stride, |live|);
      if index.None? {
        return start <= address < start + |live| * stride, None;
      }
      ours, close := true, None;
      ghost var step := Release(index.value);
      PlacesKept(Now(), step);
      IssuedKept(Now(), step);
      if live[index.value] {
        live := live[index.value := false];
        closing := closing + {index.value};
        close := index;
      }
    }

    /** The second half, once the resource is closed. */
    method FinishRelease(i: nat)
      requires Valid() && i in closing
      modifies this
      ensures Valid() && Now() == Apply(old(Now()), Closed(i))
    {
      PlacesKept(Now(), Closed(i));
      IssuedKept(Now(), Closed(i));
      free := free + [i];
      closing := closing - {i};
    }
  }

  /** A slot's address lies inside the heap. */
  lemma Contained(address: nat, start: nat, stride: nat, count: nat)
    requires stride > 0
    ensures BaseIndex(address, start, stride, count).Some? ==> start <= address < start + count * stride
  {
    var index := BaseIndex(address, start, stride, count);
    if index.Some? {
      BaseIndexIs(address, start, stride, count, index.value);
      Times(count - index.value, stride);
      assert count * stride == index.value * stride + (count - index.value) * stride;
    }
  }
}
