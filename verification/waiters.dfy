/** `Waiters`, the queue of a condition variable for tasks: who is on the list,
    and what has become of each wait started for it. */
module Waiting {
  import opened Basics

  /** From the first entry on the list whose wait has not ended yet. */
  function FromSleeper(list: seq<nat>, sleeping: set<nat>): seq<nat> {
    if list == [] || list[0] in sleeping then list else FromSleeper(list[1..], sleeping)
  }

  function Without(list: seq<nat>, id: nat): seq<nat> {
    if list == [] then []
    else if list[0] == id then Without(list[1..], id)
    else [list[0]] + Without(list[1..], id)
  }

  lemma {:induction false} WithoutMembers(list: seq<nat>, id: nat)
    ensures forall x :: x in Without(list, id) <==> x in list && x != id
  {
    if list != [] { WithoutMembers(list[1..], id); }
  }

  /** The entries older than `first`. */
  function Before(list: seq<nat>, first: nat): (r: seq<nat>)
    ensures forall x :: x in r <==> x in list && x < first
  {
    if list == [] then []
    else if list[0] < first then [list[0]] + Before(list[1..], first)
    else Before(list[1..], first)
  }

  predicate Increasing(list: seq<nat>) {
    forall i, j | 0 <= i < j < |list| :: list[i] < list[j]
  }

  /** Ids are given out in order, so a list is sorted and below the next one. */
  predicate Ordered(list: seq<nat>, next: nat) {
    Increasing(list) && forall i | 0 <= i < |list| :: list[i] <= next
  }

  /** What is skipped has ended; what is found first has not, and is there once. */
  lemma {:induction false} SleeperFound(list: seq<nat>, sleeping: set<nat>, next: nat)
    requires Ordered(list, next)
    ensures var rest := FromSleeper(list, sleeping);
            && Ordered(rest, next)
            && (forall x | x in rest :: x in list)
            && (forall x | x in list && x in sleeping :: x in rest)
            && (rest != [] ==> rest[0] in sleeping && rest[0] !in rest[1..] && Ordered(rest[1..], next))
  {
    if list != [] && list[0] !in sleeping {
      SleeperFound(list[1..], sleeping, next);
      assert forall x | x in list :: x == list[0] || x in list[1..];
    }
  }

  lemma {:induction false} WithoutOrdered(list: seq<nat>, id: nat, next: nat)
    requires Ordered(list, next)
    ensures Ordered(Without(list, id), next)
  {
    if list != [] {
      var rest := Without(list[1..], id);
      WithoutOrdered(list[1..], id, next);
      WithoutMembers(list[1..], id);
      forall i | 0 <= i < |rest| ensures list[0] < rest[i] {
        assert rest[i] in rest;
        var k :| 0 <= k < |list[1..]| && list[1..][k] == rest[i];
      }
    }
  }

  lemma {:induction false} WithoutLast(list: seq<nat>, x: nat, id: nat)
    ensures Without(list + [x], id) == Without(list, id) + (if x == id then [] else [x])
  {
    if list != [] {
      assert (list + [x])[1..] == list[1..] + [x];
      WithoutLast(list[1..], x, id);
    }
  }

  lemma {:induction false} BeforePrefix(list: seq<nat>, keep: nat, first: nat)
    requires Increasing(list) && keep <= |list|
    requires forall i | 0 <= i < keep :: list[i] < first
    requires keep < |list| ==> first <= list[keep]
    ensures Before(list, first) == list[..keep]
  {
    if list != [] {
      if keep == 0 {
        BeforePrefix(list[1..], 0, first);
      } else {
        BeforePrefix(list[1..], keep - 1, first);
        assert list[..keep] == [list[0]] + list[1..][..keep - 1];
      }
    }
  }

  lemma SinceIsRest(list: seq<nat>, keep: nat, first: nat, sleeping: set<nat>)
    requires Increasing(list) && keep <= |list|
    requires forall i | 0 <= i < keep :: list[i] < first
    requires keep < |list| ==> first <= list[keep]
    ensures (set x | x in list[keep..] && x in sleeping) == set x | x in list && first <= x && x in sleeping
  {
    assert forall i | keep <= i < |list| :: first <= list[i] && list[i] == list[keep..][i - keep];
    assert forall x | x in list && first <= x :: x in list[keep..];
  }

  /** The list itself. `sleeping` stands for the tasks: the ids whose waits no
      wake-up has claimed yet. */
  class Waiters {
    var list: seq<nat>
    var next: nat

    predicate Valid()
      reads this
    {
      Ordered(list, next)
    }

    constructor ()
      ensures Valid() && list == [] && next == 0
    {
      list, next := [], 0;
    }

    method Add() returns (id: nat)
      requires Valid()
      modifies this
      ensures Valid() && list == old(list) + [id] && next == id == old(next) + 1
    {
      next := next + 1;
      list := list + [next];
      id := next;
    }

    method Remove(id: nat)
      requires Valid()
      modifies this
      ensures Valid() && list == Without(old(list), id) && next == old(next)
    {
      var kept: seq<nat>, i := [], 0;
      while i < |list|
        invariant 0 <= i <= |list| && list == old(list) && next == old(next)
        invariant kept == Without(list[..i], id)
      {
        WithoutLast(list[..i], list[i], id);
        assert list[..i + 1] == list[..i] + [list[i]];
        if list[i] != id { kept := kept + [list[i]]; }
        i := i + 1;
      }
      assert list[..|list|] == list;
      WithoutOrdered(list, id, next);
      list := kept;
    }

    /** Wakes the first task still waiting, dropping the ones before it. */
    method WakeOne(sleeping: set<nat>) returns (woken: Option<nat>)
      requires Valid()
      modifies this
      ensures Valid() && next == old(next)
      ensures var rest := FromSleeper(old(list), sleeping);
              if rest == [] then woken == None && list == []
              else woken == Some(rest[0]) && list == rest[1..]
    {
      while list != []
        invariant Ordered(list, next) && next == old(next)
        invariant FromSleeper(list, sleeping) == FromSleeper(old(list), sleeping)
        decreases |list|
      {
        var first := list[0];
        list := list[1..];
        if first in sleeping {
          return Some(first);
        }
      }
      woken := None;
    }

    method WakeAll(sleeping: set<nat>) returns (woken: set<nat>)
      requires Valid()
      modifies this
      ensures Valid() && next == old(next) && list == []
      ensures woken == set x | x in old(list) && x in sleeping
    {
      woken := set x | x in list && x in sleeping;
      list := [];
    }

    /** Wakes those added since `first` was the next id, leaving the others:
        being in id order, they are at the back. */
    method WakeFrom(first: nat, sleeping: set<nat>) returns (woken: set<nat>)
      requires Valid()
      modifies this
      ensures Valid() && next == old(next) && list == Before(old(list), first)
      ensures woken == set x | x in old(list) && first <= x && x in sleeping
    {
      var keep := 0;
      while keep < |list| && list[keep] < first
        invariant 0 <= keep <= |list| && list == old(list) && next == old(next)
        invariant forall i | 0 <= i < keep :: list[i] < first
      {
        keep := keep + 1;
      }
      woken := set x | x in list[keep..] && x in sleeping;
      BeforePrefix(list, keep, first);
      SinceIsRest(list, keep, first, sleeping);
      list := list[..keep];
    }
  }

  // --- The list together with its waits ---

  /** A list and the waits started for it whose tasks have not come back yet:
      still asleep, woken from the list, timed out, or cancelled. A wait is in
      one of these only, and ends once: what its task reads when it is back is
      what the claim that ended it recorded (`SchedClaims.ClaimDecides`). */
  datatype Side = Side(
    list: seq<nat>,
    next: nat,
    sleeping: set<nat>,
    notified: set<nat>,
    expired: set<nat>,
    cancelled: set<nat>)

  const EMPTY := Side([], 0, {}, {}, {}, {})

  predicate SideInv(s: Side) {
    && Ordered(s.list, s.next)
    && (forall x | x in s.sleeping :: x in s.list)
    && (forall x | x in s.notified :: x !in s.list && x <= s.next)
    && (forall x | x in s.expired + s.cancelled :: x <= s.next && x !in s.sleeping && x !in s.notified)
    && s.expired !! s.cancelled
  }

  /** Wait `id`'s task has not come back. */
  predicate Waits(s: Side, id: nat) {
    id in s.sleeping || id in s.notified || id in s.expired || id in s.cancelled
  }

  /** Every such wait. */
  function Parked(s: Side): set<nat> {
    s.sleeping + s.notified + s.expired + s.cancelled
  }

  function Enlist(s: Side): (r: Side)
    requires SideInv(s)
    ensures SideInv(r)
  {
    s.(list := s.list + [s.next + 1], next := s.next + 1, sleeping := s.sleeping + {s.next + 1})
  }

  /** A sleeper's wait is ended by its deadline or by cancelling. */
  function End(s: Side, id: nat, cancel: bool): (r: Side)
    requires SideInv(s) && id in s.sleeping
    ensures SideInv(r)
  {
    var s1 := s.(sleeping := s.sleeping - {id});
    if cancel then s1.(cancelled := s.cancelled + {id}) else s1.(expired := s.expired + {id})
  }

  /** The task of wait `id` is back, and takes itself off the list. */
  function Leave(s: Side, id: nat): (r: Side)
    requires SideInv(s)
    ensures SideInv(r)
  {
    WithoutOrdered(s.list, id, s.next);
    WithoutMembers(s.list, id);
    Side(Without(s.list, id), s.next, s.sleeping - {id}, s.notified - {id}, s.expired - {id}, s.cancelled - {id})
  }

  function WakeOne(s: Side): (r: Side)
    requires SideInv(s)
    ensures SideInv(r)
    // The notification is never spent on a wait that has ended.
    ensures s.sleeping != {} ==> |r.notified| == |s.notified| + 1 && |r.sleeping| == |s.sleeping| - 1
    ensures s.sleeping == {} ==> r.notified == s.notified && r.sleeping == {}
  {
    SleeperFound(s.list, s.sleeping, s.next);
    var rest := FromSleeper(s.list, s.sleeping);
    if rest == [] then s.(list := [])
    else
      s.(list := rest[1..], sleeping := s.sleeping - {rest[0]}, notified := s.notified + {rest[0]})
  }

  /** The list a wake-up leaves: what follows the first sleeper. */
  lemma WakeOneList(s: Side)
    requires SideInv(s)
    ensures var rest := FromSleeper(s.list, s.sleeping);
            WakeOne(s).list == (if rest == [] then [] else rest[1..]) && WakeOne(s).next == s.next
  {
  }

  function WakeAll(s: Side): (r: Side)
    requires SideInv(s)
    ensures SideInv(r) && r.sleeping == {} && r.notified == s.notified + s.sleeping
  {
    s.(list := [], sleeping := {}, notified := s.notified + s.sleeping)
  }

  // Listing starts one wait, coming back ends one, and the rest only change
  // what has become of them.

  lemma ParkedEnlist(s: Side)
    requires SideInv(s)
    ensures s.next + 1 !in Parked(s) && Parked(Enlist(s)) == Parked(s) + {s.next + 1}
  {
  }

  lemma ParkedLeave(s: Side, id: nat)
    requires SideInv(s)
    ensures Parked(Leave(s, id)) == Parked(s) - {id}
  {
  }

  lemma ParkedEnd(s: Side, id: nat, cancel: bool)
    requires SideInv(s) && id in s.sleeping
    ensures Parked(End(s, id, cancel)) == Parked(s)
  {
  }

  lemma ParkedWakeAll(s: Side)
    requires SideInv(s)
    ensures Parked(WakeAll(s)) == Parked(s)
  {
  }

  lemma ParkedWakeOne(s: Side)
    requires SideInv(s)
    ensures Parked(WakeOne(s)) == Parked(s)
  {
    SleeperFound(s.list, s.sleeping, s.next);
  }
}
