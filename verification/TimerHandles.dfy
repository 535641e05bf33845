/**
 * The allocation of timer handles: a 32-bit counter that wraps, with a bounded number of retries
 * when the next value is in use.
 */
module TimerHandles {
  import opened Base
  import opened TimerSpec
  import TimerProofs

  function HandlesOf(items: seq<Item>): (r: set<nat>)
    ensures |r| <= |items|
    ensures forall h :: h in r <==> exists i :: 0 <= i < |items| && items[i].handle == h
  {
    if items == [] then {} else {items[0].handle} + HandlesOf(items[1..])
  }

  lemma InUseIff(items: seq<Item>, h: nat)
    ensures InUse(items, h) <==> h in HandlesOf(items)
  {
    hide Find, HandlesOf;
  }

  /** The d-th successor of the counter, with wrap-around. */
  function Successor(counter: nat, d: nat): nat {
    (counter + d) % UINT32_SPAN
  }

  lemma SuccessorStep(counter: nat, d: nat)
    ensures Successor(Increment(counter), d) == Successor(counter, d + 1)
  {
  }

  /** The attempts go through the successors in order and stop at the first that is not in use. */
  lemma {:induction false} NextHandleMeaning(items: seq<Item>, counter: nat, tries: nat)
    requires tries < RETRIES_MAX
    ensures var (h, ok) := NextHandle(items, counter, tries);
      && (ok ==> exists d :: && 1 <= d <= RETRIES_MAX - tries && h == Successor(counter, d) && !InUse(items, h)
                             && forall e :: 1 <= e < d ==> InUse(items, Successor(counter, e)))
      && (!ok ==> forall d :: 1 <= d <= RETRIES_MAX - tries ==> InUse(items, Successor(counter, d)))
    decreases RETRIES_MAX - tries
  {
    hide InUse;
    var h := Increment(counter);
    assert h == Successor(counter, 1);
    if InUse(items, h) && tries + 1 < RETRIES_MAX {
      NextHandleMeaning(items, h, tries + 1);
      var (g, ok) := NextHandle(items, h, tries + 1);
      forall e | 1 <= e < RETRIES_MAX - tries
        ensures Successor(h, e) == Successor(counter, e + 1)
      {
        SuccessorStep(counter, e);
      }
      if ok {
        var d :| 1 <= d < RETRIES_MAX - tries && g == Successor(h, d) && !InUse(items, g)
          && forall e :: 1 <= e < d ==> InUse(items, Successor(h, e));
        forall e | 1 <= e < d + 1
          ensures InUse(items, Successor(counter, e))
        {
          if e > 1 { assert InUse(items, Successor(h, e - 1)); }
        }
        assert g == Successor(counter, d + 1);
      } else {
        forall d | 1 <= d <= RETRIES_MAX - tries
          ensures InUse(items, Successor(counter, d))
        {
          if d > 1 { assert InUse(items, Successor(h, d - 1)); }
        }
      }
    }
  }

  /** Allocation fails exactly when all of the next 10000 handles are in use. */
  lemma FailsIff(items: seq<Item>, counter: nat)
    ensures !NextHandle(items, counter, 0).1 <==>
            forall d :: 1 <= d <= RETRIES_MAX ==> InUse(items, Successor(counter, d))
  {
    NextHandleMeaning(items, counter, 0);
  }

  /** The first `n` successors; they are distinct, even across the wrap, as n is small enough. */
  function Successors(counter: nat, n: nat): (r: set<nat>)
    requires n <= UINT32_SPAN
    ensures |r| == n
    ensures forall h :: h in r <==> exists d :: 1 <= d <= n && h == Successor(counter, d)
  {
    if n == 0 then {}
    else
      var rest := Successors(counter, n - 1);
      SuccessorsDiffer(counter, n);
      rest + {Successor(counter, n)}
  }

  lemma SuccessorsDiffer(counter: nat, n: nat)
    requires 1 <= n <= UINT32_SPAN
    ensures forall d :: 1 <= d < n ==> Successor(counter, d) != Successor(counter, n)
  {
  }

  /** A set contained in another has no more elements. */
  lemma {:induction false} SubsetSize(a: set<nat>, b: set<nat>)
    requires a <= b
    ensures |a| <= |b|
  {
    if a != {} {
      var x :| x in a;
      SubsetSize(a - {x}, b - {x});
    }
  }

  /** With fewer than 10000 listed timers allocation succeeds, with a handle that none of them uses. */
  lemma FewTimersSuffice(items: seq<Item>, counter: nat)
    requires |items| < RETRIES_MAX
    ensures var (h, ok) := NextHandle(items, counter, 0);
      ok && h < UINT32_SPAN && forall i :: 0 <= i < |items| ==> items[i].handle != h
  {
    hide InUse, NextHandle, Successors, HandlesOf;
    NextHandleMeaning(items, counter, 0);
    var (h, ok) := NextHandle(items, counter, 0);
    if ok {
      InUseIff(items, h);
    } else {
      var tried := Successors(counter, RETRIES_MAX);
      forall g | g in tried
        ensures g in HandlesOf(items)
      {
        InUseIff(items, g);
      }
      SubsetSize(tried, HandlesOf(items));
    }
  }

  // ----- what the other calls do to the listed handles -----

  ghost predicate DistinctHandles(items: seq<Item>) {
    forall i, j :: 0 <= i < j < |items| ==> items[i].handle != items[j].handle
  }

  /** The handles stay in place, except that the one at `gone`, if any, is removed. */
  ghost predicate KeepsHandles(a: seq<Item>, b: seq<Item>, gone: Option<nat>) {
    match gone
    case None => |b| == |a| && forall i :: 0 <= i < |a| ==> b[i].handle == a[i].handle
    case Some(g) => g < |a| && b == Without(a, g)
  }

  lemma OthersKeepHandles(s: State, call: Call) returns (gone: Option<nat>)
    requires Enabled(s, call) && !call.InitCreate? && !call.InitList?
    ensures Apply(s, call).0.inFlight == s.inFlight
    ensures KeepsHandles(s.items, Apply(s, call).0.items, gone)
  {
    hide Find, FindByCb, FindById, Without, MarkedBy;
    var t := Apply(s, call).0;
    gone := None;
    if call.Kill? && |t.items| < |s.items| {
      gone := Some(Find(s.items, call.timer.value));
      TimerProofs.WithoutUpdated(s.items, gone.value, MarkedBy(s.items[gone.value], call.event));
    } else if call.Kill? {
      MarkedHandle(s, call.timer, call.event);
    } else if call.Return? && |t.items| < |s.items| {
      gone := Some(FindById(s.items, call.id));
      TimerProofs.WithoutUpdated(s.items, gone.value, s.items[gone.value].(inCb := false));
    }
  }

  lemma MarkedHandle(s: State, timer: Option<nat>, event: Option<nat>)
    requires |DoKill(s, timer, event).0.items| >= |s.items|
    ensures KeepsHandles(s.items, DoKill(s, timer, event).0.items, None)
  {
    hide Find, Without;
  }
}
