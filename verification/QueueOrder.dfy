/**
 * In what order the queue of Common/esif_queue.c hands items out, requeued ones included, and when it
 * refuses one: over every run and in every use.
 */
module QueueOrder {
  import opened Base
  import opened QueueProtocol
  import E = TimedWaits

  /** The step of a thread that is about to put its item into the queue. */
  lemma PutDecides(s: State, i: nat)
    requires BaseInv(s) && i < |s.threads| && s.threads[i].PutItem?
    ensures Enabled(s, Act(i)) && |s.items| <= s.maxSize
    ensures var t, x := Apply(s, Act(i)), s.threads[i].item;
      && t.delivered == s.delivered
      && (|s.items| == s.maxSize ==> t.items == s.items && t.accepted == s.accepted && t.threads[i] == PutUnlock)
      && (|s.items| < s.maxSize ==>
            && t.items == (if s.threads[i].front then [x] + s.items else s.items + [x])
            && t.accepted == s.accepted + [x] && t.threads[i] == PutSet)
  {
    hide Call, Linked, QueueLocked, Delivered;
  }

  /** The step of a thread that is about to take an item out. */
  lemma GetDecides(s: State, i: nat)
    requires BaseInv(s) && i < |s.threads| && s.threads[i].GetItem?
    ensures Enabled(s, Act(i))
    ensures var t := Apply(s, Act(i));
      && t.accepted == s.accepted
      && (s.items == [] ==> t.items == [] && t.delivered == s.delivered)
      && (s.items != [] ==> t.items == s.items[1..] && t.delivered == s.delivered + [s.items[0]])
      && t.threads[i] == (if t.items == [] then GetReset else GetUnlock)
  {
    hide Call, Linked, QueueLocked, Delivered;
  }

  /** No other step touches what is queued. */
  lemma OthersKeepItems(s: State, step: Step)
    requires Enabled(s, step) && !s.threads[step.thread].PutItem? && !s.threads[step.thread].GetItem?
    ensures var t := Apply(s, step);
      t.items == s.items && t.accepted == s.accepted && t.delivered == s.delivered
  {
    hide E.Apply, E.Enabled, Call, Taken, InsideEvent;
    if InEvent(s.threads[step.thread]) {
      InsideKeeps(s, step);
      hide Apply;
    } else if step.Begin? {
      hide Outside;
    } else {
      hide Entered;
    }
  }

  // ----- over whole runs -----

  /** Every step is one of those: items go in at either end and come out at the front. */
  ghost predicate Moves(s: State, t: State) {
    || (t.items == s.items && t.delivered == s.delivered && t.accepted == s.accepted)
    || (exists x :: t.items == s.items + [x] && t.delivered == s.delivered && t.accepted == s.accepted + [x])
    || (t.returned
        && exists x :: t.items == [x] + s.items && t.delivered == s.delivered && t.accepted == s.accepted + [x])
    || (s.items != [] && t.items == s.items[1..]
        && t.delivered == s.delivered + [s.items[0]] && t.accepted == s.accepted)
  }

  lemma StepMoves(s: State, step: Step)
    requires BaseInv(s) && Enabled(s, step)
    ensures Moves(s, Apply(s, step)) && (s.returned ==> Apply(s, step).returned)
  {
    var i := step.thread;
    StaysReturned(s, step);
    hide Apply, BaseInv;
    if s.threads[i].PutItem? {
      PutDecides(s, i);
      assert step == Act(i);
    } else if s.threads[i].GetItem? {
      GetDecides(s, i);
      assert step == Act(i);
    } else {
      OthersKeepItems(s, step);
    }
  }

  lemma StaysReturned(s: State, step: Step)
    requires Enabled(s, step)
    ensures var t := Apply(s, step);
      && (s.returned ==> t.returned)
      && (s.threads[step.thread].PutItem? && s.threads[step.thread].front && s.currentSize < s.maxSize ==> t.returned)
  {
    hide E.Apply, E.Enabled, Call, InsideEvent;
    if InEvent(s.threads[step.thread]) {
      InsideKeeps(s, step);
      hide Apply;
    }
  }

  lemma StepTo(pullers: set<nat>, run: seq<State>, k: nat) returns (step: Step)
    requires IsRun(pullers, run) && 0 < k < |run|
    ensures BaseInv(run[k - 1]) && Enabled(run[k - 1], step) && run[k] == Apply(run[k - 1], step)
  {
    RunBaseInv(pullers, run, k - 1);
    assert Follows(pullers, run[k - 1], run[k]);
    step :| Enabled(run[k - 1], step) && Permits(pullers, step) && run[k] == Apply(run[k - 1], step);
  }

  lemma RunMoves(pullers: set<nat>, run: seq<State>, k: nat)
    requires IsRun(pullers, run) && 0 < k < |run|
    ensures Moves(run[k - 1], run[k]) && (run[k - 1].returned ==> run[k].returned)
  {
    hide IsRun, Apply, Enabled, BaseInv, Moves;
    var step := StepTo(pullers, run, k);
    StepMoves(run[k - 1], step);
  }

  /** One step of a queue of which `own[gone..]` is left, between `front` and `back`. */
  lemma OrderStep(s: State, t: State, own: seq<Address>, front: seq<Address>, gone: nat, back: seq<Address>)
      returns (newFront: seq<Address>, newGone: nat, newBack: seq<Address>)
    requires Moves(s, t) && gone <= |own| && s.items == front + own[gone..] + back
    ensures gone <= newGone <= |own| && t.items == newFront + own[newGone..] + newBack
    ensures !t.returned && front == [] ==> newFront == []
    ensures front == [] && gone < |own| && t.delivered != s.delivered ==>
      newGone == gone + 1 && t.delivered == s.delivered + [own[gone]]
    ensures t.delivered == s.delivered ==> newGone == gone
  {
    newFront, newGone, newBack := front, gone, back;
    if t.items == s.items && t.delivered == s.delivered {
    } else if t.delivered == s.delivered {
      if exists x :: t.items == s.items + [x] {
        var x :| t.items == s.items + [x];
        newBack := back + [x];
        EitherEnd(front, own[gone..], back, x);
      } else {
        var x :| t.items == [x] + s.items;
        newFront := [x] + front;
        EitherEnd(front, own[gone..], back, x);
      }
    } else {
      newFront, newGone, newBack := FirstGone(own, front, gone, back);
    }
  }

  lemma EitherEnd(a: seq<Address>, b: seq<Address>, c: seq<Address>, x: Address)
    ensures a + b + (c + [x]) == a + b + c + [x]
    ensures [x] + a + b + c == [x] + (a + b + c)
  {
  }

  lemma FirstGone(own: seq<Address>, front: seq<Address>, gone: nat, back: seq<Address>)
      returns (newFront: seq<Address>, newGone: nat, newBack: seq<Address>)
    requires gone <= |own| && front + own[gone..] + back != []
    ensures gone <= newGone <= |own| && (front + own[gone..] + back)[1..] == newFront + own[newGone..] + newBack
    ensures front == [] ==> newFront == []
    ensures front == [] && gone < |own| ==> newGone == gone + 1 && (front + own[gone..] + back)[0] == own[gone]
  {
    newFront, newGone, newBack := front, gone, back;
    if front != [] {
      newFront := front[1..];
    } else if gone < |own| {
      newGone := gone + 1;
    } else {
      newBack := back[1..];
    }
  }

  /** What is left at `t` of what was queued at `s`, and what came to stand around it. */
  ghost predicate LeftOver(s: State, t: State, front: seq<Address>, gone: nat, back: seq<Address>) {
    && gone <= |s.items| && t.items == front + s.items[gone..] + back
    && (!t.returned ==> front == [])
    && (!t.returned && gone < |s.items| ==> t.delivered == s.delivered + s.items[..gone])
  }

  lemma NextLeftOver(r: State, s: State, t: State, front: seq<Address>, gone: nat, back: seq<Address>)
      returns (newFront: seq<Address>, newGone: nat, newBack: seq<Address>)
    requires LeftOver(r, s, front, gone, back) && Moves(s, t) && (s.returned ==> t.returned)
    ensures LeftOver(r, t, newFront, newGone, newBack)
  {
    hide Moves;
    newFront, newGone, newBack := OrderStep(s, t, r.items, front, gone, back);
    if gone < |r.items| {
      assert r.items[..gone] + [r.items[gone]] == r.items[..gone + 1];
    }
  }

  /**
   * What is queued at one time stays together, in its order: items that were put at the front since stand
   * before it, those put at the back behind it, and what is gone of it was taken from its front. Without
   * requeueing nothing stands before it, and what was delivered since is what is gone of it, as long as some
   * of it is left.
   */
  lemma {:induction false} KeepsOrder(pullers: set<nat>, run: seq<State>, k: nat, j: nat)
      returns (front: seq<Address>, gone: nat, back: seq<Address>)
    requires IsRun(pullers, run) && k <= j < |run|
    ensures LeftOver(run[k], run[j], front, gone, back)
    decreases j
  {
    if j == k {
      front, gone, back := [], 0, [];
    } else {
      hide IsRun, Moves, LeftOver;
      front, gone, back := KeepsOrder(pullers, run, k, j - 1);
      RunMoves(pullers, run, j);
      front, gone, back := NextLeftOver(run[k], run[j - 1], run[j], front, gone, back);
    }
  }

  /** Thread `i` puts `x` at the front between states `k` and `k + 1`. */
  ghost predicate Requeues(run: seq<State>, k: nat, i: nat, x: Address)
    requires k + 1 < |run|
  {
    && i < |run[k].threads| && i < |run[k + 1].threads|
    && run[k].threads[i] == PutItem(x, true) && run[k + 1].threads[i] == PutSet
  }

  lemma StepKeepsFirst(s: State, step: Step, x: Address)
    requires BaseInv(s) && Enabled(s, step) && s.items != [] && s.items[0] == x
    ensures var t, i := Apply(s, step), step.thread;
      || (s.threads[i].PutItem? && s.threads[i].front && i < |t.threads| && t.threads[i] == PutSet)
      || (t.delivered == s.delivered && t.items != [] && t.items[0] == x)
      || t.delivered == s.delivered + [x]
  {
    var i := step.thread;
    hide Apply, BaseInv;
    if s.threads[i].PutItem? {
      assert step == Act(i);
      PutDecides(s, i);
      SameQueue(s, step);
    } else if s.threads[i].GetItem? {
      GetDecides(s, i);
      assert step == Act(i);
    } else {
      OthersKeepItems(s, step);
    }
  }

  /** The state after a requeue, which only that thread's step can have brought about. */
  lemma RequeuePutsFirst(pullers: set<nat>, run: seq<State>, k: nat, i: nat, x: Address)
    requires IsRun(pullers, run) && k + 1 < |run| && Requeues(run, k, i, x)
    ensures run[k + 1].items == [x] + run[k].items && run[k + 1].delivered == run[k].delivered
  {
    hide IsRun, BaseInv, Apply;
    var step := StepTo(pullers, run, k + 1);
    OnlyItselfMoves(run[k], step);
    assert step.thread == i && step == Act(i);
    PutDecides(run[k], i);
  }

  lemma OnlyItselfMoves(s: State, step: Step)
    requires Enabled(s, step)
    ensures forall j :: 0 <= j < |s.threads| && j != step.thread ==>
      j < |Apply(s, step).threads| && Apply(s, step).threads[j] == s.threads[j]
  {
    hide E.Apply, E.Enabled, Call, Taken, SizeAfterGet, InsideEvent;
    if InEvent(s.threads[step.thread]) {
      InsideKeeps(s, step);
      hide Apply;
    } else if step.Begin? {
      assert Apply(s, step) == Entered(s, step.thread, step.op);
      hide Apply;
    } else {
      assert Apply(s, step) == Outside(s, step.thread);
      hide Apply;
    }
  }

  /** Between `k` and `j` no item is put at the front, and none is delivered. */
  ghost predicate Undisturbed(run: seq<State>, k: nat, j: nat)
    requires k < j < |run|
  {
    && (forall l, m: nat, y :: k < l < j ==> !Requeues(run, l, m, y))
    && forall l :: k < l < j ==> run[l].delivered == run[k].delivered
  }

  lemma LastUndisturbed(run: seq<State>, k: nat, j: nat, m: nat, y: Address)
    requires k + 1 < j < |run| && Undisturbed(run, k, j)
    ensures Undisturbed(run, k, j - 1) && run[j - 1].delivered == run[k].delivered
    ensures !Requeues(run, j - 1, m, y)
  {
    hide Requeues;
  }

  /** The first item delivered after state `k` is `x`, or `x` is still the first in the queue. */
  ghost predicate ComesNext(s: State, t: State, x: Address) {
    || t.delivered == s.delivered + [x]
    || (t.delivered == s.delivered && t.items != [] && t.items[0] == x)
  }

  lemma FromThere(r: State, s: State, t: State, x: Address)
    requires s.delivered == r.delivered && ComesNext(s, t, x)
    ensures ComesNext(r, t, x)
  {
  }

  lemma ThenFirst(s: State, t: State, x: Address)
    requires t.items == [x] + s.items && t.delivered == s.delivered
    ensures ComesNext(s, t, x)
  {
  }

  lemma StillFirst(s: State, t: State, x: Address)
    requires ComesNext(s, t, x) && t.delivered == s.delivered
    ensures t.items != [] && t.items[0] == x
  {
    assert |t.delivered| == |s.delivered|;
  }

  /**
   * A requeued item comes next: unless another is requeued in between, the first item delivered after it was
   * put back is that one.
   */
  lemma {:induction false} RequeuedComesNext(pullers: set<nat>, run: seq<State>, k: nat, j: nat, i: nat, x: Address)
    requires IsRun(pullers, run) && k < j < |run| && Requeues(run, k, i, x)
    requires Undisturbed(run, k, j)
    ensures ComesNext(run[k], run[j], x)
    decreases j
  {
    hide IsRun, Undisturbed, Requeues, ComesNext;
    if j == k + 1 {
      RequeuePutsFirst(pullers, run, k, i, x);
      ThenFirst(run[k], run[k + 1], x);
    } else {
      LastUndisturbed(run, k, j, 0, x);
      RequeuedComesNext(pullers, run, k, j - 1, i, x);
      StillFirst(run[k], run[j - 1], x);
      var m, y := FirstStays(pullers, run, j, x);
      LastUndisturbed(run, k, j, m, y);
      FromThere(run[k], run[j - 1], run[j], x);
    }
  }

  /** Unless thread `m` requeues `y` just then, the first item stays there or is delivered. */
  lemma FirstStays(pullers: set<nat>, run: seq<State>, j: nat, x: Address) returns (m: nat, y: Address)
    requires IsRun(pullers, run) && 0 < j < |run| && run[j - 1].items != [] && run[j - 1].items[0] == x
    ensures Requeues(run, j - 1, m, y) || ComesNext(run[j - 1], run[j], x)
  {
    hide IsRun, BaseInv, Apply, Enabled;
    var step := StepTo(pullers, run, j);
    StepKeepsFirst(run[j - 1], step, x);
    InRange(run[j - 1], step);
    m := step.thread;
    y := if run[j - 1].threads[m].PutItem? then run[j - 1].threads[m].item else x;
  }

  lemma InRange(s: State, step: Step)
    requires Enabled(s, step)
    ensures step.thread < |s.threads|
  {
  }
}
