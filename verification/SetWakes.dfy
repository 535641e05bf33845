/**
 * Does a set wake every thread that it finds waiting? It puts a token into the semaphore for each, but
 * the tokens bear no names: a thread that enters later may take one. Stated for both kinds of wait,
 * with the exact condition on how the event is used.
 */
module SetWakes {
  import opened Base
  import opened Tally
  import opened TimedWaits
  import opened EventSteps
  import opened TimedWaitsBound

  /** The signal count when a thread was counted that has no token yet. */
  function CountedAt(pc: Pc): Option<nat> {
    match pc
    case WaitUnlock(mustSleep, since) => if mustSleep then Some(since) else None
    case Sleep(since) => Some(since)
    case TryUnlock(mustSleep, seen) => if mustSleep then Some(seen) else None
    case TryDown(seen) => Some(seen)
    case TryRelock(seen, gotToken) => if gotToken then None else Some(seen)
    case TrySettle(seen, gotToken) => if gotToken then None else Some(seen)
    case TryDownAgain(seen) => Some(seen)
    case _ => None
  }

  /** Has been waiting since before the last set began. */
  predicate IsLate(sigCount: nat, pc: Pc) {
    CountedAt(pc).Some? && CountedAt(pc).value < sigCount
  }

  function LateAt(sigCount: nat): Pc -> int {
    pc => if IsLate(sigCount, pc) then 1 else 0
  }

  function Late(s: State): int { Sum(LateAt(s.sigCount), s.threads) }

  /** Unless a set is just releasing the waiters, there is a token for each thread that it found waiting. */
  ghost predicate Wakes(s: State) {
    !InSetLoop(Owner(s)) ==> Late(s) <= s.tokens
  }

  /**
   * Waiters are released without a set only if nobody waits with a timeout, and nobody resets or at
   * most one thread waits; or there is but one of the `n` threads.
   */
  predicate WakeUse(n: nat, use: Use) {
    || n <= 1
    || ((!use.releases || use.timed == {}) && (!use.resets || |use.timed + use.plain| <= 1))
  }

  // ----- when the event is never reset -----

  ghost predicate NeverReset(s: State) {
    && (s.signaled <==> s.sigCount > 0)
    && (s.signaled && s.waiters > 0 ==> InSetLoop(Owner(s)))
    && forall i :: 0 <= i < |s.threads| ==>
         && !(s.threads[i].ResetLock? || s.threads[i].ResetMark? || s.threads[i].ResetUnlock?)
         && (InSetLoop(s.threads[i]) || s.threads[i].SetUnlock? ==> s.signaled)
  }

  lemma ApplyNeverReset(use: Use, s: State, step: Step)
    requires Locked(s) && LoopOk(s) && NeverReset(s) && Enabled(s, step) && Permits(use, step) && !use.resets
    ensures NeverReset(Apply(s, step))
  {
  }

  lemma NeverResetWakes(s: State)
    requires Conserved(s) && LoopOk(s) && NeverReset(s)
    ensures Wakes(s)
  {
    if s.sigCount == 0 {
      SumConstant(LateAt(0), s.threads, 0);
      SumNonNegative(IsInWindow, s.threads);
    } else {
      LateArePending(s);
    }
  }

  lemma LateArePending(s: State)
    ensures Late(s) <= Pending(s) && InWindow(s) >= 0
  {
    SumAtMost(LateAt(s.sigCount), IsPending, s.threads);
    SumNonNegative(IsInWindow, s.threads);
  }

  // ----- when only one thread waits -----

  ghost predicate OthersDoNotWait(s: State, w: nat) {
    forall i :: 0 <= i < |s.threads| && i != w ==> !Waits(s.threads[i]) && !Tries(s.threads[i])
  }

  /** No other thread waits; and once a set has begun, thread `w` is only counted until the set is through. */
  ghost predicate OneWaits(s: State, w: nat) {
    && OthersDoNotWait(s, w)
    && (w < |s.threads| && IsLate(s.sigCount, s.threads[w]) && s.waiters > 0 ==> InSetLoop(Owner(s)))
  }

  /** No thread but `w` can ever wait. */
  predicate IsOnly(use: Use, n: nat, w: nat) {
    if n <= 1 then w == 0 else use.timed + use.plain <= {w}
  }

  lemma ApplyOthersDoNotWait(use: Use, s: State, step: Step, w: nat)
    requires OthersDoNotWait(s, w) && Enabled(s, step) && Permits(use, step) && IsOnly(use, |s.threads|, w)
    ensures OthersDoNotWait(Apply(s, step), w)
  {
    assert |s.threads| > 1 && step.thread in use.timed + use.plain ==> step.thread == w;
  }

  lemma ApplyOneWaits(use: Use, s: State, step: Step, w: nat)
    requires Locked(s) && LoopOk(s) && Safe(s) && OneWaits(s, w) && Enabled(s, step) && Permits(use, step)
    requires IsOnly(use, |s.threads|, w)
    ensures OneWaits(Apply(s, step), w)
  {
    ApplyOthersDoNotWait(use, s, step, w);
    hide LoopOk;
  }

  lemma OneWaitsWakes(s: State, w: nat)
    requires Conserved(s) && LoopOk(s) && OneWaits(s, w)
    ensures Wakes(s)
  {
    LateArePending(s);
    SoleLate(s.threads, w, s.sigCount);
  }

  lemma SoleLate(threads: seq<Pc>, w: nat, sigCount: nat)
    requires forall i :: 0 <= i < |threads| && i != w ==> !Waits(threads[i]) && !Tries(threads[i])
    ensures Sum(LateAt(sigCount), threads) == if w < |threads| && IsLate(sigCount, threads[w]) then 1 else 0
  {
    if w < |threads| {
      SumUpdate(LateAt(sigCount), threads, w, Idle);
      SumConstant(LateAt(sigCount), threads[w := Idle], 0);
    } else {
      SumConstant(LateAt(sigCount), threads, 0);
    }
  }

  // ----- over runs -----

  ghost predicate WakeInv(use: Use, s: State) {
    if !use.resets then NeverReset(s)
    else forall w :: IsOnly(use, |s.threads|, w) ==> OneWaits(s, w)
  }

  lemma Only(use: Use, n: nat) returns (w: nat)
    requires n <= 1 || |use.timed + use.plain| <= 1
    ensures IsOnly(use, n, w)
  {
    w := 0;
    var all := use.timed + use.plain;
    if n > 1 && all != {} {
      w :| w in all;
      assert |all - {w}| == 0;
    }
  }

  lemma ApplyWakeInv(use: Use, s: State, step: Step)
    requires Inv(use, s) && WakeInv(use, s) && Enabled(s, step) && Permits(use, step)
    ensures WakeInv(use, Apply(s, step))
  {
    InvSafe(use, s);
    hide Apply, Enabled, Permits, Locked, LoopOk, Conserved, SeenOk, UseOk, Safe, OneWaits, NeverReset;
    if !use.resets {
      ApplyNeverReset(use, s, step);
    } else {
      SameThreads(s, step);
      forall w | IsOnly(use, |s.threads|, w)
        ensures OneWaits(Apply(s, step), w)
      {
        ApplyOneWaits(use, s, step, w);
      }
    }
  }

  lemma InvWakes(use: Use, s: State)
    requires Inv(use, s) && WakeInv(use, s) && WakeUse(|s.threads|, use)
    ensures Wakes(s)
  {
    hide Locked, SeenOk, UseOk, Wakes, OneWaits, NeverReset;
    if !use.resets {
      NeverResetWakes(s);
    } else {
      var w := Only(use, |s.threads|);
      OneWaitsWakes(s, w);
    }
  }

  /** In those uses, over every run: a set wakes every thread that it finds waiting. */
  lemma {:induction false} SetWakesAll(use: Use, run: seq<State>, k: nat)
    requires IsRun(use, run) && k < |run| && WakeUse(|run[0].threads|, use)
    ensures WakeInv(use, run[k]) && Wakes(run[k]) && |run[k].threads| == |run[0].threads|
    decreases k
  {
    hide Inv, Wakes, WakeInv, Apply, Enabled, Permits;
    TimedWaitsSafe(use, run, k);
    if k == 0 {
      InitialWakeInv(use, run[0]);
    } else {
      SetWakesAll(use, run, k - 1);
      TimedWaitsSafe(use, run, k - 1);
      assert Follows(use, run[k - 1], run[k]);
      var step :| Enabled(run[k - 1], step) && Permits(use, step) && run[k] == Apply(run[k - 1], step);
      ApplyWakeInv(use, run[k - 1], step);
    }
    InvWakes(use, run[k]);
  }

  lemma InitialWakeInv(use: Use, s: State)
    requires Initial(s)
    ensures WakeInv(use, s)
  {
  }

  // ----- in every other use -----

  /** A thread that waits since before a set, while no token is there and no set is going on. */
  lemma LeftAsleep(s: State, i: nat)
    requires i < |s.threads| && IsLate(s.sigCount, s.threads[i]) && s.tokens == 0 && s.lock == None
    ensures !Wakes(s)
  {
    SumAtLeast(LateAt(s.sigCount), s.threads, i);
  }

  /** With a release the count goes below zero; the next waiter brings it back to zero, and a set skips it. */
  lemma SkippedBySet(use: Use, n: nat, i: nat, j: nat) returns (s: State, t: State)
    requires i < n && j < n && i != j && use.releases && i in use.timed
    ensures Initial(s) && |s.threads| == n && Reaches(PermittedBy(use), s, t) && !Wakes(t)
  {
    hide Reaches;
    var kind := PermittedBy(use);
    var a;
    s, a := ReleaseUnderflows(use, n, i, j);
    var b := Go(kind, s, a, Act(i));
    EnterAlone(b, i, TryWait);
    var c := b.(waiters := 0, threads := b.threads[i := TryDown(0)]);
    Widen(Of(i, TryWait), kind, b, c);
    Chain(kind, s, b, c);
    SetAlone(c, j);
    t := c.(signaled := true, sigCount := 1);
    Widen(Of(j, Set), kind, c, t);
    Chain(kind, s, c, t);
    LeftAsleep(t, i);
  }

  /**
   * The exact condition, for n threads and any use of the event by them: in every run every set wakes all
   * threads that it finds waiting if and only if the use is one of those.
   */
  lemma SetWakesIff(n: nat, use: Use)
    requires forall i :: i in use.timed + use.plain ==> i < n
    ensures (forall run: seq<State>, k: nat :: IsRun(use, run) && |run[0].threads| == n && k < |run| ==> Wakes(run[k]))
       <==> WakeUse(n, use)
  {
    hide Wakes;
    if WakeUse(n, use) {
      forall run: seq<State>, k: nat | IsRun(use, run) && |run[0].threads| == n && k < |run|
        ensures Wakes(run[k])
      {
        SetWakesAll(use, run, k);
      }
    } else {
      var s, t;
      if use.releases && use.timed != {} {
        var i :| i in use.timed;
        s, t := SkippedBySet(use, n, i, if i == 0 then 1 else 0);
      } else {
        s, t := LeftBehind(use, n);
      }
      var run := RunTo(use, s, t);
      assert !Wakes(run[|run| - 1]);
    }
  }

  /** With a reset and two threads that wait, one of them is robbed of its token. */
  lemma LeftBehind(use: Use, n: nat) returns (s: State, t: State)
    requires use.resets && |use.timed + use.plain| > 1 && forall i :: i in use.timed + use.plain ==> i < n
    ensures Initial(s) && |s.threads| == n && Reaches(PermittedBy(use), s, t) && !Wakes(t)
  {
    hide Reaches;
    var i :| i in use.timed + use.plain;
    var j := Another(use.timed + use.plain, i);
    var opi := if i in use.plain then Wait else TryWait;
    var opj := if j in use.plain then Wait else TryWait;
    s := TokenTaken(use, n, i, opi, j, opj);
    t := Robbed(n, i, opi, opj);
    LeftAsleep(t, i);
  }
}
