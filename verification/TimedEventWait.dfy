/**
 * EsifTimedEventWait of ESIF/Products/ESIF_UF/Sources/esif_uf_ccb_timedwait.h: a thread waits on an event
 * without a timeout, and a timer it has set before releases the waiters. The timer may be faster than
 * the thread: then nobody is counted yet, and the wait has no timeout any more.
 */
module TimedEventWait {
  import opened Base
  import opened TimedWaits

  /** Thread `w` is about to wait and the timer's thread `c` to release, and the event is not signaled. */
  ghost predicate Start(s: State, w: nat, c: nat) {
    && w < |s.threads| && c < |s.threads| && w != c
    && s.threads[w] == WaitLock && s.threads[c] == ReleaseLock
    && (forall i :: 0 <= i < |s.threads| && i != w && i != c ==> s.threads[i] == Idle)
    && s.lock == None && !s.signaled && s.waiters == 0 && s.tokens == 0
  }

  /** The two calls are made, and nobody calls anything else. */
  ghost predicate IsRace(run: seq<State>, steps: seq<Step>, w: nat, c: nat) {
    && |run| == |steps| + 1 && Start(run[0], w, c)
    && forall k :: 0 <= k < |steps| ==>
         steps[k].Act? && Enabled(run[k], steps[k]) && run[k + 1] == Apply(run[k], steps[k])
  }

  ghost predicate IsOver(s: State) {
    forall i: nat :: !Enabled(s, Act(i))
  }

  /** What holds in either case. */
  ghost predicate RaceInv(s: State, w: nat, c: nat) {
    && w < |s.threads| && c < |s.threads| && w != c
    && (forall i :: 0 <= i < |s.threads| && i != w && i != c ==> s.threads[i] == Idle)
    && Locked(s) && !s.signaled
    && s.threads[w] in Waiter(s.sigCount) && s.threads[c] in Releaser()
  }

  function Waiter(sigCount: nat): set<Pc> {
    {WaitLock, WaitTest, WaitUnlock(true, sigCount), Sleep(sigCount), Idle}
  }

  function Releaser(): set<Pc> {
    {ReleaseLock, ReleaseTest, ReleaseUp, ReleaseDown, ReleaseUnlock, Idle}
  }

  /** The thread got the event's lock first: it is counted when the timer comes. */
  ghost predicate WaiterFirst(s: State, w: nat, c: nat)
    requires RaceInv(s, w, c)
  {
    var a, b := s.threads[w], s.threads[c];
    && a != WaitLock
    && s.waiters + s.tokens == IsPending(a) + IsInWindow(b) && s.waiters >= 0
    && (b != ReleaseLock ==> a.Sleep? || a.Idle?)
    && (b == ReleaseLock ==> s.tokens == 0 && !a.Idle?)
    && (b == ReleaseUp || b == ReleaseDown ==> s.waiters > 0)
    && (b == ReleaseUnlock || b == Idle ==> s.waiters == 0)
  }

  /** The timer got it first: it finds nobody, and no token is ever made. */
  ghost predicate TimerFirst(s: State, w: nat, c: nat)
    requires RaceInv(s, w, c)
  {
    var a, b := s.threads[w], s.threads[c];
    && (b == ReleaseTest || b == ReleaseUnlock || b == Idle)
    && s.tokens == 0 && s.waiters >= 0 && a != Idle
    && (b != Idle ==> a == WaitLock && s.waiters == 0)
  }

  ghost predicate Phase(s: State, w: nat, c: nat, waiterFirst: bool)
    requires RaceInv(s, w, c)
  {
    if waiterFirst then WaiterFirst(s, w, c) else TimerFirst(s, w, c)
  }

  lemma FirstStep(s: State, step: Step, w: nat, c: nat)
    requires Start(s, w, c) && step.Act? && Enabled(s, step)
    ensures RaceInv(Apply(s, step), w, c) && (step.thread == w || step.thread == c)
    ensures Phase(Apply(s, step), w, c, step.thread == w)
  {
  }

  lemma KeepsRace(s: State, step: Step, w: nat, c: nat)
    requires RaceInv(s, w, c) && step.Act? && Enabled(s, step)
    ensures RaceInv(Apply(s, step), w, c)
  {
  }

  lemma KeepsPhase(s: State, step: Step, w: nat, c: nat, waiterFirst: bool)
    requires RaceInv(s, w, c) && Phase(s, w, c, waiterFirst) && step.Act? && Enabled(s, step)
    ensures RaceInv(Apply(s, step), w, c) && Phase(Apply(s, step), w, c, waiterFirst)
  {
    KeepsRace(s, step, w, c);
  }

  /** Steps that the two calls have left at most. */
  function Left(s: State, w: nat, c: nat): int
    requires w < |s.threads| && c < |s.threads|
  {
    (match s.threads[w]
     case WaitLock => 4
     case WaitTest => 3
     case WaitUnlock(_, _) => 2
     case Sleep(_) => 1
     case _ => 0)
    +
    (match s.threads[c]
     case ReleaseLock => 9
     case ReleaseTest => 3 * s.waiters + 2
     case ReleaseUp => 3 * s.waiters + 1
     case ReleaseDown => 3 * s.waiters
     case ReleaseUnlock => 1
     case _ => 0)
  }

  lemma LeftShrinks(s: State, step: Step, w: nat, c: nat, waiterFirst: bool)
    requires RaceInv(s, w, c) && Phase(s, w, c, waiterFirst) && step.Act? && Enabled(s, step)
    ensures 0 <= Left(Apply(s, step), w, c) < Left(s, w, c)
  {
    KeepsPhase(s, step, w, c, waiterFirst);
  }

  lemma {:induction false} RacePhase(run: seq<State>, steps: seq<Step>, w: nat, c: nat, k: nat)
    requires IsRace(run, steps, w, c) && 0 < k <= |steps|
    ensures RaceInv(run[k], w, c) && Phase(run[k], w, c, steps[0].thread == w)
    ensures 0 <= Left(run[k], w, c) <= 13 - k
    decreases k
  {
    if k == 1 {
      FirstStep(run[0], steps[0], w, c);
    } else {
      RacePhase(run, steps, w, c, k - 1);
      hide RaceInv, Phase, Apply, Enabled, Left;
      KeepsPhase(run[k - 1], steps[k - 1], w, c, steps[0].thread == w);
      LeftShrinks(run[k - 1], steps[k - 1], w, c, steps[0].thread == w);
    }
  }

  lemma AtTheEnd(s: State, w: nat, c: nat, waiterFirst: bool)
    requires RaceInv(s, w, c) && Phase(s, w, c, waiterFirst) && IsOver(s)
    ensures s.threads[c] == Idle && (s.threads[w] == Idle <==> waiterFirst)
  {
    assert !Enabled(s, Act(w)) && !Enabled(s, Act(c));
  }

  /**
   * The race is over after at most 13 steps, and then the wait has returned if and only if its thread got
   * the event's lock before the timer's callback did. Otherwise nothing but a set will ever end it.
   */
  lemma ReturnsIff(run: seq<State>, steps: seq<Step>, w: nat, c: nat)
    requires IsRace(run, steps, w, c)
    ensures |steps| <= 13
    ensures IsOver(run[|steps|]) ==>
      && |steps| > 0 && RaceInv(run[|steps|], w, c) && run[|steps|].threads[c] == Idle
      && (run[|steps|].threads[w] == Idle <==> steps[0].thread == w)
  {
    if steps == [] {
      assert Enabled(run[0], Act(w));
    } else {
      RacePhase(run, steps, w, c, |steps|);
      if IsOver(run[|steps|]) {
        AtTheEnd(run[|steps|], w, c, steps[0].thread == w);
      }
    }
  }

  /** So there is a race that ends with the thread asleep for good. */
  lemma MayNeverReturn(s: State, w: nat, c: nat) returns (run: seq<State>, steps: seq<Step>)
    requires Start(s, w, c)
    ensures IsRace(run, steps, w, c) && run[0] == s && IsOver(run[|steps|])
    ensures |run[|steps|].threads| > w && run[|steps|].threads[w].Sleep?
  {
    var s1, s2, s3 := TimerFindsNobody(s, w, c);
    var s4, s5, s6 := FallsAsleep(s3, w);
    hide Apply, Enabled;
    steps := [Act(c), Act(c), Act(c), Act(w), Act(w), Act(w)];
    run := [s, s1, s2, s3, s4, s5, s6];
  }

  lemma TimerFindsNobody(s: State, w: nat, c: nat) returns (s1: State, s2: State, s3: State)
    requires Start(s, w, c)
    ensures Enabled(s, Act(c)) && s1 == Apply(s, Act(c)) && Enabled(s1, Act(c)) && s2 == Apply(s1, Act(c))
    ensures Enabled(s2, Act(c)) && s3 == Apply(s2, Act(c)) && s3 == s.(threads := s.threads[c := Idle])
  {
    s1 := Apply(s, Act(c));
    s2 := Apply(s1, Act(c));
    s3 := Apply(s2, Act(c));
    assert s3.threads == s.threads[c := Idle];
  }

  lemma FallsAsleep(s: State, w: nat) returns (s1: State, s2: State, s3: State)
    requires w < |s.threads| && s.threads[w] == WaitLock && s.lock == None && !s.signaled && s.tokens == 0
    requires forall i :: 0 <= i < |s.threads| && i != w ==> s.threads[i] == Idle
    ensures Enabled(s, Act(w)) && s1 == Apply(s, Act(w)) && Enabled(s1, Act(w)) && s2 == Apply(s1, Act(w))
    ensures Enabled(s2, Act(w)) && s3 == Apply(s2, Act(w)) && IsOver(s3)
    ensures |s3.threads| == |s.threads| && s3.threads[w].Sleep?
  {
    s1 := Apply(s, Act(w));
    s2 := Apply(s1, Act(w));
    s3 := Apply(s2, Act(w));
    assert s3.threads == s.threads[w := Sleep(s.sigCount)];
  }
}
