/**
 * Timed waits on the event of Common/esif_ccb_sem.h. A timed waiter that gives up has to take itself
 * out of the waiter count, unless the event was set meanwhile; then a token is meant for it, and it
 * takes that token while it holds the event's lock. The signal count tells the two cases apart.
 *
 * Steps are single lock, semaphore and locked-memory operations, of any number of threads in any
 * order; a timed wait may expire at any moment. The signal count is taken not to wrap.
 */
module TimedWaits {
  import opened Base
  import opened Tally

  datatype Op = Wait | TryWait | Set | Reset | Release

  datatype Pc =
    | Idle
    // esif_ccb_event_wait; `since` is the signal count when the thread was counted, kept for the proofs
    | WaitLock
    | WaitTest
    | WaitUnlock(mustSleep: bool, since: nat)
    | Sleep(since: nat)
    // esif_ccb_event_try_wait; `seen` is its copy of the signal count
    | TryLock
    | TryTest
    | TryUnlock(mustSleep: bool, seen: nat)
    | TryDown(seen: nat)                 // esif_ccb_sem_try_down
    | TryRelock(seen: nat, gotToken: bool)
    | TrySettle(seen: nat, gotToken: bool)
    | TryDownAgain(seen: nat)            // esif_ccb_sem_down with the lock held
    | TryRelease
    // esif_ccb_event_set
    | SetLock
    | SetMark
    | SetTest
    | SetUp
    | SetDown
    | SetUnlock
    // esif_ccb_event_reset
    | ResetLock
    | ResetMark
    | ResetUnlock
    // esif_ccb_event_release_waiters
    | ReleaseLock
    | ReleaseTest
    | ReleaseUp
    | ReleaseDown
    | ReleaseUnlock

  datatype State = State(
    lock: Option<nat>, // the thread that holds state_lock
    signaled: bool,
    waiters: int,
    sigCount: nat,
    tokens: nat,
    threads: seq<Pc>)

  /** After esif_ccb_event_init. */
  ghost predicate Initial(s: State) {
    && s.lock == None && !s.signaled && s.waiters == 0 && s.sigCount == 0 && s.tokens == 0
    && forall i :: 0 <= i < |s.threads| ==> s.threads[i] == Idle
  }

  /** `Expire` is a timed semaphore wait giving up. */
  datatype Step = Begin(thread: nat, op: Op) | Act(thread: nat) | Expire(thread: nat)

  predicate Enabled(s: State, step: Step) {
    && step.thread < |s.threads|
    && match s.threads[step.thread]
       case Idle => step.Begin?
       case WaitLock => step.Act? && s.lock == None
       case TryLock => step.Act? && s.lock == None
       case TryRelock(_, _) => step.Act? && s.lock == None
       case SetLock => step.Act? && s.lock == None
       case ResetLock => step.Act? && s.lock == None
       case ReleaseLock => step.Act? && s.lock == None
       case Sleep(_) => step.Act? && s.tokens > 0
       case TryDown(_) => step.Expire? || (step.Act? && s.tokens > 0)
       case TryDownAgain(_) => step.Act? && s.tokens > 0
       case _ => step.Act?
  }

  function Entry(op: Op): Pc {
    match op
    case Wait => WaitLock
    case TryWait => TryLock
    case Set => SetLock
    case Reset => ResetLock
    case Release => ReleaseLock
  }

  function Apply(s: State, step: Step): State
    requires Enabled(s, step)
  {
    var i := step.thread;
    match step
    case Begin(_, op) => s.(threads := s.threads[i := Entry(op)])
    case Act(_) => Effect(s, i).(threads := s.threads[i := Next(s, s.threads[i])])
    case Expire(_) => s.(threads := s.threads[i := TryRelock(s.threads[i].seen, false)])
  }

  function Next(s: State, pc: Pc): Pc {
    match pc
    case Idle => Idle
    case WaitLock => WaitTest
    case WaitTest => WaitUnlock(!s.signaled, s.sigCount)
    case WaitUnlock(mustSleep, since) => if mustSleep then Sleep(since) else Idle
    case Sleep(_) => Idle
    case TryLock => TryTest
    case TryTest => TryUnlock(!s.signaled, s.sigCount)
    case TryUnlock(mustSleep, seen) => if mustSleep then TryDown(seen) else Idle
    case TryDown(seen) => TryRelock(seen, true)
    case TryRelock(seen, gotToken) => TrySettle(seen, gotToken)
    case TrySettle(seen, gotToken) => if seen != s.sigCount && !gotToken then TryDownAgain(seen) else TryRelease
    case TryDownAgain(_) => TryRelease
    case TryRelease => Idle
    case SetLock => SetMark
    case SetMark => SetTest
    case SetTest => if s.waiters != 0 then SetUp else SetUnlock
    case SetUp => SetDown
    case SetDown => SetTest
    case SetUnlock => Idle
    case ResetLock => ResetMark
    case ResetMark => ResetUnlock
    case ResetUnlock => Idle
    case ReleaseLock => ReleaseTest
    case ReleaseTest => if s.waiters != 0 then ReleaseUp else ReleaseUnlock
    case ReleaseUp => ReleaseDown
    case ReleaseDown => ReleaseTest
    case ReleaseUnlock => Idle
  }

  function Effect(s: State, i: nat): State
    requires i < |s.threads|
    requires s.threads[i].Sleep? || s.threads[i].TryDown? || s.threads[i].TryDownAgain? ==> s.tokens > 0
  {
    match s.threads[i]
    case WaitLock => s.(lock := Some(i))
    case WaitTest => if s.signaled then s else s.(waiters := s.waiters + 1)
    case WaitUnlock(_, _) => s.(lock := None)
    case Sleep(_) => s.(tokens := s.tokens - 1)
    case TryLock => s.(lock := Some(i))
    case TryTest => if s.signaled then s else s.(waiters := s.waiters + 1)
    case TryUnlock(_, _) => s.(lock := None)
    case TryDown(_) => s.(tokens := s.tokens - 1)
    case TryRelock(_, _) => s.(lock := Some(i))
    case TrySettle(seen, _) => if seen == s.sigCount then s.(waiters := s.waiters - 1) else s
    case TryDownAgain(_) => s.(tokens := s.tokens - 1)
    case TryRelease => s.(lock := None)
    case SetLock => s.(lock := Some(i))
    case SetMark => s.(signaled := true, sigCount := s.sigCount + 1)
    case SetUp => s.(tokens := s.tokens + 1)
    case SetDown => s.(waiters := s.waiters - 1)
    case SetUnlock => s.(lock := None)
    case ResetLock => s.(lock := Some(i))
    case ResetMark => s.(signaled := false)
    case ResetUnlock => s.(lock := None)
    case ReleaseLock => s.(lock := Some(i))
    case ReleaseUp => s.(tokens := s.tokens + 1)
    case ReleaseDown => s.(waiters := s.waiters - 1)
    case ReleaseUnlock => s.(lock := None)
    case _ => s
  }

  // ----- what holds whoever waits -----

  predicate HoldsLock(pc: Pc) {
    pc.WaitTest? || pc.WaitUnlock? || pc.TryTest? || pc.TryUnlock? || pc.TrySettle?
    || pc.TryDownAgain? || pc.TryRelease?
    || pc.SetMark? || pc.SetTest? || pc.SetUp? || pc.SetDown? || pc.SetUnlock? || pc.ResetMark? || pc.ResetUnlock?
    || pc.ReleaseTest? || pc.ReleaseUp? || pc.ReleaseDown? || pc.ReleaseUnlock?
  }

  ghost predicate Locked(s: State) {
    && (s.lock.Some? ==> s.lock.value < |s.threads|)
    && forall i :: 0 <= i < |s.threads| ==> (HoldsLock(s.threads[i]) <==> s.lock == Some(i))
  }

  /** Is counted as a waiter or owed a token. */
  function IsPending(pc: Pc): int {
    match pc
    case WaitUnlock(mustSleep, _) => if mustSleep then 1 else 0
    case Sleep(_) => 1
    case TryUnlock(mustSleep, _) => if mustSleep then 1 else 0
    case TryDown(_) => 1
    case TryRelock(_, gotToken) => if gotToken then 0 else 1
    case TrySettle(_, gotToken) => if gotToken then 0 else 1
    case TryDownAgain(_) => 1
    case _ => 0
  }

  /** Has put a token into the semaphore and not taken the waiter out of the count yet. */
  function IsInWindow(pc: Pc): int {
    if pc.SetDown? || pc.ReleaseDown? then 1 else 0
  }

  function Pending(s: State): int { Sum(IsPending, s.threads) }

  function InWindow(s: State): int { Sum(IsInWindow, s.threads) }

  ghost predicate Conserved(s: State) {
    s.waiters + s.tokens == Pending(s) + InWindow(s)
  }

  predicate InSetLoop(pc: Pc) {
    pc.SetTest? || pc.SetUp? || pc.SetDown?
  }

  function Owner(s: State): Pc {
    if s.lock.Some? && s.lock.value < |s.threads| then s.threads[s.lock.value] else Idle
  }

  /** The signal count a timed waiter works with, if it went past the test. */
  function Seen(pc: Pc): Option<nat> {
    match pc
    case TryUnlock(mustSleep, seen) => if mustSleep then Some(seen) else None
    case TryDown(seen) => Some(seen)
    case TryRelock(seen, _) => Some(seen)
    case TrySettle(seen, _) => Some(seen)
    case TryDownAgain(seen) => Some(seen)
    case _ => None
  }

  predicate GotToken(pc: Pc) {
    (pc.TryRelock? || pc.TrySettle?) && pc.gotToken
  }

  /** Who has its token, or is about to take it under the lock, saw an older signal count. */
  ghost predicate SeenOk(s: State) {
    forall i :: 0 <= i < |s.threads| && Seen(s.threads[i]).Some? ==>
      && Seen(s.threads[i]).value <= s.sigCount
      && (GotToken(s.threads[i]) || s.threads[i].TryDownAgain? ==> Seen(s.threads[i]).value < s.sigCount)
  }

  ghost predicate LoopOk(s: State) {
    && s.waiters >= 0
    && forall i :: 0 <= i < |s.threads| ==>
         && (s.threads[i].SetUp? || s.threads[i].SetDown? ==> s.waiters > 0)
         && (s.threads[i].ReleaseUp? || s.threads[i].ReleaseDown? ==> s.waiters > 0)
         && (s.threads[i].SetUnlock? || s.threads[i].ReleaseUnlock? ==> s.waiters == 0)
  }

  // ----- the uses in which timed waits are safe -----

  /**
   * How an event is used: whether it is ever reset, whether its waiters are ever released without a
   * set, and which threads wait with and without a timeout.
   */
  datatype Use = Use(resets: bool, releases: bool, timed: set<nat>, plain: set<nat>)

  /** Setting is free to all, and so are resetting and releasing where they are used at all. */
  predicate Permits(use: Use, step: Step) {
    step.Begin? ==>
      match step.op
      case Wait => step.thread in use.plain
      case TryWait => step.thread in use.timed
      case Set => true
      case Reset => use.resets
      case Release => use.releases
  }

  /**
   * Nobody waits with a timeout; or nobody releases the waiters without a set, and nobody resets or at
   * most one thread waits; or there is but one of the `n` threads.
   */
  predicate SafeUse(n: nat, use: Use) {
    || use.timed == {}
    || (!use.releases && (!use.resets || |use.timed + use.plain| <= 1))
    || n <= 1
  }

  /** Nobody resets the event or releases its waiters, and timed waiters entered before the first set. */
  ghost predicate SetOnlyThreads(s: State) {
    forall i :: 0 <= i < |s.threads| ==>
      && !(s.threads[i].ResetLock? || s.threads[i].ResetMark? || s.threads[i].ResetUnlock?)
      && !Releases(s.threads[i])
      && (Seen(s.threads[i]).Some? ==> Seen(s.threads[i]).value == 0)
      && (InSetLoop(s.threads[i]) || s.threads[i].SetUnlock? ==> s.signaled)
  }

  ghost predicate SetOnly(s: State) {
    && (s.signaled <==> s.sigCount > 0)
    && (s.tokens > 0 ==> s.signaled)
    && (s.signaled && s.waiters > 0 ==> InSetLoop(Owner(s)))
    && SetOnlyThreads(s)
  }

  predicate Waits(pc: Pc) {
    pc.WaitLock? || pc.WaitTest? || pc.WaitUnlock? || pc.Sleep?
  }

  predicate Tries(pc: Pc) {
    pc.TryLock? || pc.TryTest? || pc.TryUnlock? || pc.TryDown? || pc.TryRelock? || pc.TrySettle? || pc.TryDownAgain?
    || pc.TryRelease?
  }

  predicate Releases(pc: Pc) {
    pc.ReleaseLock? || pc.ReleaseTest? || pc.ReleaseUp? || pc.ReleaseDown? || pc.ReleaseUnlock?
  }

  ghost predicate NoTimed(s: State) {
    forall i :: 0 <= i < |s.threads| ==> !Tries(s.threads[i])
  }

  /** Only thread `w` waits, with or without a timeout, and no other releases waiters. */
  ghost predicate Roles(s: State, w: nat) {
    forall i :: 0 <= i < |s.threads| && i != w ==>
      !Waits(s.threads[i]) && !Tries(s.threads[i]) && !Releases(s.threads[i])
  }

  /** What the signal count that thread `w` saw says about the count and the tokens. */
  ghost predicate SoleSeen(s: State, w: nat) {
    w < |s.threads| && Seen(s.threads[w]).Some? ==>
      && (Seen(s.threads[w]).value == s.sigCount ==> s.tokens == 0)
      && (s.waiters > 0 ==> Seen(s.threads[w]).value == s.sigCount || InSetLoop(Owner(s)))
      && (InSetLoop(Owner(s)) ==> Seen(s.threads[w]).value < s.sigCount)
  }

  ghost predicate SoleWaiter(s: State, w: nat) {
    Roles(s, w) && SoleSeen(s, w)
  }

  /** The thread that is alone in waiting, unless the event is only set. */
  predicate IsSole(use: Use, n: nat, w: nat) {
    if n <= 1 then w == 0 else w in use.timed
  }

  ghost predicate UseOk(use: Use, s: State) {
    if use.timed == {} then NoTimed(s)
    else if !use.resets && !use.releases then SetOnly(s)
    else forall w :: IsSole(use, |s.threads|, w) ==> SoleWaiter(s, w)
  }

  ghost predicate Inv(use: Use, s: State) {
    Locked(s) && Conserved(s) && SeenOk(s) && LoopOk(s) && UseOk(use, s)
  }

  /** The decrement finds a positive count, and the second wait finds a token. */
  ghost predicate Safe(s: State) {
    && s.waiters >= 0
    && forall i: nat :: i < |s.threads| ==>
         && (s.threads[i].TrySettle? && s.threads[i].seen == s.sigCount ==> s.waiters > 0)
         && (s.threads[i].TryDownAgain? ==> Enabled(s, Act(i)))
  }

  lemma OwnerNotInWindow(s: State, i: nat)
    requires Locked(s) && i < |s.threads| && HoldsLock(s.threads[i]) && IsInWindow(s.threads[i]) == 0
    ensures InWindow(s) == 0
  {
    SumNonNegative(IsInWindow, s.threads);
    if InWindow(s) > 0 {
      var j := SumWitness(IsInWindow, s.threads);
    }
  }

  lemma SetOnlySafe(s: State)
    requires Locked(s) && Conserved(s) && SeenOk(s) && LoopOk(s) && SetOnly(s)
    ensures Safe(s)
  {
    forall i: nat | i < |s.threads| && (s.threads[i].TrySettle? || s.threads[i].TryDownAgain?)
      ensures s.threads[i].TrySettle? && s.threads[i].seen == s.sigCount ==> s.waiters > 0
      ensures s.threads[i].TryDownAgain? ==> s.tokens > 0
    {
      OwnerNotInWindow(s, i);
      SumAtLeast(IsPending, s.threads, i);
    }
  }

  /** Only thread `w` can be pending. */
  lemma {:induction false} SolePending(threads: seq<Pc>, w: nat)
    requires forall i :: 0 <= i < |threads| && i != w ==> IsPending(threads[i]) == 0
    ensures Sum(IsPending, threads) == if w < |threads| then IsPending(threads[w]) else 0
  {
    if w < |threads| {
      SumUpdate(IsPending, threads, w, Idle);
      SumConstant(IsPending, threads[w := Idle], 0);
    } else {
      SumConstant(IsPending, threads, 0);
    }
  }

  lemma SoleWaiterSafe(s: State, w: nat)
    requires Locked(s) && Conserved(s) && SeenOk(s) && LoopOk(s) && SoleWaiter(s, w)
    ensures Safe(s)
  {
    SolePending(s.threads, w);
    if w < |s.threads| && (s.threads[w].TrySettle? || s.threads[w].TryDownAgain?) {
      OwnerNotInWindow(s, w);
    }
  }

  lemma InvSafe(use: Use, s: State)
    requires Inv(use, s)
    ensures Safe(s)
  {
    if use.timed != {} {
      if !use.resets && !use.releases {
        SetOnlySafe(s);
      } else {
        var w := Sole(use, |s.threads|);
        SoleWaiterSafe(s, w);
      }
    }
  }

  lemma Sole(use: Use, n: nat) returns (w: nat)
    requires use.timed != {}
    ensures IsSole(use, n, w)
  {
    if n <= 1 { w := 0; } else { w :| w in use.timed; }
  }

  lemma InitialInv(use: Use, s: State)
    requires Initial(s)
    ensures Inv(use, s)
  {
    SumConstant(IsPending, s.threads, 0);
    SumConstant(IsInWindow, s.threads, 0);
  }

  lemma ApplyLocked(s: State, step: Step)
    requires Locked(s) && Enabled(s, step)
    ensures Locked(Apply(s, step))
  {
  }

  lemma ApplyConserves(s: State, step: Step)
    requires Conserved(s) && SeenOk(s) && Enabled(s, step)
    ensures Conserved(Apply(s, step))
  {
    hide Sum;
    var i, pc := step.thread, Apply(s, step).threads[step.thread];
    SumUpdate(IsPending, s.threads, i, pc);
    SumUpdate(IsInWindow, s.threads, i, pc);
  }

  /** A token is never meant for a timed waiter that saw the present signal count. */
  ghost predicate TokensAreLate(s: State) {
    forall i :: 0 <= i < |s.threads| && s.threads[i].TryDown? && s.tokens > 0 ==> s.threads[i].seen < s.sigCount
  }

  lemma UseMeansLate(use: Use, s: State)
    requires UseOk(use, s) && SeenOk(s)
    ensures TokensAreLate(s)
  {
    if (use.resets || use.releases) && use.timed != {} {
      var w := Sole(use, |s.threads|);
      assert SoleWaiter(s, w);
    }
  }

  lemma ApplySeenOk(s: State, step: Step)
    requires SeenOk(s) && TokensAreLate(s) && Enabled(s, step)
    ensures SeenOk(Apply(s, step))
  {
  }

  lemma ApplyLoopOk(s: State, step: Step)
    requires Locked(s) && LoopOk(s) && Safe(s) && Enabled(s, step)
    ensures LoopOk(Apply(s, step))
  {
  }

  lemma ApplySetOnlyThreads(use: Use, s: State, step: Step)
    requires Locked(s) && SetOnly(s) && Enabled(s, step) && Permits(use, step)
    requires !use.resets && !use.releases
    ensures SetOnlyThreads(Apply(s, step))
  {
    hide LoopOk;
  }

  lemma ApplySetOnly(use: Use, s: State, step: Step)
    requires Locked(s) && LoopOk(s) && SetOnly(s) && Enabled(s, step) && Permits(use, step)
    requires !use.resets && !use.releases
    ensures SetOnly(Apply(s, step))
  {
    ApplySetOnlyThreads(use, s, step);
  }

  lemma ApplyNoTimed(use: Use, s: State, step: Step)
    requires NoTimed(s) && Enabled(s, step) && Permits(use, step) && use.timed == {}
    ensures NoTimed(Apply(s, step))
  {
  }

  /** When the sole waiter is about to test the event, nobody is counted and no token is left. */
  lemma NothingLeftOver(s: State, w: nat)
    requires Locked(s) && Conserved(s) && LoopOk(s) && Roles(s, w) && w < |s.threads| && s.threads[w] == TryTest
    ensures s.waiters == 0 && s.tokens == 0
  {
    SolePending(s.threads, w);
    OwnerNotInWindow(s, w);
  }

  /** Thread `w` is the only one, or the only one that waits, and waiters are not released. */
  predicate Alone(use: Use, n: nat, w: nat) {
    (n <= 1 && w == 0) || (!use.releases && use.timed + use.plain == {w})
  }

  lemma ApplyRoles(use: Use, s: State, step: Step, w: nat)
    requires Roles(s, w) && Enabled(s, step) && Permits(use, step) && Alone(use, |s.threads|, w)
    ensures Roles(Apply(s, step), w)
  {
    assert |s.threads| > 1 && step.thread in use.timed + use.plain ==> step.thread == w;
  }

  lemma WaiterKeepsSoleSeen(s: State, step: Step, w: nat)
    requires Locked(s) && Conserved(s) && SeenOk(s) && LoopOk(s) && SoleWaiter(s, w)
    requires Enabled(s, step) && step.thread == w
    ensures SoleSeen(Apply(s, step), w)
  {
    hide Conserved, LoopOk, Roles;
    assert HoldsLock(s.threads[w]) <==> s.lock == Some(w);
    hide Locked;
    if s.threads[w] == TryTest {
      NothingLeftOver(s, w);
    } else if Seen(s.threads[w]) == None {
      assert Seen(Apply(s, step).threads[w]) == None;
    }
  }

  lemma OthersKeepSoleSeen(s: State, step: Step, w: nat)
    requires Locked(s) && SeenOk(s) && SoleWaiter(s, w)
    requires Enabled(s, step) && step.thread != w
    ensures SoleSeen(Apply(s, step), w)
  {
  }

  lemma OnlyOne(use: Use, w: nat)
    requires w in use.timed && |use.timed + use.plain| <= 1
    ensures use.timed + use.plain == {w} && use.timed == {w}
  {
    var all := use.timed + use.plain;
    assert |all - {w}| == 0;
    assert use.timed <= all;
  }

  lemma ApplySole(use: Use, s: State, step: Step, w: nat)
    requires Locked(s) && Conserved(s) && SeenOk(s) && LoopOk(s) && SoleWaiter(s, w)
    requires Enabled(s, step) && Permits(use, step) && Alone(use, |s.threads|, w)
    ensures SoleWaiter(Apply(s, step), w)
  {
    hide Locked, Conserved, SeenOk, LoopOk, Roles, SoleSeen;
    ApplyRoles(use, s, step, w);
    if step.thread == w {
      WaiterKeepsSoleSeen(s, step, w);
    } else {
      OthersKeepSoleSeen(s, step, w);
    }
  }

  lemma ApplyInv(use: Use, s: State, step: Step)
    requires Inv(use, s) && Enabled(s, step) && Permits(use, step) && SafeUse(|s.threads|, use)
    ensures Inv(use, Apply(s, step))
  {
    InvSafe(use, s);
    UseMeansLate(use, s);
    hide Locked, Conserved, SeenOk, LoopOk, Safe, SetOnly, NoTimed, SoleWaiter;
    ApplyLocked(s, step);
    ApplyConserves(s, step);
    ApplySeenOk(s, step);
    ApplyLoopOk(s, step);
    if use.timed == {} {
      ApplyNoTimed(use, s, step);
    } else if !use.resets && !use.releases {
      ApplySetOnly(use, s, step);
    } else {
      hide Apply;
      forall w | IsSole(use, |s.threads|, w)
        ensures SoleWaiter(Apply(s, step), w)
      {
        if |s.threads| > 1 { OnlyOne(use, w); }
        ApplySole(use, s, step, w);
      }
      SameThreads(s, step);
    }
  }

  lemma SameThreads(s: State, step: Step)
    requires Enabled(s, step)
    ensures |Apply(s, step).threads| == |s.threads|
  {
  }

  // ----- over runs -----

  ghost predicate Follows(use: Use, s: State, t: State) {
    exists step :: Enabled(s, step) && Permits(use, step) && t == Apply(s, step)
  }

  ghost predicate IsRun(use: Use, run: seq<State>) {
    && run != [] && Initial(run[0])
    && forall k :: 0 < k < |run| ==> Follows(use, run[k - 1], run[k])
  }

  /**
   * In those uses, over every run: the waiter count never underflows, and the second semaphore wait,
   * taken with the lock held, never blocks.
   */
  lemma {:induction false} TimedWaitsSafe(use: Use, run: seq<State>, k: nat)
    requires IsRun(use, run) && k < |run| && SafeUse(|run[0].threads|, use)
    ensures Inv(use, run[k]) && Safe(run[k]) && |run[k].threads| == |run[0].threads|
    decreases k
  {
    if k == 0 {
      InitialInv(use, run[0]);
    } else {
      hide Inv, Safe, Initial, SafeUse;
      TimedWaitsSafe(use, run, k - 1);
      assert Follows(use, run[k - 1], run[k]);
      var step :| Enabled(run[k - 1], step) && Permits(use, step) && run[k] == Apply(run[k - 1], step);
      ApplyInv(use, run[k - 1], step);
      SameThreads(run[k - 1], step);
    }
    InvSafe(use, run[k]);
  }
}
