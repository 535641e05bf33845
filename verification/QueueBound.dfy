/**
 * The bound of QueueProtocol is exact: with a timeout and two consumers, one of them takes the token
 * that a set made for the other, which then waits for it with the event's lock held. Nobody can enqueue
 * or dequeue to the end any more.
 */
module QueueBound {
  import opened Base
  import opened QueueProtocol
  import E = TimedWaits
  import B = TimedWaitsBound

  /** Nobody holds a lock. */
  predicate Free(s: State) {
    s.queueLock == None && s.event.lock == None && |s.event.threads| == |s.threads|
  }

  /** Thread `i` may start something. */
  predicate Ready(s: State, i: nat) {
    i < |s.threads| == |s.event.threads| && s.threads[i] == Idle && s.event.threads[i] == E.Idle
  }

  /** The run so far ends in `s`. */
  ghost predicate EndsIn(pullers: set<nat>, run: seq<State>, first: State, s: State) {
    IsRun(pullers, run) && run[0] == first && run[|run| - 1] == s
  }

  /** One more step. */
  lemma Next(pullers: set<nat>, run: seq<State>, first: State, s: State, step: Step)
      returns (longer: seq<State>, t: State)
    requires EndsIn(pullers, run, first, s) && Enabled(s, step) && Permits(pullers, step)
    ensures t == Apply(s, step) && EndsIn(pullers, longer, first, t)
  {
    hide Apply, Enabled, Permits, Initial;
    t := Apply(s, step);
    longer := run + [t];
    assert Follows(pullers, s, t);
    assert forall k :: 0 < k < |run| ==> Follows(pullers, longer[k - 1], longer[k]);
  }

  /** The next step of thread `i` in the event leads to `f`. */
  predicate Leads(e: E.State, i: nat, f: E.State) {
    E.Enabled(e, E.Act(i)) && E.Apply(e, E.Act(i)) == f
  }

  /** A thread inside the event takes a step there and stays inside. */
  lemma Inner(pullers: set<nat>, run: seq<State>, first: State, s: State, i: nat, event: E.State, pc: E.Pc)
      returns (longer: seq<State>, t: State)
    requires EndsIn(pullers, run, first, s) && i < |s.threads| && InEvent(s.threads[i]) && pc != E.Idle
    requires Leads(s.event, i, event) && i < |event.threads| && event.threads[i] == pc
    ensures t == s.(event := event) && EndsIn(pullers, longer, first, t)
  {
    hide EndsIn, E.Apply, E.Enabled;
    longer, t := Next(pullers, run, first, s, Act(i));
    assert t.threads == s.threads;
  }

  /** It comes back from the event. */
  lemma Back(pullers: set<nat>, run: seq<State>, first: State, s: State, i: nat, event: E.State)
      returns (longer: seq<State>, t: State)
    requires EndsIn(pullers, run, first, s) && i < |s.threads| && InEvent(s.threads[i])
    requires Leads(s.event, i, event) && i < |event.threads| && event.threads[i] == E.Idle
    ensures t == s.(event := event, threads := s.threads[i := After(s.threads[i])]) && EndsIn(pullers, longer, first, t)
  {
    hide EndsIn, E.Apply, E.Enabled;
    longer, t := Next(pullers, run, first, s, Act(i));
  }

  function At(e: E.State, i: nat, pc: E.Pc): E.State
    requires i < |e.threads|
  {
    e.(threads := e.threads[i := pc])
  }

  /** Thread `i` of a timed queue begins to wait. */
  lemma PullBegins(pullers: set<nat>, run: seq<State>, first: State, s: State, i: nat)
      returns (longer: seq<State>, t: State)
    requires EndsIn(pullers, run, first, s) && Free(s) && Ready(s, i) && s.timed && i in pullers
    ensures t == s.(threads := s.threads[i := Waiting], event := At(s.event, i, E.TryTest).(lock := Some(i)))
    ensures EndsIn(pullers, longer, first, t)
  {
    hide EndsIn;
    CallKind(s.event, i, E.TryWait);
    longer, t := Next(pullers, run, first, s, Begin(i, Pull));
    assert t == s.(threads := s.threads[i := Waiting], event := At(s.event, i, E.TryLock));
    var e := At(s.event, i, E.TryTest).(lock := Some(i));
    assert At(s.event, i, E.TryLock).threads[i := E.TryTest] == e.threads;
    longer, t := Inner(pullers, longer, first, t, i, e, E.TryTest);
  }

  /** The event is not signaled: the thread is counted and goes to sleep. */
  lemma PullSleeps(pullers: set<nat>, run: seq<State>, first: State, s: State, i: nat)
      returns (longer: seq<State>, t: State)
    requires EndsIn(pullers, run, first, s) && Free(s) && Ready(s, i) && s.timed && i in pullers
    requires !s.event.signaled
    ensures t == s.(threads := s.threads[i := Waiting],
                    event := At(s.event, i, E.TryDown(s.event.sigCount)).(waiters := s.event.waiters + 1))
    ensures EndsIn(pullers, longer, first, t)
  {
    hide EndsIn;
    var e, seen := s.event, s.event.sigCount;
    longer, t := PullBegins(pullers, run, first, s, i);
    var e1 := At(e, i, E.TryUnlock(true, seen)).(lock := Some(i), waiters := e.waiters + 1);
    assert t.event.threads[i := E.TryUnlock(true, seen)] == e1.threads;
    longer, t := Inner(pullers, longer, first, t, i, e1, E.TryUnlock(true, seen));
    var e2 := At(e, i, E.TryDown(seen)).(waiters := e.waiters + 1);
    assert t.event.threads[i := E.TryDown(seen)] == e2.threads;
    longer, t := Inner(pullers, longer, first, t, i, e2, E.TryDown(seen));
  }

  /** The event is signaled: the thread goes through to the dequeue. */
  lemma PullPasses(pullers: set<nat>, run: seq<State>, first: State, s: State, i: nat)
      returns (longer: seq<State>, t: State)
    requires EndsIn(pullers, run, first, s) && Free(s) && Ready(s, i) && s.timed && i in pullers
    requires s.event.signaled
    ensures t == s.(threads := s.threads[i := GetLock]) && EndsIn(pullers, longer, first, t)
  {
    hide EndsIn;
    var e, seen := s.event, s.event.sigCount;
    longer, t := PullBegins(pullers, run, first, s, i);
    var e1 := At(e, i, E.TryUnlock(false, seen)).(lock := Some(i));
    assert t.event.threads[i := E.TryUnlock(false, seen)] == e1.threads;
    longer, t := Inner(pullers, longer, first, t, i, e1, E.TryUnlock(false, seen));
    assert t.event.threads[i := E.Idle] == e.threads;
    longer, t := Back(pullers, longer, first, t, i, e);
    assert t.threads == s.threads[i := GetLock];
  }

  /** A set by thread `i` that finds one waiter, up to the end of its loop. */
  lemma SetReleasesOne(pullers: set<nat>, run: seq<State>, first: State, s: State, i: nat)
      returns (longer: seq<State>, t: State)
    requires EndsIn(pullers, run, first, s) && i < |s.threads| == |s.event.threads| && InEvent(s.threads[i])
    requires s.event.threads[i] == E.SetLock && s.event.lock == None && s.event.waiters == 1
    ensures var e := s.event;
      t == s.(event := At(e, i, E.SetTest).(lock := Some(i), signaled := true, sigCount := e.sigCount + 1,
                                            waiters := 0, tokens := e.tokens + 1))
    ensures EndsIn(pullers, longer, first, t)
  {
    hide EndsIn;
    var e1, e2, e3, e4, e5 := SetSteps(s.event, i);
    hide Leads;
    longer, t := Inner(pullers, run, first, s, i, e1, E.SetMark);
    longer, t := Inner(pullers, longer, first, t, i, e2, E.SetTest);
    longer, t := Inner(pullers, longer, first, t, i, e3, E.SetUp);
    longer, t := Inner(pullers, longer, first, t, i, e4, E.SetDown);
    longer, t := Inner(pullers, longer, first, t, i, e5, E.SetTest);
  }

  lemma SetSteps(e: E.State, i: nat) returns (e1: E.State, e2: E.State, e3: E.State, e4: E.State, e5: E.State)
    requires i < |e.threads| && e.threads[i] == E.SetLock && e.lock == None && e.waiters == 1
    ensures Leads(e, i, e1) && Leads(e1, i, e2) && Leads(e2, i, e3) && Leads(e3, i, e4) && Leads(e4, i, e5)
    ensures |e1.threads| == |e2.threads| == |e3.threads| == |e4.threads| == |e5.threads| == |e.threads|
    ensures e1.threads[i] == E.SetMark && e2.threads[i] == E.SetTest && e3.threads[i] == E.SetUp
    ensures e4.threads[i] == E.SetDown && e5.threads[i] == E.SetTest
    ensures e5 == At(e, i, E.SetTest).(lock := Some(i), signaled := true, sigCount := e.sigCount + 1,
                                       waiters := 0, tokens := e.tokens + 1)
  {
    e1 := At(e, i, E.SetMark).(lock := Some(i));
    e2 := At(e, i, E.SetTest).(lock := Some(i), signaled := true, sigCount := e.sigCount + 1);
    assert e1.threads[i := E.SetTest] == e2.threads;
    e3 := At(e2, i, E.SetUp);
    e4 := At(e2, i, E.SetDown).(tokens := e.tokens + 1);
    assert e3.threads[i := E.SetDown] == e4.threads;
    e5 := e2.(waiters := 0, tokens := e.tokens + 1);
    assert e4.threads[i := E.SetTest] == e5.threads;
  }

  /** The whole set. */
  lemma SetWakesOne(pullers: set<nat>, run: seq<State>, first: State, s: State, i: nat)
      returns (longer: seq<State>, t: State)
    requires EndsIn(pullers, run, first, s) && i < |s.threads| == |s.event.threads| && InEvent(s.threads[i])
    requires s.event.threads[i] == E.SetLock && s.event.lock == None && s.event.waiters == 1
    ensures var e := s.event;
      t == s.(event := At(e, i, E.Idle).(signaled := true, sigCount := e.sigCount + 1,
                                         waiters := 0, tokens := e.tokens + 1),
              threads := s.threads[i := After(s.threads[i])])
    ensures EndsIn(pullers, longer, first, t)
  {
    hide EndsIn;
    longer, t := SetReleasesOne(pullers, run, first, s, i);
    var e := t.event;
    var e1 := At(e, i, E.SetUnlock);
    longer, t := Inner(pullers, longer, first, t, i, e1, E.SetUnlock);
    var e2 := At(s.event, i, E.Idle).(signaled := true, sigCount := e.sigCount, waiters := 0, tokens := e.tokens);
    assert e1.threads[i := E.Idle] == e2.threads;
    longer, t := Back(pullers, longer, first, t, i, e2);
  }

  /** The event after that set, when the setting thread was outside before. */
  function Woken(e: E.State): E.State {
    e.(signaled := true, sigCount := e.sigCount + 1, waiters := 0, tokens := e.tokens + 1)
  }

  /** Thread `i` wakes the waiter: by an item if the queue has room for one, else by the signal alone. */
  lemma Announce(pullers: set<nat>, run: seq<State>, first: State, s: State, i: nat)
      returns (longer: seq<State>, t: State)
    requires EndsIn(pullers, run, first, s) && Free(s) && Ready(s, i) && s.event.waiters == 1
    requires s.items == [] && s.currentSize == 0
    ensures t == s.(items := t.items, currentSize := |t.items|, accepted := t.accepted, event := Woken(s.event))
    ensures |t.items| <= 1 && EndsIn(pullers, longer, first, t)
  {
    hide EndsIn;
    CallKind(s.event, i, E.Set);
    if s.maxSize == 0 {
      longer, t := Next(pullers, run, first, s, Begin(i, SignalEvent));
      longer, t := SetWakesOne(pullers, longer, first, t, i);
      assert t.threads == s.threads && t.event.threads == s.event.threads;
    } else {
      longer, t := AnnounceItem(pullers, run, first, s, i, NULL);
    }
  }

  lemma AnnounceItem(pullers: set<nat>, run: seq<State>, first: State, s: State, i: nat, x: Address)
      returns (longer: seq<State>, t: State)
    requires EndsIn(pullers, run, first, s) && Free(s) && Ready(s, i) && s.event.waiters == 1
    requires s.items == [] && s.currentSize == 0 && s.maxSize > 0
    ensures t == s.(items := [x], currentSize := 1, accepted := s.accepted + [x], event := Woken(s.event))
    ensures EndsIn(pullers, longer, first, t)
  {
    hide EndsIn;
    longer, t := PutsItem(pullers, run, first, s, i, x);
    hide Apply, Enabled, Permits;
    longer, t := SetWakesOne(pullers, longer, first, t, i);
    longer, t := Unlocks(pullers, longer, first, t, i);
    assert t.threads == s.threads && t.event.threads == s.event.threads;
  }

  lemma PutsItem(pullers: set<nat>, run: seq<State>, first: State, s: State, i: nat, x: Address)
      returns (longer: seq<State>, t: State)
    requires EndsIn(pullers, run, first, s) && Free(s) && Ready(s, i)
    requires s.items == [] && s.currentSize == 0 && s.maxSize > 0
    ensures t == s.(queueLock := Some(i), items := [x], currentSize := 1, accepted := s.accepted + [x],
                    event := At(s.event, i, E.SetLock), threads := s.threads[i := PutSet])
    ensures EndsIn(pullers, longer, first, t)
  {
    hide EndsIn;
    longer, t := Next(pullers, run, first, s, Begin(i, Enqueue(x)));
    longer, t := Next(pullers, longer, first, t, Act(i));
    CallKind(s.event, i, E.Set);
    hide Call, E.Apply, E.Enabled;
    longer, t := Next(pullers, longer, first, t, Act(i));
    assert t.threads == s.threads[i := PutSet] && t.items == [x];
  }

  lemma Unlocks(pullers: set<nat>, run: seq<State>, first: State, s: State, i: nat)
      returns (longer: seq<State>, t: State)
    requires EndsIn(pullers, run, first, s) && i < |s.threads| && s.threads[i] in {PutUnlock, GetUnlock}
    ensures t == s.(queueLock := None, threads := s.threads[i := Idle]) && EndsIn(pullers, longer, first, t)
  {
    hide EndsIn;
    longer, t := Next(pullers, run, first, s, Act(i));
  }

  /** Thread `i` takes the last item, if there is one, and resets the event. */
  lemma DequeueLast(pullers: set<nat>, run: seq<State>, first: State, s: State, i: nat)
      returns (longer: seq<State>, t: State)
    requires EndsIn(pullers, run, first, s) && Free(s)
    requires i < |s.threads| && s.threads[i] == GetLock && s.event.threads[i] == E.Idle
    requires s.currentSize == |s.items| <= 1
    ensures t == s.(items := [], currentSize := 0, delivered := t.delivered, event := s.event.(signaled := false),
                    threads := s.threads[i := Idle])
    ensures EndsIn(pullers, longer, first, t)
  {
    hide EndsIn;
    longer, t := TakesItem(pullers, run, first, s, i);
    hide Apply, Enabled, Permits;
    longer, t := ResetThrough(pullers, longer, first, t, i);
    longer, t := Unlocks(pullers, longer, first, t, i);
    assert t.threads == s.threads[i := Idle] && t.event.threads == s.event.threads;
  }

  lemma TakesItem(pullers: set<nat>, run: seq<State>, first: State, s: State, i: nat)
      returns (longer: seq<State>, t: State)
    requires EndsIn(pullers, run, first, s) && Free(s)
    requires i < |s.threads| && s.threads[i] == GetLock && s.event.threads[i] == E.Idle
    requires s.currentSize == |s.items| <= 1
    ensures t == s.(queueLock := Some(i), items := [], currentSize := 0, delivered := t.delivered,
                    event := At(s.event, i, E.ResetLock), threads := s.threads[i := GetReset])
    ensures EndsIn(pullers, longer, first, t)
  {
    hide EndsIn;
    longer, t := Next(pullers, run, first, s, Act(i));
    CallKind(s.event, i, E.Reset);
    hide Call, E.Apply, E.Enabled;
    longer, t := Next(pullers, longer, first, t, Act(i));
    assert t.threads == s.threads[i := GetReset] && t.items == [];
  }

  lemma ResetThrough(pullers: set<nat>, run: seq<State>, first: State, s: State, i: nat)
      returns (longer: seq<State>, t: State)
    requires EndsIn(pullers, run, first, s) && i < |s.threads| == |s.event.threads| && s.threads[i] == GetReset
    requires s.event.threads[i] == E.ResetLock && s.event.lock == None
    ensures t == s.(event := At(s.event, i, E.Idle).(signaled := false), threads := s.threads[i := GetUnlock])
    ensures EndsIn(pullers, longer, first, t)
  {
    hide EndsIn;
    var e := s.event;
    var e1 := At(e, i, E.ResetMark).(lock := Some(i));
    longer, t := Inner(pullers, run, first, s, i, e1, E.ResetMark);
    var e2 := At(e, i, E.ResetUnlock).(lock := Some(i), signaled := false);
    assert e1.threads[i := E.ResetUnlock] == e2.threads;
    longer, t := Inner(pullers, longer, first, t, i, e2, E.ResetUnlock);
    var e3 := At(e, i, E.Idle).(signaled := false);
    assert e2.threads[i := E.Idle] == e3.threads;
    longer, t := Back(pullers, longer, first, t, i, e3);
  }

  /** Thread `i` begins to wait, finds the token there and takes it. */
  lemma Steal(pullers: set<nat>, run: seq<State>, first: State, s: State, i: nat)
      returns (longer: seq<State>, t: State)
    requires EndsIn(pullers, run, first, s) && Free(s) && Ready(s, i) && s.timed && i in pullers
    requires !s.event.signaled && s.event.waiters == 0 && s.event.tokens == 1
    ensures t == s.(threads := s.threads[i := GetLock], event := s.event.(tokens := 0))
    ensures EndsIn(pullers, longer, first, t)
  {
    hide EndsIn;
    var e, seen := s.event, s.event.sigCount;
    longer, t := PullSleeps(pullers, run, first, s, i);
    var e1 := At(e, i, E.TryRelock(seen, true)).(waiters := 1, tokens := 0);
    assert t.event.threads[i := E.TryRelock(seen, true)] == e1.threads;
    longer, t := Inner(pullers, longer, first, t, i, e1, E.TryRelock(seen, true));
    var e2 := At(e, i, E.TrySettle(seen, true)).(waiters := 1, tokens := 0, lock := Some(i));
    assert e1.threads[i := E.TrySettle(seen, true)] == e2.threads;
    longer, t := Inner(pullers, longer, first, t, i, e2, E.TrySettle(seen, true));
    var e3 := At(e, i, E.TryRelease).(waiters := 0, tokens := 0, lock := Some(i));
    assert e2.threads[i := E.TryRelease] == e3.threads;
    longer, t := Inner(pullers, longer, first, t, i, e3, E.TryRelease);
    var e4 := e.(tokens := 0);
    assert e3.threads[i := E.Idle] == e4.threads;
    longer, t := Back(pullers, longer, first, t, i, e4);
    assert t.threads == s.threads[i := GetLock];
  }

  /** Thread `i` gives up, sees that the event was set meanwhile, and waits for its token under the lock. */
  lemma GiveUp(pullers: set<nat>, run: seq<State>, first: State, s: State, i: nat)
      returns (longer: seq<State>, t: State)
    requires EndsIn(pullers, run, first, s) && s.event.lock == None
    requires i < |s.threads| == |s.event.threads| && s.threads[i] == Waiting
    requires s.event.threads[i].TryDown? && s.event.threads[i].seen != s.event.sigCount
    ensures t == s.(event := At(s.event, i, E.TryDownAgain(s.event.threads[i].seen)).(lock := Some(i)))
    ensures EndsIn(pullers, longer, first, t)
  {
    hide EndsIn;
    var e, seen := s.event, s.event.threads[i].seen;
    longer, t := Next(pullers, run, first, s, Expire(i));
    assert t == s.(event := At(e, i, E.TryRelock(seen, false)));
    var e1 := At(e, i, E.TrySettle(seen, false)).(lock := Some(i));
    assert t.event.threads[i := E.TrySettle(seen, false)] == e1.threads;
    longer, t := Inner(pullers, longer, first, t, i, e1, E.TrySettle(seen, false));
    var e2 := At(e, i, E.TryDownAgain(seen)).(lock := Some(i));
    assert e1.threads[i := E.TryDownAgain(seen)] == e2.threads;
    longer, t := Inner(pullers, longer, first, t, i, e2, E.TryDownAgain(seen));
  }

  /** The queue after esif_queue_create. */
  function Created(n: nat, maxSize: nat): State {
    State(None, [], 0, maxSize, true, E.State(None, false, 0, 0, 0, B.Idles(n)), seq(n, _ => Idle), [], false, [])
  }

  /**
   * Consumer `i` waits. Consumer `j` puts an item into the queue, pulls it out, so that the event is
   * reset, and pulls again: it takes the token that was meant for `i`, which gives up a moment later.
   */
  lemma TwoConsumersStick(pullers: set<nat>, n: nat, maxSize: nat, i: nat, j: nat)
      returns (run: seq<State>, t: State)
    requires i < n && j < n && i != j && i in pullers && j in pullers
    ensures EndsIn(pullers, run, Created(n, maxSize), t) && B.Stuck(t.event, i)
  {
    var s := Created(n, maxSize);
    run, t := [s], s;
    hide EndsIn;
    assert EndsIn(pullers, run, s, t) by { StartsIn(pullers, s); }
    run, t := PullSleeps(pullers, run, s, t, i);
    run, t := Announce(pullers, run, s, t, j);
    run, t := PullPasses(pullers, run, s, t, j);
    run, t := DequeueLast(pullers, run, s, t, j);
    run, t := Steal(pullers, run, s, t, j);
    run, t := GiveUp(pullers, run, s, t, i);
  }

  lemma StartsIn(pullers: set<nat>, s: State)
    requires Initial(s)
    ensures EndsIn(pullers, [s], s, s)
  {
  }

  /** From then on no step of any thread helps. */
  lemma StuckForever(s: State, i: nat, step: Step)
    requires B.Stuck(s.event, i) && Enabled(s, step) && Linked(s)
    ensures B.Stuck(Apply(s, step).event, i)
  {
    var inner := EventMoves(s, step, {step.thread});
    if inner.Some? {
      B.StuckForever(s.event, i, inner.value);
    }
  }

  ghost predicate IsRunOf(timed: bool, n: nat, maxSize: nat, pullers: set<nat>, run: seq<State>) {
    IsRun(pullers, run) && |run[0].threads| == n && run[0].timed == timed && run[0].maxSize == maxSize
  }

  /**
   * The exact condition, for a queue of any size and any number of threads and consumers: its event is
   * safe in every run if and only if the consumers wait without a timeout, or there is at most one.
   */
  lemma QueueSafeIff(timed: bool, n: nat, maxSize: nat, pullers: set<nat>)
    requires forall i :: i in pullers ==> i < n
    ensures (forall run: seq<State>, k: nat ::
               IsRunOf(timed, n, maxSize, pullers, run) && k < |run| ==> E.Safe(run[k].event))
       <==> (!timed || |pullers| <= 1)
  {
    hide E.Safe;
    if !timed || |pullers| <= 1 {
      forall run: seq<State>, k: nat | IsRunOf(timed, n, maxSize, pullers, run) && k < |run|
        ensures E.Safe(run[k].event)
      {
        RunInv(pullers, run, k);
        E.InvSafe(UseOf(run[k].timed, pullers), run[k].event);
      }
    } else {
      var i :| i in pullers;
      var j := B.Another(pullers, i);
      var run, t := TwoConsumersStick(pullers, n, maxSize, i, j);
      B.StuckIsUnsafe(t.event, i);
      assert IsRunOf(timed, n, maxSize, pullers, run);
      assert !E.Safe(run[|run| - 1].event);
    }
  }
}
