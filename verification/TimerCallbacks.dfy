/**
 * What happens to a timer from the beginning of its callback to the return of it, and to the events
 * passed to kill.
 */
module TimerCallbacks {
  import opened Base
  import opened TimerSpec
  import opened TimerProofs
  import opened TimerRuns

  // ----- sets made while the callback runs -----

  /** The last position between `j` and `k` at which a set reached the timer. */
  function LastSet(run: seq<State>, calls: seq<Call>, id: nat, j: nat, k: nat): (m: Option<nat>)
    requires j <= k <= |calls| < |run|
    ensures m.Some? ==> j <= m.value < k && SetTarget(run[m.value], calls[m.value]) == Some(id)
    ensures forall l :: j <= l < k && SetTarget(run[l], calls[l]) == Some(id) ==> m.Some? && l <= m.value
    decreases k
  {
    if j == k then None
    else if SetTarget(run[k - 1], calls[k - 1]) == Some(id) then Some(k - 1)
    else LastSet(run, calls, id, j, k - 1)
  }

  /** Nothing was handed to the OS for this timer. */
  ghost predicate NotArmed(e: Env, f: Env, id: nat) {
    forall h :: h in f.armed && h !in e.armed ==> h in f.owner && f.owner[h] != id
  }

  /** The fields that tell what will be armed when the callback returns. */
  function Plan(x: Item): (bool, nat, nat) {
    (x.setPending, x.pendingTimeout, x.pendingCb)
  }

  /** A timer is still there after another one was changed or removed. */
  lemma Survives(items: seq<Item>, i: nat, y: Item, x: Item)
    requires i < |items| && x in items && x.id != items[i].id
    ensures x in items[i := y] && x in Without(items, i)
  {
    var j :| 0 <= j < |items| && items[j] == x;
    assert items[i := y][j] == x;
    assert Without(items, i)[if j < i then j else j - 1] == x;
  }

  /** The timer `x` with its callback running after a step that is not its return. */
  ghost predicate Keeps(s: State, t: State, x: Item) {
    && (exists y :: y in t.items && y.id == x.id && Plan(y) == Plan(x))
    && NotArmed(s.env, t.env, x.id)
  }

  lemma KillKeeps(s: State, timer: Option<nat>, event: Option<nat>, x: Item)
    requires Inv(s) && x in s.items && x.inCb
    ensures Keeps(s, DoKill(s, timer, event).0, x)
  {
    hide Inv, Find, Without, Held;
    if s.enabled && timer.Some? && Find(s.items, timer.value) < |s.items| {
      var i := Find(s.items, timer.value);
      var y := MarkedBy(s.items[i], event);
      WithoutUpdated(s.items, i, y);
      assert s.items[i := y][i] == y;
      if s.items[i].id == x.id {
        SameItem(s, i, x);
      } else {
        Survives(s.items, i, y, x);
      }
    }
  }

  lemma SameItem(s: State, i: nat, x: Item)
    requires Inv(s) && i < |s.items| && x in s.items && s.items[i].id == x.id
    ensures s.items[i] == x
  {
  }

  lemma DeliverKeeps(s: State, h: nat, x: Item)
    requires Inv(s) && h in s.env.armed && x in s.items && x.inCb
    ensures Keeps(s, DoDeliver(s, h).0, x)
  {
    hide Inv, FindByCb;
    var i := FindByCb(s.items, h);
    if i < |s.items| {
      ItemFacts(s, i);
      if s.items[i].id == x.id {
        SameItem(s, i, x);
      } else {
        Survives(s.items, i, s.items[i].(cbHandle := 0, inCb := true), x);
      }
    }
  }

  lemma ReturnKeeps(s: State, id: nat, osAccepts: bool, x: Item)
    requires Inv(s) && id in s.env.running && x in s.items && x.id != id
    ensures Keeps(s, DoReturn(s, id, osAccepts).0, x)
  {
    hide Inv, FindById, Without;
    var i := FindById(s.items, id);
    if i < |s.items| {
      ItemFacts(s, i);
      InvHandles(s);
      Survives(s.items, i, s.items[i].(inCb := false), x);
      WithoutUpdated(s.items, i, s.items[i].(inCb := false));
      Survives(s.items, i, s.items[i].(inCb := false, setPending := false), x);
      var t := DoReturn(s, id, osAccepts).0;
      assert s.items[i].marked || t.items == s.items[i := t.items[i]];
    }
  }

  lemma SetKeeps(s: State, call: Call, x: Item)
    requires Inv(s) && call.SetMsec? && s.nextCb + 1 < UINT32_SPAN && x in s.items
    requires SetTarget(s, call) != Some(x.id)
    ensures Keeps(s, Apply(s, call).0, x)
  {
    hide Inv, Find;
    var t := Apply(s, call).0;
    if SetTarget(s, call).Some? {
      var i := Find(s.items, call.timer.value);
      InvHandles(s);
      Survives(s.items, i, t.items[i], x);
      assert t.items == s.items[i := t.items[i]];
    }
  }

  lemma StepKeeps(s: State, call: Call, x: Item)
    requires Inv(s) && Enabled(s, call) && (call.SetMsec? ==> s.nextCb + 1 < UINT32_SPAN)
    requires x in s.items && x.inCb && SetTarget(s, call) != Some(x.id) && !(call.Return? && call.id == x.id)
    ensures Keeps(s, Apply(s, call).0, x)
  {
    hide Inv, SetTarget, DoKill, DoDeliver, DoReturn, DoSetMsec, NextHandle;
    match call
    case Kill(timer, event) => KillKeeps(s, timer, event, x);
    case Deliver(h) => DeliverKeeps(s, h, x);
    case Return(id, osAccepts) => ReturnKeeps(s, id, osAccepts, x);
    case SetMsec(_, _, _) => SetKeeps(s, call, x);
    case _ =>
  }

  /** A set that reaches a timer while its callback runs plans it, over any earlier plan, and arms nothing. */
  lemma SetPlans(s: State, call: Call, x: Item)
    requires Inv(s) && call.SetMsec? && x in s.items && x.inCb && SetTarget(s, call) == Some(x.id)
    ensures var t := Apply(s, call).0;
      && (exists y :: y in t.items && y.id == x.id && Plan(y) == (true, call.timeout, t.nextCb))
      && t.env.armed == s.env.armed
  {
    hide Inv, Find;
    var i, t := Find(s.items, call.timer.value), Apply(s, call).0;
    SameItem(s, i, x);
    assert t.items[i] in t.items;
  }

  /** The callback of timer `id` has begun with call `j` and has not returned before call `k`. */
  ghost predicate InCallback(run: seq<State>, calls: seq<Call>, id: nat, j: nat, k: nat) {
    && IsRun(run, calls) && j < k <= |calls|
    && Enabled(run[j], calls[j]) && Starts(run[j], calls[j], id)
    && forall l :: j < l < k ==> !(calls[l].Return? && calls[l].id == id)
  }

  /** What will be armed is what the last set since the callback began asked for. */
  ghost predicate Planned(run: seq<State>, calls: seq<Call>, id: nat, j: nat, k: nat, x: Item)
    requires j < k < |run| == |calls| + 1
  {
    match LastSet(run, calls, id, j + 1, k)
    case None => !x.setPending
    case Some(m) => calls[m].SetMsec? && Plan(x) == (true, calls[m].timeout, run[m + 1].nextCb)
  }

  lemma CallbackBegun(s: State, call: Call, id: nat)
    requires Inv(s) && Enabled(s, call) && Starts(s, call, id)
    ensures exists x :: x in Apply(s, call).0.items && x.id == id && !x.setPending
  {
    hide Inv, FindByCb, DoReturn, DoKill, DoSetMsec, DoInitCreate, DoInitList;
    StartFacts(s, call, id);
    var i := FindByCb(s.items, call.cbHandle);
    ItemFacts(s, i);
    var t := Apply(s, call).0;
    assert t.items[i] in t.items;
  }

  lemma PlanStep(run: seq<State>, calls: seq<Call>, id: nat, j: nat, k: nat, y: Item) returns (x: Item)
    requires j + 1 < k < |run| == |calls| + 1
    requires Inv(run[k - 1]) && Follows(run[k - 1], calls[k - 1], run[k])
    requires calls[k - 1].SetMsec? ==> run[k - 1].nextCb + 1 < UINT32_SPAN
    requires !(calls[k - 1].Return? && calls[k - 1].id == id)
    requires y in run[k - 1].items && y.id == id && y.inCb && Planned(run, calls, id, j, k - 1, y)
    ensures x in run[k].items && x.id == id && Planned(run, calls, id, j, k, x)
    ensures NotArmed(run[k - 1].env, run[k].env, id)
  {
    hide Inv, Apply, SetTarget, NotArmed;
    var s, call := run[k - 1], calls[k - 1];
    if SetTarget(s, call) == Some(id) {
      assert call.SetMsec? by { TargetIsSet(s, call); }
      SetPlans(s, call, y);
      NothingArmed(s, run[k], id);
      x :| x in run[k].items && x.id == id && Plan(x) == (true, call.timeout, run[k].nextCb);
    } else {
      StepKeeps(s, call, y);
      x :| x in run[k].items && x.id == id && Plan(x) == Plan(y);
    }
  }

  lemma TargetIsSet(s: State, call: Call)
    ensures SetTarget(s, call).Some? ==> call.SetMsec?
  {
  }

  lemma NothingArmed(s: State, t: State, id: nat)
    requires t.env.armed == s.env.armed
    ensures NotArmed(s.env, t.env, id)
  {
  }

  /** While a callback runs, nothing is armed for its timer, and the last set stays planned. */
  lemma {:induction false} CallbackWindow(run: seq<State>, calls: seq<Call>, id: nat, j: nat, k: nat) returns (x: Item)
    requires InCallback(run, calls, id, j, k)
    ensures x in run[k].items && x.id == id && x.inCb
    ensures Planned(run, calls, id, j, k, x)
    ensures NotArmed(run[j + 1].env, run[k].env, id)
    decreases k
  {
    hide Inv, Sets, Starts, Apply, Grows;
    assert Follows(run[k - 1], calls[k - 1], run[k]);
    RunInv(run, calls, k - 1);
    RunInv(run, calls, k);
    if k == j + 1 {
      CallbackBegun(run[j], calls[j], id);
      x :| x in run[k].items && x.id == id && !x.setPending;
    } else {
      var y := CallbackWindow(run, calls, id, j, k - 1);
      LastSets(calls, k);
      SetsPrefix(calls, k);
      x := PlanStep(run, calls, id, j, k, y);
      RunGrows(run, calls, j + 1, k - 1);
      RunGrows(run, calls, k - 1, k);
      NotArmedTrans(run[j + 1], run[k - 1], run[k], id);
    }
    StillInCallback(run, calls, id, j, k, x);
  }

  lemma NotArmedTrans(s: State, t: State, u: State, id: nat)
    requires Grows(s, t) && Grows(t, u)
    requires NotArmed(s.env, t.env, id) && NotArmed(t.env, u.env, id)
    ensures NotArmed(s.env, u.env, id)
  {
  }

  /** Only the return of the callback takes the timer off the running ones. */
  lemma {:induction false} StillRunning(run: seq<State>, calls: seq<Call>, id: nat, j: nat, k: nat)
    requires InCallback(run, calls, id, j, k)
    ensures id in run[k].env.running
    decreases k
  {
    hide Sets, Apply;
    if k > j + 1 {
      StillRunning(run, calls, id, j, k - 1);
      assert Follows(run[k - 1], calls[k - 1], run[k]);
      OnlyReturnStops(run[k - 1], calls[k - 1], id);
    }
  }

  lemma OnlyReturnStops(s: State, call: Call, id: nat)
    requires Enabled(s, call) && !(call.Return? && call.id == id)
    ensures Apply(s, call).0.env.running[id] >= s.env.running[id]
  {
    hide FindByCb, FindById, Without, DoInitCreate, DoKill, DoSetMsec;
    if !call.Return? && !call.Deliver? {
      OthersKeepRunning(s, call);
    }
  }

  lemma StillInCallback(run: seq<State>, calls: seq<Call>, id: nat, j: nat, k: nat, x: Item)
    requires InCallback(run, calls, id, j, k) && x in run[k].items && x.id == id
    ensures x.inCb
  {
    hide Sets;
    StillRunning(run, calls, id, j, k);
    RunInv(run, calls, k);
    IsRunning(run[k], x);
  }

  lemma IsRunning(s: State, x: Item)
    requires Inv(s) && x in s.items
    ensures x.inCb <==> x.id in s.env.running
  {
  }

  /**
   * When a callback returns, exactly the last set made since it began is handed to the OS, with its
   * own handle and timeout, and nothing if there was none; nothing was handed over for the timer in
   * between. If the timer was killed meanwhile, it is freed instead and nothing is handed over.
   */
  lemma LastSetWins(run: seq<State>, calls: seq<Call>, id: nat, j: nat, k: nat)
    requires k < |calls| && InCallback(run, calls, id, j, k)
    requires calls[k].Return? && calls[k].id == id
    ensures NotArmed(run[j + 1].env, run[k].env, id)
    ensures var s, t, last := run[k], run[k + 1], LastSet(run, calls, id, j + 1, k);
      if id in s.env.killed then id in t.env.freed && t.env.armed == s.env.armed
      else if last == None || !calls[k].osAccepts then t.env.armed == s.env.armed
      else
        && calls[last.value].SetMsec?
        && t.env.lastArmed == (run[last.value + 1].nextCb, calls[last.value].timeout)
        && t.env.armed == s.env.armed + {run[last.value + 1].nextCb}
  {
    hide Inv, Sets, Starts, SetTarget;
    assert Follows(run[k], calls[k], run[k + 1]);
    var x := CallbackWindow(run, calls, id, j, k);
    RunInv(run, calls, k);
    ReturnEffect(run[k], id, calls[k].osAccepts, x);
  }

  lemma ReturnEffect(s: State, id: nat, osAccepts: bool, x: Item)
    requires Inv(s) && id in s.env.running && x in s.items && x.id == id
    ensures var t := DoReturn(s, id, osAccepts).0;
      if id in s.env.killed then id in t.env.freed && t.env.armed == s.env.armed
      else if !x.setPending || !osAccepts then t.env.armed == s.env.armed
      else t.env.lastArmed == (x.pendingCb, x.pendingTimeout) && t.env.armed == s.env.armed + {x.pendingCb}
  {
    hide Inv, FindById, Without;
    var i := FindById(s.items, id);
    var j :| 0 <= j < |s.items| && s.items[j] == x;
    SameItem(s, i, x);
    ItemFacts(s, i);
  }

  // ----- events -----

  /**
   * No event is set more often than it was passed to kill; those not set yet are held by listed
   * timers whose callback is still running, so once no callback runs all of them have been set.
   */
  lemma EventsSetOnce(run: seq<State>, calls: seq<Call>, k: nat)
    requires IsRun(run, calls) && k < |run|
    ensures var s := run[k];
      && s.env.passed == s.env.signaled + Held(s.items)
      && (forall x :: x in s.items && x.waiters != [] ==> x.inCb && x.marked && x.id in s.env.running)
      && (s.env.running == multiset{} ==> s.env.signaled == s.env.passed)
  {
    RunInv(run, calls, k);
    if run[k].env.running == multiset{} {
      NothingHeld(run[k].items);
    }
  }

  lemma {:induction false} NothingHeld(items: seq<Item>)
    requires forall x :: x in items ==> x.waiters == []
    ensures Held(items) == multiset{}
  {
    if items != [] {
      NothingHeld(items[1..]);
    }
  }

  /**
   * A step that sets events is either a failing kill, which sets its own event, or the destruction
   * of one timer, whose callback is not running, that was killed and never freed before; it sets
   * all the events which that timer holds and the one passed to the kill, each once.
   */
  lemma EventsAreSetAtTheEnd(s: State, call: Call)
    requires Inv(s) && Enabled(s, call)
    ensures var (t, rc) := Apply(s, call);
      var given := if call.Kill? then Given(call.event) else multiset{};
      || (t.env.signaled == s.env.signaled && t.env.freed == s.env.freed)
      || (call.Kill? && rc != Ok && t.env.signaled == s.env.signaled + given && t.items == s.items)
      || (rc == Ok && exists x :: && x in s.items && x.id in t.env.killed && x.id !in s.env.freed
                                  && t.env.freed == s.env.freed + {x.id} && x.id !in t.env.running
                                  && t.env.signaled == s.env.signaled + (multiset(x.waiters) + given))
  {
    hide Inv, Find, FindByCb, FindById, NextHandle, Without, Held, DoInitCreate, DoKill, DoReturn, DoSetMsec;
    match call
    case Kill(timer, event) => KillSignals(s, timer, event);
    case Return(id, osAccepts) => ReturnSignals(s, id, osAccepts);
    case InitCreate => CreateSignals(s);
    case SetMsec(timer, timeout, osAccepts) => SetSignals(s, timer, timeout, osAccepts);
    case _ =>
  }

  lemma CreateSignals(s: State)
    ensures DoInitCreate(s).0.env == s.env
  {
    hide NextHandle;
  }

  lemma SetSignals(s: State, timer: Option<nat>, timeout: nat, osAccepts: bool)
    ensures var t := DoSetMsec(s, timer, timeout, osAccepts).0;
      t.env.signaled == s.env.signaled && t.env.freed == s.env.freed
  {
    hide Find;
  }

  lemma KillSignals(s: State, timer: Option<nat>, event: Option<nat>)
    requires Inv(s)
    ensures var (t, rc) := DoKill(s, timer, event);
      || (t.env.signaled == s.env.signaled && t.env.freed == s.env.freed)
      || (rc != Ok && t.env.signaled == s.env.signaled + Given(event) && t.items == s.items)
      || (rc == Ok && exists x :: && x in s.items && x.id in t.env.killed && x.id !in s.env.freed
                                  && t.env.freed == s.env.freed + {x.id} && x.id !in t.env.running
                                  && t.env.signaled == s.env.signaled + (multiset(x.waiters) + Given(event)))
  {
    hide Inv, Find, Held, Without;
    if s.enabled && timer.Some? && Find(s.items, timer.value) < |s.items| {
      hide DoKill;
      var i := Find(s.items, timer.value);
      ItemFacts(s, i);
      KillFinds(s, i, timer, event);
      if !s.items[i].inCb {
        hide KillAt;
        KillNow(s, i, timer, event);
        assert s.items[i] in s.items;
      }
    }
  }

  lemma ReturnSignals(s: State, id: nat, osAccepts: bool)
    requires Inv(s) && id in s.env.running
    ensures var (t, rc) := DoReturn(s, id, osAccepts);
      || (t.env.signaled == s.env.signaled && t.env.freed == s.env.freed)
      || (rc == Ok && exists x :: && x in s.items && x.id in t.env.killed && x.id !in s.env.freed
                                  && t.env.freed == s.env.freed + {x.id} && x.id !in t.env.running
                                  && t.env.signaled == s.env.signaled + (multiset(x.waiters) + multiset{}))
  {
    hide Inv, FindById, Held, Without;
    var i := FindById(s.items, id);
    if i < |s.items| {
      ItemFacts(s, i);
      if s.items[i].marked {
        EndMarked(s, i, id, osAccepts);
        assert s.items[i] in s.items;
      }
    }
  }
}
