/**
 * What each call of the timer manager achieves in a run, said of the state it finds and the arguments it
 * is given: when a set arms a timer and with what timeout, which delivery starts a callback, what a kill
 * does at once and what it leaves to the callback's end, and when an init succeeds.
 */
module TimerEffects {
  import opened Base
  import opened TimerSpec
  import opened TimerProofs
  import opened TimerRuns
  import opened TimerHandles

  /** The first listed timer with the handle `h` is at position `i`. */
  predicate IsListed(s: State, i: nat, h: nat) {
    i < |s.items| && s.items[i].handle == h && forall j :: 0 <= j < i ==> s.items[j].handle != h
  }

  predicate HasNone(s: State, h: nat) {
    forall j :: 0 <= j < |s.items| ==> s.items[j].handle != h
  }

  /** A manager with timers has been enabled. */
  ghost predicate EnabledOk(s: State) {
    s.items != [] || s.inFlight != [] ==> s.enabled
  }

  lemma StaysEnabled(s: State, call: Call)
    requires EnabledOk(s) && Enabled(s, call)
    ensures EnabledOk(Apply(s, call).0)
  {
    hide NextHandle, Find, FindByCb, FindById, Without, MarkedBy;
  }

  lemma {:induction false} RunEnabled(run: seq<State>, calls: seq<Call>, k: nat)
    requires IsTrace(run, calls) && k < |run|
    ensures EnabledOk(run[k])
    decreases k
  {
    if k > 0 {
      hide Apply, Enabled, EnabledOk;
      RunEnabled(run, calls, k - 1);
      assert Follows(run[k - 1], calls[k - 1], run[k]);
      StaysEnabled(run[k - 1], calls[k - 1]);
    }
  }

  /** What a call in a run may rely on. */
  lemma AtCall(run: seq<State>, calls: seq<Call>, k: nat)
    requires IsRun(run, calls) && k < |calls|
    ensures Inv(run[k]) && EnabledOk(run[k])
    ensures Enabled(run[k], calls[k]) && run[k + 1] == Apply(run[k], calls[k]).0
    ensures calls[k].SetMsec? ==> run[k].nextCb + 1 < UINT32_SPAN
  {
    hide Inv, EnabledOk, Apply;
    assert Follows(run[k], calls[k], run[k + 1]);
    RunInv(run, calls, k);
    RunEnabled(run, calls, k);
    LastSets(calls, k + 1);
    SetsPrefix(calls, k + 1);
  }

  // ----- sets -----

  lemma SetOnListed(s: State, i: nat, h: nat, timeout: nat, osAccepts: bool)
    requires Inv(s) && s.enabled && s.nextCb + 1 < UINT32_SPAN && IsListed(s, i, h) && timeout != 0
    requires s.items[i].id !in s.env.killed
    ensures var id, (t, rc) := s.items[i].id, DoSetMsec(s, Some(h), timeout, osAccepts);
      && t.env.latest == s.env.latest[id := t.nextCb] && t.nextCb !in s.env.armed
      && (rc == Ok <==> id in s.env.running || osAccepts)
      && t.env.armed == s.env.armed + (if rc == Ok && id !in s.env.running then {t.nextCb} else {})
      && t.env.lastArmed == (if rc == Ok && id !in s.env.running then (t.nextCb, timeout) else s.env.lastArmed)
  {
    hide Held, IdsOk, CbsOk, KilledOk, RunningOk, EventsOk;
    ItemFacts(s, i);
    assert Find(s.items, h) == i;
    hide Find;
  }

  /**
   * A set of a listed timer that was not killed, outside its callback: if the OS accepts it returns Ok and
   * hands over exactly one handle, a new one, with the given timeout; otherwise it hands over nothing and
   * does not return Ok. Inside the callback it returns Ok and hands over nothing yet.
   */
  lemma SetArms(run: seq<State>, calls: seq<Call>, k: nat, i: nat, h: nat, timeout: nat, osAccepts: bool)
    requires IsRun(run, calls) && k < |calls| && calls[k] == SetMsec(Some(h), timeout, osAccepts) && timeout != 0
    requires IsListed(run[k], i, h) && run[k].items[i].id !in run[k].env.killed
    ensures var s, t, id, rc := run[k], run[k + 1], run[k].items[i].id, Apply(run[k], calls[k]).1;
      && t.env.latest == s.env.latest[id := t.nextCb] && t.nextCb !in s.env.armed
      && (id !in s.env.running && osAccepts ==>
            rc == Ok && t.env.armed == s.env.armed + {t.nextCb} && t.env.lastArmed == (t.nextCb, timeout))
      && (id !in s.env.running && !osAccepts ==>
            rc != Ok && t.env.armed == s.env.armed && t.env.lastArmed == s.env.lastArmed)
      && (id in s.env.running ==>
            rc == Ok && t.env.armed == s.env.armed && t.env.lastArmed == s.env.lastArmed)
  {
    AtCall(run, calls, k);
    hide IsRun, Inv;
    SetOnListed(run[k], i, h, timeout, osAccepts);
  }

  /** There is no timer with this handle that a set could still reach. */
  ghost predicate OutOfReach(s: State, h: nat) {
    HasNone(s, h) || exists i: nat :: IsListed(s, i, h) && s.items[i].id in s.env.killed
  }

  lemma NotFound(s: State, h: nat)
    requires Inv(s) && OutOfReach(s, h)
    ensures Find(s.items, h) == |s.items| || s.items[Find(s.items, h)].marked
  {
    var i := Find(s.items, h);
    if i < |s.items| {
      ItemFacts(s, i);
      hide Find, Inv;
      var j: nat :| IsListed(s, j, h) && s.items[j].id in s.env.killed;
      assert i == j;
    }
  }

  lemma SetOutOfReach(s: State, timer: Option<nat>, timeout: nat, osAccepts: bool)
    requires Inv(s) && (timer == None || timeout == 0 || OutOfReach(s, timer.value))
    ensures DoSetMsec(s, timer, timeout, osAccepts) ==
      (s, if timer == None then ParameterIsNull
          else if timeout == 0 then RequestDataOutOfBounds
          else if s.enabled then InvalidHandle else Unspecified)
  {
    if timer.Some? && timeout != 0 { NotFound(s, timer.value); }
    hide Inv, Find, OutOfReach, ArmPending;
  }

  /** In every other case a set fails and changes nothing. */
  lemma SetFails(run: seq<State>, calls: seq<Call>, k: nat)
    requires IsRun(run, calls) && k < |calls| && calls[k].SetMsec?
    requires calls[k].timer == None || calls[k].timeout == 0 || OutOfReach(run[k], calls[k].timer.value)
    ensures Apply(run[k], calls[k]).1 ==
      if calls[k].timer == None then ParameterIsNull
      else if calls[k].timeout == 0 then RequestDataOutOfBounds
      else if run[k].enabled then InvalidHandle else Unspecified
    ensures run[k + 1] == run[k]
  {
    AtCall(run, calls, k);
    hide IsRun, Inv, OutOfReach, DoSetMsec, EnabledOk;
    SetOutOfReach(run[k], calls[k].timer, calls[k].timeout, calls[k].osAccepts);
  }

  // ----- deliveries -----

  /** A timer's latest handle is the one it waits for, until that has started a callback. */
  ghost predicate LatestOk(s: State) {
    && (forall id :: id in s.env.latest ==> id < s.nextId)
    && (forall x :: x in s.inFlight ==> x.id !in s.env.latest)
    && forall x :: x in s.items && x.id in s.env.latest ==>
         x.cbHandle == s.env.latest[x.id] || s.env.latest[x.id] in s.env.begun
  }

  /** Items with the identity and the callback handle of one of `before`, except one of them. */
  ghost predicate SameWaits(items: seq<Item>, before: seq<Item>) {
    forall x :: x in items ==> exists y :: y in before && y.id == x.id && y.cbHandle == x.cbHandle
  }

  lemma KillWaits(s: State, timer: Option<nat>, event: Option<nat>)
    ensures var t := DoKill(s, timer, event).0;
      && SameWaits(t.items, s.items) && t.inFlight == s.inFlight && t.nextId == s.nextId
      && t.env.latest == s.env.latest && t.env.begun == s.env.begun
  {
    hide Find, SameWaits, KillAt;
    Unchanged(s.items);
    if s.enabled && timer.Some? && Find(s.items, timer.value) < |s.items| {
      var i := Find(s.items, timer.value);
      KillFinds(s, i, timer, event);
      hide DoKill;
      KillAtWaits(s.(env := PassOne(s.env, event)), i, event);
    }
  }

  lemma KillAtWaits(s: State, i: nat, event: Option<nat>)
    requires i < |s.items|
    ensures var t := KillAt(s, i, event);
      && SameWaits(t.items, s.items) && t.inFlight == s.inFlight && t.nextId == s.nextId
      && t.env.latest == s.env.latest && t.env.begun == s.env.begun
  {
    hide Without, SameWaits;
    WithoutUpdated(s.items, i, MarkedBy(s.items[i], event));
    ChangedOrGone(s.items, i, MarkedBy(s.items[i], event));
  }

  lemma Unchanged(items: seq<Item>)
    ensures SameWaits(items, items)
  {
  }

  lemma ChangedOrGone(items: seq<Item>, i: nat, y: Item)
    requires i < |items| && y.id == items[i].id && y.cbHandle == items[i].cbHandle
    ensures SameWaits(items[i := y], items) && SameWaits(Without(items, i), items)
  {
    assert items[i] in items;
    forall x | x in items[i := y]
      ensures exists z :: z in items && z.id == x.id && z.cbHandle == x.cbHandle
    {
      if x != y { assert x in items; }
    }
  }

  lemma ReturnWaits(s: State, id: nat, osAccepts: bool)
    ensures var t := DoReturn(s, id, osAccepts).0;
      && SameWaits(t.items, s.items) && t.inFlight == s.inFlight && t.nextId == s.nextId
      && t.env.latest == s.env.latest && t.env.begun == s.env.begun
  {
    hide FindById, Without;
  }

  lemma CreateLatest(s: State)
    requires LatestOk(s)
    ensures LatestOk(DoInitCreate(s).0)
  {
    hide NextHandle;
  }

  lemma ListLatest(s: State, k: nat)
    requires LatestOk(s) && k < |s.inFlight|
    ensures LatestOk(DoInitList(s, k).0)
  {
    hide Without;
  }

  lemma SetLatest(s: State, timer: Option<nat>, timeout: nat, osAccepts: bool)
    requires Inv(s) && LatestOk(s)
    ensures LatestOk(DoSetMsec(s, timer, timeout, osAccepts).0)
  {
    hide Find, Held, RunningOk, HandlesOk, CbsOk, KilledOk, EventsOk;
    var t := DoSetMsec(s, timer, timeout, osAccepts).0;
    if timer.Some? && timeout != 0 && s.enabled && Find(s.items, timer.value) < |s.items| {
      var i := Find(s.items, timer.value);
      assert s.items[i].id in Ids(s.items);
    }
  }

  lemma DeliverLatest(s: State, h: nat)
    requires Inv(s) && LatestOk(s) && h in s.env.armed
    ensures LatestOk(DoDeliver(s, h).0)
  {
    var i := FindByCb(s.items, h);
    if i < |s.items| { ItemFacts(s, i); }
    hide FindByCb, Held, RunningOk, CbsOk, KilledOk, EventsOk;
  }

  lemma ApplyLatest(s: State, call: Call)
    requires Inv(s) && LatestOk(s) && Enabled(s, call)
    ensures LatestOk(Apply(s, call).0)
  {
    hide DoInitCreate, DoInitList, DoKill, DoSetMsec, DoDeliver, DoReturn, Inv;
    match call
    case InitCreate => CreateLatest(s);
    case InitList(k) => ListLatest(s, k);
    case Kill(timer, event) => KillWaits(s, timer, event);
    case SetMsec(timer, timeout, osAccepts) => SetLatest(s, timer, timeout, osAccepts);
    case Deliver(h) => DeliverLatest(s, h);
    case Return(id, osAccepts) => ReturnWaits(s, id, osAccepts);
  }

  lemma {:induction false} RunLatest(run: seq<State>, calls: seq<Call>, k: nat)
    requires IsRun(run, calls) && k < |run|
    ensures LatestOk(run[k])
    decreases k
  {
    if k > 0 {
      hide IsRun, Apply, Enabled, LatestOk, Inv, EnabledOk;
      RunLatest(run, calls, k - 1);
      AtCall(run, calls, k - 1);
      ApplyLatest(run[k - 1], calls[k - 1]);
    }
  }

  lemma DeliverFinds(s: State, h: nat, id: nat)
    requires Inv(s) && LatestOk(s) && h in s.env.armed
    ensures DoDeliver(s, h).0.env.running[id] > s.env.running[id] <==>
      && id in Ids(s.items) && id !in s.env.killed && id !in s.env.running
      && id in s.env.latest && s.env.latest[id] == h && h !in s.env.begun
    ensures DoDeliver(s, h).0.env.running[id] > s.env.running[id] ==>
      && DoDeliver(s, h).0.env.running == s.env.running + multiset{id}
      && DoDeliver(s, h).0.env.begun == s.env.begun + {h}
  {
    var i := FindByCb(s.items, h);
    if i < |s.items| { ItemFacts(s, i); }
    if id in Ids(s.items) {
      var x :| x in s.items && x.id == id;
      var j :| 0 <= j < |s.items| && s.items[j] == x;
      ItemFacts(s, j);
    }
    hide FindByCb, Held;
  }

  /**
   * A delivery starts the callback of a timer if and only if the timer is listed, was not killed and has no
   * callback running, and the handle is its latest and has started none yet. Then the running callbacks and
   * the used handles grow by exactly that one.
   */
  lemma DeliveryStartsIff(run: seq<State>, calls: seq<Call>, k: nat, h: nat, id: nat)
    requires IsRun(run, calls) && k < |calls| && calls[k] == Deliver(h)
    ensures Enabled(run[k], calls[k])
    ensures var s := run[k];
      Starts(s, calls[k], id) <==>
        && id in Ids(s.items) && id !in s.env.killed && id !in s.env.running
        && id in s.env.latest && s.env.latest[id] == h && h !in s.env.begun
    ensures Starts(run[k], calls[k], id) ==>
      && run[k + 1].env.running == run[k].env.running + multiset{id}
      && run[k + 1].env.begun == run[k].env.begun + {h}
  {
    AtCall(run, calls, k);
    RunLatest(run, calls, k);
    hide IsRun, Inv, LatestOk, EnabledOk, DoDeliver;
    DeliverFinds(run[k], h, id);
  }

  /** A delivery that starts nothing changes nothing. */
  lemma DeliveryOrNothing(run: seq<State>, calls: seq<Call>, k: nat, h: nat)
    requires IsRun(run, calls) && k < |calls| && calls[k] == Deliver(h) && Enabled(run[k], calls[k])
    ensures run[k + 1] == run[k] || exists id :: Starts(run[k], calls[k], id)
  {
    AtCall(run, calls, k);
    var s, i := run[k], FindByCb(run[k].items, h);
    hide IsRun, Inv, EnabledOk, FindByCb;
    if i < |s.items| {
      assert Starts(s, calls[k], s.items[i].id);
    }
  }

  // ----- kills -----

  /** A listed timer is found, and what happens to it depends on whether its callback is running. */
  lemma KillOnListed(s: State, i: nat, h: nat, event: Option<nat>)
    requires Inv(s) && s.enabled && IsListed(s, i, h)
    ensures var x, (t, rc) := s.items[i], DoKill(s, Some(h), event);
      && rc == Ok && t.env.killed == s.env.killed + {x.id}
      && (x.id !in s.env.running ==>
            && t.items == s.items[..i] + s.items[i + 1..] && t.env.freed == s.env.freed + {x.id}
            && t.env.signaled == s.env.signaled + Given(event))
      && (x.id in s.env.running ==>
            && |t.items| == |s.items| && t.items == s.items[i := x.(marked := true, waiters := t.items[i].waiters)]
            && t.items[i].waiters == x.waiters + (if event.Some? then [event.value] else [])
            && t.env.freed == s.env.freed && t.env.signaled == s.env.signaled)
  {
    ItemFacts(s, i);
    assert Find(s.items, h) == i;
    KillFinds(s, i, Some(h), event);
    if s.items[i].inCb {
      hide Find, DoKill, Inv;
    } else {
      hide Held;
      KillNow(s, i, Some(h), event);
    }
  }

  /**
   * A kill of a listed timer returns Ok. If no callback of the timer is running, the timer is off the list
   * and freed at once and the event is set; otherwise it stays, marked, with the event behind those that
   * wait already, and nothing is set yet.
   */
  lemma KillWorks(run: seq<State>, calls: seq<Call>, k: nat, i: nat, h: nat, event: Option<nat>)
    requires IsRun(run, calls) && k < |calls| && calls[k] == Kill(Some(h), event) && IsListed(run[k], i, h)
    ensures Apply(run[k], calls[k]).1 == Ok
    ensures var s, t, x := run[k], run[k + 1], run[k].items[i];
      && t.env.killed == s.env.killed + {x.id}
      && (x.id !in s.env.running ==>
            && t.items == s.items[..i] + s.items[i + 1..] && t.env.freed == s.env.freed + {x.id}
            && t.env.signaled == s.env.signaled + Given(event))
      && (x.id in s.env.running ==>
            && |t.items| == |s.items| && t.items == s.items[i := x.(marked := true, waiters := t.items[i].waiters)]
            && t.items[i].waiters == x.waiters + (if event.Some? then [event.value] else [])
            && t.env.freed == s.env.freed && t.env.signaled == s.env.signaled)
  {
    AtCall(run, calls, k);
    hide IsRun, Inv, DoKill;
    KillOnListed(run[k], i, h, event);
  }

  /** A kill that finds no timer fails; it sets its event and changes nothing else. */
  lemma KillMisses(run: seq<State>, calls: seq<Call>, k: nat, timer: Option<nat>, event: Option<nat>)
    requires IsRun(run, calls) && k < |calls| && calls[k] == Kill(timer, event)
    requires timer == None || HasNone(run[k], timer.value)
    ensures Apply(run[k], calls[k]).1 ==
      if timer == None then ParameterIsNull else if run[k].enabled then InvalidHandle else Unspecified
    ensures run[k + 1] == run[k].(env := run[k].env.(passed := run[k].env.passed + Given(event),
                                                     signaled := run[k].env.signaled + Given(event)))
  {
    AtCall(run, calls, k);
    hide IsRun, Inv, EnabledOk, DoKill;
    MissedKill(run[k], timer, event);
  }

  lemma MissedKill(s: State, timer: Option<nat>, event: Option<nat>)
    requires timer == None || HasNone(s, timer.value)
    ensures DoKill(s, timer, event) ==
      (s.(env := s.env.(passed := s.env.passed + Given(event), signaled := s.env.signaled + Given(event))),
       if timer == None then ParameterIsNull else if s.enabled then InvalidHandle else Unspecified)
  {
    hide KillAt;
    assert timer.Some? ==> Find(s.items, timer.value) == |s.items|;
    hide Find;
    assert s.env.passed + multiset{} == s.env.passed && s.env.signaled + multiset{} == s.env.signaled;
  }

  // ----- inits -----

  /**
   * With fewer than 10000 timers listed an init succeeds, unless the manager is being closed: the timer gets
   * a handle that no listed timer has, and its second half puts it at the end of the list.
   */
  lemma InitWorks(run: seq<State>, calls: seq<Call>, k: nat)
    requires IsRun(run, calls) && k < |calls| && calls[k] == InitCreate
    requires !run[k].closing && |run[k].items| < RETRIES_MAX
    ensures Apply(run[k], calls[k]).1 == Ok
    ensures var s, t := run[k], run[k + 1];
      && t.items == s.items && t.enabled
      && |t.inFlight| == |s.inFlight| + 1 && t.inFlight[..|s.inFlight|] == s.inFlight
      && HasNone(s, t.inFlight[|s.inFlight|].handle)
      && Apply(t, InitList(|s.inFlight|)).0 ==
           t.(items := s.items + [t.inFlight[|s.inFlight|]], inFlight := s.inFlight)
  {
    AtCall(run, calls, k);
    FewTimersSuffice(run[k].items, run[k].nextHandle);
    hide IsRun, Inv, EnabledOk, NextHandle;
  }
}
