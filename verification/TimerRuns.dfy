/**
 * What the timer manager guarantees over whole runs. A run is any sequence of calls, deliveries and
 * callback returns in which the callback handle counter does not wrap: fewer than 2^32 sets.
 */
module TimerRuns {
  import opened Base
  import opened TimerSpec
  import opened TimerProofs

  function Sets(calls: seq<Call>): nat {
    if calls == [] then 0
    else Sets(calls[..|calls| - 1]) + if calls[|calls| - 1].SetMsec? then 1 else 0
  }

  ghost predicate IsTrace(run: seq<State>, calls: seq<Call>) {
    && |run| == |calls| + 1 && Initial(run[0])
    && (forall k :: 0 <= k < |calls| ==> Follows(run[k], calls[k], run[k + 1]))
  }

  ghost predicate IsRun(run: seq<State>, calls: seq<Call>) {
    IsTrace(run, calls) && Sets(calls) < UINT32_SPAN
  }

  ghost predicate Follows(s: State, call: Call, t: State) {
    Enabled(s, call) && t == Apply(s, call).0
  }

  /** One more call. */
  lemma Extend(run: seq<State>, calls: seq<Call>, call: Call) returns (longer: seq<State>)
    requires IsTrace(run, calls) && Enabled(run[|calls|], call)
    ensures longer == run + [Apply(run[|calls|], call).0] && IsTrace(longer, calls + [call])
  {
    longer := run + [Apply(run[|calls|], call).0];
    forall k | 0 <= k < |calls| + 1
      ensures Follows(longer[k], (calls + [call])[k], longer[k + 1])
    {
      if k < |calls| { assert Follows(run[k], calls[k], run[k + 1]); }
    }
  }

  lemma {:induction false} SetsPrefix(calls: seq<Call>, k: nat)
    requires k <= |calls|
    ensures Sets(calls[..k]) <= Sets(calls)
  {
    if k < |calls| {
      SetsPrefix(calls[..|calls| - 1], k);
      assert calls[..|calls| - 1][..k] == calls[..k];
    } else {
      assert calls[..k] == calls;
    }
  }

  lemma InitialInv(s: State)
    requires Initial(s)
    ensures Inv(s)
  {
  }

  lemma {:induction false} RunInv(run: seq<State>, calls: seq<Call>, k: nat)
    requires IsRun(run, calls) && k < |run|
    ensures Inv(run[k]) && run[k].nextCb <= Sets(calls[..k])
    decreases k
  {
    hide Inv, Sets;
    if k == 0 {
      InitialInv(run[0]);
    } else {
      RunInv(run, calls, k - 1);
      var s, call := run[k - 1], calls[k - 1];
      assert Follows(s, call, run[k]);
      LastSets(calls, k);
      SetsPrefix(calls, k);
      NextCbStep(s, call);
      ApplyInv(s, call);
    }
  }

  lemma LastSets(calls: seq<Call>, k: nat)
    requires 0 < k <= |calls|
    ensures Sets(calls[..k]) == Sets(calls[..k - 1]) + if calls[k - 1].SetMsec? then 1 else 0
  {
    assert calls[..k][..k - 1] == calls[..k - 1];
  }

  lemma NextCbStep(s: State, call: Call)
    requires Enabled(s, call) && (call.SetMsec? ==> s.nextCb + 1 < UINT32_SPAN)
    ensures s.nextCb <= Apply(s, call).0.nextCb <= s.nextCb + if call.SetMsec? then 1 else 0
  {
    hide Find, FindByCb, FindById, NextHandle, Without;
  }

  // ----- what only grows -----

  ghost predicate Grows(s: State, t: State) {
    && s.env.killed <= t.env.killed && s.env.freed <= t.env.freed
    && s.env.armed <= t.env.armed && s.env.begun <= t.env.begun
    && (forall h :: h in s.env.owner ==> h in t.env.owner && t.env.owner[h] == s.env.owner[h])
    && (forall id :: id in s.env.latest ==> id in t.env.latest && s.env.latest[id] <= t.env.latest[id])
  }

  lemma ApplyGrows(s: State, call: Call)
    requires HandlesOk(s) && Enabled(s, call) && (call.SetMsec? ==> s.nextCb + 1 < UINT32_SPAN)
    ensures Grows(s, Apply(s, call).0)
  {
    hide Grows, HandlesOk, DoKill, DoDeliver, DoReturn, DoSetMsec, NextHandle, Without;
    match call
    case SetMsec(_, _, _) => SetMsecGrows(s, call);
    case Kill(timer, event) => KillGrows(s, timer, event);
    case Deliver(h) => DeliverGrows(s, h);
    case Return(id, osAccepts) => ReturnGrows(s, id, osAccepts);
    case _ => OtherGrows(s, Apply(s, call).0);
  }

  lemma KillGrows(s: State, timer: Option<nat>, event: Option<nat>)
    ensures Grows(s, DoKill(s, timer, event).0)
  {
    hide Grows, Find, MarkedBy, Destroy;
    var t := DoKill(s, timer, event).0;
    if s.enabled && timer.Some? && Find(s.items, timer.value) < |s.items| {
      var i := Find(s.items, timer.value);
      var u := s.(items := s.items[i := MarkedBy(s.items[i], event)],
                  env := PassOne(s.env, event).(killed := s.env.killed + {s.items[i].id}));
      DestroyGrows(u, i);
      assert t == u || t == Destroy(u, i);
    }
    OtherGrows(s, t);
  }

  lemma DestroyGrows(s: State, i: nat)
    requires i < |s.items|
    ensures var e := Destroy(s, i).env;
      && e.owner == s.env.owner && e.latest == s.env.latest && e.killed == s.env.killed
      && e.armed == s.env.armed && e.begun == s.env.begun && s.env.freed <= e.freed
  {
  }

  lemma DeliverGrows(s: State, h: nat)
    ensures Grows(s, DoDeliver(s, h).0)
  {
    hide Grows, FindByCb;
    OtherGrows(s, DoDeliver(s, h).0);
  }

  lemma ReturnGrows(s: State, id: nat, osAccepts: bool)
    ensures Grows(s, DoReturn(s, id, osAccepts).0)
  {
    hide Grows, FindById, Without;
    OtherGrows(s, DoReturn(s, id, osAccepts).0);
  }

  lemma SetMsecGrows(s: State, call: Call)
    requires HandlesOk(s) && call.SetMsec? && s.nextCb + 1 < UINT32_SPAN
    ensures Grows(s, Apply(s, call).0)
  {
    hide Find, HandlesOk, Grows;
    var t := Apply(s, call).0;
    if t.nextCb != s.nextCb {
      SetGrows(s, t, s.items[Find(s.items, call.timer.value)].id);
    } else {
      OtherGrows(s, t);
    }
  }

  lemma OtherGrows(s: State, t: State)
    requires t.env.owner == s.env.owner && t.env.latest == s.env.latest
    requires s.env.killed <= t.env.killed && s.env.freed <= t.env.freed
    requires s.env.armed <= t.env.armed && s.env.begun <= t.env.begun
    ensures Grows(s, t)
  {
  }

  lemma SetGrows(s: State, t: State, id: nat)
    requires HandlesOk(s) && t.nextCb == s.nextCb + 1
    requires t.env.owner == s.env.owner[t.nextCb := id] && t.env.latest == s.env.latest[id := t.nextCb]
    requires s.env.killed <= t.env.killed && s.env.freed <= t.env.freed
    requires s.env.armed <= t.env.armed && s.env.begun <= t.env.begun
    ensures Grows(s, t)
  {
  }

  lemma {:induction false} RunGrows(run: seq<State>, calls: seq<Call>, j: nat, k: nat)
    requires IsRun(run, calls) && j <= k < |run|
    ensures Grows(run[j], run[k])
    decreases k
  {
    if j < k {
      hide Inv, Sets;
      RunGrows(run, calls, j, k - 1);
      RunInv(run, calls, k - 1);
      LastSets(calls, k);
      SetsPrefix(calls, k);
      assert Follows(run[k - 1], calls[k - 1], run[k]);
      assert HandlesOk(run[k - 1]) by { InvHandles(run[k - 1]); }
      ApplyGrows(run[k - 1], calls[k - 1]);
    }
  }

  lemma InvHandles(s: State)
    requires Inv(s)
    ensures HandlesOk(s)
  {
  }

  // ----- callbacks -----

  /** The call makes a callback of this timer begin. */
  ghost predicate Starts(s: State, call: Call, id: nat)
    requires Enabled(s, call)
  {
    Apply(s, call).0.env.running[id] > s.env.running[id]
  }

  /** Only the delivery of a timer's latest, unused handle starts its callback, and never a second one. */
  lemma StartFacts(s: State, call: Call, id: nat)
    requires Inv(s) && Enabled(s, call) && Starts(s, call, id)
    ensures call.Deliver? && call.cbHandle in s.env.armed
    ensures id in s.env.latest && s.env.latest[id] == call.cbHandle
    ensures call.cbHandle !in s.env.begun && call.cbHandle in Apply(s, call).0.env.begun
    ensures s.env.running[id] == 0 && id !in s.env.killed
  {
    hide FindByCb, Inv, DoInitCreate, DoInitList, DoKill, DoSetMsec, DoReturn;
    OnlyDeliveryStarts(s, call);
    if call.Deliver? {
      var i := FindByCb(s.items, call.cbHandle);
      if i < |s.items| {
        ItemFacts(s, i);
        assert call.cbHandle in s.env.owner by { InvHandles(s); }
        NeverZero(s);
      }
    }
  }

  lemma OnlyDeliveryStarts(s: State, call: Call)
    requires Enabled(s, call)
    ensures call.Deliver? || Apply(s, call).0.env.running <= s.env.running
  {
    hide FindById, Without, DoInitCreate, DoKill, DoSetMsec;
    if !call.Return? && !call.Deliver? {
      OthersKeepRunning(s, call);
    }
  }

  /** Only the two halves of the OS callback touch the running callbacks. */
  lemma OthersKeepRunning(s: State, call: Call)
    requires Enabled(s, call) && !call.Deliver? && !call.Return?
    ensures Apply(s, call).0.env.running == s.env.running
  {
    hide NextHandle, DoKill, DoSetMsec;
    match call
    case Kill(timer, event) => KillKeepsRunning(s, timer, event);
    case SetMsec(timer, timeout, osAccepts) => SetKeepsRunning(s, timer, timeout, osAccepts);
    case _ =>
  }

  lemma KillKeepsRunning(s: State, timer: Option<nat>, event: Option<nat>)
    ensures DoKill(s, timer, event).0.env.running == s.env.running
  {
    hide Find, Without, MarkedBy;
  }

  lemma SetKeepsRunning(s: State, timer: Option<nat>, timeout: nat, osAccepts: bool)
    ensures DoSetMsec(s, timer, timeout, osAccepts).0.env.running == s.env.running
  {
    hide Find;
  }

  lemma NeverZero(s: State)
    requires Inv(s)
    ensures 0 !in s.env.armed
  {
  }

  lemma OneCallbackAtATime(run: seq<State>, calls: seq<Call>, k: nat, id: nat)
    requires IsRun(run, calls) && k < |run|
    ensures var s := run[k];
      && s.env.running[id] <= 1
      && (id in s.env.running ==>
            && id !in s.env.freed
            && exists i :: 0 <= i < |s.items| && s.items[i].id == id && s.items[i].inCb)
  {
    RunInv(run, calls, k);
    var s := run[k];
    if id in s.env.running {
      assert id in Ids(s.items);
    }
  }

  /** Once a kill has returned Ok, no callback of the timer it found begins any more. */
  lemma KillIsFinal(run: seq<State>, calls: seq<Call>, j: nat, k: nat, timer: Option<nat>, event: Option<nat>)
    requires IsRun(run, calls) && j < k < |calls|
    requires calls[j] == Kill(timer, event) && Apply(run[j], calls[j]).1 == Ok
    ensures timer.Some? && Find(run[j].items, timer.value) < |run[j].items|
    ensures Enabled(run[k], calls[k])
    ensures !Starts(run[k], calls[k], run[j].items[Find(run[j].items, timer.value)].id)
  {
    hide Inv, Sets;
    var i := Find(run[j].items, timer.value);
    assert Follows(run[j], calls[j], run[j + 1]) && Follows(run[k], calls[k], run[k + 1]);
    var id := run[j].items[i].id;
    KillRecords(run[j], timer, event);
    RunGrows(run, calls, j + 1, k);
    RunInv(run, calls, k);
    if Starts(run[k], calls[k], id) {
      StartFacts(run[k], calls[k], id);
    }
  }

  lemma KillRecords(s: State, timer: Option<nat>, event: Option<nat>)
    requires DoKill(s, timer, event).1 == Ok
    ensures timer.Some? && Find(s.items, timer.value) < |s.items|
    ensures s.items[Find(s.items, timer.value)].id in DoKill(s, timer, event).0.env.killed
  {
    hide Find, MarkedBy, Without;
  }

  // ----- sets -----

  /** The timer that a call of set_msec reaches, if it reaches one. */
  function SetTarget(s: State, call: Call): Option<nat> {
    if !call.SetMsec? || call.timer == None || call.timeout == 0 || !s.enabled then None
    else
      var i := Find(s.items, call.timer.value);
      if i == |s.items| || s.items[i].marked then None else Some(s.items[i].id)
  }

  /** Such a call issues a handle of its own to that timer. */
  lemma SetIssues(s: State, call: Call, id: nat)
    requires HandlesOk(s) && Enabled(s, call) && SetTarget(s, call) == Some(id) && s.nextCb + 1 < UINT32_SPAN
    ensures var t := Apply(s, call).0;
      && t.nextCb == s.nextCb + 1 && t.nextCb !in s.env.owner
      && id in t.env.latest && t.env.latest[id] == t.nextCb
      && t.nextCb in t.env.owner && t.env.owner[t.nextCb] == id
  {
    hide Find;
  }

  lemma RunIssues(run: seq<State>, calls: seq<Call>, k: nat, id: nat)
    requires IsRun(run, calls) && k < |calls| && SetTarget(run[k], calls[k]) == Some(id)
    ensures var s, t := run[k], run[k + 1];
      && t.nextCb == s.nextCb + 1 && t.nextCb !in s.env.owner
      && id in t.env.latest && t.env.latest[id] == t.nextCb
      && t.nextCb in t.env.owner && t.env.owner[t.nextCb] == id
  {
    hide Inv, Sets;
    RunInv(run, calls, k);
    LastSets(calls, k + 1);
    SetsPrefix(calls, k + 1);
    assert Follows(run[k], calls[k], run[k + 1]);
    InvHandles(run[k]);
    SetIssues(run[k], calls[k], id);
  }

  /** Every handle, hence every set, starts at most one callback, however often the OS delivers it. */
  lemma SetFiresAtMostOnce(run: seq<State>, calls: seq<Call>, j: nat, k: nat, id: nat, other: nat)
    requires IsRun(run, calls) && j < k < |calls| && calls[j] == calls[k]
    requires Enabled(run[j], calls[j]) && Starts(run[j], calls[j], id)
    ensures Enabled(run[k], calls[k]) && !Starts(run[k], calls[k], other)
  {
    hide Inv, Sets;
    assert Follows(run[j], calls[j], run[j + 1]) && Follows(run[k], calls[k], run[k + 1]);
    RunInv(run, calls, j);
    StartFacts(run[j], calls[j], id);
    RunGrows(run, calls, j + 1, k);
    RunInv(run, calls, k);
    if Starts(run[k], calls[k], other) {
      StartFacts(run[k], calls[k], other);
    }
  }

  /** After a later set of the same timer, the delivery of an earlier set's handle starts nothing. */
  lemma SupersededNeverFires(run: seq<State>, calls: seq<Call>, j: nat, m: nat, k: nat, id: nat, other: nat)
    requires IsRun(run, calls) && j < m < k < |calls|
    requires SetTarget(run[j], calls[j]) == Some(id) && SetTarget(run[m], calls[m]) == Some(id)
    requires calls[k] == Deliver(run[j + 1].nextCb)
    ensures Enabled(run[k], calls[k]) && !Starts(run[k], calls[k], other)
  {
    hide Inv, Sets;
    assert Follows(run[k], calls[k], run[k + 1]);
    RunIssues(run, calls, j, id);
    RunIssues(run, calls, m, id);
    RunGrows(run, calls, j + 1, m);
    RunGrows(run, calls, m + 1, k);
    RunInv(run, calls, m);
    InvHandles(run[m]);
    RunInv(run, calls, k);
    InvHandles(run[k]);
    if Starts(run[k], calls[k], other) {
      StartFacts(run[k], calls[k], other);
    }
  }
}
