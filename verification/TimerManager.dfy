/**
 * The functions of Common/esif_ccb_timer.c on the manager's own data: timer objects whose fields
 * are updated in place, the list of them, and the two handle counters. Every method is proved to do
 * to `View()` exactly what the corresponding step of TimerSpec does.
 *
 * `osAccepts` stands for the OS timer's answer when a timeout is handed to it.
 */
module TimerManager {
  import opened Base
  import opened TimerSpec

  class Timer {
    ghost const id: nat
    const handle: nat
    var cbHandle: nat
    var inCb: bool
    var marked: bool
    var waiters: seq<nat>
    var setPending: bool
    var pendingTimeout: nat
    var pendingCb: nat

    constructor (ghost id: nat, handle: nat)
      ensures View() == Item(id, handle, 0, false, false, [], false, 0, 0)
    {
      this.id, this.handle := id, handle;
      cbHandle, inCb, marked, waiters := 0, false, false, [];
      setPending, pendingTimeout, pendingCb := false, 0, 0;
    }

    ghost function View(): Item
      reads this
    {
      Item(id, handle, cbHandle, inCb, marked, waiters, setPending, pendingTimeout, pendingCb)
    }
  }

  ghost function Views(timers: seq<Timer>): (r: seq<Item>)
    reads timers
    ensures |r| == |timers| && forall i :: 0 <= i < |timers| ==> r[i] == timers[i].View()
  {
    if timers == [] then [] else [timers[0].View()] + Views(timers[1..])
  }

  /** One more attempt of get_next_handle. */
  lemma Attempt(items: seq<Item>, counter: nat, tries: nat)
    requires tries < RETRIES_MAX
    ensures var h := Increment(counter);
      NextHandle(items, counter, tries) ==
      if Find(items, h) == |items| then (h, true)
      else if tries + 1 < RETRIES_MAX then NextHandle(items, h, tries + 1)
      else (h, false)
  {
  }

  class Manager {
    var enabled: bool
    var closing: bool
    var timers: seq<Timer>
    var nextHandle: nat
    var nextCb: nat
    ghost var inFlight: seq<Timer>
    ghost var nextId: nat
    ghost var env: Env

    ghost predicate Valid()
      reads this
    {
      && (forall i, j :: 0 <= i < j < |timers| ==> timers[i] != timers[j])
      && (forall x :: x in timers ==> x !in inFlight)
    }

    ghost function View(): State
      reads this, timers, inFlight
    {
      State(enabled, closing, Views(timers), nextHandle, nextCb, Views(inFlight), nextId, env)
    }

    constructor ()
      ensures Valid() && Initial(View())
    {
      enabled, closing, timers, nextHandle, nextCb := false, false, [], 0, 0;
      inFlight, nextId := [], 0;
      env := Env({}, (0, 0), multiset{}, {}, {}, multiset{}, multiset{}, {}, map[], map[]);
    }

    // ----- looking things up -----

    method FindTimer(handle: nat) returns (i: nat)
      ensures i == Find(View().items, handle)
    {
      i := 0;
      while i < |timers| && timers[i].handle != handle
        invariant i <= |timers|
        invariant forall j :: 0 <= j < i ==> timers[j].handle != handle
      {
        i := i + 1;
      }
    }

    method FindTimerByCb(cbHandle: nat) returns (i: nat)
      ensures i == FindByCb(View().items, cbHandle)
    {
      i := 0;
      while i < |timers| && timers[i].cbHandle != cbHandle
        invariant i <= |timers|
        invariant forall j :: 0 <= j < i ==> timers[j].cbHandle != cbHandle
      {
        i := i + 1;
      }
    }

    method GetNextHandle() returns (handle: nat, rc: Rc)
      modifies this`nextHandle
      ensures var (h, ok) := NextHandle(View().items, old(nextHandle), 0);
        nextHandle == h && rc == (if ok then Ok else Unspecified) && (ok ==> handle == h)
    {
      hide NextHandle, Find, Views, Increment;
      ghost var items := View().items;
      ghost var result := NextHandle(items, nextHandle, 0);
      Attempt(items, nextHandle, 0);
      handle, rc := 0, Ok;
      var tries := 1;
      nextHandle := Increment(nextHandle);
      var at := FindTimer(nextHandle);
      while at < |timers| && tries < RETRIES_MAX
        invariant 1 <= tries <= RETRIES_MAX && View().items == items
        invariant at == Find(items, nextHandle)
        invariant result == if at == |items| then (nextHandle, true)
                            else if tries < RETRIES_MAX then NextHandle(items, nextHandle, tries)
                            else (nextHandle, false)
        decreases RETRIES_MAX - tries
      {
        Attempt(items, nextHandle, tries);
        tries := tries + 1;
        nextHandle := Increment(nextHandle);
        at := FindTimer(nextHandle);
      }
      if at < |timers| {
        rc := Unspecified;
        return;
      }
      handle := nextHandle;
    }

    method GetNextCbHandle() returns (handle: nat)
      modifies this`nextCb
      ensures nextCb == NextCb(old(nextCb)) && handle == nextCb
    {
      nextCb := Increment(nextCb);
      if nextCb == 0 {
        nextCb := nextCb + 1;
      }
      handle := nextCb;
    }

    // ----- init -----

    /** The part of init up to and including get_next_handle. */
    method CreateItem() returns (item: Timer?, rc: Rc)
      requires Valid()
      modifies this
      ensures Valid() && (View(), rc) == DoInitCreate(old(View()))
      ensures timers == old(timers) && (rc == Ok <==> item != null)
      ensures rc == Ok ==> inFlight == old(inFlight) + [item] && fresh(item)
    {
      hide NextHandle, Views;
      item := null;
      if closing {
        rc := Unspecified;
        return;
      }
      enabled := true;
      var handle;
      handle, rc := GetNextHandle();
      if rc != Ok {
        return;
      }
      item := new Timer(nextId, handle);
      inFlight := inFlight + [item];
      nextId := nextId + 1;
      assert Views(inFlight) == old(Views(inFlight)) + [item.View()];
    }

    /** The rest of init: the timer is listed. */
    method ListItem(item: Timer, ghost k: nat)
      requires Valid() && k < |inFlight| && inFlight[k] == item
      requires forall i :: 0 <= i < |inFlight| && i != k ==> inFlight[i] != item
      modifies this`timers, this`inFlight
      ensures Valid() && View() == DoInitList(old(View()), k).0
    {
      assert item !in timers;
      timers := timers + [item];
      inFlight := Without(inFlight, k);
    }

    // ----- kill -----

    /** Sets the events that wait for the timer, frees it and takes it off the list. */
    method DestroyAt(item: Timer, i: nat)
      requires Valid() && i < |timers| && item == timers[i]
      modifies this`timers, this`env, item`waiters
      ensures Valid() && View() == Destroy(old(View()), i)
    {
      hide Views, Without;
      ghost var before := View();
      assert item in timers;
      while item.waiters != []
        invariant timers == old(timers) && item == timers[i]
        invariant env == before.env.(signaled := env.signaled)
        invariant env.signaled + multiset(item.waiters) == before.env.signaled + multiset(before.items[i].waiters)
        invariant forall x :: x in timers && x != item ==> x.View() == old(x.View())
        decreases |item.waiters|
      {
        assert item.waiters == [item.waiters[0]] + item.waiters[1..];
        env := env.(signaled := env.signaled + multiset{item.waiters[0]});
        item.waiters := item.waiters[1..];
      }
      env := env.(freed := env.freed + {item.id});
      timers := Without(timers, i);
      assert Views(timers) == Without(before.items, i) && Views(inFlight) == before.inFlight;
    }

    /** Marks the timer for deletion and adds the event to those that wait for it. */
    method Mark(item: Timer, ghost i: nat, event: Option<nat>)
      requires Valid() && i < |timers| && item == timers[i]
      modifies this`env, item`marked, item`waiters
      ensures Valid() && item.inCb == old(View()).items[i].inCb
      ensures View() == old(View()).(items := old(View()).items[i := MarkedBy(old(View()).items[i], event)],
                                     env := old(env).(killed := old(env.killed) + {item.id}))
    {
      hide Views;
      ghost var before := View();
      assert item in timers;
      item.marked := true;
      if event.Some? {
        item.waiters := item.waiters + [event.value];
      }
      env := env.(killed := env.killed + {item.id});
      assert item.waiters == MarkedBy(before.items[i], event).waiters;
      assert Views(timers) == before.items[i := MarkedBy(before.items[i], event)];
      assert Views(inFlight) == before.inFlight;
    }

    /** Marks the timer that a kill has found, and destroys it if its callback does not run. */
    method KillFound(item: Timer, i: nat, event: Option<nat>)
      requires Valid() && i < |timers| && item == timers[i]
      modifies this`timers, this`env, item
      ensures Valid() && View() == KillAt(old(View()), i, event)
    {
      hide Views, Without, MarkedBy, Destroy;
      Mark(item, i, event);
      if !item.inCb {
        DestroyAt(item, i);
      }
    }

    method KillWithEvent(timer: Option<nat>, event: Option<nat>) returns (rc: Rc)
      requires Valid()
      modifies this`timers, this`env, timers
      ensures Valid() && (View(), rc) == DoKill(old(View()), timer, event)
    {
      hide Views, Find, KillAt;
      rc := Unspecified;
      env := PassOne(env, event);
      if timer == None {
        rc := ParameterIsNull;
      } else if enabled {
        var i := FindTimer(timer.value);
        if i == |timers| {
          rc := InvalidHandle;
        } else {
          KillFound(timers[i], i, event);
          rc := Ok;
        }
      }
      if rc != Ok && event.Some? {
        env := SignalOne(env, event);
      }
    }

    // ----- set_msec -----

    method SetPendingTimeout(item: Timer, ghost i: nat, osAccepts: bool) returns (rc: Rc)
      requires Valid() && i < |timers| && item == timers[i]
      modifies this`env, item`setPending
      ensures Valid() && (View(), rc) == ArmPending(old(View()), i, osAccepts)
    {
      hide Views;
      ghost var before := View();
      rc := Ok;
      if !item.setPending {
        return;
      }
      assert item in timers;
      item.setPending := false;
      assert Views(inFlight) == before.inFlight && before.items[i] == old(item.View());
      assert Views(timers) == before.items[i := before.items[i].(setPending := false)];
      if osAccepts {
        env := env.(armed := env.armed + {item.pendingCb}, lastArmed := (item.pendingCb, item.pendingTimeout));
      } else {
        rc := Unspecified;
      }
      assert View().items == ArmPending(before, i, osAccepts).0.items;
    }

    method SetMsec(timer: Option<nat>, timeout: nat, osAccepts: bool) returns (rc: Rc)
      requires Valid()
      modifies this`nextCb, this`env, timers
      ensures Valid() && (View(), rc) == DoSetMsec(old(View()), timer, timeout, osAccepts)
    {
      hide Views, Find, NextCb, ArmPending;
      ghost var before := View();
      if timer == None {
        return ParameterIsNull;
      }
      if timeout == 0 {
        return RequestDataOutOfBounds;
      }
      if !enabled {
        return Unspecified;
      }
      var i := FindTimer(timer.value);
      if i == |timers| {
        return InvalidHandle;
      }
      var item := timers[i];
      if item.marked {
        return InvalidHandle;
      }
      var cbHandle := GetNextCbHandle();
      assert item in timers;
      item.cbHandle := cbHandle;
      item.setPending, item.pendingTimeout, item.pendingCb := true, timeout, cbHandle;
      env := env.(owner := env.owner[cbHandle := item.id], latest := env.latest[item.id := cbHandle]);
      assert Views(timers) == before.items[i := item.View()] && Views(inFlight) == before.inFlight;
      if !item.inCb {
        rc := SetPendingTimeout(item, i, osAccepts);
      } else {
        rc := Ok;
      }
    }

    // ----- the OS callback -----

    /** The first locked region of tmrm_callback; the user callback of `item` runs after it. */
    method CallbackBegin(cbHandle: nat) returns (item: Timer?)
      requires Valid()
      modifies this`env, timers
      ensures Valid() && View() == DoDeliver(old(View()), cbHandle).0
      ensures timers == old(timers)
      ensures item != null ==> item in timers && item.inCb
    {
      hide Views, FindByCb;
      ghost var before := View();
      item := null;
      var i := FindTimerByCb(cbHandle);
      if i == |timers| {
        return;
      }
      item := timers[i];
      assert item in timers;
      item.cbHandle := 0;
      item.inCb := true;
      env := env.(running := env.running + multiset{item.id}, begun := env.begun + {cbHandle});
      assert Views(timers) == before.items[i := item.View()] && Views(inFlight) == before.inFlight;
    }

    /** The second locked region; the item is still listed, as TimerRuns.OneCallbackAtATime says. */
    method CallbackEnd(item: Timer, osAccepts: bool)
      requires Valid() && item in timers && forall x :: x in timers && x != item ==> x.id != item.id
      modifies this`timers, this`env, timers
      ensures Valid() && View() == DoReturn(old(View()), item.id, osAccepts).0
    {
      hide Views, FindById, Without, ArmPending, Destroy;
      ghost var before := View();
      var i := 0;
      while timers[i] != item
        invariant i < |timers|
        invariant item !in timers[..i]
        decreases |timers| - i
      {
        i := i + 1;
      }
      assert i == FindById(before.items, item.id);
      env := env.(running := env.running - multiset{item.id});
      item.inCb := false;
      assert Views(timers) == before.items[i := item.View()] && Views(inFlight) == before.inFlight;
      if item.marked {
        DestroyAt(item, i);
      } else {
        var rc := SetPendingTimeout(item, i, osAccepts);
      }
    }
  }
}
