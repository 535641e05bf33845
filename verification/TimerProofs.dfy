/**
 * The inductive invariant of the timer manager, and what follows from it over whole runs, as long
 * as the 32-bit counter of callback handles has not wrapped.
 */
module TimerProofs {
  import opened Base
  import opened TimerSpec

  // ----- the invariant -----

  function Ids(items: seq<Item>): set<nat> {
    set x | x in items :: x.id
  }

  ghost predicate Distinct(items: seq<Item>) {
    forall i, j :: 0 <= i < j < |items| ==> items[i].id != items[j].id
  }

  /** A timer that has been created and not listed yet. */
  predicate Blank(x: Item) {
    x.cbHandle == 0 && !x.inCb && !x.marked && x.waiters == [] && !x.setPending
  }

  /** Every timer is in flight, listed or freed, and only one of these. */
  ghost predicate IdsOk(s: State) {
    && Distinct(s.items) && Distinct(s.inFlight)
    && Ids(s.items) !! Ids(s.inFlight) && Ids(s.items) !! s.env.freed && Ids(s.inFlight) !! s.env.freed
    && (forall id :: id in Ids(s.items) || id in Ids(s.inFlight) || id in s.env.freed ==> id < s.nextId)
    && (forall x :: x in s.inFlight ==> Blank(x))
  }

  /** The flag `inCb` is exact, at most one callback runs per timer, and that timer is listed. */
  ghost predicate RunningOk(s: State) {
    && (forall x :: x in s.items ==> (x.inCb <==> x.id in s.env.running))
    && (forall id :: id in s.env.running ==> s.env.running[id] == 1 && id in Ids(s.items))
  }

  /** The records of issued, armed and fired callback handles. */
  ghost predicate HandlesOk(s: State) {
    && s.nextCb < UINT32_SPAN
    && (forall h :: h in s.env.owner <==> 1 <= h <= s.nextCb)
    && s.env.armed <= s.env.owner.Keys && s.env.begun <= s.env.armed
    && (forall id :: id in s.env.latest ==> s.env.latest[id] in s.env.owner && s.env.owner[s.env.latest[id]] == id)
    && (forall h :: h in s.env.owner ==> s.env.owner[h] in s.env.latest && h <= s.env.latest[s.env.owner[h]])
  }

  /** A timer's callback handle is its latest and unused, and not armed while its callback runs. */
  ghost predicate CbOk(env: Env, x: Item) {
    && (x.cbHandle != 0 ==> x.id in env.latest && env.latest[x.id] == x.cbHandle)
    && x.cbHandle !in env.begun
    && (x.inCb ==> x.cbHandle !in env.armed && (x.setPending <==> x.cbHandle != 0))
    && (x.setPending ==> x.inCb && x.pendingCb == x.cbHandle)
  }

  ghost predicate CbsOk(s: State) {
    forall x :: x in s.items ==> CbOk(s.env, x)
  }

  /** A killed timer is gone, or marked while its callback finishes; only then do events wait for it. */
  ghost predicate KilledOk(s: State) {
    && (forall x :: x in s.items ==>
          && (x.marked <==> x.id in s.env.killed)
          && (x.marked ==> x.inCb)
          && (!x.marked ==> x.waiters == []))
    && (forall x :: x in s.inFlight ==> x.id !in s.env.killed)
    && (forall id :: id in s.env.killed ==> id < s.nextId && (id in s.env.freed || id in Ids(s.items)))
    && s.env.freed <= s.env.killed
  }

  /** The events held by timers that wait for their callback to end. */
  function Held(items: seq<Item>): multiset<nat> {
    if items == [] then multiset{} else multiset(items[0].waiters) + Held(items[1..])
  }

  /** Every event ever passed to kill was set once, or is still held by a timer. */
  ghost predicate EventsOk(s: State) {
    s.env.passed == s.env.signaled + Held(s.items)
  }

  ghost predicate Inv(s: State) {
    IdsOk(s) && RunningOk(s) && HandlesOk(s) && CbsOk(s) && KilledOk(s) && EventsOk(s)
  }

  // ----- each step keeps each part -----

  lemma IdsUpdate(items: seq<Item>, i: nat, x: Item)
    requires i < |items| && x.id == items[i].id
    ensures Ids(items[i := x]) == Ids(items)
    ensures Distinct(items) ==> Distinct(items[i := x])
  {
    var r := items[i := x];
    forall id | id in Ids(items)
      ensures id in Ids(r)
    {
      var y :| y in items && y.id == id;
      var j :| 0 <= j < |items| && items[j] == y;
      assert r[j] in r;
    }
  }

  lemma IdsWithout(items: seq<Item>, i: nat)
    requires i < |items| && Distinct(items)
    ensures Ids(Without(items, i)) == Ids(items) - {items[i].id}
    ensures Distinct(Without(items, i))
  {
    hide Without;
    var r := Without(items, i);
    forall id | id in Ids(items) - {items[i].id}
      ensures id in Ids(r)
    {
      var y :| y in items && y.id == id;
      var j :| 0 <= j < |items| && items[j] == y;
      assert r[if j < i then j else j - 1] == y;
    }
  }

  lemma IdsAppend(items: seq<Item>, x: Item)
    ensures Ids(items + [x]) == Ids(items) + {x.id}
    ensures Distinct(items) && x.id !in Ids(items) ==> Distinct(items + [x])
  {
    assert (items + [x])[|items|] == x;
  }

  lemma {:induction false} HeldUpdate(items: seq<Item>, i: nat, x: Item)
    requires i < |items|
    ensures Held(items[i := x]) + multiset(items[i].waiters) == Held(items) + multiset(x.waiters)
  {
    if i == 0 {
      assert items[0 := x][1..] == items[1..];
    } else {
      assert items[i := x][1..] == items[1..][i - 1 := x];
      HeldUpdate(items[1..], i - 1, x);
      var first, before, after := multiset(items[0].waiters), multiset(items[i].waiters), multiset(x.waiters);
      assert first + Held(items[i := x][1..]) + before == first + (Held(items[i := x][1..]) + before);
      assert first + Held(items[1..]) + after == first + (Held(items[1..]) + after);
    }
  }

  lemma {:induction false} HeldWithout(items: seq<Item>, i: nat)
    requires i < |items|
    ensures Held(items) == Held(Without(items, i)) + multiset(items[i].waiters)
  {
    if i == 0 {
      assert Without(items, 0) == items[1..];
    } else {
      assert Without(items, i)[1..] == Without(items[1..], i - 1);
      HeldWithout(items[1..], i - 1);
    }
  }

  lemma {:induction false} HeldAppend(items: seq<Item>, x: Item)
    ensures Held(items + [x]) == Held(items) + multiset(x.waiters)
  {
    if items == [] {
      assert ([x])[1..] == [];
    } else {
      assert (items + [x])[1..] == items[1..] + [x];
      HeldAppend(items[1..], x);
    }
  }

  lemma Replaced(items: seq<Item>, i: nat, y: Item)
    requires i < |items| && Distinct(items) && y.id == items[i].id
    ensures items[i] in items && y in items[i := y]
    ensures forall x :: x in items[i := y] ==> x == y || (x in items && x.id != y.id)
    ensures Ids(items[i := y]) == Ids(items) && Distinct(items[i := y])
  {
    assert items[i := y][i] == y;
    IdsUpdate(items, i, y);
  }

  lemma Removed(items: seq<Item>, i: nat)
    requires i < |items| && Distinct(items)
    ensures items[i] in items
    ensures forall x :: x in Without(items, i) ==> x in items && x.id != items[i].id
    ensures Ids(Without(items, i)) == Ids(items) - {items[i].id} && Distinct(Without(items, i))
    ensures Held(items) == Held(Without(items, i)) + multiset(items[i].waiters)
  {
    IdsWithout(items, i);
    HeldWithout(items, i);
  }

  lemma WithoutUpdated(items: seq<Item>, i: nat, x: Item)
    requires i < |items|
    ensures Without(items[i := x], i) == Without(items, i)
  {
  }

  lemma Added(items: seq<Item>, y: Item)
    ensures forall x :: x in items + [y] <==> x in items || x == y
    ensures Ids(items + [y]) == Ids(items) + {y.id}
    ensures Distinct(items) && y.id !in Ids(items) ==> Distinct(items + [y])
    ensures Held(items + [y]) == Held(items) + multiset(y.waiters)
  {
    IdsAppend(items, y);
    HeldAppend(items, y);
  }

  /** The state after timer `i` was destroyed, with `events` passed to the kill that did it. */
  function Dropped(s: State, i: nat, events: multiset<nat>): State
    requires i < |s.items|
  {
    var x := s.items[i];
    s.(items := Without(s.items, i),
       env := s.env.(running := s.env.running - multiset{x.id},
                     passed := s.env.passed + events,
                     signaled := s.env.signaled + (multiset(x.waiters) + events),
                     killed := s.env.killed + {x.id},
                     freed := s.env.freed + {x.id}))
  }

  lemma DroppedIds(s: State, i: nat, events: multiset<nat>)
    requires IdsOk(s) && i < |s.items|
    ensures IdsOk(Dropped(s, i, events))
  {
    hide Distinct, Without, Held;
    Removed(s.items, i);
    assert s.items[i].id in Ids(s.items);
  }

  lemma DroppedRunning(s: State, i: nat, events: multiset<nat>)
    requires IdsOk(s) && RunningOk(s) && i < |s.items|
    ensures RunningOk(Dropped(s, i, events))
  {
    hide Distinct, Without, Held;
    Removed(s.items, i);
  }

  lemma DroppedCbs(s: State, i: nat, events: multiset<nat>)
    requires CbsOk(s) && i < |s.items|
    ensures CbsOk(Dropped(s, i, events))
  {
    hide Without;
  }

  lemma DroppedKilled(s: State, i: nat, events: multiset<nat>)
    requires IdsOk(s) && KilledOk(s) && i < |s.items|
    ensures KilledOk(Dropped(s, i, events))
  {
    hide Distinct, Without, Held;
    Removed(s.items, i);
    assert s.items[i].id in Ids(s.items);
    assert forall x :: x in s.inFlight ==> x.id in Ids(s.inFlight);
  }

  lemma DroppedEvents(s: State, i: nat, events: multiset<nat>)
    requires EventsOk(s) && i < |s.items|
    ensures EventsOk(Dropped(s, i, events))
  {
    hide Held, Without;
    HeldWithout(s.items, i);
  }

  lemma DroppedInv(s: State, i: nat, events: multiset<nat>)
    requires Inv(s) && i < |s.items|
    ensures Inv(Dropped(s, i, events))
  {
    hide IdsOk, RunningOk, CbsOk, KilledOk, EventsOk;
    DroppedIds(s, i, events);
    DroppedRunning(s, i, events);
    DroppedCbs(s, i, events);
    DroppedKilled(s, i, events);
    DroppedEvents(s, i, events);
  }

  // Steps that change one listed timer, the `i`-th, into `y`, and leave the others alone.

  ghost predicate Changes(s: State, t: State, i: nat, y: Item) {
    && i < |s.items| && y.id == s.items[i].id && t.items == s.items[i := y]
    && t.inFlight == s.inFlight && t.nextId == s.nextId && t.env.freed == s.env.freed
  }

  lemma ChangedIds(s: State, t: State, i: nat, y: Item)
    requires IdsOk(s) && Changes(s, t, i, y)
    ensures IdsOk(t)
  {
    hide Distinct;
    Replaced(s.items, i, y);
  }

  lemma ChangedRunning(s: State, t: State, i: nat, y: Item)
    requires IdsOk(s) && RunningOk(s) && Changes(s, t, i, y)
    requires t.env.running == s.env.running[y.id := if y.inCb then 1 else 0]
    ensures RunningOk(t)
  {
    hide Distinct, Held;
    Replaced(s.items, i, y);
  }

  /** What may happen to the handle records when only timer `id` is concerned. */
  ghost predicate OnlyFor(e: Env, f: Env, id: nat) {
    && (forall h :: h in e.owner ==> h in f.owner && f.owner[h] == e.owner[h])
    && (forall j :: j != id && j in e.latest ==> j in f.latest && f.latest[j] == e.latest[j])
    && (forall h :: h in f.begun && h !in e.begun ==> h in f.owner && f.owner[h] == id)
    && (forall h :: h in f.armed && h !in e.armed ==> h in f.owner && f.owner[h] == id)
  }

  lemma ChangedCbs(s: State, t: State, i: nat, y: Item)
    requires IdsOk(s) && HandlesOk(s) && CbsOk(s) && HandlesOk(t) && Changes(s, t, i, y)
    requires OnlyFor(s.env, t.env, y.id) && CbOk(t.env, y)
    ensures CbsOk(t)
  {
    Replaced(s.items, i, y);
    forall x | x in t.items && x != y
      ensures CbOk(t.env, x)
    {
      OtherCb(s, t, x, y.id);
    }
  }

  /** A timer is not concerned by another timer's handles. */
  lemma OtherCb(s: State, t: State, x: Item, id: nat)
    requires HandlesOk(s) && HandlesOk(t) && OnlyFor(s.env, t.env, id)
    requires CbOk(s.env, x) && x.id != id
    ensures CbOk(t.env, x)
  {
  }

  lemma ChangedKilled(s: State, t: State, i: nat, y: Item)
    requires IdsOk(s) && KilledOk(s) && Changes(s, t, i, y)
    requires t.env.killed == s.env.killed || t.env.killed == s.env.killed + {y.id}
    requires (y.marked <==> y.id in t.env.killed) && (y.marked ==> y.inCb) && (!y.marked ==> y.waiters == [])
    ensures KilledOk(t)
  {
    hide Distinct, Held;
    Replaced(s.items, i, y);
    assert y.id in Ids(s.items);
    assert forall x :: x in s.inFlight ==> x.id in Ids(s.inFlight);
  }

  lemma ChangedEvents(s: State, t: State, i: nat, y: Item)
    requires EventsOk(s) && Changes(s, t, i, y)
    requires t.env.signaled == s.env.signaled
    requires t.env.passed + multiset(s.items[i].waiters) == s.env.passed + multiset(y.waiters)
    ensures EventsOk(t)
  {
    hide Held;
    HeldUpdate(s.items, i, y);
    var before, after := multiset(s.items[i].waiters), multiset(y.waiters);
    forall e: nat
      ensures t.env.passed[e] == t.env.signaled[e] + Held(t.items)[e]
    {
      assert (t.env.passed + before)[e] == (s.env.passed + after)[e];
      assert (Held(t.items) + before)[e] == (Held(s.items) + after)[e];
      assert (s.env.signaled + Held(s.items))[e] == s.env.passed[e];
    }
  }

  // ----- each step keeps the invariant -----

  lemma CreateIds(s: State)
    requires IdsOk(s)
    ensures IdsOk(DoInitCreate(s).0)
  {
    hide NextHandle, Held, Distinct;
    var t := DoInitCreate(s).0;
    if t.inFlight != s.inFlight {
      Added(s.inFlight, t.inFlight[|s.inFlight|]);
    }
  }

  lemma CreateInv(s: State)
    requires Inv(s)
    ensures Inv(DoInitCreate(s).0)
  {
    hide NextHandle, Held, Distinct, Ids;
    CreateIds(s);
    hide IdsOk;
    assert s.nextId !in s.env.killed;
  }

  lemma ListIds(s: State, k: nat)
    requires IdsOk(s) && k < |s.inFlight|
    ensures IdsOk(DoInitList(s, k).0)
    ensures s.inFlight[k].id !in Ids(s.items) && s.inFlight[k].id !in s.env.freed && Blank(s.inFlight[k])
  {
    hide Held, Distinct, Without;
    assert s.inFlight[k].id in Ids(s.inFlight);
    Removed(s.inFlight, k);
    Added(s.items, s.inFlight[k]);
  }

  lemma ListInv(s: State, k: nat)
    requires Inv(s) && k < |s.inFlight|
    ensures Inv(DoInitList(s, k).0)
  {
    hide Held, Distinct, Without, IdsOk;
    assert s.inFlight[k] in s.inFlight;
    ListIds(s, k);
    Added(s.items, s.inFlight[k]);
  }

  lemma BeginInv(s: State, h: nat)
    requires Inv(s) && h in s.env.armed
    ensures Inv(DoDeliver(s, h).0)
  {
    hide Held, Distinct, FindByCb, IdsOk, RunningOk, CbsOk, KilledOk, EventsOk;
    var i := FindByCb(s.items, h);
    if i < |s.items| {
      var x, t := s.items[i], DoDeliver(s, h).0;
      var y := t.items[i];
      ItemFacts(s, i);
      ChangedIds(s, t, i, y);
      ChangedRunning(s, t, i, y);
      ChangedCbs(s, t, i, y);
      ChangedKilled(s, t, i, y);
      ChangedEvents(s, t, i, y);
    }
  }

  /** What the invariant says of one timer. */
  lemma ItemFacts(s: State, i: nat)
    requires Inv(s) && i < |s.items|
    ensures var x := s.items[i];
      && CbOk(s.env, x)
      && s.env.running[x.id] == (if x.inCb then 1 else 0)
      && (x.marked <==> x.id in s.env.killed) && (x.marked ==> x.inCb) && (!x.marked ==> x.waiters == [])
      && x.id !in s.env.freed
  {
    assert s.items[i] in s.items && s.items[i].id in Ids(s.items);
  }

  lemma EndUnmarked(s: State, i: nat, id: nat, osAccepts: bool)
    requires Inv(s) && id in s.env.running && i == FindById(s.items, id) < |s.items| && !s.items[i].marked
    ensures var t := DoReturn(s, id, osAccepts).0;
      && Changes(s, t, i, t.items[i]) && !t.items[i].inCb && !t.items[i].marked && t.items[i].waiters == []
      && t.env.running == s.env.running[id := 0]
      && t.env.killed == s.env.killed && t.env.passed == s.env.passed && t.env.signaled == s.env.signaled
      && HandlesOk(t) && CbOk(t.env, t.items[i]) && OnlyFor(s.env, t.env, id)
  {
    hide Held, Distinct, FindById, DoReturn, IdsOk, RunningOk, CbsOk, KilledOk, EventsOk;
    ItemFacts(s, i);
    ReturnArms(s, i, id, osAccepts);
    var r := s.(items := s.items[i := s.items[i].(inCb := false)],
                env := s.env.(running := s.env.running - multiset{id}));
    ArmHandles(s, r, i, osAccepts);
    hide HandlesOk, CbOk, OnlyFor;
  }

  /** Arming what is pending for a timer keeps the records of the handles. */
  lemma ArmHandles(s: State, r: State, i: nat, osAccepts: bool)
    requires HandlesOk(s) && i < |s.items| && CbOk(s.env, s.items[i])
    requires r == s.(items := s.items[i := s.items[i].(inCb := false)], env := s.env.(running := r.env.running))
    ensures var t := ArmPending(r, i, osAccepts).0;
      HandlesOk(t) && i < |t.items| && CbOk(t.env, t.items[i]) && OnlyFor(s.env, t.env, s.items[i].id)
  {
  }

  /** The end of a callback whose timer was not killed: the pending set, if any, is armed. */
  lemma ReturnArms(s: State, i: nat, id: nat, osAccepts: bool)
    requires i == FindById(s.items, id) < |s.items| && !s.items[i].marked
    ensures DoReturn(s, id, osAccepts).0 ==
      ArmPending(s.(items := s.items[i := s.items[i].(inCb := false)],
                    env := s.env.(running := s.env.running - multiset{id})), i, osAccepts).0
  {
    hide ArmPending;
  }

  lemma EndInv(s: State, id: nat, osAccepts: bool)
    requires Inv(s) && id in s.env.running
    ensures Inv(DoReturn(s, id, osAccepts).0)
  {
    hide Held, Distinct, FindById, Without, IdsOk, RunningOk, CbsOk, KilledOk, EventsOk, HandlesOk, CbOk, OnlyFor;
    var i := FindById(s.items, id);
    ListedId(s, id, i);
    if s.items[i].marked {
      EndMarked(s, i, id, osAccepts);
      DroppedInv(s, i, multiset{});
    } else {
      hide DoReturn;
      var t := DoReturn(s, id, osAccepts).0;
      EndUnmarked(s, i, id, osAccepts);
      ItemFacts(s, i);
      var y := t.items[i];
      ChangedIds(s, t, i, y);
      ChangedRunning(s, t, i, y);
      ChangedCbs(s, t, i, y);
      ChangedKilled(s, t, i, y);
      ChangedEvents(s, t, i, y);
    }
  }

  lemma EndMarked(s: State, i: nat, id: nat, osAccepts: bool)
    requires Inv(s) && id in s.env.running && i == FindById(s.items, id) < |s.items| && s.items[i].marked
    ensures DoReturn(s, id, osAccepts).0 == Dropped(s, i, multiset{})
  {
    hide Held, Distinct, FindById, Without, IdsOk, RunningOk, CbsOk, KilledOk, EventsOk;
    ItemFacts(s, i);
    WithoutUpdated(s.items, i, s.items[i].(inCb := false));
  }

  /** A timer with a running callback is found in the list. */
  lemma ListedId(s: State, id: nat, i: nat)
    requires RunningOk(s) && id in s.env.running
    requires i <= |s.items| && forall j :: 0 <= j < i ==> s.items[j].id != id
    ensures i < |s.items|
  {
    assert id in Ids(s.items);
  }

  lemma KillFails(s: State, timer: Option<nat>, event: Option<nat>)
    requires Inv(s) && DoKill(s, timer, event).1 != Ok
    ensures Inv(DoKill(s, timer, event).0)
  {
    hide Held, Find, Ids, Distinct;
    var given, held := Given(event), Held(s.items);
    assert s.env.signaled + given + held == s.env.signaled + held + given;
  }

  function Given(event: Option<nat>): multiset<nat> {
    if event.Some? then multiset{event.value} else multiset{}
  }

  lemma KillNow(s: State, i: nat, timer: Option<nat>, event: Option<nat>)
    requires Inv(s) && s.enabled && timer.Some? && i == Find(s.items, timer.value) < |s.items| && !s.items[i].inCb
    ensures DoKill(s, timer, event).0 == Dropped(s, i, Given(event))
  {
    hide Find, Held, KillAt, DoKill, Dropped;
    ItemFacts(s, i);
    KillFinds(s, i, timer, event);
    KillIdle(s, i, event);
  }

  lemma KillFinds(s: State, i: nat, timer: Option<nat>, event: Option<nat>)
    requires s.enabled && timer.Some? && i == Find(s.items, timer.value) < |s.items|
    ensures DoKill(s, timer, event) == (KillAt(s.(env := PassOne(s.env, event)), i, event), Ok)
  {
    hide KillAt;
  }

  /** The item is destroyed with no event to set but the one passed. */
  lemma KillIdle(s: State, i: nat, event: Option<nat>)
    requires i < |s.items|
    requires var x := s.items[i]; !x.inCb && x.waiters == [] && x.id !in s.env.running
    ensures KillAt(s.(env := PassOne(s.env, event)), i, event) == Dropped(s, i, Given(event))
  {
    hide Without;
    WithoutUpdated(s.items, i, MarkedBy(s.items[i], event));
    assert s.env.running - multiset{s.items[i].id} == s.env.running;
  }

  lemma KillLater(s: State, i: nat, timer: Option<nat>, event: Option<nat>)
    requires Inv(s) && s.enabled && timer.Some? && i == Find(s.items, timer.value) < |s.items| && s.items[i].inCb
    ensures Inv(DoKill(s, timer, event).0)
  {
    hide Held, Find, IdsOk, RunningOk, CbsOk, KilledOk, EventsOk, HandlesOk;
    var x, t := s.items[i], DoKill(s, timer, event).0;
    var y := MarkedBy(x, event);
    ItemFacts(s, i);
    ChangedIds(s, t, i, y);
    ChangedRunning(s, t, i, y);
    SameHandles(s, t);
    ChangedCbs(s, t, i, y);
    ChangedKilled(s, t, i, y);
    ChangedEvents(s, t, i, y);
  }

  lemma SameHandles(s: State, t: State)
    requires HandlesOk(s) && t.nextCb == s.nextCb
    requires t.env.(running := s.env.running, passed := s.env.passed, killed := s.env.killed) == s.env
    ensures HandlesOk(t)
  {
  }

  lemma KillInv(s: State, timer: Option<nat>, event: Option<nat>)
    requires Inv(s)
    ensures Inv(DoKill(s, timer, event).0)
  {
    hide Inv, Find, Dropped;
    if !s.enabled || timer == None || Find(s.items, timer.value) == |s.items| {
      KillFails(s, timer, event);
    } else {
      var i := Find(s.items, timer.value);
      if s.items[i].inCb {
        KillLater(s, i, timer, event);
      } else {
        KillNow(s, i, timer, event);
        DroppedInv(s, i, Given(event));
      }
    }
  }

  lemma SetHandles(s: State, t: State, id: nat)
    requires HandlesOk(s) && s.nextCb + 1 < UINT32_SPAN
    requires t.nextCb == s.nextCb + 1 && t.env.begun == s.env.begun
    requires t.env.owner == s.env.owner[t.nextCb := id] && t.env.latest == s.env.latest[id := t.nextCb]
    requires t.env.armed == s.env.armed || t.env.armed == s.env.armed + {t.nextCb}
    ensures HandlesOk(t) && OnlyFor(s.env, t.env, id) && t.nextCb !in s.env.armed
  {
  }

  lemma SetEffect(s: State, i: nat, timer: Option<nat>, timeout: nat, osAccepts: bool)
    requires Inv(s) && s.nextCb + 1 < UINT32_SPAN
    requires timeout != 0 && s.enabled && timer.Some? && i == Find(s.items, timer.value) < |s.items|
    requires !s.items[i].marked
    ensures var x, t := s.items[i], DoSetMsec(s, timer, timeout, osAccepts).0;
      && Changes(s, t, i, t.items[i]) && t.items[i].inCb == x.inCb && !t.items[i].marked
      && t.items[i].waiters == x.waiters
      && t.env.running == s.env.running
      && t.env.killed == s.env.killed && t.env.passed == s.env.passed && t.env.signaled == s.env.signaled
      && HandlesOk(t) && CbOk(t.env, t.items[i]) && OnlyFor(s.env, t.env, x.id)
  {
    hide Held, Distinct, Find, IdsOk, RunningOk, CbsOk, KilledOk, EventsOk, HandlesOk, OnlyFor;
    ItemFacts(s, i);
    assert s.env.begun <= s.env.armed by { UsedAreArmed(s); }
    SetHandles(s, DoSetMsec(s, timer, timeout, osAccepts).0, s.items[i].id);
  }

  lemma UsedAreArmed(s: State)
    requires HandlesOk(s)
    ensures s.env.begun <= s.env.armed
  {
  }

  lemma SetInv(s: State, timer: Option<nat>, timeout: nat, osAccepts: bool)
    requires Inv(s) && s.nextCb + 1 < UINT32_SPAN
    ensures Inv(DoSetMsec(s, timer, timeout, osAccepts).0)
  {
    hide Held, Distinct, Find, IdsOk, RunningOk, CbsOk, KilledOk, EventsOk, HandlesOk, CbOk, OnlyFor;
    if timer == None || timeout == 0 || !s.enabled { return; }
    var i := Find(s.items, timer.value);
    if i < |s.items| && !s.items[i].marked {
      hide DoSetMsec;
      var t := DoSetMsec(s, timer, timeout, osAccepts).0;
      SetEffect(s, i, timer, timeout, osAccepts);
      ItemFacts(s, i);
      var y := t.items[i];
      ChangedIds(s, t, i, y);
      ChangedRunning(s, t, i, y);
      ChangedCbs(s, t, i, y);
      ChangedKilled(s, t, i, y);
      ChangedEvents(s, t, i, y);
    }
  }

  lemma ApplyInv(s: State, call: Call)
    requires Inv(s) && Enabled(s, call) && (call.SetMsec? ==> s.nextCb + 1 < UINT32_SPAN)
    ensures Inv(Apply(s, call).0)
  {
    hide Inv, DoInitCreate, DoInitList, DoKill, DoSetMsec, DoDeliver, DoReturn;
    match call
    case InitCreate => CreateInv(s);
    case InitList(k) => ListInv(s, k);
    case Kill(timer, event) => KillInv(s, timer, event);
    case SetMsec(timer, timeout, osAccepts) => SetInv(s, timer, timeout, osAccepts);
    case Deliver(h) => BeginInv(s, h);
    case Return(id, osAccepts) => EndInv(s, id, osAccepts);
  }
}
