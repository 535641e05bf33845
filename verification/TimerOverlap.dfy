/**
 * Handles of timers whose inits overlap. A handle is chosen in one locked region of init and listed
 * in another; in between other inits may choose handles. Listed handles stay distinct as long as
 * fewer than 2^32 handles are tried while an init is in flight, and the bound is exact.
 */
module TimerOverlap {
  import opened Base
  import opened TimerSpec
  import opened TimerRuns
  import opened TimerHandles

  /** How many values of the counter an allocation tries. */
  function Tries(items: seq<Item>, counter: nat, tries: nat): (n: nat)
    requires tries < RETRIES_MAX
    ensures n > 0
    decreases RETRIES_MAX - tries
  {
    var h := Increment(counter);
    if InUse(items, h) && tries + 1 < RETRIES_MAX then 1 + Tries(items, h, tries + 1) else 1
  }

  lemma {:induction false} TriesMeaning(items: seq<Item>, counter: nat, tries: nat)
    requires tries < RETRIES_MAX
    ensures NextHandle(items, counter, tries).0 == Successor(counter, Tries(items, counter, tries))
    decreases RETRIES_MAX - tries
  {
    hide InUse;
    var h := Increment(counter);
    if InUse(items, h) && tries + 1 < RETRIES_MAX {
      TriesMeaning(items, h, tries + 1);
      SuccessorStep(counter, Tries(items, h, tries + 1));
    }
  }

  function TriesOf(s: State, call: Call): nat {
    if call == InitCreate && !s.closing then Tries(s.items, s.nextHandle, 0) else 0
  }

  /** Handles tried in the first `k` calls of a run. */
  function Tried(run: seq<State>, calls: seq<Call>, k: nat): nat
    requires k <= |calls| < |run|
  {
    if k == 0 then 0 else Tried(run, calls, k - 1) + TriesOf(run[k - 1], calls[k - 1])
  }

  /** For each timer in flight, the count of tried handles when it got its own. */
  function Births(run: seq<State>, calls: seq<Call>, k: nat): seq<nat>
    requires k <= |calls| < |run|
  {
    if k == 0 then []
    else
      NextBirths(run[k - 1], calls[k - 1], run[k], Births(run, calls, k - 1), Tried(run, calls, k))
  }

  function NextBirths(s: State, call: Call, t: State, births: seq<nat>, tried: nat): seq<nat> {
    match call
    case InitCreate => if |t.inFlight| > |s.inFlight| then births + [tried] else births
    case InitList(i) => if i < |births| then Without(births, i) else births
    case _ => births
  }

  function Wrapped(count: nat): nat {
    count % UINT32_SPAN
  }

  /** At most `n` handles are tried while an init is in flight. */
  ghost predicate OverlapsWithin(n: nat, run: seq<State>, calls: seq<Call>)
    requires |run| == |calls| + 1
  {
    forall k :: 0 <= k <= |calls| ==>
      forall i :: 0 <= i < |Births(run, calls, k)| ==> Tried(run, calls, k) <= Births(run, calls, k)[i] + n
  }

  // ----- fewer than 2^32 -----

  /** The timers in flight have the handles of their births, which follow each other. */
  ghost predicate BornAt(inFlight: seq<Item>, births: seq<nat>, tried: nat) {
    && |births| == |inFlight|
    && (forall i :: 0 <= i < |births| ==> births[i] <= tried && inFlight[i].handle == Wrapped(births[i]))
  }

  /** No two timers, listed or in flight, have the same handle. */
  ghost predicate AllDistinct(items: seq<Item>, inFlight: seq<Item>) {
    && DistinctHandles(items) && DistinctHandles(inFlight)
    && forall i, j :: 0 <= i < |items| && 0 <= j < |inFlight| ==> items[i].handle != inFlight[j].handle
  }

  ghost predicate OverlapInv(s: State, births: seq<nat>, tried: nat) {
    s.nextHandle == Wrapped(tried) && BornAt(s.inFlight, births, tried) && AllDistinct(s.items, s.inFlight)
  }

  /** Counts less than 2^32 apart give different handles. */
  lemma ApartDiffer(a: nat, b: nat)
    requires a < b < a + UINT32_SPAN
    ensures Wrapped(a) != Wrapped(b)
  {
  }

  lemma SuccessorOf(tried: nat, n: nat)
    ensures Successor(Wrapped(tried), n) == Wrapped(tried + n)
  {
  }

  lemma CreateOverlapInv(s: State, births: seq<nat>, tried: nat)
    requires OverlapInv(s, births, tried)
    requires var now := tried + TriesOf(s, InitCreate);
      forall i :: 0 <= i < |births| ==> now < births[i] + UINT32_SPAN
    ensures var t, now := DoInitCreate(s).0, tried + TriesOf(s, InitCreate);
      OverlapInv(t, if |t.inFlight| > |s.inFlight| then births + [now] else births, now)
  {
    hide NextHandle, Tries, Successor, Wrapped, BornAt, AllDistinct;
    if !s.closing {
      var n := Tries(s.items, s.nextHandle, 0);
      TriesMeaning(s.items, s.nextHandle, 0);
      SuccessorOf(tried, n);
      LaterBorn(s.inFlight, births, tried, tried + n);
      if NextHandle(s.items, s.nextHandle, 0).1 {
        var t := DoInitCreate(s).0;
        AddBorn(s.inFlight, births, tried + n, t.inFlight[|s.inFlight|]);
        FreshHandle(s, births, tried, n);
        AddDistinct(s.items, s.inFlight, t.inFlight[|s.inFlight|]);
      }
    }
  }

  lemma LaterBorn(inFlight: seq<Item>, births: seq<nat>, tried: nat, later: nat)
    requires BornAt(inFlight, births, tried) && tried <= later
    ensures BornAt(inFlight, births, later)
  {
    hide Wrapped;
  }

  lemma AddBorn(inFlight: seq<Item>, births: seq<nat>, now: nat, x: Item)
    requires BornAt(inFlight, births, now) && x.handle == Wrapped(now)
    ensures BornAt(inFlight + [x], births + [now], now)
  {
    hide Wrapped;
  }

  ghost predicate Unused(timers: seq<Item>, h: nat) {
    forall i :: 0 <= i < |timers| ==> timers[i].handle != h
  }

  lemma AddDistinct(items: seq<Item>, inFlight: seq<Item>, x: Item)
    requires AllDistinct(items, inFlight) && Unused(items, x.handle) && Unused(inFlight, x.handle)
    ensures AllDistinct(items, inFlight + [x])
  {
  }

  lemma GivesUnused(items: seq<Item>, counter: nat)
    ensures var (h, ok) := NextHandle(items, counter, 0); ok ==> Unused(items, h)
  {
    NextHandleMeaning(items, counter, 0);
    InUseIff(items, NextHandle(items, counter, 0).0);
  }

  /** The new handle is not listed, and born less than 2^32 after those in flight. */
  lemma FreshHandle(s: State, births: seq<nat>, tried: nat, n: nat)
    requires BornAt(s.inFlight, births, tried) && n > 0
    requires NextHandle(s.items, s.nextHandle, 0) == (Wrapped(tried + n), true)
    requires forall i :: 0 <= i < |births| ==> tried + n < births[i] + UINT32_SPAN
    ensures Unused(s.items, Wrapped(tried + n)) && Unused(s.inFlight, Wrapped(tried + n))
  {
    var h := Wrapped(tried + n);
    hide NextHandle, Wrapped, Successor;
    GivesUnused(s.items, s.nextHandle);
    forall i | 0 <= i < |births|
      ensures s.inFlight[i].handle != h
    {
      ApartDiffer(births[i], tried + n);
    }
  }

  lemma ListOverlapInv(s: State, births: seq<nat>, tried: nat, k: nat)
    requires OverlapInv(s, births, tried) && k < |s.inFlight|
    ensures OverlapInv(DoInitList(s, k).0, Without(births, k), tried)
  {
    hide Without, Wrapped;
  }

  lemma OthersOverlapInv(s: State, births: seq<nat>, tried: nat, call: Call)
    requires OverlapInv(s, births, tried) && Enabled(s, call) && !call.InitCreate? && !call.InitList?
    ensures OverlapInv(Apply(s, call).0, births, tried)
  {
    var t := Apply(s, call).0;
    SameCounter(s, call);
    hide Apply, Without, Wrapped;
    var gone := OthersKeepHandles(s, call);
  }

  lemma StepOverlapInv(s: State, call: Call, births: seq<nat>, tried: nat)
    requires OverlapInv(s, births, tried) && Enabled(s, call)
    requires call == InitCreate ==>
      forall i :: 0 <= i < |births| ==> tried + TriesOf(s, InitCreate) < births[i] + UINT32_SPAN
    ensures var t, now := Apply(s, call).0, tried + TriesOf(s, call);
      OverlapInv(t, NextBirths(s, call, t, births, now), now)
  {
    hide OverlapInv, DoInitCreate, DoInitList, DoKill, DoSetMsec, DoDeliver, DoReturn, Tries, Without;
    if call == InitCreate {
      CreateOverlapInv(s, births, tried);
    } else if call.InitList? {
      ListedBirth(s, births, tried);
      ListOverlapInv(s, births, tried, call.k);
    } else {
      OthersOverlapInv(s, births, tried, call);
    }
  }

  lemma SameCounter(s: State, call: Call)
    requires Enabled(s, call) && !call.InitCreate?
    ensures Apply(s, call).0.nextHandle == s.nextHandle
  {
    hide Find, FindByCb, FindById, Without, MarkedBy;
  }

  lemma {:induction false} RunOverlapInv(n: nat, run: seq<State>, calls: seq<Call>, k: nat)
    requires IsTrace(run, calls) && n < UINT32_SPAN && OverlapsWithin(n, run, calls) && k <= |calls|
    ensures OverlapInv(run[k], Births(run, calls, k), Tried(run, calls, k))
    decreases k
  {
    hide OverlapInv, OverlapsWithin, TriesOf, NextBirths, Apply, Enabled;
    if k == 0 {
      StartOverlapInv(run, calls);
    } else {
      RunOverlapInv(n, run, calls, k - 1);
      assert Follows(run[k - 1], calls[k - 1], run[k]);
      if calls[k - 1] == InitCreate {
        Survivors(n, run, calls, k);
      }
      StepOverlapInv(run[k - 1], calls[k - 1], Births(run, calls, k - 1), Tried(run, calls, k - 1));
    }
  }

  lemma StartOverlapInv(run: seq<State>, calls: seq<Call>)
    requires IsTrace(run, calls)
    ensures OverlapInv(run[0], Births(run, calls, 0), Tried(run, calls, 0))
  {
  }

  lemma ListedBirth(s: State, births: seq<nat>, tried: nat)
    requires OverlapInv(s, births, tried)
    ensures |births| == |s.inFlight|
  {
  }

  /** After a creation the timers that were in flight before it still are, so the bound speaks of them. */
  lemma Survivors(n: nat, run: seq<State>, calls: seq<Call>, k: nat)
    requires IsTrace(run, calls) && OverlapsWithin(n, run, calls) && 0 < k <= |calls| && calls[k - 1] == InitCreate
    ensures var before := Births(run, calls, k - 1);
      forall i :: 0 <= i < |before| ==> Tried(run, calls, k) <= before[i] + n
  {
    var before, after := Births(run, calls, k - 1), Births(run, calls, k);
    forall i | 0 <= i < |before|
      ensures Tried(run, calls, k) <= before[i] + n
    {
      assert after[i] == before[i];
    }
  }

  /**
   * In every run in which fewer than 2^32 handles are tried while an init is in flight, listed handles
   * are distinct, so every listed timer is the one that its handle leads to.
   */
  lemma ListedHandlesDistinct(n: nat, run: seq<State>, calls: seq<Call>, k: nat)
    requires IsTrace(run, calls) && n < UINT32_SPAN && OverlapsWithin(n, run, calls) && k <= |calls|
    ensures DistinctHandles(run[k].items)
    ensures forall i :: 0 <= i < |run[k].items| ==> Find(run[k].items, run[k].items[i].handle) == i
  {
    hide Find;
    RunOverlapInv(n, run, calls, k);
  }

  /** No init starts between the two locked regions of another one. */
  ghost predicate InitsAreAtomic(run: seq<State>, calls: seq<Call>)
    requires |run| == |calls| + 1
  {
    forall k :: 0 <= k < |calls| && calls[k] == InitCreate ==> run[k].inFlight == []
  }

  /** Then nothing is tried while an init is in flight. */
  lemma AtomicInitsDoNotOverlap(run: seq<State>, calls: seq<Call>)
    requires IsTrace(run, calls) && InitsAreAtomic(run, calls)
    ensures OverlapsWithin(0, run, calls)
  {
    assert |run| == |calls| + 1;
    hide Births, Tried, IsTrace, InitsAreAtomic;
    forall k | 0 <= k <= |calls|
      ensures forall i :: 0 <= i < |Births(run, calls, k)| ==> Tried(run, calls, k) <= Births(run, calls, k)[i]
    {
      NoOverlapAt(run, calls, k);
    }
  }

  lemma NoOverlapAt(run: seq<State>, calls: seq<Call>, k: nat)
    requires IsTrace(run, calls) && InitsAreAtomic(run, calls) && k <= |calls|
    ensures forall i :: 0 <= i < |Births(run, calls, k)| ==> Tried(run, calls, k) <= Births(run, calls, k)[i]
  {
    AtomicBirth(run, calls, k);
    hide Births, Tried, IsTrace, InitsAreAtomic;
  }

  lemma {:induction false} AtomicBirth(run: seq<State>, calls: seq<Call>, k: nat)
    requires IsTrace(run, calls) && InitsAreAtomic(run, calls) && k <= |calls|
    ensures |Births(run, calls, k)| == |run[k].inFlight| <= 1
    ensures run[k].inFlight != [] ==> Births(run, calls, k)[0] == Tried(run, calls, k)
    decreases k
  {
    hide Apply, Enabled, Tries;
    if k > 0 {
      AtomicBirth(run, calls, k - 1);
      assert Follows(run[k - 1], calls[k - 1], run[k]);
      FlightStep(run[k - 1], calls[k - 1]);
    }
  }

  lemma FlightStep(s: State, call: Call)
    requires Enabled(s, call)
    ensures var t := Apply(s, call).0;
      match call
      case InitCreate => |s.inFlight| <= |t.inFlight| <= |s.inFlight| + 1
      case InitList(k) => k < |s.inFlight| && |t.inFlight| == |s.inFlight| - 1
      case _ => t.inFlight == s.inFlight
  {
    hide NextHandle, Find, FindByCb, FindById, Without, MarkedBy;
  }

  // ----- the bound -----

  /** No run in which inits overlap by at most `n` tried handles lists a handle twice. */
  ghost predicate DistinctWithin(n: nat) {
    forall run: seq<State>, calls: seq<Call>, k: nat ::
      IsTrace(run, calls) && OverlapsWithin(n, run, calls) && k <= |calls| ==>
        DistinctHandles(run[k].items)
  }

  /** Listed handles are distinct however inits overlap by at most `n` tried handles, if and only if n < 2^32. */
  lemma OverlapBoundIsExact(n: nat)
    ensures DistinctWithin(n) <==> n < UINT32_SPAN
  {
    if n < UINT32_SPAN {
      forall run: seq<State>, calls: seq<Call>, k: nat
        | IsTrace(run, calls) && OverlapsWithin(n, run, calls) && k <= |calls|
        ensures DistinctHandles(run[k].items)
      {
        RunOverlapInv(n, run, calls, k);
      }
    } else {
      var run, calls := Collision(n);
      assert !DistinctHandles(run[|calls|].items);
    }
  }

  /** Born after at least one handle was tried. */
  ghost predicate AllBorn(births: seq<nat>) {
    forall i :: 0 <= i < |births| ==> 1 <= births[i]
  }

  lemma NextBorn(s: State, call: Call, t: State, births: seq<nat>, tried: nat)
    requires AllBorn(births) && (call == InitCreate && |t.inFlight| > |s.inFlight| ==> tried >= 1)
    ensures AllBorn(NextBirths(s, call, t, births, tried))
  {
  }

  lemma {:induction false} BornAfterTrying(run: seq<State>, calls: seq<Call>, k: nat)
    requires IsTrace(run, calls) && k <= |calls|
    ensures AllBorn(Births(run, calls, k))
    decreases k
  {
    hide Tries, NextBirths, Apply, Enabled;
    if k > 0 {
      BornAfterTrying(run, calls, k - 1);
      assert Follows(run[k - 1], calls[k - 1], run[k]);
      ClosedCreatesNone(run[k - 1], calls[k - 1]);
      NextBorn(run[k - 1], calls[k - 1], run[k], Births(run, calls, k - 1), Tried(run, calls, k));
    }
  }

  lemma ClosedCreatesNone(s: State, call: Call)
    requires Enabled(s, call)
    ensures call == InitCreate && s.closing ==> Apply(s, call).0.inFlight == s.inFlight
  {
  }

  lemma {:induction false} TriedGrows(run: seq<State>, calls: seq<Call>, j: nat, k: nat)
    requires j <= k <= |calls| < |run|
    ensures Tried(run, calls, j) <= Tried(run, calls, k)
    decreases k
  {
    if j < k {
      TriedGrows(run, calls, j, k - 1);
    }
  }

  /** Where n + 1 handles are tried in all, at most n are while an init is in flight. */
  lemma FewTried(n: nat, run: seq<State>, calls: seq<Call>)
    requires IsTrace(run, calls) && Tried(run, calls, |calls|) <= n + 1
    ensures OverlapsWithin(n, run, calls)
  {
    assert |run| == |calls| + 1;
    hide Tried, Births, IsTrace;
    forall k | 0 <= k <= |calls|
      ensures Tried(run, calls, k) <= n + 1 && AllBorn(Births(run, calls, k))
    {
      TriedGrows(run, calls, k, |calls|);
      BornAfterTrying(run, calls, k);
    }
  }

  lemma {:induction false} TriedPrefix(run: seq<State>, calls: seq<Call>, t: State, call: Call, k: nat)
    requires k <= |calls| && |run| == |calls| + 1
    ensures Tried(run + [t], calls + [call], k) == Tried(run, calls, k)
    decreases k
  {
    if k > 0 {
      TriedPrefix(run, calls, t, call, k - 1);
    }
  }

  /** Never more than two timers at once, listed or on the way. */
  ghost predicate AtMostTwo(run: seq<State>) {
    forall k :: 0 <= k < |run| ==> |run[k].items| + |run[k].inFlight| <= 2
  }

  /** One more call, with the handles it tries. */
  lemma ExtendTried(run: seq<State>, calls: seq<Call>, call: Call) returns (longer: seq<State>, t: State)
    requires IsTrace(run, calls) && Enabled(run[|calls|], call) && AtMostTwo(run)
    requires var u := Apply(run[|calls|], call).0; |u.items| + |u.inFlight| <= 2
    ensures t == Apply(run[|calls|], call).0 && longer == run + [t] && IsTrace(longer, calls + [call])
    ensures |longer| == |calls| + 2 && longer[|calls| + 1] == t && AtMostTwo(longer)
    ensures Tried(longer, calls + [call], |calls| + 1) == Tried(run, calls, |calls|) + TriesOf(run[|calls|], call)
  {
    hide Apply, Enabled, TriesOf;
    t := Apply(run[|calls|], call).0;
    longer := Extend(run, calls, call);
    TriedPrefix(run, calls, t, call, |calls|);
  }

  /** One init is held up with handle 1, no timer is listed, and `n` handles have been tried. */
  ghost predicate HeldUp(s: State, n: nat) {
    && s.items == [] && |s.inFlight| == 1 && s.inFlight[0].handle == 1
    && !s.closing && s.enabled && s.nextHandle == Wrapped(n)
  }

  lemma NothingInUse(counter: nat)
    ensures NextHandle([], counter, 0) == (Increment(counter), true) && Tries([], counter, 0) == 1
  {
  }

  lemma WrappedNext(n: nat)
    ensures Increment(Wrapped(n)) == Wrapped(n + 1)
  {
  }

  /** With no timer listed an init tries one handle, and gets it. */
  lemma FreeCreate(s: State, n: nat)
    requires s.items == [] && !s.closing && s.nextHandle == Wrapped(n)
    ensures TriesOf(s, InitCreate) == 1
    ensures var t, h := DoInitCreate(s).0, Wrapped(n + 1);
      && t.items == [] && !t.closing && t.enabled && t.nextHandle == h
      && |t.inFlight| == |s.inFlight| + 1 && t.inFlight[..|s.inFlight|] == s.inFlight
      && t.inFlight[|s.inFlight|].handle == h && !t.inFlight[|s.inFlight|].inCb
  {
    NothingInUse(s.nextHandle);
    WrappedNext(n);
  }

  /** A second thread inits a timer and kills it. */
  lemma InitAndKill(s: State, n: nat)
    requires HeldUp(s, n)
    ensures TriesOf(s, InitCreate) == 1
    ensures var t := DoInitCreate(s).0;
      && t.items == [] && |t.inFlight| == 2
      && var u := DoInitList(t, 1).0;
      && |u.items| == 1 && |u.inFlight| == 1
      && HeldUp(DoKill(u, Some(Wrapped(n + 1)), None).0, n + 1)
  {
    hide Wrapped;
    FreeCreate(s, n);
    var t := DoInitCreate(s).0;
    var u := DoInitList(t, 1).0;
    assert u.items == [t.inFlight[1]];
    assert Find(u.items, Wrapped(n + 1)) == 0;
  }

  /** The first thread is held up in its init while the second goes round n - 1 times. */
  lemma {:induction false} Rounds(n: nat) returns (run: seq<State>, calls: seq<Call>)
    requires n > 0
    ensures IsTrace(run, calls) && |run| == |calls| + 1 && AtMostTwo(run)
    ensures HeldUp(run[|calls|], n) && Tried(run, calls, |calls|) == n
    decreases n
  {
    hide Wrapped, IsTrace, AtMostTwo, Tried, Tries, DoInitCreate, DoInitList, DoKill;
    var t;
    if n == 1 {
      run, calls := FirstCreate();
    } else {
      run, calls := Rounds(n - 1);
      InitAndKill(run[|calls|], n - 1);
      run, t := ExtendTried(run, calls, InitCreate);
      calls := calls + [InitCreate];
      run, t := ExtendTried(run, calls, InitList(1));
      calls := calls + [InitList(1)];
      run, t := ExtendTried(run, calls, Kill(Some(Wrapped(n)), None));
      calls := calls + [Kill(Some(Wrapped(n)), None)];
    }
  }

  lemma FirstCreate() returns (run: seq<State>, calls: seq<Call>)
    ensures IsTrace(run, calls) && |run| == |calls| + 1 && AtMostTwo(run)
    ensures HeldUp(run[|calls|], 1) && Tried(run, calls, |calls|) == 1
  {
    var env := Env({}, (0, 0), multiset{}, {}, {}, multiset{}, multiset{}, {}, map[], map[]);
    var s := State(false, false, [], 0, 0, [], 0, env);
    FreeCreate(s, 0);
    hide Wrapped, DoInitCreate;
    run, calls := [s], [];
    var t;
    run, t := ExtendTried(run, calls, InitCreate);
    calls := calls + [InitCreate];
  }

  /**
   * Two threads suffice for a collision. The first is held up in its init with handle 1. The second
   * inits and kills timers until the counter has come round, is given handle 1 for one more, and both
   * are listed.
   */
  lemma Collision(n: nat) returns (run: seq<State>, calls: seq<Call>)
    requires n >= UINT32_SPAN
    ensures IsTrace(run, calls) && OverlapsWithin(n, run, calls) && AtMostTwo(run)
    ensures !DistinctHandles(run[|calls|].items)
  {
    hide IsTrace, AtMostTwo, Tried, Tries, DoInitCreate, DoInitList;
    run, calls := Rounds(UINT32_SPAN);
    var t;
    var s := run[|calls|];
    FreeCreate(s, UINT32_SPAN);
    assert Wrapped(UINT32_SPAN + 1) == 1;
    hide Wrapped;
    TwiceListed(DoInitCreate(s).0);
    run, t := ExtendTried(run, calls, InitCreate);
    calls := calls + [InitCreate];
    run, t := ExtendTried(run, calls, InitList(0));
    calls := calls + [InitList(0)];
    run, t := ExtendTried(run, calls, InitList(0));
    calls := calls + [InitList(0)];
    FewTried(n, run, calls);
  }

  /** Two timers in flight with the same handle, listed one after the other. */
  lemma TwiceListed(s: State)
    requires s.items == [] && |s.inFlight| == 2 && s.inFlight[0].handle == s.inFlight[1].handle
    ensures var t := DoInitList(s, 0).0;
      && |t.items| == 1 && |t.inFlight| == 1
      && var u := DoInitList(t, 0).0;
      && |u.items| == 2 && |u.inFlight| == 0 && !DistinctHandles(u.items)
  {
    var u := DoInitList(DoInitList(s, 0).0, 0).0;
    assert u.items[0].handle == u.items[1].handle;
  }
}
