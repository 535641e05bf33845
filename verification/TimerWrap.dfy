/**
 * Why the theorems of TimerRuns ask for fewer than 2^32 sets: the bound is exact. With 2^32 sets
 * the callback handle counter comes back to a handle issued before, and the late delivery of a
 * superseded set starts a callback.
 */
module TimerWrap {
  import opened Base
  import opened TimerSpec
  import opened TimerRuns

  /** A set of the timer with handle 1, which the OS accepts or refuses. */
  function SetOne(osAccepts: bool): Call {
    SetMsec(Some(1), 1, osAccepts)
  }

  /** The handle issued by the n-th set, counting from 1: the counter skips 0. */
  function HandleOf(n: nat): nat
    requires n > 0
  {
    (n - 1) % (UINT32_SPAN - 1) + 1
  }

  lemma HandleStep(n: nat)
    requires n > 0
    ensures NextCb(HandleOf(n)) == HandleOf(n + 1)
  {
    var m := n - 1;
    if m % (UINT32_SPAN - 1) == UINT32_SPAN - 2 {
      assert n % (UINT32_SPAN - 1) == 0;
    } else {
      assert n % (UINT32_SPAN - 1) == m % (UINT32_SPAN - 1) + 1;
    }
  }

  /** A single listed timer, set last with this handle. */
  ghost predicate Lone(s: State, h: nat) {
    && s.enabled && s.nextCb == h
    && |s.items| == 1 && s.items[0].id == 0 && s.items[0].handle == 1 && s.items[0].cbHandle == h
    && !s.items[0].inCb && !s.items[0].marked
  }

  lemma SetAgain(s: State, h: nat, osAccepts: bool)
    requires Lone(s, h)
    ensures var (t, rc) := Apply(s, SetOne(osAccepts));
      && SetTarget(s, SetOne(osAccepts)) == Some(0)
      && Lone(t, NextCb(h)) && t.env.running == s.env.running
      && t.env.armed == s.env.armed + (if osAccepts then {NextCb(h)} else {})
      && (rc == Ok <==> osAccepts)
  {
    assert Find(s.items, 1) == 0;
  }

  lemma Start() returns (run: seq<State>, calls: seq<Call>)
    ensures IsTrace(run, calls) && |calls| == 2 && !calls[0].SetMsec? && !calls[1].SetMsec?
    ensures Lone(run[2], 0) && run[2].env.running == multiset{} && Sets(calls) == 0
  {
    var env := Env({}, (0, 0), multiset{}, {}, {}, multiset{}, multiset{}, {}, map[], map[]);
    var s0 := State(false, false, [], 0, 0, [], 0, env);
    calls := [InitCreate, InitList(0)];
    assert NextHandle([], 0, 0) == (1, true);
    var s1 := Apply(s0, calls[0]).0;
    assert s1.inFlight == [Item(0, 1, 0, false, false, [], false, 0, 0)];
    var s2 := Apply(s1, calls[1]).0;
    run := [s0, s1, s2];
    assert calls[..1] == [InitCreate] && [InitCreate][..0] == [];
  }

  /** A run that initializes one timer and sets it `n` times, each time accepted. */
  lemma {:induction false} ManySets(n: nat) returns (run: seq<State>, calls: seq<Call>)
    requires n > 0
    ensures IsTrace(run, calls) && |calls| == n + 2 && Sets(calls) == n
    ensures Lone(run[2], 0) && calls[2] == SetOne(true) && run[3].nextCb == 1 && 1 in run[|calls|].env.armed
    ensures Lone(run[n + 2], HandleOf(n)) && run[n + 2].env.running == multiset{}
    decreases n
  {
    var r, c;
    if n == 1 {
      r, c := Start();
      SetAgain(r[2], 0, true);
    } else {
      r, c := ManySets(n - 1);
      SetAgain(r[n + 1], HandleOf(n - 1), true);
      HandleStep(n - 1);
    }
    run := Extend(r, c, SetOne(true));
    calls := c + [SetOne(true)];
    assert calls[..|calls| - 1] == c;
  }

  /** At call `k` the handle issued by set `j` starts a callback although set `m` came in between. */
  ghost predicate Revives(run: seq<State>, calls: seq<Call>, j: nat, m: nat, k: nat, id: nat, other: nat)
    requires IsTrace(run, calls)
  {
    && j < m < k < |calls|
    && SetTarget(run[j], calls[j]) == Some(id) && SetTarget(run[m], calls[m]) == Some(id)
    && calls[k] == Deliver(run[j + 1].nextCb)
    && Follows(run[k], calls[k], run[k + 1]) && Starts(run[k], calls[k], other)
  }

  /**
   * 2^32 sets of one timer, the last of them refused by the OS: the handle of the first set, armed by
   * it alone and long superseded, starts the timer's callback.
   */
  lemma WrapRevivesHandle() returns (run: seq<State>, calls: seq<Call>)
    ensures IsTrace(run, calls) && Sets(calls) == UINT32_SPAN && |calls| == UINT32_SPAN + 3
    ensures calls[|calls| - 2] == SetOne(false) && Apply(run[|calls| - 2], SetOne(false)).1 != Ok
    ensures Revives(run, calls, 2, |calls| - 2, |calls| - 1, 0, 0)
  {
    var n := UINT32_SPAN - 1;
    var r, c := ManySets(n);
    SetAgain(r[2], 0, true);
    SetAgain(r[n + 2], HandleOf(n), false);
    HandleStep(n);
    OneMore(c, SetOne(false));
    OneMore(c + [SetOne(false)], Deliver(1));
    hide Sets, IsTrace, Apply, SetTarget, Enabled;
    var r2 := Extend(r, c, SetOne(false));
    var c2 := c + [SetOne(false)];
    var last := r2[|c2|];
    DeliverOne(last);
    run := Extend(r2, c2, Deliver(1));
    calls := c2 + [Deliver(1)];
    var k := |calls| - 1;
    assert run[k] == last && run[2] == r[2] && run[3] == r[3] && run[k - 1] == r[n + 2];
    assert Follows(run[k], calls[k], run[k + 1]);
  }

  /** An idle timer's callback starts when its handle is delivered. */
  lemma DeliverOne(s: State)
    requires Lone(s, 1) && 1 in s.env.armed && s.env.running == multiset{}
    ensures Enabled(s, Deliver(1)) && Starts(s, Deliver(1), 0)
  {
    assert FindByCb(s.items, 1) == 0;
    assert Apply(s, Deliver(1)).0.env.running == multiset{0};
  }

  lemma OneMore(calls: seq<Call>, call: Call)
    ensures Sets(calls + [call]) == Sets(calls) + if call.SetMsec? then 1 else 0
  {
    assert (calls + [call])[..|calls|] == calls;
  }

  /** In no run with at most `n` sets does a superseded set fire. */
  ghost predicate QuietUpTo(n: nat) {
    forall run, calls, j: nat, m: nat, k: nat, id: nat, other: nat ::
      IsTrace(run, calls) && Sets(calls) <= n ==> !Revives(run, calls, j, m, k, id, other)
  }

  /** The bound of TimerRuns is exact: superseded sets never fire up to `n` sets if and only if n < 2^32. */
  lemma BoundIsExact(n: nat)
    ensures QuietUpTo(n) <==> n < UINT32_SPAN
  {
    hide Sets;
    if n < UINT32_SPAN {
      forall run, calls, j: nat, m: nat, k: nat, id: nat, other: nat | IsTrace(run, calls) && Sets(calls) <= n
        ensures !Revives(run, calls, j, m, k, id, other)
      {
        if Revives(run, calls, j, m, k, id, other) {
          SupersededNeverFires(run, calls, j, m, k, id, other);
        }
      }
    } else {
      var run, calls := WrapRevivesHandle();
      assert Revives(run, calls, 2, |calls| - 2, |calls| - 1, 0, 0);
    }
  }

  // ----- two callbacks at once -----

  /** At `k` two callbacks of the same timer are running. */
  ghost predicate Overlap(run: seq<State>, k: nat, id: nat) {
    k < |run| && run[k].env.running[id] > 1
  }

  /** A timer set last with handle `h`, whose callback is running. */
  ghost predicate Busy(s: State, h: nat) {
    && s.enabled && s.nextCb == h
    && |s.items| == 1 && s.items[0].id == 0 && s.items[0].handle == 1 && s.items[0].inCb && !s.items[0].marked
    && s.env.running == multiset{0}
  }

  lemma DeliverLast(s: State, h: nat)
    requires Lone(s, h) && h in s.env.armed && s.env.running == multiset{}
    ensures Enabled(s, Deliver(h)) && Busy(Apply(s, Deliver(h)).0, h)
    ensures Apply(s, Deliver(h)).0.env.armed == s.env.armed
  {
    assert FindByCb(s.items, h) == 0;
  }

  lemma SetInCallback(s: State, h: nat)
    requires Busy(s, h)
    ensures var t := Apply(s, SetOne(true)).0;
      Busy(t, NextCb(h)) && t.items[0].cbHandle == NextCb(h) && t.env.armed == s.env.armed
  {
    assert Find(s.items, 1) == 0;
  }

  lemma DeliverAgain(s: State, h: nat)
    requires Busy(s, h) && s.items[0].cbHandle == h && h in s.env.armed
    ensures Enabled(s, Deliver(h)) && Apply(s, Deliver(h)).0.env.running == multiset{0, 0}
  {
    assert FindByCb(s.items, h) == 0;
  }

  /** The last handle issued is armed, too. */
  lemma LastIsArmed(n: nat) returns (run: seq<State>, calls: seq<Call>)
    requires n > 1
    ensures IsTrace(run, calls) && |calls| == n + 2 && Sets(calls) == n
    ensures Lone(run[|calls|], HandleOf(n)) && run[|calls|].env.running == multiset{}
    ensures 1 in run[|calls|].env.armed && HandleOf(n) in run[|calls|].env.armed
  {
    var r, c := ManySets(n - 1);
    SetAgain(r[n + 1], HandleOf(n - 1), true);
    HandleStep(n - 1);
    OneMore(c, SetOne(true));
    hide IsTrace, Apply, Sets, Enabled;
    run := Extend(r, c, SetOne(true));
    calls := c + [SetOne(true)];
  }

  /**
   * 2^32 sets of one timer, the last of them inside its callback: that set issues the handle of the
   * first one, whose late delivery starts a second callback beside the one that is running.
   */
  lemma TwoCallbacksAtOnce() returns (run: seq<State>, calls: seq<Call>)
    ensures IsTrace(run, calls) && Sets(calls) == UINT32_SPAN
    ensures Overlap(run, |calls|, 0)
  {
    var n := UINT32_SPAN - 1;
    var r, c := LastIsArmed(n);
    HandleStep(n);
    var s := r[|c|];
    DeliverLast(s, n);
    OneMore(c, Deliver(n));
    OneMore(c + [Deliver(n)], SetOne(true));
    OneMore(c + [Deliver(n)] + [SetOne(true)], Deliver(1));
    hide IsTrace, Apply, Sets, Enabled;
    run := Extend(r, c, Deliver(n));
    calls := c + [Deliver(n)];
    var t := Apply(s, Deliver(n)).0;
    SetInCallback(t, n);
    assert Enabled(t, SetOne(true)) by { IsEnabled(t); }
    run := Extend(run, calls, SetOne(true));
    calls := calls + [SetOne(true)];
    var u := Apply(t, SetOne(true)).0;
    DeliverAgain(u, 1);
    run := Extend(run, calls, Deliver(1));
    calls := calls + [Deliver(1)];
  }

  lemma IsEnabled(s: State)
    ensures Enabled(s, SetOne(true))
  {
  }

  /** In no run with at most `n` sets do two callbacks of one timer run at once. */
  ghost predicate OneAtATimeUpTo(n: nat) {
    forall run, calls, k: nat, id: nat :: IsTrace(run, calls) && Sets(calls) <= n ==> !Overlap(run, k, id)
  }

  /** The bound is exact for the other theorem, too: one callback at a time, if and only if n < 2^32. */
  lemma CallbackBoundIsExact(n: nat)
    ensures OneAtATimeUpTo(n) <==> n < UINT32_SPAN
  {
    hide Sets, IsTrace;
    if n < UINT32_SPAN {
      forall run, calls, k: nat, id: nat | IsTrace(run, calls) && Sets(calls) <= n
        ensures !Overlap(run, k, id)
      {
        if Overlap(run, k, id) {
          OneCallbackAtATime(run, calls, k, id);
        }
      }
    } else {
      var run, calls := TwoCallbacksAtOnce();
      assert Overlap(run, |calls|, 0);
    }
  }
}
