/**
 * What one thread does to the event of Common/esif_ccb_sem.h when no other thread takes a step in
 * between: each operation, run to its end in the state machine of TimedWaits.
 */
module EventSteps {
  import opened Base
  import opened TimedWaits

  /** The state after the given steps, if each of them is possible when its turn comes. */
  function Execute(s: State, steps: seq<Step>): Option<State>
    decreases |steps|
  {
    if steps == [] then Some(s)
    else if Enabled(s, steps[0]) then Execute(Apply(s, steps[0]), steps[1..])
    else None
  }

  /** `t` is reached from `s` by steps of the kind `kind`. */
  ghost predicate Reaches(kind: Step -> bool, s: State, t: State) {
    exists steps :: Execute(s, steps) == Some(t) && forall k :: 0 <= k < |steps| ==> kind(steps[k])
  }

  /** Steps of thread `i` in the operation `op`. */
  function Of(i: nat, op: Op): Step -> bool {
    (step: Step) => step.thread == i && (step.Begin? ==> step.op == op)
  }

  lemma {:induction false} ExecuteBoth(s: State, a: seq<Step>, b: seq<Step>)
    requires Execute(s, a).Some?
    ensures Execute(s, a + b) == Execute(Execute(s, a).value, b)
    decreases |a|
  {
    if a == [] {
      assert a + b == b;
    } else {
      assert (a + b)[1..] == a[1..] + b;
      ExecuteBoth(Apply(s, a[0]), a[1..], b);
    }
  }

  lemma {:induction false} Chain(kind: Step -> bool, s: State, t: State, u: State)
    requires Reaches(kind, s, t) && Reaches(kind, t, u)
    ensures Reaches(kind, s, u)
  {
    var a :| Execute(s, a) == Some(t) && forall k :: 0 <= k < |a| ==> kind(a[k]);
    var b :| Execute(t, b) == Some(u) && forall k :: 0 <= k < |b| ==> kind(b[k]);
    ExecuteBoth(s, a, b);
    assert forall k :: 0 <= k < |a + b| ==> kind((a + b)[k]);
  }

  lemma {:induction false} Widen(kind: Step -> bool, wider: Step -> bool, s: State, t: State)
    requires Reaches(kind, s, t) && forall step :: kind(step) ==> wider(step)
    ensures Reaches(wider, s, t)
  {
    var a :| Execute(s, a) == Some(t) && forall k :: 0 <= k < |a| ==> kind(a[k]);
    assert forall k :: 0 <= k < |a| ==> wider(a[k]);
  }

  lemma {:induction false} Stay(kind: Step -> bool, s: State)
    ensures Reaches(kind, s, s)
  {
    assert Execute(s, []) == Some(s);
  }

  /** One more step. */
  lemma {:induction false} Go(kind: Step -> bool, s: State, t: State, step: Step) returns (u: State)
    requires Reaches(kind, s, t) && Enabled(t, step) && kind(step)
    ensures u == Apply(t, step) && Reaches(kind, s, u)
  {
    u := Apply(t, step);
    assert Execute(u, []) == Some(u);
    assert [step][1..] == [];
    assert Execute(t, [step]) == Some(u);
    Chain(kind, s, t, u);
  }

  // ----- the operations -----

  /** Where a thread stands once it has noted that it waits, or seen that it need not. */
  function Entered(s: State, op: Op): Pc
    requires op == Wait || op == TryWait
  {
    if s.signaled then Idle else if op == Wait then Sleep(s.sigCount) else TryDown(s.sigCount)
  }

  /** Both kinds of wait, up to the semaphore. */
  lemma EnterAlone(s: State, i: nat, op: Op)
    requires i < |s.threads| && s.threads[i] == Idle && s.lock == None && (op == Wait || op == TryWait)
    ensures Reaches(Of(i, op), s, s.(waiters := s.waiters + (if s.signaled then 0 else 1),
                                     threads := s.threads[i := Entered(s, op)]))
  {
    hide Reaches;
    Stay(Of(i, op), s);
    var a := Go(Of(i, op), s, s, Begin(i, op));
    var b := Go(Of(i, op), s, a, Act(i));
    var c := Go(Of(i, op), s, b, Act(i));
    var d := Go(Of(i, op), s, c, Act(i));
    assert d.threads == s.threads[i := Entered(s, op)];
  }

  /** What the second locked region of a timed wait does that had noted the signal count `seen`. */
  function Settled(s: State, i: nat, seen: nat, gotToken: bool): State
    requires i < |s.threads|
  {
    s.(waiters := s.waiters - (if seen == s.sigCount then 1 else 0),
       tokens := if seen != s.sigCount && !gotToken && s.tokens > 0 then s.tokens - 1 else s.tokens,
       threads := s.threads[i := Idle])
  }

  lemma SettleAlone(s: State, i: nat, seen: nat, gotToken: bool)
    requires i < |s.threads| && s.threads[i] == TryRelock(seen, gotToken) && s.lock == None
    requires seen != s.sigCount && !gotToken ==> s.tokens > 0
    ensures Reaches(Of(i, TryWait), s, Settled(s, i, seen, gotToken))
  {
    hide Reaches;
    Stay(Of(i, TryWait), s);
    var a := Go(Of(i, TryWait), s, s, Act(i));
    var b := Go(Of(i, TryWait), s, a, Act(i));
    if seen != s.sigCount && !gotToken {
      b := Go(Of(i, TryWait), s, b, Act(i));
    }
    var c := Go(Of(i, TryWait), s, b, Act(i));
    assert c.threads == s.threads[i := Idle];
  }

  /** The release loop of a set gives every counted waiter a token. */
  lemma {:induction false} SetLoopAlone(s: State, i: nat)
    requires i < |s.threads| && s.threads[i] == SetTest && s.waiters >= 0
    ensures Reaches(Of(i, Set), s, s.(waiters := 0, tokens := s.tokens + s.waiters,
                                      threads := s.threads[i := SetUnlock]))
    decreases s.waiters
  {
    hide Reaches;
    Stay(Of(i, Set), s);
    var a := Go(Of(i, Set), s, s, Act(i));
    if s.waiters > 0 {
      var b := Go(Of(i, Set), s, a, Act(i));
      var c := Go(Of(i, Set), s, b, Act(i));
      SetLoopAlone(c, i);
      var end := c.(waiters := 0, tokens := c.tokens + c.waiters, threads := c.threads[i := SetUnlock]);
      Chain(Of(i, Set), s, c, end);
      assert end.threads == s.threads[i := SetUnlock];
    }
  }

  lemma SetAlone(s: State, i: nat)
    requires i < |s.threads| && s.threads[i] == Idle && s.lock == None && s.waiters >= 0
    ensures Reaches(Of(i, Set), s, s.(signaled := true, sigCount := s.sigCount + 1,
                                      waiters := 0, tokens := s.tokens + s.waiters))
  {
    hide Reaches;
    Stay(Of(i, Set), s);
    var a := Go(Of(i, Set), s, s, Begin(i, Set));
    var b := Go(Of(i, Set), s, a, Act(i));
    var c := Go(Of(i, Set), s, b, Act(i));
    SetLoopAlone(c, i);
    var d := c.(waiters := 0, tokens := c.tokens + c.waiters, threads := c.threads[i := SetUnlock]);
    Chain(Of(i, Set), s, c, d);
    var e := Go(Of(i, Set), s, d, Act(i));
    assert e.threads == s.threads;
  }

  /** The loop of a release, which does what that of a set does. */
  lemma {:induction false} ReleaseLoopAlone(s: State, i: nat)
    requires i < |s.threads| && s.threads[i] == ReleaseTest && s.waiters >= 0
    ensures Reaches(Of(i, Release), s, s.(waiters := 0, tokens := s.tokens + s.waiters,
                                          threads := s.threads[i := ReleaseUnlock]))
    decreases s.waiters
  {
    hide Reaches;
    Stay(Of(i, Release), s);
    var a := Go(Of(i, Release), s, s, Act(i));
    if s.waiters > 0 {
      var b := Go(Of(i, Release), s, a, Act(i));
      var c := Go(Of(i, Release), s, b, Act(i));
      ReleaseLoopAlone(c, i);
      var end := c.(waiters := 0, tokens := c.tokens + c.waiters, threads := c.threads[i := ReleaseUnlock]);
      Chain(Of(i, Release), s, c, end);
      assert end.threads == s.threads[i := ReleaseUnlock];
    }
  }

  lemma ReleaseAlone(s: State, i: nat)
    requires i < |s.threads| && s.threads[i] == Idle && s.lock == None && s.waiters >= 0
    ensures Reaches(Of(i, Release), s, s.(waiters := 0, tokens := s.tokens + s.waiters))
  {
    hide Reaches;
    Stay(Of(i, Release), s);
    var a := Go(Of(i, Release), s, s, Begin(i, Release));
    var b := Go(Of(i, Release), s, a, Act(i));
    ReleaseLoopAlone(b, i);
    var c := b.(waiters := 0, tokens := b.tokens + b.waiters, threads := b.threads[i := ReleaseUnlock]);
    Chain(Of(i, Release), s, b, c);
    var d := Go(Of(i, Release), s, c, Act(i));
    assert d.threads == s.threads;
  }

  lemma ResetAlone(s: State, i: nat)
    requires i < |s.threads| && s.threads[i] == Idle && s.lock == None
    ensures Reaches(Of(i, Reset), s, s.(signaled := false))
  {
    hide Reaches;
    Stay(Of(i, Reset), s);
    var a := Go(Of(i, Reset), s, s, Begin(i, Reset));
    var b := Go(Of(i, Reset), s, a, Act(i));
    var c := Go(Of(i, Reset), s, b, Act(i));
    var d := Go(Of(i, Reset), s, c, Act(i));
    assert d.threads == s.threads;
  }
}
