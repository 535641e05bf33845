/**
 * The uses of an event in which timed waits are safe are exactly those of TimedWaits.SafeUse: in any
 * other use some run takes the token that a timed waiter needs and leaves it blocked with the lock held,
 * or lets the waiter count underflow.
 */
module TimedWaitsBound {
  import opened Base
  import opened TimedWaits
  import opened EventSteps

  function PermittedBy(use: Use): Step -> bool {
    step => Permits(use, step)
  }

  /** Steps that a use permits make up a run. */
  lemma {:induction false} RunAlong(use: Use, run: seq<State>, steps: seq<Step>, t: State) returns (longer: seq<State>)
    requires IsRun(use, run) && Execute(run[|run| - 1], steps) == Some(t)
    requires forall k :: 0 <= k < |steps| ==> Permits(use, steps[k])
    ensures IsRun(use, longer) && longer[0] == run[0] && longer[|longer| - 1] == t
    decreases |steps|
  {
    if steps == [] {
      longer := run;
    } else {
      var last := run[|run| - 1];
      var next := Apply(last, steps[0]);
      assert Follows(use, last, next);
      var more := run + [next];
      assert forall k :: 0 < k < |more| ==> Follows(use, more[k - 1], more[k]);
      longer := RunAlong(use, more, steps[1..], t);
    }
  }

  lemma RunTo(use: Use, s: State, t: State) returns (run: seq<State>)
    requires Initial(s) && Reaches(PermittedBy(use), s, t)
    ensures IsRun(use, run) && run[0] == s && run[|run| - 1] == t
  {
    var steps :| Execute(s, steps) == Some(t) && forall k :: 0 <= k < |steps| ==> PermittedBy(use)(steps[k]);
    assert forall k :: 0 <= k < |steps| ==> Permits(use, steps[k]);
    run := RunAlong(use, [s], steps, t);
  }

  /** Thread `i` holds the lock and waits for a token that nobody can ever supply. */
  ghost predicate Stuck(s: State, i: nat) {
    && s.lock == Some(i) && s.tokens == 0
    && i < |s.threads| && s.threads[i].TryDownAgain?
    && forall j :: 0 <= j < |s.threads| && j != i ==>
         s.threads[j] in {Idle, WaitLock, TryLock, SetLock, ResetLock, ReleaseLock}
  }

  lemma StuckForever(s: State, i: nat, step: Step)
    requires Stuck(s, i) && Enabled(s, step)
    ensures Stuck(Apply(s, step), i)
  {
  }

  function Idles(n: nat): (threads: seq<Pc>)
    ensures |threads| == n && forall k :: 0 <= k < n ==> threads[k] == Idle
  {
    seq(n, _ => Idle)
  }

  /** All threads idle but the i-th. */
  function Only(n: nat, i: nat, pc: Pc): seq<Pc>
    requires i < n
  {
    Idles(n)[i := pc]
  }

  /** Thread `j` takes the only token, by a wait of the kind `op` that it has just entered. */
  lemma Theft(s: State, i: nat, j: nat, op: Op)
    requires i < |s.threads| && j < |s.threads| && i != j && s.threads[j] == Idle && s.lock == None
    requires !s.signaled && s.waiters == 0 && s.tokens == 1 && (op == Wait || op == TryWait)
    ensures Reaches(Of(j, op), s, s.(tokens := 0, waiters := if op == Wait then 1 else 0))
  {
    hide Reaches;
    EnterAlone(s, j, op);
    var a := s.(waiters := 1, threads := s.threads[j := Entered(s, op)]);
    var b := Go(Of(j, op), s, a, Act(j));
    if op == TryWait {
      SettleAlone(b, j, s.sigCount, true);
      Chain(Of(j, op), s, b, Settled(b, j, s.sigCount, true));
      assert Settled(b, j, s.sigCount, true).threads == s.threads;
    } else {
      assert b.threads == s.threads;
    }
  }

  /** The state in which thread `i` is counted and no other thread is inside an operation. */
  function Counted(n: nat, i: nat, op: Op): State
    requires i < n && (op == Wait || op == TryWait)
  {
    State(None, false, 1, 0, 0, Only(n, i, if op == Wait then Sleep(0) else TryDown(0)))
  }

  predicate MayWait(use: Use, i: nat, op: Op) {
    (op == Wait && i in use.plain) || (op == TryWait && i in use.timed)
  }

  lemma GetsCounted(use: Use, n: nat, i: nat, op: Op) returns (s: State)
    requires i < n && MayWait(use, i, op)
    ensures Initial(s) && |s.threads| == n && Reaches(PermittedBy(use), s, Counted(n, i, op))
  {
    hide Reaches;
    s := State(None, false, 0, 0, 0, Idles(n));
    EnterAlone(s, i, op);
    Widen(Of(i, op), PermittedBy(use), s, Counted(n, i, op));
  }

  /** Where threads `i` and `j` wait, and `j` set the event in between and took the token. */
  function Robbed(n: nat, i: nat, opi: Op, opj: Op): State
    requires i < n && (opi == Wait || opi == TryWait)
  {
    Counted(n, i, opi).(sigCount := 1, waiters := if opj == Wait then 1 else 0)
  }

  /** Thread `i` waits; thread `j` sets and resets the event and then waits itself, and takes the token. */
  lemma TokenTaken(use: Use, n: nat, i: nat, opi: Op, j: nat, opj: Op) returns (s: State)
    requires i < n && j < n && i != j && use.resets && MayWait(use, i, opi) && MayWait(use, j, opj)
    ensures Initial(s) && |s.threads| == n && Reaches(PermittedBy(use), s, Robbed(n, i, opi, opj))
  {
    hide Reaches;
    var kind := PermittedBy(use);
    s := GetsCounted(use, n, i, opi);
    var a := Counted(n, i, opi);
    SetAlone(a, j);
    var b := State(None, true, 0, 1, 1, a.threads);
    Widen(Of(j, Set), kind, a, b);
    ResetAlone(b, j);
    var c := b.(signaled := false);
    Widen(Of(j, Reset), kind, b, c);
    Theft(c, i, j, opj);
    var d := Robbed(n, i, opi, opj);
    Widen(Of(j, opj), kind, c, d);
    Chain(kind, s, a, b);
    Chain(kind, s, b, c);
    Chain(kind, s, c, d);
  }

  /** A timed waiter that was robbed gives up, sees the new signal count and waits for its token. */
  lemma TwoWaitersStick(use: Use, n: nat, i: nat, j: nat, op: Op) returns (s: State, t: State)
    requires i < n && j < n && i != j && use.resets && i in use.timed
    requires MayWait(use, j, op)
    ensures Initial(s) && |s.threads| == n && Reaches(PermittedBy(use), s, t) && Stuck(t, i)
  {
    hide Reaches;
    var kind := PermittedBy(use);
    s := TokenTaken(use, n, i, TryWait, j, op);
    var d := Robbed(n, i, TryWait, op);
    var e := Go(kind, s, d, Expire(i));
    var f := Go(kind, s, e, Act(i));
    t := Go(kind, s, f, Act(i));
  }

  /**
   * Thread `i` waits with a timeout, thread `j` releases the waiters without a set; thread `i` gets its
   * token, sees the signal count it knows and takes itself out of a count that is zero already.
   */
  lemma ReleaseUnderflows(use: Use, n: nat, i: nat, j: nat) returns (s: State, t: State)
    requires i < n && j < n && i != j && use.releases && i in use.timed
    ensures Initial(s) && |s.threads| == n && Reaches(PermittedBy(use), s, t)
    ensures t.waiters < 0 && !Safe(t)
    ensures t == State(Some(i), false, -1, 0, 0, Only(n, i, TryRelease))
  {
    hide Reaches;
    var kind := PermittedBy(use);
    s := GetsCounted(use, n, i, TryWait);
    var a := Counted(n, i, TryWait);
    ReleaseAlone(a, j);
    var b := a.(waiters := 0, tokens := 1);
    Widen(Of(j, Release), kind, a, b);
    Chain(kind, s, a, b);
    var c := Go(kind, s, b, Act(i));
    var d := Go(kind, s, c, Act(i));
    t := Go(kind, s, d, Act(i));
  }

  /**
   * The exact condition, for n threads and any use of the event by them: every run is safe if and only
   * if nobody waits with a timeout; or waiters are never released without a set, and nobody resets the
   * event or at most one thread waits; or there is but one thread.
   */
  lemma TimedWaitsSafeIff(n: nat, use: Use)
    requires forall i :: i in use.timed + use.plain ==> i < n
    ensures (forall run: seq<State>, k: nat :: IsRun(use, run) && |run[0].threads| == n && k < |run| ==> Safe(run[k]))
       <==> SafeUse(n, use)
  {
    hide Safe;
    if SafeUse(n, use) {
      forall run: seq<State>, k: nat | IsRun(use, run) && |run[0].threads| == n && k < |run|
        ensures Safe(run[k])
      {
        TimedWaitsSafe(use, run, k);
      }
    } else {
      var i :| i in use.timed;
      var s, t;
      if use.releases {
        s, t := ReleaseUnderflows(use, n, i, if i == 0 then 1 else 0);
      } else {
        var j := Another(use.timed + use.plain, i);
        s, t := TwoWaitersStick(use, n, i, j, if j in use.plain then Wait else TryWait);
        StuckIsUnsafe(t, i);
      }
      var run := RunTo(use, s, t);
      assert !Safe(run[|run| - 1]);
    }
  }

  lemma StuckIsUnsafe(s: State, i: nat)
    requires Stuck(s, i)
    ensures !Safe(s)
  {
    assert !Enabled(s, Act(i));
  }

  lemma Another(a: set<nat>, i: nat) returns (j: nat)
    requires i in a && |a| > 1
    ensures j in a && j != i
  {
    assert a != {i};
    assert a - {i} != {};
    j :| j in a - {i};
  }
}
