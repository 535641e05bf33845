/**
 * The multi-waiter join of Common/esif_ccb_thread.h, for any number of joiners and every
 * interleaving of their atomic operations.
 *
 * Each joiner runs esif_ccb_wthread_join once. Whoever increments `waiters` from 0 is the leader:
 * it joins the thread unless that was done before, then releases one follower for every further
 * decrement. Everyone else waits on the semaphore.
 */
module WaitableThread {
  import opened Tally

  /** Where a joiner stands: the atomic operation it performs next. */
  datatype Pc =
    | Arrive   // atomic_inc(&waiters)
    | Follow   // esif_ccb_sem_down(&signal)
    | Claim    // atomic_set(&joined, 1)
    | Join     // esif_ccb_thread_join(&thread)
    | Depart   // atomic_dec(&waiters)
    | Release  // esif_ccb_sem_up(&signal)
    | Returned

  datatype State = State(
    waiters: int,      // atomic counter
    joined: int,       // atomic flag
    signal: nat,       // tokens in the semaphore
    workerEnded: bool, // the thread's function has returned
    joinCalls: nat,    // calls of esif_ccb_thread_join so far
    joinEnded: bool,   // one of those calls has returned
    joiners: seq<Pc>)

  /** After esif_ccb_wthread_create, with joiners about to enter. */
  ghost predicate Initial(s: State) {
    && s.waiters == 0 && s.joined == 0 && s.signal == 0
    && !s.workerEnded && s.joinCalls == 0 && !s.joinEnded
    && forall i :: 0 <= i < |s.joiners| ==> s.joiners[i] == Arrive
  }

  datatype Step = WorkerEnds | Act(joiner: nat)

  predicate Enabled(s: State, step: Step) {
    match step
    case WorkerEnds => !s.workerEnded
    case Act(i) =>
      && i < |s.joiners|
      && match s.joiners[i]
         case Follow => s.signal > 0
         case Join => s.workerEnded
         case Returned => false
         case _ => true
  }

  function Goto(s: State, i: nat, pc: Pc): State
    requires i < |s.joiners|
  {
    s.(joiners := s.joiners[i := pc])
  }

  /** One atomic operation. */
  function Apply(s: State, step: Step): State
    requires Enabled(s, step)
  {
    match step
    case WorkerEnds => s.(workerEnded := true)
    case Act(i) =>
      match s.joiners[i]
      case Arrive =>
        var w := s.waiters + 1;
        Goto(s.(waiters := w), i, if w > 1 then Follow else Claim)
      case Follow =>
        Goto(s.(signal := s.signal - 1), i, Returned)
      case Claim =>
        if s.joined == 0 then Goto(s.(joined := 1, joinCalls := s.joinCalls + 1), i, Join)
        else Goto(s.(joined := 1), i, Depart)
      case Join =>
        Goto(s.(joinEnded := true), i, Depart)
      case Depart =>
        var w := s.waiters - 1;
        Goto(s.(waiters := w), i, if w > 0 then Release else Returned)
      case Release =>
        Goto(s.(signal := s.signal + 1), i, Depart)
  }

  function IsLeader(pc: Pc): int {
    if pc == Claim || pc == Join || pc == Depart || pc == Release then 1 else 0
  }

  function IsFollower(pc: Pc): int {
    if pc == Follow then 1 else 0
  }

  function IsReleasing(pc: Pc): int {
    if pc == Release then 1 else 0
  }

  function IsJoining(pc: Pc): int {
    if pc == Join then 1 else 0
  }

  function Leaders(s: State): int { Sum(IsLeader, s.joiners) }

  function Followers(s: State): int { Sum(IsFollower, s.joiners) }

  function Releasing(s: State): int { Sum(IsReleasing, s.joiners) }

  function Joining(s: State): int { Sum(IsJoining, s.joiners) }

  /**
   * Tokens are conserved: each joiner at the semaphore, and the leader, is either still in the
   * waiter count or has a token, except that a leader between its decrement and its up has taken
   * one out of the count and not put it into the semaphore yet. There is one leader exactly while
   * the count is positive, and never a second one.
   */
  ghost predicate Conserved(s: State) {
    && s.waiters + s.signal + Releasing(s) == Followers(s) + Leaders(s)
    && s.waiters >= 0 && Leaders(s) == (if s.waiters > 0 then 1 else 0)
  }

  /** A place only reached when the join has ended. */
  predicate PastJoin(pc: Pc) {
    pc == Depart || pc == Release || pc == Returned
  }

  /** The thread is joined once, and nobody gets past that before it has ended. */
  ghost predicate JoinedOnce(s: State) {
    && 0 <= s.joined <= 1 && s.joinCalls == s.joined
    && Joining(s) == (if s.joined == 1 && !s.joinEnded then 1 else 0)
    && (s.joinEnded ==> s.workerEnded && s.joined == 1)
    && (s.signal > 0 ==> s.joinEnded)
    && forall i :: 0 <= i < |s.joiners| && PastJoin(s.joiners[i]) ==> s.joinEnded
  }

  ghost predicate Inv(s: State) {
    Conserved(s) && JoinedOnce(s)
  }

  lemma InitialInv(s: State)
    requires Initial(s)
    ensures Inv(s)
  {
    SumConstant(IsLeader, s.joiners, 0);
    SumConstant(IsFollower, s.joiners, 0);
    SumConstant(IsReleasing, s.joiners, 0);
    SumConstant(IsJoining, s.joiners, 0);
  }

  lemma ApplyConserves(s: State, step: Step)
    requires Conserved(s) && Enabled(s, step)
    ensures Conserved(Apply(s, step))
  {
    hide Sum;
    if step.Act? {
      var i, pc := step.joiner, Apply(s, step).joiners[step.joiner];
      SumUpdate(IsLeader, s.joiners, i, pc);
      SumUpdate(IsFollower, s.joiners, i, pc);
      SumUpdate(IsReleasing, s.joiners, i, pc);
      SumAtLeast(IsLeader, s.joiners, i);
    }
  }

  lemma ApplyJoinsOnce(s: State, step: Step)
    requires Inv(s) && Enabled(s, step)
    ensures JoinedOnce(Apply(s, step))
  {
    hide Sum;
    if step.Act? {
      var i, pc := step.joiner, Apply(s, step).joiners[step.joiner];
      SumUpdate(IsJoining, s.joiners, i, pc);
      SumAtLeast(IsJoining, s.joiners, i);
      if s.joiners[i] == Claim {
        OneLeader(s, i);
      }
    }
  }

  /** While one joiner is the leader and not joining, nobody is joining. */
  lemma OneLeader(s: State, i: nat)
    requires Conserved(s) && i < |s.joiners| && s.joiners[i] == Claim
    ensures Joining(s) == 0
  {
    SumNonNegative(IsJoining, s.joiners);
    if Joining(s) > 0 {
      var j := SumWitness(IsJoining, s.joiners);
      var rest := s.joiners[i := Returned];
      SumUpdate(IsLeader, s.joiners, i, Returned);
      SumAtLeast(IsLeader, rest, j);
    }
  }

  lemma ApplyInv(s: State, step: Step)
    requires Inv(s) && Enabled(s, step)
    ensures Inv(Apply(s, step))
  {
    ApplyConserves(s, step);
    ApplyJoinsOnce(s, step);
  }

  /** A finite execution: each state follows from the one before by some step. */
  ghost predicate IsRun(run: seq<State>) {
    && run != [] && Initial(run[0])
    && forall k :: 0 < k < |run| ==> Follows(run[k - 1], run[k])
  }

  ghost predicate Follows(s: State, t: State) {
    exists step :: Enabled(s, step) && t == Apply(s, step)
  }

  lemma {:induction false} RunInv(run: seq<State>, k: nat)
    requires IsRun(run) && k < |run|
    ensures Inv(run[k])
    decreases k
  {
    if k == 0 {
      InitialInv(run[0]);
    } else {
      RunInv(run, k - 1);
      assert Follows(run[k - 1], run[k]);
      var step :| Enabled(run[k - 1], step) && run[k] == Apply(run[k - 1], step);
      ApplyInv(run[k - 1], step);
    }
  }

  function Weight(pc: Pc): int {
    match pc
    case Arrive => 10
    case Follow => 1
    case Claim => 5
    case Join => 4
    case Depart => 3
    case Release => 4
    case Returned => 0
  }

  /** Bounds how many steps can still follow. */
  function Measure(s: State): int {
    3 * s.waiters + Sum(Weight, s.joiners) + (if s.workerEnded then 0 else 1)
  }

  lemma ApplyDecreases(s: State, step: Step)
    requires Enabled(s, step)
    ensures Measure(Apply(s, step)) < Measure(s)
  {
    if step.Act? {
      SumUpdate(Weight, s.joiners, step.joiner, Apply(s, step).joiners[step.joiner]);
    }
  }

  lemma {:induction false} RunLength(run: seq<State>, k: nat)
    requires IsRun(run) && k < |run|
    ensures 0 <= Measure(run[k]) <= 10 * |run[0].joiners| + 1 - k
    decreases k
  {
    RunInv(run, k);
    SumNonNegative(Weight, run[k].joiners);
    if k == 0 {
      SumConstant(Weight, run[0].joiners, 10);
    } else {
      RunLength(run, k - 1);
      assert Follows(run[k - 1], run[k]);
      var step :| Enabled(run[k - 1], step) && run[k] == Apply(run[k - 1], step);
      ApplyDecreases(run[k - 1], step);
    }
  }

  /** Once the worker has ended, some step is possible until every joiner has returned. */
  lemma NoDeadlock(s: State, i: nat)
    requires Inv(s) && s.workerEnded && i < |s.joiners| && s.joiners[i] != Returned
    ensures exists step :: Enabled(s, step)
  {
    if s.joiners[i] == Follow && s.signal == 0 {
      SumAtLeast(IsFollower, s.joiners, i);
      SumNonNegative(IsLeader, s.joiners);
      if Leaders(s) == 0 {
        NobodyReleases(s);
      }
      var leader := SumWitness(IsLeader, s.joiners);
      assert Enabled(s, Act(leader));
    } else {
      assert Enabled(s, Act(i));
    }
  }

  /**
   * In every reachable state: at most one join, at most one leader, nobody back before the join
   * has ended, and the tokens accounted for; with no leader every follower has its token.
   */
  lemma JoinSafety(run: seq<State>, k: nat)
    requires IsRun(run) && k < |run|
    ensures var s := run[k];
      && s.joinCalls <= 1
      && Leaders(s) <= 1
      && (forall i :: 0 <= i < |s.joiners| && s.joiners[i] == Returned ==> s.joinEnded && s.workerEnded)
      && s.waiters + s.signal + Releasing(s) == Followers(s) + Leaders(s)
      && (Leaders(s) == 0 ==> s.signal == Followers(s))
  {
    RunInv(run, k);
    var s := run[k];
    if Leaders(s) == 0 {
      NobodyReleases(s);
    }
  }

  lemma NobodyReleases(s: State)
    requires Leaders(s) == 0
    ensures Releasing(s) == 0
  {
    SumNonNegative(IsReleasing, s.joiners);
    if Releasing(s) > 0 {
      var i := SumWitness(IsReleasing, s.joiners);
      SumAtLeast(IsLeader, s.joiners, i);
    }
  }

  /**
   * Every execution is finite, and one that cannot go on has ended well: the worker has ended,
   * the thread was joined exactly once, every joiner has returned and no token is left over.
   */
  lemma JoinCompletes(run: seq<State>)
    requires IsRun(run)
    ensures |run| <= 10 * |run[0].joiners| + 2
    ensures var s := run[|run| - 1];
      (forall step :: !Enabled(s, step)) ==>
        && s.workerEnded
        && (forall i :: 0 <= i < |s.joiners| ==> s.joiners[i] == Returned)
        && s.signal == 0 && s.waiters == 0
        && (s.joiners != [] ==> s.joinCalls == 1 && s.joinEnded)
  {
    var last := |run| - 1;
    var s := run[last];
    RunInv(run, last);
    RunLength(run, last);
    if forall step :: !Enabled(s, step) {
      assert !Enabled(s, WorkerEnds);
      forall i | 0 <= i < |s.joiners|
        ensures s.joiners[i] == Returned
      {
        if s.joiners[i] != Returned {
          NoDeadlock(s, i);
        }
      }
      SumConstant(IsLeader, s.joiners, 0);
      SumConstant(IsFollower, s.joiners, 0);
      SumConstant(IsReleasing, s.joiners, 0);
      if s.joiners != [] {
        assert PastJoin(s.joiners[0]);
      }
    }
  }
}
