/**
 * The deferred work queue of DPTF/Sources/Manager/DeferredWorkItemQueue.cpp and the timer that
 * EsifTimer.cpp sets for it, as values.
 *
 * Times are in microseconds. The clock is read in whole milliseconds, and each reading is a
 * parameter, since it may change between two readings inside one call.
 */
module DeferredQueue {
  import opened Base

  /** A deferred work item; `arrival` numbers the items in the order in which they were enqueued. */
  datatype Work = Work(arrival: nat, deadline: int)

  /** What the timer was last set to: m_expirationTime, and the timeout handed to the timer manager. */
  datatype Armed = Armed(deadline: int, msec: nat)

  const MICROSECONDS_PER_MILLISECOND := 1000

  // ----- specification -----

  /** calculateMilliSecondsUntilTimerExpires; the conversion of a positive duration rounds down. */
  function MsecUntil(deadline: int, now: int): nat {
    if deadline > now then (deadline - now) / MICROSECONDS_PER_MILLISECOND else 1
  }

  /** The queue's timer after setTimer; None if startTimer throws, as esif_ccb_timer_set_msec refuses 0. */
  function TimerSet(queue: seq<Work>, timer: Option<Armed>, now: int): Option<Option<Armed>> {
    if queue == [] then Some(timer)
    else if MsecUntil(queue[0].deadline, now) == 0 then None
    else Some(Some(Armed(queue[0].deadline, MsecUntil(queue[0].deadline, now))))
  }

  /** Before the first item with a later deadline. */
  function InsertedAt(queue: seq<Work>, deadline: int): (i: nat)
    ensures i <= |queue| && (i < |queue| ==> queue[i].deadline > deadline)
    ensures forall j :: 0 <= j < i ==> queue[j].deadline <= deadline
  {
    if queue == [] || queue[0].deadline > deadline then 0 else 1 + InsertedAt(queue[1..], deadline)
  }

  function Inserted(queue: seq<Work>, w: Work): seq<Work> {
    var i := InsertedAt(queue, w.deadline);
    queue[..i] + [w] + queue[i..]
  }

  /** The first item, if it is ready. */
  function Ready(queue: seq<Work>, now: int): Option<Work> {
    if queue != [] && queue[0].deadline <= now then Some(queue[0]) else None
  }

  function AfterReady(queue: seq<Work>, now: int): seq<Work> {
    if Ready(queue, now).Some? then queue[1..] else queue
  }

  function Matching(queue: seq<Work>, matches: Work -> bool): seq<Work> {
    if queue == [] then []
    else (if matches(queue[0]) then [queue[0]] else []) + Matching(queue[1..], matches)
  }

  function NotMatching(queue: seq<Work>, matches: Work -> bool): seq<Work> {
    if queue == [] then []
    else (if matches(queue[0]) then [] else [queue[0]]) + NotMatching(queue[1..], matches)
  }

  // ----- what the parts guarantee -----

  predicate Before(a: Work, b: Work) {
    a.deadline < b.deadline || (a.deadline == b.deadline && a.arrival < b.arrival)
  }

  /** By deadline, and in the order of arrival where deadlines are equal. */
  ghost predicate Sorted(queue: seq<Work>) {
    forall i, j :: 0 <= i < j < |queue| ==> Before(queue[i], queue[j])
  }

  lemma InsertedSorted(queue: seq<Work>, w: Work)
    requires Sorted(queue) && forall x :: x in queue ==> x.arrival < w.arrival
    ensures Sorted(Inserted(queue, w))
    ensures multiset(Inserted(queue, w)) == multiset(queue) + multiset{w}
  {
    hide InsertedAt;
    var i := InsertedAt(queue, w.deadline);
    assert queue == queue[..i] + queue[i..];
    forall j | i <= j < |queue|
      ensures Before(w, queue[j])
    {
      assert Before(queue[i], queue[j]) || i == j;
    }
    forall j | 0 <= j < i
      ensures Before(queue[j], w)
    {
      assert queue[j] in queue;
    }
  }

  /** Removal splits the queue into what matches and what does not. */
  lemma {:induction false} PartsCount(queue: seq<Work>, matches: Work -> bool)
    ensures multiset(queue) == multiset(Matching(queue, matches)) + multiset(NotMatching(queue, matches))
  {
    if queue != [] {
      PartsCount(queue[1..], matches);
      assert queue == [queue[0]] + queue[1..];
    }
  }

  lemma {:induction false} PartsMembers(queue: seq<Work>, matches: Work -> bool)
    ensures forall x :: x in Matching(queue, matches) ==> x in queue && matches(x)
    ensures forall x :: x in NotMatching(queue, matches) ==> x in queue && !matches(x)
  {
    if queue != [] {
      PartsMembers(queue[1..], matches);
    }
  }

  lemma {:induction false} RestSorted(queue: seq<Work>, matches: Work -> bool)
    requires Sorted(queue)
    ensures Sorted(NotMatching(queue, matches))
  {
    if queue != [] {
      RestSorted(queue[1..], matches);
      PartsMembers(queue[1..], matches);
      hide Before;
      var rest := NotMatching(queue[1..], matches);
      forall j | 0 <= j < |rest|
        ensures Before(queue[0], rest[j])
      {
        assert rest[j] in queue[1..];
      }
    }
  }

  /** Setting the timer for a non-empty queue fails exactly if the first deadline is less than 1 ms ahead. */
  lemma TimerFailsIff(queue: seq<Work>, timer: Option<Armed>, now: int)
    requires queue != []
    ensures TimerSet(queue, timer, now) == None <==> 0 < queue[0].deadline - now < MICROSECONDS_PER_MILLISECOND
    ensures TimerSet(queue, timer, now) != None ==>
      TimerSet(queue, timer, now).value.Some? && TimerSet(queue, timer, now).value.value.deadline == queue[0].deadline
  {
  }

  /** Whole milliseconds, as many as fit before a deadline that lies ahead, and one for any other. */
  predicate IsTimeout(msec: nat, deadline: int, now: int) {
    if deadline > now then now + 1000 * msec <= deadline < now + 1000 * (msec + 1) else msec == 1
  }

  /** The timeout that is handed over. */
  lemma TimeoutMeaning(queue: seq<Work>, timer: Option<Armed>, now: int)
    requires queue != [] && TimerSet(queue, timer, now).Some?
    ensures var armed := TimerSet(queue, timer, now).value;
      armed.Some? && armed.value.deadline == queue[0].deadline && IsTimeout(armed.value.msec, queue[0].deadline, now)
  {
  }

  /** What the timer is set to, and whether that throws, does not depend on how it was set before. */
  lemma SameTimer(queue: seq<Work>, timer: Option<Armed>, other: Option<Armed>, now: int)
    ensures TimerSet(queue, timer, now).Some? == TimerSet(queue, other, now).Some?
    ensures queue != [] ==> TimerSet(queue, timer, now) == TimerSet(queue, other, now)
  {
  }

  /** The loop of removeIfMatches with `rest` still to go. */
  ghost predicate Parted(all: seq<Work>, matches: Work -> bool, removed: seq<Work>, kept: seq<Work>, rest: seq<Work>) {
    && kept + NotMatching(rest, matches) == NotMatching(all, matches)
    && removed + Matching(rest, matches) == Matching(all, matches)
  }

  lemma PartedStart(all: seq<Work>, matches: Work -> bool)
    ensures Parted(all, matches, [], all[..0], all[0..])
  {
    assert all[0..] == all;
  }

  lemma PartedStep(all: seq<Work>, matches: Work -> bool, removed: seq<Work>, kept: seq<Work>, rest: seq<Work>)
    requires Parted(all, matches, removed, kept, rest) && rest != []
    ensures if matches(rest[0]) then Parted(all, matches, removed + [rest[0]], kept, rest[1..])
            else Parted(all, matches, removed, kept + [rest[0]], rest[1..])
  {
  }

  lemma PartedEnd(all: seq<Work>, matches: Work -> bool, removed: seq<Work>, kept: seq<Work>)
    requires Parted(all, matches, removed, kept, [])
    ensures removed == Matching(all, matches) && kept == NotMatching(all, matches)
  {
  }

  // ----- the timer callback -----

  /** What has been taken once the first item of `rest` was taken if it was ready. */
  function Taken(taken: seq<Work>, rest: seq<Work>, now: int): (t: seq<Work>)
    ensures |taken| <= |t|
  {
    if Ready(rest, now).Some? then taken + [Ready(rest, now).value] else taken
  }

  /** Each item was ready at the reading of the dequeue that took it. */
  ghost predicate TakenReady(taken: seq<Work>, clock: nat -> int) {
    forall n :: 0 <= n < |taken| ==> taken[n].deadline <= clock(2 * n)
  }

  /** The callback after so many dequeues, of which the last found `found`. */
  ghost predicate Progress(all: seq<Work>, taken: seq<Work>, rest: seq<Work>, clock: nat -> int,
                           dequeues: nat, found: Option<Work>) {
    && all == taken + rest && TakenReady(taken, clock)
    && 1 <= dequeues
    && match found
       case None => |taken| == dequeues - 1 && Ready(rest, clock(2 * (dequeues - 1))) == None
       case Some(w) => |taken| == dequeues && taken[dequeues - 1] == w
  }

  lemma NothingTaken(all: seq<Work>, clock: nat -> int, accepts: Work -> bool)
    ensures all == [] + all && TakenReady([], clock) && Matching([], accepts) == []
  {
  }

  lemma TakeNext(all: seq<Work>, taken: seq<Work>, rest: seq<Work>, clock: nat -> int, dequeues: nat)
    requires all == taken + rest && TakenReady(taken, clock) && |taken| == dequeues
    ensures var now := clock(2 * dequeues);
      && Progress(all, Taken(taken, rest, now), AfterReady(rest, now), clock, dequeues + 1, Ready(rest, now))
      && Taken(taken, rest, now)[..dequeues] == taken
      && (Ready(rest, now).Some? ==> |AfterReady(rest, now)| < |rest|)
  {
    if Ready(rest, clock(2 * dequeues)).Some? {
      assert rest == [rest[0]] + rest[1..];
    }
  }

  lemma ProgressMeans(all: seq<Work>, taken: seq<Work>, rest: seq<Work>, clock: nat -> int,
                      dequeues: nat, found: Option<Work>)
    requires Progress(all, taken, rest, clock, dequeues, found)
    ensures all == taken + rest && TakenReady(taken, clock)
    ensures 1 <= dequeues && dequeues - 1 <= |taken| <= dequeues
    ensures found == None ==> |taken| == dequeues - 1 && Ready(rest, clock(2 * (dequeues - 1))) == None
    ensures found.Some? ==> |taken| == dequeues && taken[dequeues - 1] == found.value
    ensures |taken| == dequeues ==> taken[..dequeues] == taken
  {
  }

  lemma {:induction false} MatchingLast(queue: seq<Work>, matches: Work -> bool)
    requires queue != []
    ensures Matching(queue, matches) ==
            Matching(queue[..|queue| - 1], matches) + if matches(queue[|queue| - 1]) then [queue[|queue| - 1]] else []
  {
    if |queue| > 1 {
      MatchingLast(queue[1..], matches);
      assert queue[1..][..|queue| - 2] == queue[..|queue| - 1][1..];
    }
  }
}
