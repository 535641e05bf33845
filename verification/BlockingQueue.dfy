/**
 * The functions of Common/esif_ccb_sem.h and Common/esif_queue.c as operations on objects, each with
 * the effect one call has when no other thread is inside. The event's methods are proved to do what
 * the steps of one thread do in the state machine of TimedWaits; what interleaving adds is the
 * subject of the modules QueueProtocol and TimedWaits.
 */
module BlockingQueue {
  import opened Base
  import LinkList
  import opened TimedWaits
  import opened EventSteps

  class Event {
    var signaled: bool
    var waiters: nat
    var sigCount: nat
    var tokens: nat // in the semaphore

    constructor ()
      ensures !signaled && waiters == 0 && sigCount == 0 && tokens == 0
    {
      signaled, waiters, sigCount, tokens := false, 0, 0, 0;
    }

    /** The event of this state of the protocol, with its lock free. */
    ghost predicate Shows(s: TimedWaits.State)
      reads this
    {
      s.lock == None && s.signaled == signaled && s.waiters == waiters && s.sigCount == sigCount && s.tokens == tokens
    }

    /** The protocol gets from `s` to this event, and its threads to `threads`, by steps of one operation. */
    ghost predicate IsReached(s: TimedWaits.State, i: nat, op: Op, threads: seq<Pc>)
      reads this
    {
      exists t :: Reaches(Of(i, op), s, t) && Shows(t) && t.threads == threads
    }

    /** The part of a wait before the semaphore: whether the caller has to sleep, and the signal count. */
    method EnterWait() returns (mustSleep: bool, seen: nat)
      modifies this`waiters
      ensures mustSleep == !signaled && seen == sigCount
      ensures waiters == old(waiters) + (if mustSleep then 1 else 0)
      ensures forall s: TimedWaits.State, i: nat ::
        old(Shows(s)) && i < |s.threads| && s.threads[i] == Idle ==>
          IsReached(s, i, Wait, s.threads[i := if mustSleep then Sleep(seen) else Idle])
      ensures forall s: TimedWaits.State, i: nat ::
        old(Shows(s)) && i < |s.threads| && s.threads[i] == Idle ==>
          IsReached(s, i, TryWait, s.threads[i := if mustSleep then TryDown(seen) else Idle])
    {
      hide Reaches;
      mustSleep, seen := false, sigCount;
      if !signaled {
        waiters := waiters + 1;
        mustSleep := true;
      }
      forall s: TimedWaits.State, i: nat | old(Shows(s)) && i < |s.threads| && s.threads[i] == Idle
        ensures IsReached(s, i, Wait, s.threads[i := Entered(s, Wait)])
        ensures IsReached(s, i, TryWait, s.threads[i := Entered(s, TryWait)])
      {
        EnterAlone(s, i, Wait);
        EnterAlone(s, i, TryWait);
      }
    }

    method Set()
      modifies this
      ensures signaled && waiters == 0 && sigCount == old(sigCount) + 1
      ensures tokens == old(tokens) + old(waiters)
      ensures forall s: TimedWaits.State, i: nat ::
        old(Shows(s)) && i < |s.threads| && s.threads[i] == Idle ==> IsReached(s, i, Op.Set, s.threads)
    {
      hide Reaches;
      signaled := true;
      sigCount := sigCount + 1;
      while waiters != 0
        invariant signaled && sigCount == old(sigCount) + 1
        invariant tokens + waiters == old(tokens) + old(waiters)
        decreases waiters
      {
        tokens := tokens + 1;
        waiters := waiters - 1;
      }
      forall s: TimedWaits.State, i: nat | old(Shows(s)) && i < |s.threads| && s.threads[i] == Idle
        ensures IsReached(s, i, Op.Set, s.threads)
      {
        SetAlone(s, i);
      }
    }

    method Reset()
      modifies this`signaled
      ensures !signaled
      ensures forall s: TimedWaits.State, i: nat ::
        old(Shows(s)) && i < |s.threads| && s.threads[i] == Idle ==> IsReached(s, i, Op.Reset, s.threads)
    {
      hide Reaches;
      signaled := false;
      forall s: TimedWaits.State, i: nat | old(Shows(s)) && i < |s.threads| && s.threads[i] == Idle
        ensures IsReached(s, i, Op.Reset, s.threads)
      {
        ResetAlone(s, i);
      }
    }

    /**
     * The part of a timed wait after the semaphore, with `seen` the count noted on entry. That the
     * waiter count is positive, or a token there for the second wait, is what TimedWaits proves.
     */
    method SettleWait(seen: nat, gotToken: bool)
      requires if seen == sigCount then waiters > 0 else gotToken || tokens > 0
      modifies this`waiters, this`tokens
      ensures waiters == old(waiters) - (if seen == sigCount then 1 else 0)
      ensures tokens == old(tokens) - (if seen != sigCount && !gotToken then 1 else 0)
      ensures forall s: TimedWaits.State, i: nat ::
        old(Shows(s)) && i < |s.threads| && s.threads[i] == TryRelock(seen, gotToken) ==>
          IsReached(s, i, TryWait, s.threads[i := Idle])
    {
      hide Reaches;
      if seen == sigCount {
        waiters := waiters - 1;
      } else if !gotToken {
        tokens := tokens - 1;
      }
      forall s: TimedWaits.State, i: nat
        | old(Shows(s)) && i < |s.threads| && s.threads[i] == TryRelock(seen, gotToken)
        ensures IsReached(s, i, TryWait, s.threads[i := Idle])
      {
        SettleAlone(s, i, seen, gotToken);
        assert Shows(Settled(s, i, seen, gotToken));
      }
    }

    method ReleaseWaiters()
      modifies this`waiters, this`tokens
      ensures waiters == 0 && tokens == old(tokens) + old(waiters)
      ensures forall s: TimedWaits.State, i: nat ::
        old(Shows(s)) && i < |s.threads| && s.threads[i] == Idle ==> IsReached(s, i, Release, s.threads)
    {
      hide Reaches;
      while waiters != 0
        invariant tokens + waiters == old(tokens) + old(waiters)
        decreases waiters
      {
        tokens := tokens + 1;
        waiters := waiters - 1;
      }
      forall s: TimedWaits.State, i: nat | old(Shows(s)) && i < |s.threads| && s.threads[i] == Idle
        ensures IsReached(s, i, Release, s.threads)
      {
        ReleaseAlone(s, i);
      }
    }
  }

  /** The items up to the first NULL, where esif_queue_destroy stops. */
  function UpToNull(c: seq<Address>): seq<Address> {
    if c == [] || c[0] == NULL then [] else [c[0]] + UpToNull(c[1..])
  }

  class Queue {
    const maxSize: nat
    var currentSize: nat
    const event: Event
    const list: LinkList.List

    ghost function Repr(): set<object>
      reads list
    {
      {this, list, event} + set n <- list.spine
    }

    ghost predicate Valid()
      reads this, list, list.spine, event
    {
      && list.Valid()
      && currentSize == |list.contents| <= maxSize
      && (list.contents != [] ==> event.signaled && event.waiters == 0)
    }

    constructor (depth: nat)
      ensures Valid() && list.contents == [] && maxSize == depth
      ensures fresh(Repr())
    {
      maxSize := depth;
      currentSize := 0;
      event := new Event();
      list := new LinkList.List();
    }

    method Enqueue(data: Address) returns (rc: Rc)
      requires Valid()
      modifies Repr()
      ensures Valid()
      ensures rc == if |old(list.contents)| >= maxSize then NoMemory else Ok
      ensures rc == Ok ==>
        && list.contents == old(list.contents) + [data]
        && event.tokens == old(event.tokens) + old(event.waiters)
      ensures rc != Ok ==> list.contents == old(list.contents) && unchanged(event)
      ensures fresh(Repr() - old(Repr()))
    {
      rc := NoMemory;
      if currentSize >= maxSize {
        return;
      }
      rc := list.AddAtBack(data);
      currentSize := currentSize + 1;
      event.Set();
      rc := Ok;
    }

    method Requeue(data: Address) returns (rc: Rc)
      requires Valid()
      modifies Repr()
      ensures Valid()
      ensures rc == if |old(list.contents)| >= maxSize then NoMemory else Ok
      ensures rc == Ok ==>
        && list.contents == [data] + old(list.contents)
        && event.tokens == old(event.tokens) + old(event.waiters)
      ensures rc != Ok ==> list.contents == old(list.contents) && unchanged(event)
      ensures fresh(Repr() - old(Repr()))
    {
      rc := NoMemory;
      if currentSize >= maxSize {
        return;
      }
      var node := new LinkList.Node(data);
      list.AddNodeAtFront(node);
      currentSize := currentSize + 1;
      event.Set();
      rc := Ok;
    }

    method Dequeue() returns (data: Address)
      requires Valid()
      modifies Repr()
      ensures Valid()
      ensures if old(list.contents) == [] then data == NULL && list.contents == []
              else data == old(list.contents)[0] && list.contents == old(list.contents)[1..]
      ensures event.signaled == (old(event.signaled) && list.contents != [])
      ensures event.waiters == old(event.waiters) && event.tokens == old(event.tokens)
      ensures Repr() <= old(Repr())
    {
      data := NULL;
      var node := list.head;
      if node == null {
        currentSize := 0;
      } else {
        data := node.data;
        list.RemoveHead(node);
        currentSize := currentSize - 1;
      }
      if currentSize == 0 {
        event.Reset();
      }
    }

    /** Dequeues and hands over items until NULL comes back; `handed` logs the calls. */
    method Destroy() returns (handed: seq<Address>)
      requires Valid()
      modifies Repr()
      ensures handed == UpToNull(old(list.contents))
      ensures NULL !in old(list.contents) ==> list.contents == []
    {
      hide UpToNull, Remains;
      ghost var c := list.contents;
      handed := [];
      var data := Dequeue();
      TakeNext(c, [], c, data, list.contents);
      while data != NULL
        invariant Valid()
        invariant Repr() <= old(Repr())
        invariant NULL !in handed && Remains(c, handed, data, list.contents)
        decreases |list.contents|, data != NULL
      {
        ghost var rest := list.contents;
        HandedOver(c, handed, data, rest);
        handed := handed + [data];
        data := Dequeue();
        TakeNext(c, handed, rest, data, list.contents);
      }
      StopsAtNull(c, handed, list.contents);
    }
  }

  /** `c` was handed over up to `data`, and `rest` is still in the queue. */
  ghost predicate Remains(c: seq<Address>, handed: seq<Address>, data: Address, rest: seq<Address>) {
    c == handed + [data] + rest || (c == handed && data == NULL && rest == [])
  }

  lemma HandedOver(c: seq<Address>, handed: seq<Address>, data: Address, rest: seq<Address>)
    requires Remains(c, handed, data, rest) && data != NULL
    ensures c == handed + [data] + rest
  {
  }

  lemma TakeNext(c: seq<Address>, handed: seq<Address>, rest: seq<Address>, data: Address, left: seq<Address>)
    requires c == handed + rest
    requires if rest == [] then data == NULL && left == [] else data == rest[0] && left == rest[1..]
    ensures Remains(c, handed, data, left)
  {
    if rest != [] {
      assert rest == [data] + left;
    }
  }

  lemma {:induction false} StopsAtNull(c: seq<Address>, handed: seq<Address>, rest: seq<Address>)
    requires NULL !in handed && Remains(c, handed, NULL, rest)
    ensures handed == UpToNull(c)
    ensures NULL !in c ==> rest == []
  {
    if handed != [] {
      StopsAtNull(c[1..], handed[1..], rest);
    } else if c != [] {
      assert c[0] == NULL;
    }
  }
}
