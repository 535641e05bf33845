/**
 * The end of the timer manager: a thread in esif_ccb_tmrm_exit kills the first timer and waits for
 * its destruction until no timer is listed, while other threads still set and kill timers, the OS
 * still delivers and callbacks still return.
 *
 * As the source demands, no init is in flight when the exit starts. Every kill that waits uses an
 * event of its own, and the callback handle counter does not wrap.
 */
module TimerExit {
  import opened Base
  import TimerSpec
  import TimerProofs
  import TimerHandles

  /** Where the exiting thread stands; `listed` is the number of timers it last saw in the list. */
  datatype Pc =
    | NotStarted
    | First                             // get_first_timer
    | KillIt(handle: nat, listed: nat)  // timer_kill_w_event
    | Wait(event: nat, listed: nat)     // event_wait
    | Finish                            // manager disabled
    | Done

  datatype State = State(
    mgr: TimerSpec.State,
    pc: Pc,
    atStart: nat, // timers listed when the exit started
    rounds: nat)  // kills begun by the exiting thread

  ghost predicate Initial(s: State) {
    TimerSpec.Initial(s.mgr) && s.pc == NotStarted && s.atStart == 0 && s.rounds == 0
  }

  /** `event` is the event that the next kill of the exiting thread uses. */
  datatype Step = Manager(call: TimerSpec.Call) | Act(event: nat)

  predicate Enabled(s: State, step: Step) {
    match step
    case Manager(call) =>
      && s.pc != Done
      && TimerSpec.Enabled(s.mgr, call)
      && (call.SetMsec? ==> s.mgr.nextCb + 1 < UINT32_SPAN)
      && (call.Kill? && call.event.Some? ==> call.event.value !in s.mgr.env.passed)
    case Act(event) =>
      match s.pc
      case NotStarted => s.mgr.inFlight == []
      case KillIt(_, _) => event !in s.mgr.env.passed
      case Wait(e, _) => e in s.mgr.env.signaled
      case Done => false
      case _ => true
  }

  function Apply(s: State, step: Step): State
    requires Enabled(s, step)
  {
    match step
    case Manager(call) => s.(mgr := TimerSpec.Apply(s.mgr, call).0)
    case Act(event) =>
      match s.pc
      case NotStarted =>
        if !s.mgr.enabled then s.(pc := Done)
        else s.(mgr := s.mgr.(closing := true), pc := First, atStart := |s.mgr.items|)
      case First =>
        if s.mgr.items == [] then s.(pc := Finish)
        else s.(pc := KillIt(s.mgr.items[0].handle, |s.mgr.items|))
      case KillIt(handle, listed) =>
        s.(mgr := TimerSpec.DoKill(s.mgr, Some(handle), Some(event)).0,
           pc := Wait(event, listed), rounds := s.rounds + 1)
      case Wait(_, _) => s.(pc := First)
      case Finish => s.(mgr := s.mgr.(enabled := false, closing := false), pc := Done)
      case Done => s
  }

  // ----- invariants -----

  /** Every event was passed to kill at most once. */
  ghost predicate EventsFresh(m: TimerSpec.State) {
    forall e :: m.env.passed[e] <= 1
  }

  /** A manager that is not enabled has no timers. */
  ghost predicate EnabledOk(m: TimerSpec.State) {
    !m.enabled ==> m.items == [] && m.inFlight == []
  }

  ghost predicate Exiting(pc: Pc) {
    pc != NotStarted && pc != Done
  }

  /** Once the exit has started no timer is added, and each round leaves fewer of them. */
  ghost predicate Shrinks(s: State) {
    && (Exiting(s.pc) ==> s.mgr.closing && s.mgr.enabled && s.mgr.inFlight == [])
    && match s.pc
       case NotStarted => s.rounds == 0
       case First => s.rounds + |s.mgr.items| <= s.atStart
       case KillIt(handle, listed) =>
         && s.rounds + listed <= s.atStart && listed > 0 && |s.mgr.items| <= listed
         && (|s.mgr.items| == listed ==> TimerSpec.Find(s.mgr.items, handle) < |s.mgr.items|)
       case Wait(e, listed) =>
         && s.rounds + listed <= s.atStart + 1 && listed > 0 && |s.mgr.items| <= listed
         && s.mgr.env.passed[e] == 1
         && (|s.mgr.items| == listed ==> e in TimerProofs.Held(s.mgr.items))
       case Finish => s.mgr.items == [] && s.rounds <= s.atStart
       case Done => s.mgr.items == [] && s.rounds <= s.atStart
  }

  ghost predicate Inv(s: State) {
    TimerProofs.Inv(s.mgr) && EventsFresh(s.mgr) && EnabledOk(s.mgr) && Shrinks(s)
  }

  lemma CallFresh(m: TimerSpec.State, call: TimerSpec.Call)
    requires EventsFresh(m) && TimerSpec.Enabled(m, call)
    requires call.Kill? && call.event.Some? ==> call.event.value !in m.env.passed
    ensures EventsFresh(TimerSpec.Apply(m, call).0)
  {
    var t := TimerSpec.Apply(m, call).0;
    PassedGrows(m, call);
  }

  lemma PassedGrows(m: TimerSpec.State, call: TimerSpec.Call)
    requires TimerSpec.Enabled(m, call)
    ensures TimerSpec.Apply(m, call).0.env.passed
         == m.env.passed + if call.Kill? then TimerProofs.Given(call.event) else multiset{}
  {
    hide TimerSpec.FindByCb, TimerSpec.FindById, TimerSpec.NextHandle, TimerSpec.Without, TimerSpec.DoKill;
    if call.Kill? {
      KillPasses(m, call.timer, call.event);
    }
  }

  lemma KillPasses(m: TimerSpec.State, timer: Option<nat>, event: Option<nat>)
    ensures TimerSpec.DoKill(m, timer, event).0.env.passed == m.env.passed + TimerProofs.Given(event)
  {
    hide TimerSpec.Find, TimerSpec.KillAt;
    if m.enabled && timer.Some? && TimerSpec.Find(m.items, timer.value) < |m.items| {
      var s := m.(env := TimerSpec.PassOne(m.env, event));
      KillAtPasses(s, TimerSpec.Find(m.items, timer.value), event);
    }
  }

  lemma KillAtPasses(m: TimerSpec.State, i: nat, event: Option<nat>)
    requires i < |m.items|
    ensures TimerSpec.KillAt(m, i, event).env.passed == m.env.passed
  {
    hide TimerSpec.Without, TimerSpec.MarkedBy;
  }

  lemma CallEnabled(m: TimerSpec.State, call: TimerSpec.Call)
    requires EnabledOk(m) && TimerSpec.Enabled(m, call)
    ensures EnabledOk(TimerSpec.Apply(m, call).0)
  {
    hide TimerSpec.Find, TimerSpec.FindByCb, TimerSpec.FindById, TimerSpec.NextHandle;
    hide TimerSpec.Without, TimerSpec.MarkedBy;
  }

  /** A step of the manager during the exit adds no timer, and unless one goes all stay in place. */
  lemma CallShrinks(m: TimerSpec.State, call: TimerSpec.Call, handle: nat)
    requires TimerSpec.Enabled(m, call) && m.closing && m.inFlight == []
    ensures var t := TimerSpec.Apply(m, call).0;
      && t.closing && t.enabled == m.enabled && t.inFlight == [] && |t.items| <= |m.items|
      && (|t.items| == |m.items| && TimerSpec.Find(m.items, handle) < |m.items|
          ==> TimerSpec.Find(t.items, handle) < |t.items|)
  {
    CallKeepsFlags(m, call);
    if !call.InitCreate? {
      var t := TimerSpec.Apply(m, call).0;
      hide TimerSpec.Apply, TimerSpec.Find, TimerSpec.Without;
      var gone := TimerHandles.OthersKeepHandles(m, call);
      var i := TimerSpec.Find(m.items, handle);
      if gone == None && i < |m.items| {
        assert t.items[i].handle == handle;
      }
    }
  }

  lemma CallKeepsFlags(m: TimerSpec.State, call: TimerSpec.Call)
    requires TimerSpec.Enabled(m, call) && m.closing
    ensures var t := TimerSpec.Apply(m, call).0;
      t.closing && t.enabled == m.enabled && (call.InitCreate? ==> t == m)
  {
    hide TimerSpec.Find, TimerSpec.FindByCb, TimerSpec.FindById, TimerSpec.NextHandle;
    hide TimerSpec.Without, TimerSpec.MarkedBy;
  }

  /** Unless a timer goes, only a failing kill sets an event, and that is its own. */
  lemma CallSignals(m: TimerSpec.State, call: TimerSpec.Call, e: nat)
    requires TimerSpec.Enabled(m, call) && !(call.Kill? && call.event == Some(e))
    requires |TimerSpec.Apply(m, call).0.items| >= |m.items|
    ensures TimerSpec.Apply(m, call).0.env.signaled[e] == m.env.signaled[e]
  {
    hide TimerSpec.Find, TimerSpec.FindByCb, TimerSpec.FindById, TimerSpec.NextHandle;
    hide TimerSpec.Without, TimerSpec.MarkedBy;
  }

  /** An event that is held stays held unless a timer goes. */
  lemma CallHolds(m: TimerSpec.State, call: TimerSpec.Call, e: nat)
    requires TimerSpec.Enabled(m, call) && e in TimerProofs.Held(m.items)
    requires call.Kill? && call.event.Some? ==> call.event.value !in m.env.passed
    requires TimerProofs.EventsOk(m) && TimerProofs.EventsOk(TimerSpec.Apply(m, call).0)
    requires |TimerSpec.Apply(m, call).0.items| >= |m.items|
    ensures e in TimerProofs.Held(TimerSpec.Apply(m, call).0.items)
  {
    hide TimerProofs.Held, TimerSpec.Apply;
    assert m.env.passed[e] == m.env.signaled[e] + TimerProofs.Held(m.items)[e];
    CallSignals(m, call, e);
    PassedGrows(m, call);
    var t := TimerSpec.Apply(m, call).0;
    assert t.env.passed[e] == t.env.signaled[e] + TimerProofs.Held(t.items)[e];
  }

  lemma InvEvents(m: TimerSpec.State)
    requires TimerProofs.Inv(m)
    ensures TimerProofs.EventsOk(m)
  {
  }

  lemma ManagerStep(s: State, call: TimerSpec.Call)
    requires Inv(s) && Enabled(s, Manager(call))
    ensures Inv(Apply(s, Manager(call)))
  {
    hide TimerProofs.Inv, EventsFresh, EnabledOk, TimerSpec.Apply, TimerSpec.Find, TimerSpec.Enabled;
    hide TimerProofs.Held, TimerProofs.EventsOk;
    TimerProofs.ApplyInv(s.mgr, call);
    CallFresh(s.mgr, call);
    CallEnabled(s.mgr, call);
    var t := TimerSpec.Apply(s.mgr, call).0;
    if Exiting(s.pc) {
      CallShrinks(s.mgr, call, if s.pc.KillIt? then s.pc.handle else 0);
      if s.pc.Wait? {
        PassedGrows(s.mgr, call);
        if |t.items| == s.pc.listed {
          InvEvents(s.mgr);
          InvEvents(t);
          CallHolds(s.mgr, call, s.pc.event);
        }
      }
    }
  }

  /** The kill of a listed timer destroys it, or leaves the event with it until its callback returns. */
  lemma ExitKill(m: TimerSpec.State, handle: nat, event: nat)
    requires TimerProofs.Inv(m) && m.enabled
    ensures var (t, rc) := TimerSpec.DoKill(m, Some(handle), Some(event));
      && t.closing == m.closing && t.enabled == m.enabled && t.inFlight == m.inFlight
      && |t.items| <= |m.items|
      && (TimerSpec.Find(m.items, handle) < |m.items| && |t.items| == |m.items|
          ==> event in TimerProofs.Held(t.items))
  {
    hide TimerProofs.Inv, TimerSpec.Find, TimerProofs.Held, TimerSpec.Without;
    var i := TimerSpec.Find(m.items, handle);
    if i < |m.items| && m.items[i].inCb {
      TimerProofs.HeldUpdate(m.items, i, TimerSpec.MarkedBy(m.items[i], Some(event)));
      HasEvent(m.items[i], event);
      HeldWaiter(m.items[i := TimerSpec.MarkedBy(m.items[i], Some(event))], i, event);
    }
  }

  lemma HasEvent(x: TimerSpec.Item, event: nat)
    ensures event in TimerSpec.MarkedBy(x, Some(event)).waiters
  {
    assert (x.waiters + [event])[|x.waiters|] == event;
  }

  lemma HeldWaiter(items: seq<TimerSpec.Item>, i: nat, event: nat)
    requires i < |items| && event in items[i].waiters
    ensures event in TimerProofs.Held(items)
  {
    TimerProofs.HeldWithout(items, i);
  }

  lemma ExitStep(s: State, event: nat)
    requires Inv(s) && Enabled(s, Act(event))
    ensures Inv(Apply(s, Act(event)))
  {
    hide TimerProofs.Inv, TimerProofs.Held, TimerSpec.Find, TimerSpec.DoKill;
    var t := Apply(s, Act(event));
    match s.pc
    case KillIt(handle, listed) =>
      var call := TimerSpec.Kill(Some(handle), Some(event));
      TimerProofs.KillInv(s.mgr, Some(handle), Some(event));
      PassedGrows(s.mgr, call);
      CallFresh(s.mgr, call);
      ExitKill(s.mgr, handle, event);
    case Wait(e, listed) =>
      InvEvents(s.mgr);
      assert s.mgr.env.passed[e] == s.mgr.env.signaled[e] + TimerProofs.Held(s.mgr.items)[e];
    case _ =>
      SameInv(s.mgr, t.mgr);
  }

  /** The two flags set by the exiting thread do not matter to the manager's invariant. */
  lemma SameInv(m: TimerSpec.State, t: TimerSpec.State)
    requires TimerProofs.Inv(m) && t == m.(enabled := t.enabled, closing := t.closing)
    ensures TimerProofs.Inv(t)
  {
    hide TimerProofs.Ids, TimerProofs.Held, TimerProofs.Distinct;
  }

  // ----- over runs -----

  ghost predicate Follows(s: State, t: State) {
    exists step :: Enabled(s, step) && t == Apply(s, step)
  }

  ghost predicate IsRun(run: seq<State>) {
    run != [] && Initial(run[0]) && forall k :: 0 < k < |run| ==> Follows(run[k - 1], run[k])
  }

  lemma InitialInv(s: State)
    requires Initial(s)
    ensures Inv(s)
  {
  }

  lemma {:induction false} RunInv(run: seq<State>, k: nat)
    requires IsRun(run) && k < |run|
    ensures Inv(run[k])
    decreases k
  {
    if k == 0 {
      InitialInv(run[0]);
    } else {
      hide Inv, Apply, Enabled;
      RunInv(run, k - 1);
      assert Follows(run[k - 1], run[k]);
      var step :| Enabled(run[k - 1], step) && run[k] == Apply(run[k - 1], step);
      match step
      case Manager(call) => ManagerStep(run[k - 1], call);
      case Act(event) => ExitStep(run[k - 1], event);
    }
  }

  /**
   * The exit kills no more often than timers were listed when it started, and when it is over no
   * timer is listed, no callback runs and every event ever passed to a kill has been set.
   */
  lemma ExitDrains(run: seq<State>, k: nat)
    requires IsRun(run) && k < |run|
    ensures var s := run[k];
      && s.rounds <= s.atStart
      && (s.pc == Done ==>
            && s.mgr.items == [] && s.mgr.env.running == multiset{}
            && s.mgr.env.signaled == s.mgr.env.passed)
  {
    RunInv(run, k);
    var s := run[k];
    if s.pc == Done {
      assert forall id :: id !in s.mgr.env.running;
    }
  }

  /**
   * The exiting thread is held up only by a callback that is still running: while it waits, its
   * event is with such a timer, and the return of that callback sets it. Elsewhere it can go on.
   */
  lemma ExitWaitsForCallback(run: seq<State>, k: nat, event: nat) returns (id: nat)
    requires IsRun(run) && k < |run| && Exiting(run[k].pc)
    requires !Enabled(run[k], Act(event)) && event !in run[k].mgr.env.passed
    ensures run[k].pc.Wait?
    ensures id in run[k].mgr.env.running && id in run[k].mgr.env.killed
    ensures forall osAccepts :: var t := TimerSpec.DoReturn(run[k].mgr, id, osAccepts).0;
      run[k].pc.event in t.env.signaled && |t.items| < |run[k].mgr.items|
  {
    hide TimerProofs.Inv, TimerProofs.Held;
    RunInv(run, k);
    var m, e := run[k].mgr, run[k].pc.event;
    InvEvents(m);
    assert m.env.passed[e] == m.env.signaled[e] + TimerProofs.Held(m.items)[e];
    var i := Holder(m.items, e);
    TimerProofs.ItemFacts(m, i);
    id := m.items[i].id;
    forall osAccepts
      ensures var t := TimerSpec.DoReturn(m, id, osAccepts).0;
        e in t.env.signaled && |t.items| < |m.items|
    {
      FoundById(m, i);
      TimerProofs.EndMarked(m, i, id, osAccepts);
    }
  }

  lemma {:induction false} Holder(items: seq<TimerSpec.Item>, e: nat) returns (i: nat)
    requires e in TimerProofs.Held(items)
    ensures i < |items| && e in items[i].waiters
  {
    if e in items[0].waiters {
      i := 0;
    } else {
      i := Holder(items[1..], e);
      i := i + 1;
    }
  }

  lemma FoundById(m: TimerSpec.State, i: nat)
    requires TimerProofs.Inv(m) && i < |m.items|
    ensures TimerSpec.FindById(m.items, m.items[i].id) == i
  {
    hide TimerSpec.FindById;
  }
}
