/**
 * The timer manager of Common/esif_ccb_timer.c as a state machine. Every region under the manager's
 * lock is one step. A user callback is a pair of steps, the delivery that starts it and the return
 * that ends it, and everything else may happen in between. The operating system is adversarial: it
 * may deliver any callback handle that was ever armed, late, repeatedly or not at all.
 *
 * The part `Env` records what the manager did to the outside world.
 */
module TimerSpec {
  import opened Base

  /** One `esif_tmrm_item` with its timer object; `id` stands for its address. */
  datatype Item = Item(
    id: nat,
    handle: nat,
    cbHandle: nat,
    inCb: bool,
    marked: bool,
    waiters: seq<nat>, // destroy_list_ptr: events to set when the timer is destroyed
    setPending: bool,
    pendingTimeout: nat,
    pendingCb: nat)    // timer_cb_handle of the timer object

  datatype Env = Env(
    armed: set<nat>,        // callback handles handed to the OS so far
    lastArmed: (nat, nat),  // handle and timeout handed over most recently
    running: multiset<nat>, // ids of the timers whose user callback is executing
    begun: set<nat>,        // callback handles that have started a user callback
    freed: set<nat>,        // ids whose memory was released
    passed: multiset<nat>,  // events given to kill
    signaled: multiset<nat>, // events set by the manager
    killed: set<nat>,       // ids for which a kill returned Ok
    owner: map<nat, nat>,   // the timer each callback handle was issued for
    latest: map<nat, nat>)  // the callback handle issued last for each timer

  datatype State = State(
    enabled: bool,
    closing: bool,          // the manager's marked_for_delete
    items: seq<Item>,       // timer_list_ptr
    nextHandle: nat,
    nextCb: nat,
    inFlight: seq<Item>,    // created by an init that has not listed them yet
    nextId: nat,
    env: Env)

  ghost predicate Initial(s: State) {
    && !s.enabled && !s.closing && s.items == [] && s.inFlight == []
    && s.nextHandle == 0 && s.nextCb == 0
    && s.env == Env({}, (0, 0), multiset{}, {}, {}, multiset{}, multiset{}, {}, map[], map[])
  }

  datatype Call =
    | InitCreate                                                 // up to get_next_handle
    | InitList(k: nat)                                           // the rest, for inFlight[k]
    | Kill(timer: Option<nat>, event: Option<nat>)               // None: a NULL argument
    | SetMsec(timer: Option<nat>, timeout: nat, osAccepts: bool)
    | Deliver(cbHandle: nat)                                     // tmrm_callback, first locked region
    | Return(id: nat, osAccepts: bool)                           // tmrm_callback, second locked region

  predicate Enabled(s: State, call: Call) {
    match call
    case InitList(k) => k < |s.inFlight|
    case Deliver(h) => h in s.env.armed
    case Return(id, _) => id in s.env.running
    case _ => true
  }

  // ----- looking things up -----

  /** The position of the first listed timer with this handle, or |items|. */
  function Find(items: seq<Item>, handle: nat): (i: nat)
    ensures i <= |items| && (i < |items| ==> items[i].handle == handle)
    ensures forall j :: 0 <= j < i ==> items[j].handle != handle
  {
    if items == [] || items[0].handle == handle then 0 else 1 + Find(items[1..], handle)
  }

  function FindByCb(items: seq<Item>, cbHandle: nat): (i: nat)
    ensures i <= |items| && (i < |items| ==> items[i].cbHandle == cbHandle)
    ensures forall j :: 0 <= j < i ==> items[j].cbHandle != cbHandle
  {
    if items == [] || items[0].cbHandle == cbHandle then 0 else 1 + FindByCb(items[1..], cbHandle)
  }

  function FindById(items: seq<Item>, id: nat): (i: nat)
    ensures i <= |items| && (i < |items| ==> items[i].id == id)
    ensures forall j :: 0 <= j < i ==> items[j].id != id
  {
    if items == [] || items[0].id == id then 0 else 1 + FindById(items[1..], id)
  }

  const RETRIES_MAX: nat := 10000

  /** `++` on an unsigned 32-bit counter. */
  function Increment(counter: nat): nat {
    (counter + 1) % UINT32_SPAN
  }

  predicate InUse(items: seq<Item>, handle: nat) {
    Find(items, handle) < |items|
  }

  /** get_next_handle after `tries` failed attempts: the counter it ends with, and whether it failed. */
  function NextHandle(items: seq<Item>, counter: nat, tries: nat): (r: (nat, bool))
    requires tries < RETRIES_MAX
    decreases RETRIES_MAX - tries
  {
    var h := Increment(counter);
    if !InUse(items, h) then (h, true)
    else if tries + 1 < RETRIES_MAX then NextHandle(items, h, tries + 1)
    else (h, false)
  }

  /** get_next_cb_handle_wlock: 32 bits, skipping 0. */
  function NextCb(counter: nat): nat {
    var h := Increment(counter);
    if h == 0 then 1 else h
  }

  // ----- the steps -----

  function Without<T>(xs: seq<T>, i: nat): (r: seq<T>)
    requires i < |xs|
    ensures |r| == |xs| - 1
    ensures forall j :: 0 <= j < i ==> r[j] == xs[j]
    ensures forall j :: i <= j < |r| ==> r[j] == xs[j + 1]
    ensures forall x :: x in r ==> x in xs
  {
    xs[..i] + xs[i + 1..]
  }

  function SignalOne(env: Env, event: Option<nat>): Env {
    if event.Some? then env.(signaled := env.signaled + multiset{event.value}) else env
  }

  function PassOne(env: Env, event: Option<nat>): Env {
    if event.Some? then env.(passed := env.passed + multiset{event.value}) else env
  }

  /** destroy_timer_node_wlock: sets the events, frees the item and takes it off the list. */
  function Destroy(s: State, i: nat): State
    requires i < |s.items|
  {
    s.(items := Without(s.items, i),
       env := s.env.(signaled := s.env.signaled + multiset(s.items[i].waiters), freed := s.env.freed + {s.items[i].id}))
  }

  /** set_pending_timeout: hands the pending timeout, if any, to the OS. */
  function ArmPending(s: State, i: nat, osAccepts: bool): (State, Rc)
    requires i < |s.items|
  {
    var x := s.items[i];
    if !x.setPending then (s, Ok)
    else
      var t := s.(items := s.items[i := x.(setPending := false)]);
      if osAccepts
      then (t.(env := t.env.(armed := t.env.armed + {x.pendingCb}, lastArmed := (x.pendingCb, x.pendingTimeout))), Ok)
      else (t, Unspecified)
  }

  function DoInitCreate(s: State): (State, Rc) {
    if s.closing then (s, Unspecified)
    else
      var (h, ok) := NextHandle(s.items, s.nextHandle, 0);
      var t := s.(enabled := true, nextHandle := h);
      var created := Item(s.nextId, h, 0, false, false, [], false, 0, 0);
      if ok then (t.(inFlight := t.inFlight + [created], nextId := s.nextId + 1), Ok)
      else (t, Unspecified)
  }

  function DoInitList(s: State, k: nat): (State, Rc)
    requires k < |s.inFlight|
  {
    (s.(items := s.items + [s.inFlight[k]], inFlight := Without(s.inFlight, k)), Ok)
  }

  function MarkedBy(x: Item, event: Option<nat>): Item {
    x.(marked := true, waiters := x.waiters + if event.Some? then [event.value] else [])
  }

  /** What a kill does to the timer it found. */
  function KillAt(s: State, i: nat, event: Option<nat>): State
    requires i < |s.items|
  {
    var x := s.items[i];
    var t := s.(items := s.items[i := MarkedBy(x, event)], env := s.env.(killed := s.env.killed + {x.id}));
    if x.inCb then t else Destroy(t, i)
  }

  function DoKill(s0: State, timer: Option<nat>, event: Option<nat>): (State, Rc) {
    var s := s0.(env := PassOne(s0.env, event));
    if timer == None then (s.(env := SignalOne(s.env, event)), ParameterIsNull)
    else if !s.enabled then (s.(env := SignalOne(s.env, event)), Unspecified)
    else
      var i := Find(s.items, timer.value);
      if i == |s.items| then (s.(env := SignalOne(s.env, event)), InvalidHandle)
      else
        (KillAt(s, i, event), Ok)
  }

  function DoSetMsec(s: State, timer: Option<nat>, timeout: nat, osAccepts: bool): (State, Rc) {
    if timer == None then (s, ParameterIsNull)
    else if timeout == 0 then (s, RequestDataOutOfBounds)
    else if !s.enabled then (s, Unspecified)
    else
      var i := Find(s.items, timer.value);
      if i == |s.items| || s.items[i].marked then (s, InvalidHandle)
      else
        var x, h := s.items[i], NextCb(s.nextCb);
        var y := x.(cbHandle := h, setPending := true, pendingTimeout := timeout, pendingCb := h);
        var t := s.(items := s.items[i := y], nextCb := h,
                    env := s.env.(owner := s.env.owner[h := x.id], latest := s.env.latest[x.id := h]));
        if x.inCb then (t, Ok) else ArmPending(t, i, osAccepts)
  }

  function DoDeliver(s: State, cbHandle: nat): (State, Rc) {
    var i := FindByCb(s.items, cbHandle);
    if i == |s.items| then (s, Ok)
    else
      var x := s.items[i];
      (s.(items := s.items[i := x.(cbHandle := 0, inCb := true)],
          env := s.env.(running := s.env.running + multiset{x.id}, begun := s.env.begun + {cbHandle})), Ok)
  }

  /** The callback's thread goes on with the item it started with; here that item is still listed. */
  function DoReturn(s0: State, id: nat, osAccepts: bool): (State, Rc) {
    var s := s0.(env := s0.env.(running := s0.env.running - multiset{id}));
    var i := FindById(s.items, id);
    if i == |s.items| then (s, Ok)
    else
      var x := s.items[i];
      var t := s.(items := s.items[i := x.(inCb := false)]);
      if x.marked then (Destroy(t, i), Ok) else (ArmPending(t, i, osAccepts).0, Ok)
  }

  function Apply(s: State, call: Call): (State, Rc)
    requires Enabled(s, call)
  {
    match call
    case InitCreate => DoInitCreate(s)
    case InitList(k) => DoInitList(s, k)
    case Kill(timer, event) => DoKill(s, timer, event)
    case SetMsec(timer, timeout, osAccepts) => DoSetMsec(s, timer, timeout, osAccepts)
    case Deliver(h) => DoDeliver(s, h)
    case Return(id, osAccepts) => DoReturn(s, id, osAccepts)
  }
}
