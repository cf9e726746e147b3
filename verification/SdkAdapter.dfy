/**
 The vendor SDK adapter's lifecycle as an interleaved step system.

 Any number of threads call the public entry points; the vendor delivers
 callbacks on its own threads and inside vendor calls. A step is one critical
 section of the gate mutex, the acquisition or release of the lifecycle or
 teardown mutex, or the return of a vendor call or project callback.
 */
module SdkAdapter {
  import opened Options

  type Tid = nat

  datatype Gate = Uninitialized | Initializing | Initialized | ShuttingDown

  // Where a thread is inside the adapter.
  datatype Pc =
    | Outside
    // init
    | InitWant | InitGate | InitUnbound | InitVendor | InitTail(ok: bool) | InitPublish(ok: bool)
    // any other vendor entry point
    | CallWant | CallGate | CallVendor | CallTail
    // subscribe_imu, with the callback to install and the one replaced
    | SubWant(cb: nat) | SubGate(cb: nat) | SubVendor(cb: nat, prev: nat) | SubTail(cb: nat, prev: nat, ok: bool)
    | SubRollback(cb: nat, prev: nat)
    // ensure_uninitialized and teardown_impl
    | EnsureWant | EnsureGate | TearWant | TearGate | TearVendor
    | TearRelease(drains: bool) | TearWait | TearPublish(drains: bool)

  // Which vendor functions are bound.
  datatype Vendor = Vendor(init: bool, call: bool, subscribe: bool, deinit: bool)

  // Vendor init and deinit entries, whether an init entry is unmatched, and the
  // inits that published a failure.
  datatype Count = Count(inits: nat, deinits: nat, owed: bool, failed: nat)

  datatype State = State(gate: Gate, inFlight: nat, deferred: bool, imu: nat,
                         lifecycle: Option<Tid>, teardown: Option<Tid>,
                         pcs: map<Tid, Pc>, inCallback: set<Tid>, count: Count)

  datatype Action =
    | CallInit(t: Tid) | CallEntry(t: Tid) | CallSubscribe(t: Tid, cb: nat) | CallDeinit(t: Tid)
    | Deliver(t: Tid) | Return(t: Tid) | CallbackDeinit(t: Tid)
    | Move(t: Tid, ok: bool)

  function Start(threads: set<Tid>): State
  {
    State(Uninitialized, 0, false, 0, None, None, map t | t in threads :: Outside, {}, Count(0, 0, false, 0))
  }

  // A vendor entry point of this adapter is on the thread's stack.
  predicate InVendorFrame(pc: Pc) { pc.InitVendor? || pc.CallVendor? || pc.SubVendor? }

  predicate WantsLifecycle(pc: Pc) { pc.InitWant? || pc.CallWant? || pc.SubWant? || pc.TearWant? }

  predicate HoldsLifecycle(pc: Pc)
  {
    pc.InitGate? || pc.InitUnbound? || pc.InitVendor? || pc.InitTail? || pc.InitPublish? ||
    pc.CallGate? || pc.CallVendor? || pc.CallTail? ||
    pc.SubGate? || pc.SubVendor? || pc.SubTail? || pc.SubRollback? ||
    pc.TearGate? || pc.TearVendor? || pc.TearRelease?
  }

  predicate HoldsTeardown(pc: Pc)
  {
    pc.EnsureGate? || pc.TearWant? || pc.TearGate? || pc.TearVendor? || pc.TearRelease? || pc.TearWait? ||
    pc.TearPublish?
  }

  function Goto(s: State, t: Tid, pc: Pc): State { s.(pcs := s.pcs[t := pc]) }

  // Leaves the entry point, releasing the lifecycle mutex.
  function Leave(s: State, t: Tid): State { Goto(s, t, Outside).(lifecycle := None) }

  // finish_with_deferred_teardown claimed the request: release the lifecycle
  // mutex, then run the serialized teardown.
  function Claim(s: State, t: Tid): State { Goto(s, t, EnsureWant).(lifecycle := None, deferred := false) }

  // Whether the thread's next step can be taken now.
  predicate CanMove(s: State, t: Tid)
  {
    t in s.pcs &&
    match s.pcs[t]
    case Outside => false
    case InitWant | CallWant | SubWant(_) | TearWant => s.lifecycle == None
    case EnsureWant => s.teardown == None
    case InitVendor | CallVendor | SubVendor(_, _) => t !in s.inCallback
    case TearWait => s.inFlight == 0
    case _ => true
  }

  function InitStep(v: Vendor, s: State, t: Tid, ok: bool): State
    requires t in s.pcs
  {
    match s.pcs[t]
    case InitWant => Goto(s, t, InitGate).(lifecycle := Some(t))
    case InitGate =>
      if s.gate != Uninitialized then Leave(s, t)
      else if !v.init then Goto(s, t, InitUnbound).(gate := Initializing)
      else Goto(s, t, InitVendor).(gate := Initializing, count := s.count.(inits := s.count.inits + 1, owed := true))
    case InitUnbound => Leave(s, t).(gate := Uninitialized)
    case InitVendor => Goto(s, t, InitTail(ok))
    case InitTail(code) => if s.deferred then Claim(s, t) else Goto(s, t, InitPublish(code))
    case InitPublish(code) =>
      if code then Leave(s, t).(gate := Initialized)
      else Leave(s, t).(gate := Uninitialized, count := s.count.(failed := s.count.failed + 1))
    case _ => s
  }

  function EntryStep(v: Vendor, s: State, t: Tid, ok: bool): State
    requires t in s.pcs
  {
    match s.pcs[t]
    case CallWant => Goto(s, t, CallGate).(lifecycle := Some(t))
    case CallGate => if s.gate != Initialized || !v.call then Leave(s, t) else Goto(s, t, CallVendor)
    case CallVendor => Goto(s, t, CallTail)
    case CallTail => if s.deferred then Claim(s, t) else Leave(s, t)
    case SubWant(cb) => Goto(s, t, SubGate(cb)).(lifecycle := Some(t))
    case SubGate(cb) =>
      if s.gate != Initialized then Leave(s, t)
      else if !v.subscribe then Goto(s, t, SubRollback(cb, s.imu)).(imu := cb)
      else Goto(s, t, SubVendor(cb, s.imu)).(imu := cb)
    case SubVendor(cb, prev) => Goto(s, t, SubTail(cb, prev, ok))
    case SubTail(cb, prev, code) =>
      if s.deferred then Claim(s, t) else if code then Leave(s, t) else Goto(s, t, SubRollback(cb, prev))
    case SubRollback(cb, prev) => Leave(s, t).(imu := prev)
    case _ => s
  }

  // The gate section at the start of teardown_impl.
  function TearGateStep(v: Vendor, s: State, t: Tid): State
  {
    var s1 := s.(deferred := false);
    if s.gate != Uninitialized then
      var s2 := s1.(gate := ShuttingDown, imu := 0);
      if s.gate != ShuttingDown && v.deinit
      then Goto(s2, t, TearVendor).(count := s.count.(deinits := s.count.deinits + 1, owed := false))
      else Goto(s2, t, TearRelease(true))
    else if s.inFlight > 0 then Goto(s1, t, TearRelease(true)).(gate := ShuttingDown)
    else Goto(s1, t, TearRelease(false))
  }

  function TeardownStep(v: Vendor, s: State, t: Tid): State
    requires t in s.pcs
  {
    match s.pcs[t]
    case EnsureWant => Goto(s, t, EnsureGate).(teardown := Some(t))
    case EnsureGate =>
      if s.gate == Uninitialized && !s.deferred && s.inFlight == 0 then Goto(s, t, Outside).(teardown := None)
      else Goto(s, t, TearWant).(deferred := false)
    case TearWant => Goto(s, t, TearGate).(lifecycle := Some(t))
    case TearGate => TearGateStep(v, s, t)
    case TearVendor => Goto(s, t, TearRelease(true))
    case TearRelease(drains) => Goto(s, t, if drains then TearWait else TearPublish(false)).(lifecycle := None)
    case TearWait => Goto(s, t, TearPublish(true))
    case TearPublish(_) => Goto(s, t, EnsureGate).(gate := Uninitialized)
    case _ => s
  }

  predicate InTeardown(pc: Pc)
  {
    pc.EnsureWant? || pc.EnsureGate? || pc.TearWant? || pc.TearGate? || pc.TearVendor? || pc.TearRelease? ||
    pc.TearWait? || pc.TearPublish?
  }

  predicate InInit(pc: Pc)
  {
    pc.InitWant? || pc.InitGate? || pc.InitUnbound? || pc.InitVendor? || pc.InitTail? || pc.InitPublish?
  }

  function MoveStep(v: Vendor, s: State, t: Tid, ok: bool): State
    requires t in s.pcs
  {
    if InInit(s.pcs[t]) then InitStep(v, s, t, ok)
    else if InTeardown(s.pcs[t]) then TeardownStep(v, s, t)
    else EntryStep(v, s, t, ok)
  }

  // A public call from outside every callback context of this adapter.
  predicate Free(s: State, t: Tid) { t in s.pcs && s.pcs[t] == Outside && t !in s.inCallback }

  // A vendor callback reaches the adapter: the gate section of a delivery. It
  // runs on a vendor thread, inside a vendor call, or inside vendor deinit.
  predicate CanDeliver(s: State, t: Tid)
  {
    t in s.pcs && t !in s.inCallback && (s.pcs[t] == Outside || InVendorFrame(s.pcs[t]) || s.pcs[t].TearVendor?)
  }

  function Delivered(s: State, t: Tid): State
  {
    if s.gate == Uninitialized || s.gate == ShuttingDown then s
    else s.(inFlight := s.inFlight + 1, inCallback := s.inCallback + {t})
  }

  predicate Enabled(s: State, a: Action)
  {
    match a
    case CallInit(t) => Free(s, t)
    case CallEntry(t) => Free(s, t)
    case CallSubscribe(t, _) => Free(s, t)
    case CallDeinit(t) => Free(s, t)
    case Deliver(t) => CanDeliver(s, t)
    case Return(t) => t in s.inCallback && s.inFlight > 0
    case CallbackDeinit(t) => t in s.inCallback
    case Move(t, _) => CanMove(s, t)
  }

  function Step(v: Vendor, s: State, a: Action): State
  {
    if !Enabled(s, a) then s
    else match a
      case CallInit(t) => Goto(s, t, InitWant)
      case CallEntry(t) => Goto(s, t, CallWant)
      case CallSubscribe(t, cb) => Goto(s, t, SubWant(cb))
      case CallDeinit(t) => Goto(s, t, EnsureWant)
      case Deliver(t) => Delivered(s, t)
      case Return(t) => s.(inFlight := s.inFlight - 1, inCallback := s.inCallback - {t})
      case CallbackDeinit(t) => s.(deferred := true)
      case Move(t, ok) => MoveStep(v, s, t, ok)
  }

  function Run(v: Vendor, s: State, actions: seq<Action>): State
  {
    if actions == [] then s else Step(v, Run(v, s, actions[..|actions| - 1]), actions[|actions| - 1])
  }
}
