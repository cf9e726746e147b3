/**
 What every interleaving of the adapter keeps: lock ownership, the in-flight
 count, the drain protocol and the init/deinit balance; and that no reachable
 state is deadlocked.
 */
module AdapterInvariants {
  import opened Options
  import opened SdkAdapter

  // ---------- the invariant ----------

  // Each mutex is held by exactly the thread whose position says so.
  ghost predicate Locks(s: State)
  {
    && (forall t :: t in s.pcs ==> (HoldsLifecycle(s.pcs[t]) <==> s.lifecycle == Some(t)))
    && (forall t :: t in s.pcs ==> (HoldsTeardown(s.pcs[t]) <==> s.teardown == Some(t)))
    && (s.lifecycle.Some? ==> s.lifecycle.value in s.pcs)
    && (s.teardown.Some? ==> s.teardown.value in s.pcs)
  }

  // Project callbacks run only on threads outside the adapter or inside one of
  // its vendor calls, and the counter counts them.
  ghost predicate Callbacks(s: State)
  {
    && s.inFlight == |s.inCallback|
    && (forall t :: t in s.inCallback ==> t in s.pcs && (s.pcs[t] == Outside || InVendorFrame(s.pcs[t])))
  }

  // Positions of the two mutex holders.
  function LifecyclePc(s: State): Pc
  {
    if s.lifecycle.Some? && s.lifecycle.value in s.pcs then s.pcs[s.lifecycle.value] else Outside
  }

  function TeardownPc(s: State): Pc
  {
    if s.teardown.Some? && s.teardown.value in s.pcs then s.pcs[s.teardown.value] else Outside
  }

  // The thread is past the gate section of a draining teardown.
  predicate Drains(pc: Pc)
  {
    pc.TearVendor? || pc.TearWait? || (pc.TearRelease? && pc.drains) || (pc.TearPublish? && pc.drains)
  }

  // The gate is closed for shutdown exactly while a teardown drains, and a
  // drained teardown has nothing in flight.
  ghost predicate Draining(s: State)
  {
    && (s.gate == ShuttingDown <==> Drains(TeardownPc(s)))
    && (TeardownPc(s) == TearPublish(true) ==> s.inFlight == 0)
  }

  predicate Entered(pc: Pc) { pc.InitVendor? || pc.InitTail? || pc.InitPublish? }

  // An accepted init is never overtaken by a shutdown, and a vendor deinit
  // always answers an unmatched vendor init.
  ghost predicate Balance(s: State)
  {
    && s.count.deinits + (if s.count.owed then 1 else 0) <= s.count.inits
    && (Entered(LifecyclePc(s)) ==> s.count.owed)
    && (Entered(LifecyclePc(s)) || LifecyclePc(s).InitUnbound? ==> s.gate == Initializing || s.gate == Uninitialized)
    && (s.gate == Initialized ==> s.count.owed)
    && (s.gate == Initializing ==> s.count.owed || LifecyclePc(s).InitUnbound?)
  }

  // The stored callback is the one being subscribed until the call is settled.
  ghost predicate Subscribing(s: State)
  {
    match LifecyclePc(s)
    case SubVendor(cb, _) => s.imu == cb
    case SubTail(cb, _, _) => s.imu == cb
    case SubRollback(cb, _) => s.imu == cb
    case _ => true
  }

  ghost predicate Inv(s: State)
  {
    Locks(s) && Callbacks(s) && Draining(s) && Balance(s) && Subscribing(s)
  }

  // ---------- preservation ----------

  // Thread t moves to `pc` and the mutexes change hands accordingly.
  lemma LocksAfter(s: State, r: State, t: Tid, pc: Pc)
    requires Locks(s) && t in s.pcs && r.pcs == s.pcs[t := pc]
    requires r.lifecycle == (if HoldsLifecycle(pc) then Some(t) else if HoldsLifecycle(s.pcs[t]) then None
                             else s.lifecycle)
    requires r.teardown == (if HoldsTeardown(pc) then Some(t) else if HoldsTeardown(s.pcs[t]) then None else s.teardown)
    requires HoldsLifecycle(pc) ==> s.lifecycle == None || s.lifecycle == Some(t)
    requires HoldsTeardown(pc) ==> s.teardown == None || s.teardown == Some(t)
    ensures Locks(r)
  {
  }

  lemma CallbacksAfter(s: State, r: State, t: Tid, pc: Pc)
    requires Callbacks(s) && t in s.pcs && r.pcs == s.pcs[t := pc]
    requires r.inFlight == s.inFlight && r.inCallback == s.inCallback
    requires t in s.inCallback ==> pc == Outside || InVendorFrame(pc)
    ensures Callbacks(r)
  {
  }

  // A moving thread is never inside a project callback.
  lemma MoverNotInCallback(s: State, t: Tid)
    requires Inv(s) && CanMove(s, t)
    ensures t !in s.inCallback
  {
  }

  // The part of the invariant about the gate, the balance and the slot, which
  // depends only on the two holders' positions.
  ghost predicate Protocol(s: State) { Draining(s) && Balance(s) && Subscribing(s) }

  // What Locks says about one thread and the holders.
  ghost predicate LocksFor(s: State, t: Tid)
  {
    && t in s.pcs
    && (HoldsLifecycle(s.pcs[t]) <==> s.lifecycle == Some(t))
    && (HoldsTeardown(s.pcs[t]) <==> s.teardown == Some(t))
    && (s.lifecycle.Some? ==> HoldsLifecycle(LifecyclePc(s)))
    && (s.teardown.Some? ==> HoldsTeardown(TeardownPc(s)))
  }

  lemma StartProtocol(s: State, t: Tid, pc: Pc)
    requires Protocol(s) && LocksFor(s, t) && s.pcs[t] == Outside && !HoldsLifecycle(pc) && !HoldsTeardown(pc)
    ensures Protocol(Goto(s, t, pc))
  {
    assert LifecyclePc(Goto(s, t, pc)) == LifecyclePc(s) && TeardownPc(Goto(s, t, pc)) == TeardownPc(s);
  }

  lemma InitProtocol(v: Vendor, s: State, t: Tid, ok: bool)
    requires Protocol(s) && LocksFor(s, t) && CanMove(s, t) && InInit(s.pcs[t])
    ensures Protocol(InitStep(v, s, t, ok))
  {
    assert TeardownPc(InitStep(v, s, t, ok)) == TeardownPc(s);
  }

  lemma EntryProtocol(v: Vendor, s: State, t: Tid, ok: bool)
    requires Protocol(s) && LocksFor(s, t) && CanMove(s, t) && !InInit(s.pcs[t]) && !InTeardown(s.pcs[t])
    ensures Protocol(EntryStep(v, s, t, ok))
  {
    if InSubscribe(s.pcs[t]) { SubscribeProtocol(v, s, t, ok); } else { CallProtocol(v, s, t, ok); }
  }

  predicate InSubscribe(pc: Pc) { pc.SubWant? || pc.SubGate? || pc.SubVendor? || pc.SubTail? || pc.SubRollback? }

  lemma CallProtocol(v: Vendor, s: State, t: Tid, ok: bool)
    requires Protocol(s) && LocksFor(s, t) && CanMove(s, t)
    requires !InInit(s.pcs[t]) && !InTeardown(s.pcs[t]) && !InSubscribe(s.pcs[t])
    ensures Protocol(EntryStep(v, s, t, ok))
  {
  }

  lemma SubscribeProtocol(v: Vendor, s: State, t: Tid, ok: bool)
    requires Protocol(s) && LocksFor(s, t) && CanMove(s, t) && InSubscribe(s.pcs[t])
    ensures Protocol(EntryStep(v, s, t, ok))
  {
  }

  lemma TeardownProtocol(v: Vendor, s: State, t: Tid)
    requires Protocol(s) && LocksFor(s, t) && CanMove(s, t) && InTeardown(s.pcs[t])
    ensures Protocol(TeardownStep(v, s, t))
  {
    if InEnsure(s.pcs[t]) { EnsureProtocol(v, s, t); }
    else if s.pcs[t].TearGate? { TearGateProtocol(v, s, t); }
    else { TearProtocol(v, s, t); }
  }

  predicate InEnsure(pc: Pc) { pc.EnsureWant? || pc.EnsureGate? || pc.TearWant? }

  lemma EnsureProtocol(v: Vendor, s: State, t: Tid)
    requires Protocol(s) && LocksFor(s, t) && CanMove(s, t) && InEnsure(s.pcs[t])
    ensures Protocol(TeardownStep(v, s, t))
  {
  }

  lemma TearGateProtocol(v: Vendor, s: State, t: Tid)
    requires Protocol(s) && LocksFor(s, t) && s.pcs[t].TearGate?
    ensures Protocol(TeardownStep(v, s, t))
  {
  }

  lemma TearProtocol(v: Vendor, s: State, t: Tid)
    requires Protocol(s) && LocksFor(s, t) && CanMove(s, t) && InTeardown(s.pcs[t])
    requires !InEnsure(s.pcs[t]) && !s.pcs[t].TearGate?
    ensures Protocol(TeardownStep(v, s, t))
  {
  }

  // A step of thread t updates its position and the mutexes together.
  ghost predicate Moves(s: State, r: State, t: Tid)
    requires t in s.pcs
  {
    && t in r.pcs && r.pcs == s.pcs[t := r.pcs[t]]
    && r.lifecycle == (if HoldsLifecycle(r.pcs[t]) then Some(t) else if HoldsLifecycle(s.pcs[t]) then None
                       else s.lifecycle)
    && r.teardown == (if HoldsTeardown(r.pcs[t]) then Some(t) else if HoldsTeardown(s.pcs[t]) then None else s.teardown)
    && (HoldsLifecycle(r.pcs[t]) ==> s.lifecycle == None || s.lifecycle == Some(t))
    && (HoldsTeardown(r.pcs[t]) ==> s.teardown == None || s.teardown == Some(t))
    && r.inFlight == s.inFlight && r.inCallback == s.inCallback
  }

  lemma InitMoves(v: Vendor, s: State, t: Tid, ok: bool)
    requires LocksFor(s, t) && CanMove(s, t) && InInit(s.pcs[t])
    ensures Moves(s, InitStep(v, s, t, ok), t)
  {
    if s.pcs[t].InitWant? || s.pcs[t].InitGate? { InitBegins(v, s, t, ok); }
  }

  lemma InitBegins(v: Vendor, s: State, t: Tid, ok: bool)
    requires LocksFor(s, t) && CanMove(s, t) && (s.pcs[t].InitWant? || s.pcs[t].InitGate?)
    ensures Moves(s, InitStep(v, s, t, ok), t)
  {
  }

  lemma EntryMoves(v: Vendor, s: State, t: Tid, ok: bool)
    requires LocksFor(s, t) && CanMove(s, t) && !InInit(s.pcs[t]) && !InTeardown(s.pcs[t])
    ensures Moves(s, EntryStep(v, s, t, ok), t)
  {
    if InSubscribe(s.pcs[t]) { SubscribeMoves(v, s, t, ok); } else { CallMoves(v, s, t, ok); }
  }

  lemma CallMoves(v: Vendor, s: State, t: Tid, ok: bool)
    requires LocksFor(s, t) && CanMove(s, t) && !InInit(s.pcs[t]) && !InTeardown(s.pcs[t]) && !InSubscribe(s.pcs[t])
    ensures Moves(s, EntryStep(v, s, t, ok), t)
  {
  }

  lemma SubscribeMoves(v: Vendor, s: State, t: Tid, ok: bool)
    requires LocksFor(s, t) && CanMove(s, t) && InSubscribe(s.pcs[t])
    ensures Moves(s, EntryStep(v, s, t, ok), t)
  {
    if s.pcs[t].SubTail? || s.pcs[t].SubRollback? { SubscribeEnds(v, s, t, ok); }
  }

  lemma SubscribeEnds(v: Vendor, s: State, t: Tid, ok: bool)
    requires LocksFor(s, t) && (s.pcs[t].SubTail? || s.pcs[t].SubRollback?)
    ensures Moves(s, EntryStep(v, s, t, ok), t)
  {
  }

  lemma TeardownMoves(v: Vendor, s: State, t: Tid)
    requires LocksFor(s, t) && CanMove(s, t) && InTeardown(s.pcs[t])
    ensures Moves(s, TeardownStep(v, s, t), t)
  {
    if InEnsure(s.pcs[t]) { EnsureMoves(v, s, t); } else { TearMoves(v, s, t); }
  }

  lemma EnsureMoves(v: Vendor, s: State, t: Tid)
    requires LocksFor(s, t) && CanMove(s, t) && InEnsure(s.pcs[t])
    ensures Moves(s, TeardownStep(v, s, t), t)
  {
  }

  lemma TearMoves(v: Vendor, s: State, t: Tid)
    requires LocksFor(s, t) && CanMove(s, t) && InTeardown(s.pcs[t]) && !InEnsure(s.pcs[t])
    ensures Moves(s, TeardownStep(v, s, t), t)
  {
  }

  lemma MovePreserves(v: Vendor, s: State, t: Tid, ok: bool)
    requires Inv(s) && CanMove(s, t)
    ensures Inv(MoveStep(v, s, t, ok))
  {
    var r := MoveStep(v, s, t, ok);
    assert LocksFor(s, t);
    if InInit(s.pcs[t]) { InitMoves(v, s, t, ok); InitProtocol(v, s, t, ok); }
    else if InTeardown(s.pcs[t]) { TeardownMoves(v, s, t); TeardownProtocol(v, s, t); }
    else { EntryMoves(v, s, t, ok); EntryProtocol(v, s, t, ok); }
    MoverNotInCallback(s, t);
    LocksAfter(s, r, t, r.pcs[t]);
    CallbacksAfter(s, r, t, r.pcs[t]);
  }

  lemma StartPreserves(s: State, t: Tid, pc: Pc)
    requires Inv(s) && Free(s, t) && !HoldsLifecycle(pc) && !HoldsTeardown(pc)
    ensures Inv(Goto(s, t, pc))
  {
    assert LocksFor(s, t);
    StartProtocol(s, t, pc);
    LocksAfter(s, Goto(s, t, pc), t, pc);
    CallbacksAfter(s, Goto(s, t, pc), t, pc);
  }

  lemma DeliverPreserves(s: State, t: Tid)
    requires Inv(s) && CanDeliver(s, t)
    ensures Inv(Delivered(s, t))
  {
    var r := Delivered(s, t);
    assert LifecyclePc(r) == LifecyclePc(s) && TeardownPc(r) == TeardownPc(s);
    if s.pcs[t].TearVendor? { assert s.teardown == Some(t); }
  }

  lemma ReturnPreserves(s: State, t: Tid)
    requires Inv(s) && t in s.inCallback
    ensures s.inFlight > 0 && Inv(s.(inFlight := s.inFlight - 1, inCallback := s.inCallback - {t}))
  {
  }

  lemma DeferPreserves(s: State)
    requires Inv(s)
    ensures Inv(s.(deferred := true))
  {
    var r := s.(deferred := true);
    assert LifecyclePc(r) == LifecyclePc(s) && TeardownPc(r) == TeardownPc(s);
  }

  lemma StepPreserves(v: Vendor, s: State, a: Action)
    requires Inv(s)
    ensures Inv(Step(v, s, a))
  {
    if Enabled(s, a) {
      if a.Move? { MovePreserves(v, s, a.t, a.ok); } else { OtherPreserves(v, s, a); }
    }
  }

  lemma OtherPreserves(v: Vendor, s: State, a: Action)
    requires Inv(s) && Enabled(s, a) && !a.Move?
    ensures Inv(Step(v, s, a))
  {
    match a
    case CallInit(t) => StartPreserves(s, t, InitWant);
    case CallEntry(t) => StartPreserves(s, t, CallWant);
    case CallSubscribe(t, cb) => StartPreserves(s, t, SubWant(cb));
    case CallDeinit(t) => StartPreserves(s, t, EnsureWant);
    case Deliver(t) => DeliverPreserves(s, t);
    case Return(t) => ReturnPreserves(s, t);
    case CallbackDeinit(t) => DeferPreserves(s);
  }

  lemma {:induction false} RunPreserves(v: Vendor, threads: set<Tid>, actions: seq<Action>)
    ensures Inv(Run(v, Start(threads), actions))
  {
    if actions != [] {
      RunPreserves(v, threads, actions[..|actions| - 1]);
      StepPreserves(v, Run(v, Start(threads), actions[..|actions| - 1]), actions[|actions| - 1]);
    }
  }
}
