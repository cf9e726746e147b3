/**
 Deadlock freedom, the teardown drain, vendor call discipline and generation
 safety of the adapter, over every interleaving.
 */
module AdapterTheorems {
  import opened Options
  import opened SdkAdapter
  import opened AdapterInvariants

  // ---------- deadlock freedom ----------

  // Thread t is blocked and u is (one of) the threads it waits for.
  ghost predicate WaitsFor(s: State, t: Tid, u: Tid)
  {
    t in s.pcs && u in s.pcs &&
    ((WantsLifecycle(s.pcs[t]) && s.lifecycle == Some(u)) ||
     (s.pcs[t].EnsureWant? && s.teardown == Some(u)) ||
     (s.pcs[t].TearWait? && u in s.inCallback))
  }

  // teardown before lifecycle before the in-flight drain.
  function Rank(pc: Pc): nat
  {
    if pc.EnsureWant? then 3 else if WantsLifecycle(pc) then 2 else if pc.TearWait? then 1 else 0
  }

  predicate Blocked(s: State, t: Tid)
  {
    t in s.pcs && Rank(s.pcs[t]) > 0 && !CanMove(s, t)
  }

  // Some step of u is possible: its own next step, or, inside a project
  // callback, the callback's return.
  predicate CanProceed(s: State, u: Tid) { CanMove(s, u) || (u in s.inCallback && s.inFlight > 0) }

  // No thread waits for itself, for a mutex it holds, or for its own callback,
  // and waiting always goes down the order.
  lemma WaitsDownward(s: State, t: Tid, u: Tid)
    requires Inv(s) && WaitsFor(s, t, u)
    ensures t != u && Rank(s.pcs[u]) < Rank(s.pcs[t])
  {
  }

  lemma BlockedWaits(s: State, t: Tid) returns (u: Tid)
    requires Inv(s) && Blocked(s, t)
    ensures WaitsFor(s, t, u)
  {
    if s.pcs[t].EnsureWant? {
      u := s.teardown.value;
    } else if WantsLifecycle(s.pcs[t]) {
      u := s.lifecycle.value;
    } else {
      assert s.inCallback != {};
      u :| u in s.inCallback;
    }
  }

  lemma UnrankedProceeds(s: State, u: Tid)
    requires Inv(s) && u in s.pcs && Rank(s.pcs[u]) == 0 && (s.pcs[u] != Outside || u in s.inCallback)
    ensures CanProceed(s, u)
  {
    if u in s.inCallback { ReturnPreserves(s, u); }
  }

  // A chain of n waits leads from t to u.
  ghost predicate WaitChain(s: State, t: Tid, u: Tid, n: nat)
    decreases n
  {
    if n == 0 then t == u else exists x :: WaitsFor(s, t, x) && WaitChain(s, x, u, n - 1)
  }

  // Following the waits from any blocked thread reaches one that can proceed.
  lemma {:induction false} Unblocks(s: State, t: Tid) returns (u: Tid, n: nat)
    requires Inv(s) && Blocked(s, t)
    ensures 0 < n <= Rank(s.pcs[t]) && WaitChain(s, t, u, n) && CanProceed(s, u)
    decreases Rank(s.pcs[t])
  {
    var x := BlockedWaits(s, t);
    WaitsDownward(s, t, x);
    u, n := x, 0;
    if Blocked(s, x) {
      u, n := Unblocks(s, x);
    } else if Rank(s.pcs[x]) == 0 {
      UnrankedProceeds(s, x);
    }
    n := n + 1;
    assert WaitsFor(s, t, x) && WaitChain(s, x, u, n - 1);
  }

  // MAIN RESULT. In every reachable state: waiting respects the order
  // teardown, lifecycle, drain; no thread waits for itself; and every blocked
  // thread waits, through at most three threads, for one that can take a step.
  lemma NoDeadlock(v: Vendor, threads: set<Tid>, actions: seq<Action>, t: Tid)
    ensures var s := Run(v, Start(threads), actions);
            && (forall x, y :: WaitsFor(s, x, y) ==> x != y && Rank(s.pcs[y]) < Rank(s.pcs[x]))
            && (Blocked(s, t) ==> exists u, n: nat :: 0 < n <= 3 && WaitChain(s, t, u, n) && CanProceed(s, u))
  {
    RunPreserves(v, threads, actions);
    var s := Run(v, Start(threads), actions);
    forall x, y | WaitsFor(s, x, y)
      ensures x != y && Rank(s.pcs[y]) < Rank(s.pcs[x])
    {
      WaitsDownward(s, x, y);
    }
    if Blocked(s, t) {
      var u, n := Unblocks(s, t);
    }
  }

  // ---------- the teardown drain ----------

  // The step that ends a drain: its publisher, with nothing in flight.
  ghost predicate PublishesDrain(s: State, a: Action)
  {
    a.Move? && a.t in s.pcs && s.pcs[a.t] == TearPublish(true) && s.teardown == Some(a.t) && s.inFlight == 0
  }

  // MAIN RESULT. While shutting down no project callback starts, no init is
  // accepted, the in-flight count only falls, and only the drain's own
  // publisher leaves the state, with nothing in flight.
  lemma DrainStep(v: Vendor, s: State, a: Action)
    requires Inv(s) && s.gate == ShuttingDown
    ensures var r := Step(v, s, a);
            && r.inCallback <= s.inCallback && r.inFlight <= s.inFlight && r.count == s.count
            && (r.gate == ShuttingDown || (PublishesDrain(s, a) && r.gate == Uninitialized))
  {
    if Enabled(s, a) && a.Move? {
      assert LocksFor(s, a.t);
      if InInit(s.pcs[a.t]) { DrainInit(v, s, a.t, a.ok); }
      else if InTeardown(s.pcs[a.t]) { DrainTeardown(v, s, a.t, a.ok); }
      else { DrainEntry(v, s, a.t, a.ok); }
    }
  }

  lemma DrainInit(v: Vendor, s: State, t: Tid, ok: bool)
    requires Protocol(s) && LocksFor(s, t) && CanMove(s, t) && InInit(s.pcs[t]) && s.gate == ShuttingDown
    ensures var r := InitStep(v, s, t, ok);
            r.inCallback == s.inCallback && r.inFlight == s.inFlight && r.count == s.count && r.gate == ShuttingDown
  {
  }

  lemma DrainEntry(v: Vendor, s: State, t: Tid, ok: bool)
    requires CanMove(s, t) && s.gate == ShuttingDown
    ensures var r := EntryStep(v, s, t, ok);
            r.inCallback == s.inCallback && r.inFlight == s.inFlight && r.count == s.count && r.gate == ShuttingDown
  {
  }

  lemma DrainTeardown(v: Vendor, s: State, t: Tid, ok: bool)
    requires Protocol(s) && LocksFor(s, t) && CanMove(s, t) && InTeardown(s.pcs[t]) && s.gate == ShuttingDown
    ensures var r := TeardownStep(v, s, t);
            && r.inCallback == s.inCallback && r.inFlight == s.inFlight && r.count == s.count
            && (r.gate == ShuttingDown || (PublishesDrain(s, Move(t, ok)) && r.gate == Uninitialized))
  {
  }

  // A non-callback deinit returns only from a gate section that sees no
  // generation, no request and no callback in flight.
  lemma DeinitReturns(v: Vendor, s: State, t: Tid, ok: bool)
    requires CanMove(s, t) && InTeardown(s.pcs[t]) && Step(v, s, Move(t, ok)).pcs[t] == Outside
    ensures s.pcs[t] == EnsureGate && s.gate == Uninitialized && !s.deferred && s.inFlight == 0
  {
  }

  // An accepted init is under way that can still publish Initialized.
  predicate MayPublish(pc: Pc) { pc.InitVendor? || ((pc.InitTail? || pc.InitPublish?) && pc.ok) }

  // Nothing is initialized, nothing runs, and nothing is about to be published.
  ghost predicate Quiet(s: State)
  {
    s.gate == Uninitialized && s.inFlight == 0 && !MayPublish(LifecyclePc(s))
  }

  ghost predicate AcceptsInit(s: State, a: Action)
  {
    Enabled(s, a) && a.Move? && s.pcs[a.t].InitGate? && s.gate == Uninitialized
  }

  lemma QuietStep(v: Vendor, s: State, a: Action)
    requires Inv(s) && Quiet(s) && !AcceptsInit(s, a)
    ensures Quiet(Step(v, s, a)) && Step(v, s, a).inCallback == s.inCallback
  {
    if Enabled(s, a) && a.Move? {
      assert LocksFor(s, a.t);
      QuietMove(v, s, a.t, a.ok);
    } else if Enabled(s, a) {
      var r := Step(v, s, a);
      assert a.Return? ==> a.t in s.inCallback && s.inCallback == {};
      if a.t in s.pcs && s.pcs[a.t] == Outside { assert s.lifecycle != Some(a.t); }
    }
  }

  lemma QuietMove(v: Vendor, s: State, t: Tid, ok: bool)
    requires LocksFor(s, t) && Draining(s) && Quiet(s) && CanMove(s, t) && !s.pcs[t].InitGate?
    ensures Quiet(MoveStep(v, s, t, ok)) && MoveStep(v, s, t, ok).inCallback == s.inCallback
  {
    if InInit(s.pcs[t]) { assert Quiet(InitStep(v, s, t, ok)); }
    else if InTeardown(s.pcs[t]) { assert Quiet(TeardownStep(v, s, t)); }
    else { assert Quiet(EntryStep(v, s, t, ok)); }
  }

  ghost predicate NoInitAccepted(v: Vendor, s: State, actions: seq<Action>)
  {
    forall n :: 0 <= n < |actions| ==> !AcceptsInit(Run(v, s, actions[..n]), actions[n])
  }

  // MAIN RESULT. From a quiet state no project callback runs until the next
  // init is accepted, whatever the vendor delivers.
  lemma {:induction false} QuietUntilInit(v: Vendor, s: State, actions: seq<Action>)
    requires Inv(s) && Quiet(s) && NoInitAccepted(v, s, actions)
    ensures Inv(Run(v, s, actions)) && Quiet(Run(v, s, actions)) && Run(v, s, actions).inCallback == {}
  {
    if actions != [] {
      var n := |actions| - 1;
      forall k | 0 <= k < n
        ensures !AcceptsInit(Run(v, s, actions[..n][..k]), actions[..n][k])
      {
        assert actions[..n][..k] == actions[..k] && actions[..n][k] == actions[k];
      }
      QuietUntilInit(v, s, actions[..n]);
      StepPreserves(v, Run(v, s, actions[..n]), actions[n]);
      QuietStep(v, Run(v, s, actions[..n]), actions[n]);
    }
  }

  // ---------- vendor call discipline ----------

  // A vendor function of the adapter is executing on the thread.
  predicate InVendorCall(pc: Pc) { InVendorFrame(pc) || pc.TearVendor? }

  // MAIN RESULT. In every reachable state at most one vendor entry point
  // executes, vendor deinit has been entered at most once per vendor init
  // entry, and a delivery made while vendor deinit runs starts no callback.
  lemma VendorDiscipline(v: Vendor, threads: set<Tid>, actions: seq<Action>, t: Tid, u: Tid)
    ensures var s := Run(v, Start(threads), actions);
            && (t in s.pcs && u in s.pcs && InVendorCall(s.pcs[t]) && InVendorCall(s.pcs[u]) ==> t == u)
            && s.count.deinits <= s.count.inits
            && (t in s.pcs && s.pcs[t].TearVendor? ==> forall x :: Step(v, s, Deliver(x)) == s)
  {
    RunPreserves(v, threads, actions);
    var s := Run(v, Start(threads), actions);
    if t in s.pcs && s.pcs[t].TearVendor? {
      assert s.teardown == Some(t);
    }
  }

  // A vendor deinit entry consumes an unmatched vendor init entry.
  lemma DeinitAnswersInit(v: Vendor, s: State, a: Action)
    requires Inv(s) && Step(v, s, a).count.deinits != s.count.deinits
    ensures s.count.owed && !Step(v, s, a).count.owed && Step(v, s, a).count.deinits == s.count.deinits + 1
    ensures Step(v, s, a).gate == ShuttingDown
  {
    if Enabled(s, a) && a.Move? {
      assert LocksFor(s, a.t);
      DeinitMove(v, s, a.t, a.ok);
    }
  }

  lemma DeinitMove(v: Vendor, s: State, t: Tid, ok: bool)
    requires Balance(s) && CanMove(s, t) && LocksFor(s, t)
    ensures var r := MoveStep(v, s, t, ok);
            r.count.deinits == s.count.deinits ||
            (s.count.owed && !r.count.owed && r.count.deinits == s.count.deinits + 1 && r.gate == ShuttingDown)
  {
    if InInit(s.pcs[t]) { assert InitStep(v, s, t, ok).count.deinits == s.count.deinits; }
    else if !InTeardown(s.pcs[t]) { assert EntryStep(v, s, t, ok).count == s.count; }
    else if !s.pcs[t].TearGate? { assert TeardownStep(v, s, t).count == s.count; }
  }

  // A subscription that fails without a teardown puts back the callback that
  // was stored when it began: nobody touched the slot in between.
  lemma SubscribeRollsBack(v: Vendor, threads: set<Tid>, actions: seq<Action>, t: Tid, ok: bool)
    requires var s := Run(v, Start(threads), actions); t in s.pcs && s.pcs[t].SubRollback?
    ensures var s := Run(v, Start(threads), actions);
            s.imu == s.pcs[t].cb && Step(v, s, Move(t, ok)).imu == s.pcs[t].prev
  {
    RunPreserves(v, threads, actions);
    assert LocksFor(Run(v, Start(threads), actions), t);
  }

  // ---------- generation safety ----------

  // The publication at the end of a teardown replaces a live generation.
  ghost predicate Overwrites(s: State, a: Action)
  {
    a.Move? && CanMove(s, a.t) && s.pcs[a.t].TearPublish? && (s.gate == Initializing || s.gate == Initialized)
  }

  // The drain never overwrites; only a teardown that found nothing to drain can.
  lemma DrainNeverOverwrites(s: State, a: Action)
    requires Inv(s) && Overwrites(s, a)
    ensures s.pcs[a.t] == TearPublish(false)
  {
    assert LocksFor(s, a.t);
  }

  // An init is accepted between the gate section of a teardown that found
  // nothing to drain and that teardown's publication.
  ghost predicate AcceptsInWindow(s: State, a: Action)
  {
    AcceptsInit(s, a) && TeardownPc(s) == TearPublish(false)
  }

  // Past the gate section of a vendor entry other than init.
  predicate InEntry(pc: Pc)
  {
    pc.CallVendor? || pc.CallTail? || pc.SubVendor? || pc.SubTail? || pc.SubRollback?
  }

  // A teardown that found nothing to drain still faces an empty generation with
  // nothing in flight, an accepted init still owns the gate, any other vendor
  // entry runs in an initialized generation, and no callback outlives one.
  ghost predicate Clean(s: State)
  {
    && (TeardownPc(s) == TearRelease(false) || TeardownPc(s) == TearPublish(false) ==>
          s.gate == Uninitialized && s.inFlight == 0)
    && (Entered(LifecyclePc(s)) || LifecyclePc(s).InitUnbound? ==> s.gate == Initializing)
    && (InEntry(LifecyclePc(s)) ==> s.gate == Initialized)
    && (s.gate != Initialized ==> s.imu == 0)
  }

  ghost predicate WindowFree(v: Vendor, s: State, actions: seq<Action>)
  {
    forall n :: 0 <= n < |actions| ==> !AcceptsInWindow(Run(v, s, actions[..n]), actions[n])
  }

  lemma WindowFreePrefix(v: Vendor, s: State, actions: seq<Action>, n: nat)
    requires WindowFree(v, s, actions) && n <= |actions|
    ensures WindowFree(v, s, actions[..n])
  {
    forall k | 0 <= k < n
      ensures !AcceptsInWindow(Run(v, s, actions[..n][..k]), actions[..n][k])
    {
      assert actions[..n][..k] == actions[..k] && actions[..n][k] == actions[k];
    }
  }

  lemma CleanStep(v: Vendor, s: State, a: Action)
    requires Inv(s) && Clean(s) && !AcceptsInWindow(s, a)
    ensures Clean(Step(v, s, a))
  {
    if Enabled(s, a) {
      if a.Move? {
        assert LocksFor(s, a.t);
        assert s.teardown.Some? ==> LocksFor(s, s.teardown.value);
        CleanMove(v, s, a.t, a.ok);
      } else {
        CleanOther(v, s, a);
      }
    }
  }

  lemma CleanOther(v: Vendor, s: State, a: Action)
    requires Inv(s) && Clean(s) && Enabled(s, a) && !a.Move?
    ensures Clean(Step(v, s, a))
  {
    if a.t in s.pcs && s.pcs[a.t] == Outside {
      assert s.teardown != Some(a.t) && s.lifecycle != Some(a.t);
    }
    assert TeardownPc(Step(v, s, a)) == TeardownPc(s) && LifecyclePc(Step(v, s, a)) == LifecyclePc(s);
  }

  lemma CleanMove(v: Vendor, s: State, t: Tid, ok: bool)
    requires LocksFor(s, t) && Draining(s) && Clean(s) && CanMove(s, t)
    requires s.pcs[t].InitGate? && s.gate == Uninitialized ==> TeardownPc(s) != TearPublish(false)
    requires TeardownPc(s).TearRelease? ==> s.lifecycle == s.teardown
    ensures Clean(MoveStep(v, s, t, ok))
  {
    if InInit(s.pcs[t]) { CleanInit(v, s, t, ok); }
    else if InTeardown(s.pcs[t]) { CleanTeardown(v, s, t); }
    else { CleanEntry(v, s, t, ok); }
  }

  lemma CleanInit(v: Vendor, s: State, t: Tid, ok: bool)
    requires LocksFor(s, t) && Clean(s) && CanMove(s, t) && InInit(s.pcs[t])
    requires s.pcs[t].InitGate? && s.gate == Uninitialized ==> TeardownPc(s) != TearPublish(false)
    requires TeardownPc(s).TearRelease? ==> s.lifecycle == s.teardown
    ensures Clean(InitStep(v, s, t, ok))
  {
    assert TeardownPc(InitStep(v, s, t, ok)) == TeardownPc(s);
  }

  lemma CleanEntry(v: Vendor, s: State, t: Tid, ok: bool)
    requires LocksFor(s, t) && Clean(s) && CanMove(s, t) && !InInit(s.pcs[t]) && !InTeardown(s.pcs[t])
    ensures Clean(EntryStep(v, s, t, ok))
  {
    assert TeardownPc(EntryStep(v, s, t, ok)) == TeardownPc(s);
  }

  lemma CleanTeardown(v: Vendor, s: State, t: Tid)
    requires LocksFor(s, t) && Draining(s) && Clean(s) && CanMove(s, t) && InTeardown(s.pcs[t])
    ensures Clean(TeardownStep(v, s, t))
  {
    if s.pcs[t].TearGate? { CleanTearGate(v, s, t); }
    else if !InEnsure(s.pcs[t]) { CleanTear(v, s, t); }
  }

  lemma CleanTearGate(v: Vendor, s: State, t: Tid)
    requires LocksFor(s, t) && Clean(s) && s.pcs[t].TearGate?
    ensures Clean(TeardownStep(v, s, t))
  {
  }

  lemma CleanTear(v: Vendor, s: State, t: Tid)
    requires LocksFor(s, t) && Draining(s) && Clean(s) && InTeardown(s.pcs[t])
    requires !InEnsure(s.pcs[t]) && !s.pcs[t].TearGate?
    ensures Clean(TeardownStep(v, s, t))
  {
  }

  lemma {:induction false} CleanRun(v: Vendor, threads: set<Tid>, actions: seq<Action>)
    requires WindowFree(v, Start(threads), actions)
    ensures Clean(Run(v, Start(threads), actions))
  {
    if actions != [] {
      var n := |actions| - 1;
      WindowFreePrefix(v, Start(threads), actions, n);
      CleanRun(v, threads, actions[..n]);
      RunPreserves(v, threads, actions[..n]);
      CleanStep(v, Run(v, Start(threads), actions[..n]), actions[n]);
    }
  }

  ghost predicate CanOverwrite(s: State) { exists t :: Overwrites(s, Move(t, true)) }

  lemma CleanNeverOverwrites(s: State, a: Action)
    requires Inv(s) && Clean(s)
    ensures !Overwrites(s, a)
  {
    assert a.Move? && a.t in s.pcs ==> LocksFor(s, a.t);
    if Overwrites(s, a) { DrainNeverOverwrites(s, a); }
  }

  lemma WindowOverwrites(v: Vendor, s: State, a: Action)
    requires Inv(s) && AcceptsInWindow(s, a)
    ensures CanOverwrite(Step(v, s, a))
  {
    assert LocksFor(s, a.t);
    assert Overwrites(Step(v, s, a), Move(s.teardown.value, true));
  }

  // MAIN RESULT. Exactly when a teardown can replace a live generation: a run
  // passes through a state where some publication would, if and only if some
  // init was accepted inside the window of an idle teardown.
  lemma OverwriteIff(v: Vendor, threads: set<Tid>, actions: seq<Action>)
    ensures (exists n :: 0 <= n <= |actions| && CanOverwrite(Run(v, Start(threads), actions[..n])))
            <==> !WindowFree(v, Start(threads), actions)
  {
    var s := Start(threads);
    if WindowFree(v, s, actions) {
      forall n | 0 <= n <= |actions|
        ensures !CanOverwrite(Run(v, s, actions[..n]))
      {
        WindowFreePrefix(v, s, actions, n);
        CleanRun(v, threads, actions[..n]);
        RunPreserves(v, threads, actions[..n]);
        forall t ensures !Overwrites(Run(v, s, actions[..n]), Move(t, true)) {
          CleanNeverOverwrites(Run(v, s, actions[..n]), Move(t, true));
        }
      }
    } else {
      var n :| 0 <= n < |actions| && AcceptsInWindow(Run(v, s, actions[..n]), actions[n]);
      RunPreserves(v, threads, actions[..n]);
      WindowOverwrites(v, Run(v, s, actions[..n]), actions[n]);
      assert actions[..n + 1][..n] == actions[..n];
      assert CanOverwrite(Run(v, s, actions[..n + 1]));
    }
  }

  // ---------- every vendor session is closed ----------

  // A vendor init was entered for the current generation.
  ghost predicate SessionOpen(s: State)
  {
    s.gate == Initialized || (s.gate == Initializing && !LifecyclePc(s).InitUnbound?)
  }

  // Vendor inits are closed by a deinit, failed, or the current session's.
  ghost predicate SessionsBalance(s: State)
  {
    s.count.inits == s.count.deinits + s.count.failed + (if SessionOpen(s) then 1 else 0)
  }

  // Over every interleaving, closing a live generation enters vendor deinit
  // exactly once if it is bound, and nothing else does.
  lemma TeardownDeinits(v: Vendor, s: State, a: Action)
    requires Inv(s)
    ensures var r := Step(v, s, a);
            var closes := (s.gate == Initialized || s.gate == Initializing) && r.gate == ShuttingDown;
            r.count.deinits == s.count.deinits + (if closes && v.deinit then 1 else 0)
  {
    if Enabled(s, a) && a.Move? {
      assert LocksFor(s, a.t);
      if InInit(s.pcs[a.t]) { InitKeepsDeinits(v, s, a.t, a.ok); }
      else if InTeardown(s.pcs[a.t]) { TearDeinits(v, s, a.t); }
      else { EntryKeepsDeinits(v, s, a.t, a.ok); }
    }
  }

  lemma InitKeepsDeinits(v: Vendor, s: State, t: Tid, ok: bool)
    requires t in s.pcs
    ensures var r := InitStep(v, s, t, ok);
            r.count.deinits == s.count.deinits && (r.gate == ShuttingDown ==> s.gate == ShuttingDown)
  {
  }

  lemma EntryKeepsDeinits(v: Vendor, s: State, t: Tid, ok: bool)
    requires t in s.pcs
    ensures var r := EntryStep(v, s, t, ok); r.count == s.count && r.gate == s.gate
  {
  }

  lemma TearDeinits(v: Vendor, s: State, t: Tid)
    requires t in s.pcs
    ensures var r := TeardownStep(v, s, t);
            var closes := (s.gate == Initialized || s.gate == Initializing) && r.gate == ShuttingDown;
            r.count.deinits == s.count.deinits + (if closes && v.deinit then 1 else 0)
  {
    if !s.pcs[t].TearGate? { assert TeardownStep(v, s, t).count == s.count; }
  }

  lemma InitBalances(v: Vendor, s: State, t: Tid, ok: bool)
    requires LocksFor(s, t) && Clean(s) && SessionsBalance(s) && CanMove(s, t) && InInit(s.pcs[t])
    ensures SessionsBalance(InitStep(v, s, t, ok))
  {
  }

  lemma EntryBalances(v: Vendor, s: State, t: Tid, ok: bool)
    requires LocksFor(s, t) && Clean(s) && SessionsBalance(s) && CanMove(s, t)
    requires !InInit(s.pcs[t]) && !InTeardown(s.pcs[t])
    ensures SessionsBalance(EntryStep(v, s, t, ok))
  {
    EntryKeepsDeinits(v, s, t, ok);
    if HoldsLifecycle(s.pcs[t]) { assert LifecyclePc(s) == s.pcs[t]; }
  }

  lemma TeardownBalances(v: Vendor, s: State, t: Tid)
    requires v.deinit && LocksFor(s, t) && Draining(s) && Clean(s) && SessionsBalance(s)
    requires CanMove(s, t) && InTeardown(s.pcs[t])
    ensures SessionsBalance(TeardownStep(v, s, t))
  {
    if s.pcs[t].TearGate? { TearGateBalances(v, s, t); }
    else if InEnsure(s.pcs[t]) { EnsureBalances(v, s, t); }
  }

  lemma TearGateBalances(v: Vendor, s: State, t: Tid)
    requires v.deinit && LocksFor(s, t) && SessionsBalance(s) && s.pcs[t].TearGate?
    ensures SessionsBalance(TeardownStep(v, s, t))
  {
  }

  lemma EnsureBalances(v: Vendor, s: State, t: Tid)
    requires LocksFor(s, t) && SessionsBalance(s) && CanMove(s, t) && InEnsure(s.pcs[t])
    ensures SessionsBalance(TeardownStep(v, s, t))
  {
  }

  lemma StepBalances(v: Vendor, s: State, a: Action)
    requires v.deinit && Inv(s) && Clean(s) && SessionsBalance(s)
    ensures SessionsBalance(Step(v, s, a))
  {
    if Enabled(s, a) {
      if a.Move? {
        assert LocksFor(s, a.t);
        if InInit(s.pcs[a.t]) { InitBalances(v, s, a.t, a.ok); }
        else if InTeardown(s.pcs[a.t]) { TeardownBalances(v, s, a.t); }
        else { EntryBalances(v, s, a.t, a.ok); }
      } else {
        if a.t in s.pcs && s.pcs[a.t] == Outside { assert s.lifecycle != Some(a.t); }
        assert LifecyclePc(Step(v, s, a)) == LifecyclePc(s);
      }
    }
  }

  lemma {:induction false} RunBalances(v: Vendor, threads: set<Tid>, actions: seq<Action>)
    requires v.deinit && WindowFree(v, Start(threads), actions)
    ensures SessionsBalance(Run(v, Start(threads), actions))
  {
    if actions != [] {
      var n := |actions| - 1;
      WindowFreePrefix(v, Start(threads), actions, n);
      RunBalances(v, threads, actions[..n]);
      CleanRun(v, threads, actions[..n]);
      RunPreserves(v, threads, actions[..n]);
      StepBalances(v, Run(v, Start(threads), actions[..n]), actions[n]);
    }
  }

  // MAIN RESULT. In a run without the window, a returned deinit has closed
  // every vendor session: each vendor init entry was answered by a vendor deinit
  // or published a failure.
  lemma DeinitClosesSessions(v: Vendor, threads: set<Tid>, actions: seq<Action>, t: Tid, ok: bool)
    requires v.deinit && WindowFree(v, Start(threads), actions)
    requires DeinitReturnsAt(v, Run(v, Start(threads), actions), t, ok)
    ensures var s := Run(v, Start(threads), actions);
            && s.count.inits == s.count.deinits + s.count.failed
            && (s.count.failed == 0 ==> s.count.deinits == s.count.inits)
  {
    RunBalances(v, threads, actions);
    DeinitReturns(v, Run(v, Start(threads), actions), t, ok);
  }

  // In a run without the window: every teardown publishes with nothing in
  // flight, a vendor entry other than init runs only in an initialized
  // generation, and no stored callback outlives its generation.
  lemma GenerationDiscipline(v: Vendor, threads: set<Tid>, actions: seq<Action>, t: Tid)
    requires WindowFree(v, Start(threads), actions)
    ensures var s := Run(v, Start(threads), actions);
            && (t in s.pcs && s.pcs[t].TearPublish? ==> s.inFlight == 0)
            && (t in s.pcs && (s.pcs[t].CallVendor? || s.pcs[t].SubVendor?) ==> s.gate == Initialized)
            && (t in s.pcs && s.pcs[t].InitVendor? ==> s.gate == Initializing)
            && (s.gate == Uninitialized || s.gate == ShuttingDown ==> s.imu == 0)
  {
    CleanRun(v, threads, actions);
    RunPreserves(v, threads, actions);
    var s := Run(v, Start(threads), actions);
    if t in s.pcs { assert LocksFor(s, t); }
  }

  // A deinit from inside a callback only records the request.
  lemma CallbackDeinitRecords(v: Vendor, s: State, t: Tid)
    requires t in s.inCallback
    ensures Step(v, s, CallbackDeinit(t)) == s.(deferred := true)
  {
  }

  // MAIN RESULT. A recorded teardown request is never lost: it is cleared only
  // by a thread that is then tearing down, and a teardown's gate section always
  // clears it.
  lemma RequestNotLost(v: Vendor, s: State, a: Action)
    requires Inv(s)
    ensures var r := Step(v, s, a);
            && (s.deferred && !r.deferred ==> a.Move? && a.t in r.pcs && InTeardown(r.pcs[a.t]))
            && (a.Move? && a.t in s.pcs && s.pcs[a.t].TearGate? ==> !r.deferred)
  {
    if Enabled(s, a) && a.Move? {
      assert LocksFor(s, a.t);
      if InInit(s.pcs[a.t]) { InitKeepsRequest(v, s, a.t, a.ok); }
      else if InTeardown(s.pcs[a.t]) { TearKeepsRequest(v, s, a.t); }
      else { EntryKeepsRequest(v, s, a.t, a.ok); }
    }
  }

  lemma InitKeepsRequest(v: Vendor, s: State, t: Tid, ok: bool)
    requires t in s.pcs && InInit(s.pcs[t])
    ensures var r := InitStep(v, s, t, ok); r.deferred == s.deferred || (t in r.pcs && r.pcs[t] == EnsureWant)
  {
  }

  lemma EntryKeepsRequest(v: Vendor, s: State, t: Tid, ok: bool)
    requires t in s.pcs
    ensures var r := EntryStep(v, s, t, ok); r.deferred == s.deferred || (t in r.pcs && r.pcs[t] == EnsureWant)
  {
  }

  lemma TearKeepsRequest(v: Vendor, s: State, t: Tid)
    requires t in s.pcs && InTeardown(s.pcs[t])
    ensures var r := TeardownStep(v, s, t);
            && (r.deferred == s.deferred || (!r.deferred && t in r.pcs && InTeardown(r.pcs[t])))
            && (s.pcs[t].TearGate? ==> !r.deferred)
  {
  }

  // A teardown request made inside a vendor call is taken over by the tail of
  // that call, which then leaves the adapter only with nothing left to tear down.
  lemma TailTakesOver(v: Vendor, threads: set<Tid>, actions: seq<Action>, t: Tid, ok: bool)
    requires var s := Run(v, Start(threads), actions); t in s.pcs && InTail(s.pcs[t])
    ensures var s := Run(v, Start(threads), actions);
            var r := Step(v, s, Move(t, ok));
            (r.pcs[t] == EnsureWant <==> s.deferred) && !r.deferred
  {
    TailStep(v, Run(v, Start(threads), actions), t, ok);
  }

  predicate InTail(pc: Pc) { pc.InitTail? || pc.CallTail? || pc.SubTail? }

  lemma TailStep(v: Vendor, s: State, t: Tid, ok: bool)
    requires t in s.pcs && InTail(s.pcs[t])
    ensures var r := Step(v, s, Move(t, ok)); t in r.pcs && (r.pcs[t] == EnsureWant <==> s.deferred) && !r.deferred
  {
  }

  // A subscription settles with its own callback exactly when the vendor
  // accepted it, and with the one it replaced otherwise.
  lemma SubscribeSettles(v: Vendor, threads: set<Tid>, actions: seq<Action>, t: Tid)
    requires var s := Run(v, Start(threads), actions); t in s.pcs && s.pcs[t].SubTail? && !s.deferred
    ensures var s := Run(v, Start(threads), actions);
            var r := Step(v, s, Move(t, true));
            if s.pcs[t].ok then r.pcs[t] == Outside && r.imu == s.pcs[t].cb
            else var q := Step(v, r, Move(t, true)); q.pcs[t] == Outside && q.imu == s.pcs[t].prev
  {
    RunPreserves(v, threads, actions);
    var s := Run(v, Start(threads), actions);
    assert LocksFor(s, t);
    SettleStep(v, s, t);
  }

  lemma SettleStep(v: Vendor, s: State, t: Tid)
    requires LocksFor(s, t) && Subscribing(s) && s.pcs[t].SubTail? && !s.deferred
    ensures var r := Step(v, s, Move(t, true));
            if s.pcs[t].ok then r.pcs[t] == Outside && r.imu == s.pcs[t].cb
            else var q := Step(v, r, Move(t, true)); q.pcs[t] == Outside && q.imu == s.pcs[t].prev
  {
    if !s.pcs[t].ok {
      assert Step(v, s, Move(t, true)) == Goto(s, t, SubRollback(s.pcs[t].cb, s.pcs[t].prev));
    }
  }

  // ---------- one owner ----------

  // Only the owner calls the public entry points from outside callbacks; the
  // vendor still delivers on any thread.
  predicate OwnedBy(a: Action, owner: Tid)
  {
    a.CallInit? || a.CallEntry? || a.CallSubscribe? || a.CallDeinit? ==> a.t == owner
  }

  ghost predicate OthersOutside(s: State, owner: Tid)
  {
    forall t :: t in s.pcs && t != owner ==> s.pcs[t] == Outside
  }

  lemma {:induction false} OwnedRun(v: Vendor, threads: set<Tid>, actions: seq<Action>, owner: Tid)
    requires forall n :: 0 <= n < |actions| ==> OwnedBy(actions[n], owner)
    ensures OthersOutside(Run(v, Start(threads), actions), owner)
  {
    if actions != [] {
      OwnedRun(v, threads, actions[..|actions| - 1], owner);
      OwnedStep(v, Run(v, Start(threads), actions[..|actions| - 1]), actions[|actions| - 1], owner);
    }
  }

  lemma OwnedStep(v: Vendor, s: State, a: Action, owner: Tid)
    requires OthersOutside(s, owner) && OwnedBy(a, owner)
    ensures OthersOutside(Step(v, s, a), owner)
  {
    if Enabled(s, a) && a.Move? {
      assert a.t == owner;
      OwnPosition(v, s, a.t, a.ok);
    }
  }

  // A step moves only the stepping thread.
  lemma OwnPosition(v: Vendor, s: State, t: Tid, ok: bool)
    requires t in s.pcs
    ensures var r := MoveStep(v, s, t, ok); t in r.pcs && r.pcs == s.pcs[t := r.pcs[t]]
  {
    if InInit(s.pcs[t]) { InitPosition(v, s, t, ok); }
    else if InTeardown(s.pcs[t]) { TeardownPosition(v, s, t); }
    else { EntryPosition(v, s, t, ok); }
  }

  lemma InitPosition(v: Vendor, s: State, t: Tid, ok: bool)
    requires t in s.pcs
    ensures var r := InitStep(v, s, t, ok); t in r.pcs && r.pcs == s.pcs[t := r.pcs[t]]
  {
  }

  lemma EntryPosition(v: Vendor, s: State, t: Tid, ok: bool)
    requires t in s.pcs
    ensures var r := EntryStep(v, s, t, ok); t in r.pcs && r.pcs == s.pcs[t := r.pcs[t]]
  {
  }

  lemma TeardownPosition(v: Vendor, s: State, t: Tid)
    requires t in s.pcs
    ensures var r := TeardownStep(v, s, t); t in r.pcs && r.pcs == s.pcs[t := r.pcs[t]]
  {
  }

  // With a single owner no publication ever replaces a live generation.
  lemma SingleOwnerSafe(v: Vendor, threads: set<Tid>, actions: seq<Action>, owner: Tid)
    requires forall n :: 0 <= n < |actions| ==> OwnedBy(actions[n], owner)
    ensures WindowFree(v, Start(threads), actions)
    ensures !CanOverwrite(Run(v, Start(threads), actions))
  {
    forall n | 0 <= n < |actions|
      ensures !AcceptsInWindow(Run(v, Start(threads), actions[..n]), actions[n])
    {
      OwnedRun(v, threads, actions[..n], owner);
      RunPreserves(v, threads, actions[..n]);
    }
    OverwriteIff(v, threads, actions);
    assert actions[..|actions|] == actions;
  }

  // ---------- deinit is final ----------

  lemma {:induction false} RunAppend(v: Vendor, s: State, first: seq<Action>, then_: seq<Action>)
    ensures Run(v, s, first + then_) == Run(v, Run(v, s, first), then_)
  {
    if then_ == [] {
      assert first + then_ == first;
    } else {
      var n := |then_| - 1;
      RunAppend(v, s, first, then_[..n]);
      assert (first + then_)[..|first + then_| - 1] == first + then_[..n];
    }
  }

  // The thread's next step returns from a deinit called outside callbacks.
  ghost predicate DeinitReturnsAt(v: Vendor, s: State, t: Tid, ok: bool)
  {
    CanMove(s, t) && InTeardown(s.pcs[t]) && Step(v, s, Move(t, ok)).pcs[t] == Outside
  }

  lemma ReturnedState(v: Vendor, s: State, t: Tid, ok: bool)
    requires Inv(s) && DeinitReturnsAt(v, s, t, ok)
    ensures var r := Step(v, s, Move(t, ok));
            && Inv(r) && r.gate == Uninitialized && r.inFlight == 0 && r.inCallback == {} && !r.deferred
            && r.lifecycle == s.lifecycle && LifecyclePc(r) == LifecyclePc(s)
  {
    DeinitReturns(v, s, t, ok);
    StepPreserves(v, s, Move(t, ok));
    assert LocksFor(s, t);
  }

  lemma NoInitCons(v: Vendor, s: State, a: Action, rest: seq<Action>)
    requires !AcceptsInit(s, a) && NoInitAccepted(v, Step(v, s, a), rest)
    ensures NoInitAccepted(v, s, [a] + rest) && Run(v, s, [a] + rest) == Run(v, Step(v, s, a), rest)
  {
    var all := [a] + rest;
    RunCons(v, s, a, rest);
    forall n | 0 <= n < |all|
      ensures !AcceptsInit(Run(v, s, all[..n]), all[n])
    {
      if n > 0 {
        assert all[..n] == [a] + rest[..n - 1] && all[n] == rest[n - 1];
        RunCons(v, s, a, rest[..n - 1]);
      }
    }
  }

  lemma RunCons(v: Vendor, s: State, a: Action, rest: seq<Action>)
    ensures Run(v, s, [a] + rest) == Run(v, Step(v, s, a), rest)
  {
    RunAppend(v, s, [a], rest);
    assert [a][..0] == [];
  }

  // How many moves the init needs to publish.
  function ToPublish(pc: Pc): nat { if pc.InitVendor? then 2 else if pc.InitTail? then 1 else 0 }

  // An init that can still publish does so, and a delivery then starts a callback.
  lemma {:induction false} CallbackFollows(v: Vendor, s: State, u: Tid) returns (after: seq<Action>)
    requires u in s.pcs && MayPublish(s.pcs[u]) && u !in s.inCallback && !s.deferred
    ensures NoInitAccepted(v, s, after) && u in Run(v, s, after).inCallback
    decreases ToPublish(s.pcs[u])
  {
    var a, r := Move(u, true), Step(v, s, Move(u, true));
    if s.pcs[u].InitPublish? {
      var b, t := Deliver(u), Step(v, r, Deliver(u));
      assert Run(v, t, []) == t;
      NoInitCons(v, r, b, []);
      NoInitCons(v, s, a, [b] + []);
      after := [a] + ([b] + []);
    } else {
      after := CallbackFollows(v, r, u);
      NoInitCons(v, s, a, after);
      after := [a] + after;
    }
  }

  // MAIN RESULT. Once a non-callback deinit has returned, no project callback
  // runs until the next init is accepted, if and only if no init accepted
  // before the return can still publish.
  lemma DeinitFinalIff(v: Vendor, threads: set<Tid>, before: seq<Action>, t: Tid, ok: bool)
    requires DeinitReturnsAt(v, Run(v, Start(threads), before), t, ok)
    ensures var s := Run(v, Start(threads), before);
            var r := Step(v, s, Move(t, ok));
            (forall after :: NoInitAccepted(v, r, after) ==> Run(v, r, after).inCallback == {})
            <==> !MayPublish(LifecyclePc(s))
  {
    var s := Run(v, Start(threads), before);
    var r := Step(v, s, Move(t, ok));
    RunPreserves(v, threads, before);
    ReturnedState(v, s, t, ok);
    if MayPublish(LifecyclePc(s)) {
      var after := CallbackFollows(v, r, r.lifecycle.value);
      assert NoInitAccepted(v, r, after) && Run(v, r, after).inCallback != {};
    } else {
      forall after | NoInitAccepted(v, r, after)
        ensures Run(v, r, after).inCallback == {}
      {
        QuietUntilInit(v, r, after);
      }
    }
  }

  // In a run without the window the condition always holds.
  lemma DeinitIsFinal(v: Vendor, threads: set<Tid>, before: seq<Action>, t: Tid, ok: bool, after: seq<Action>)
    requires WindowFree(v, Start(threads), before)
    requires DeinitReturnsAt(v, Run(v, Start(threads), before), t, ok)
    requires NoInitAccepted(v, Step(v, Run(v, Start(threads), before), Move(t, ok)), after)
    ensures var r := Run(v, Start(threads), before + [Move(t, ok)] + after);
            r.gate == Uninitialized && r.inFlight == 0 && r.inCallback == {}
  {
    var s := Run(v, Start(threads), before);
    var r := Step(v, s, Move(t, ok));
    RunPreserves(v, threads, before);
    CleanRun(v, threads, before);
    DeinitReturns(v, s, t, ok);
    ReturnedState(v, s, t, ok);
    QuietUntilInit(v, r, after);
    RunAppend(v, Start(threads), before + [Move(t, ok)], after);
    assert (before + [Move(t, ok)])[..|before|] == before;
  }

  // ---------- the window is real ----------

  // A failed init leaves a callback in flight; a deinit begins, the callback
  // returns before the teardown's gate section, and another thread's init is
  // accepted before the teardown publishes.
  lemma WindowIsReal(v: Vendor) returns (actions: seq<Action>)
    requires v.init
    ensures CanOverwrite(Run(v, Start({0, 1}), actions))
  {
    var s;
    s, actions := WindowRun(v);
    assert Overwrites(s, Move(0, true));
  }

  // ... and after it deinit returns while the overwritten init goes on, so
  // that a callback runs with no further init accepted.
  lemma DeinitNotFinal(v: Vendor) returns (before: seq<Action>, after: seq<Action>)
    requires v.init
    ensures var s := Run(v, Start({0, 1}), before);
            var r := Step(v, s, Move(0, true));
            && DeinitReturnsAt(v, s, 0, true) && MayPublish(LifecyclePc(s))
            && NoInitAccepted(v, r, after) && Run(v, r, after).inCallback != {}
  {
    var w, actions := WindowRun(v);
    var s;
    s, before := Extend(v, Start({0, 1}), w, actions, Move(0, true));
    assert At(s, Uninitialized, {}, 0, Some(1), Some(0), EnsureGate, InitVendor);
    var r := Step(v, s, Move(0, true));
    assert At(r, Uninitialized, {}, 0, Some(1), None, Outside, InitVendor);
    after := CallbackFollows(v, r, 1);
  }

  lemma WindowRun(v: Vendor) returns (r: State, actions: seq<Action>)
    requires v.init
    ensures r == Run(v, Start({0, 1}), actions)
    ensures At(r, Initializing, {}, 0, Some(1), Some(0), TearPublish(false), InitVendor)
  {
    var s0 := Start({0, 1});
    assert At(s0, Uninitialized, {}, 0, None, None, Outside, Outside);
    var s1, a1 := InitEnters(v, s0);
    var s2, a2 := InitFails(v, s1);
    var a3;
    r, a3 := DeinitOverlapsInit(v, s2);
    RunAppend(v, s1, a2, a3);
    actions := a1 + (a2 + a3);
    RunAppend(v, s0, a1, a2 + a3);
  }

  lemma DeinitOverlapsInit(v: Vendor, s: State) returns (r: State, actions: seq<Action>)
    requires v.init && At(s, Uninitialized, {1}, 1, None, None, Outside, Outside)
    ensures r == Run(v, s, actions)
    ensures At(r, Initializing, {}, 0, Some(1), Some(0), TearPublish(false), InitVendor)
  {
    var s1, a1 := DeinitBegins(v, s);
    var s2, a2 := TeardownIdles(v, s1);
    var a3;
    r, a3 := FreshInit(v, s2);
    RunAppend(v, s1, a2, a3);
    actions := a1 + (a2 + a3);
    RunAppend(v, s, a1, a2 + a3);
  }

  // The state of two threads between callbacks' requests and subscriptions.
  ghost predicate At(s: State, gate: Gate, inCallback: set<Tid>, inFlight: nat, lifecycle: Option<Tid>,
                     teardown: Option<Tid>, pc0: Pc, pc1: Pc)
  {
    && s.gate == gate && s.inCallback == inCallback && s.inFlight == inFlight && !s.deferred
    && s.lifecycle == lifecycle && s.teardown == teardown && s.pcs == map[0 := pc0, 1 := pc1]
  }

  lemma Extend(v: Vendor, s: State, r: State, actions: seq<Action>, a: Action)
    returns (r': State, actions': seq<Action>)
    requires r == Run(v, s, actions)
    ensures r' == Step(v, r, a) && r' == Run(v, s, actions')
  {
    r', actions' := Step(v, r, a), actions + [a];
    assert actions'[..|actions'| - 1] == actions;
  }

  lemma InitEnters(v: Vendor, s: State) returns (r: State, actions: seq<Action>)
    requires v.init && At(s, Uninitialized, {}, 0, None, None, Outside, Outside)
    ensures r == Run(v, s, actions) && At(r, Initializing, {1}, 1, Some(0), None, InitVendor, Outside)
  {
    r, actions := s, [];
    r, actions := Extend(v, s, r, actions, CallInit(0));
    assert At(r, Uninitialized, {}, 0, None, None, InitWant, Outside);
    r, actions := Extend(v, s, r, actions, Move(0, true));
    assert At(r, Uninitialized, {}, 0, Some(0), None, InitGate, Outside);
    r, actions := Extend(v, s, r, actions, Move(0, true));
    assert At(r, Initializing, {}, 0, Some(0), None, InitVendor, Outside);
    r, actions := Extend(v, s, r, actions, Deliver(1));
  }

  lemma InitFails(v: Vendor, s: State) returns (r: State, actions: seq<Action>)
    requires At(s, Initializing, {1}, 1, Some(0), None, InitVendor, Outside)
    ensures r == Run(v, s, actions) && At(r, Uninitialized, {1}, 1, None, None, Outside, Outside)
  {
    r, actions := s, [];
    r, actions := Extend(v, s, r, actions, Move(0, false));
    assert At(r, Initializing, {1}, 1, Some(0), None, InitTail(false), Outside);
    r, actions := Extend(v, s, r, actions, Move(0, true));
    assert At(r, Initializing, {1}, 1, Some(0), None, InitPublish(false), Outside);
    r, actions := Extend(v, s, r, actions, Move(0, true));
  }

  lemma DeinitBegins(v: Vendor, s: State) returns (r: State, actions: seq<Action>)
    requires At(s, Uninitialized, {1}, 1, None, None, Outside, Outside)
    ensures r == Run(v, s, actions) && At(r, Uninitialized, {}, 0, None, Some(0), TearWant, Outside)
  {
    var s1, a1 := EnsureBegins(v, s);
    r, actions := Extend(v, s, s1, a1, Move(0, true));
    assert At(r, Uninitialized, {1}, 1, None, Some(0), TearWant, Outside);
    r, actions := Extend(v, s, r, actions, Return(1));
  }

  lemma EnsureBegins(v: Vendor, s: State) returns (r: State, actions: seq<Action>)
    requires At(s, Uninitialized, {1}, 1, None, None, Outside, Outside)
    ensures r == Run(v, s, actions) && At(r, Uninitialized, {1}, 1, None, Some(0), EnsureGate, Outside)
  {
    r, actions := Extend(v, s, s, [], CallDeinit(0));
    assert At(r, Uninitialized, {1}, 1, None, None, EnsureWant, Outside);
    r, actions := Extend(v, s, r, actions, Move(0, true));
  }

  lemma TeardownIdles(v: Vendor, s: State) returns (r: State, actions: seq<Action>)
    requires At(s, Uninitialized, {}, 0, None, Some(0), TearWant, Outside)
    ensures r == Run(v, s, actions) && At(r, Uninitialized, {}, 0, None, Some(0), TearPublish(false), Outside)
  {
    var t, before := GateFindsNothing(v, s);
    r, actions := Extend(v, s, t, before, Move(0, true));
  }

  lemma GateFindsNothing(v: Vendor, s: State) returns (r: State, actions: seq<Action>)
    requires At(s, Uninitialized, {}, 0, None, Some(0), TearWant, Outside)
    ensures r == Run(v, s, actions) && At(r, Uninitialized, {}, 0, Some(0), Some(0), TearRelease(false), Outside)
  {
    r, actions := Extend(v, s, s, [], Move(0, true));
    assert At(r, Uninitialized, {}, 0, Some(0), Some(0), TearGate, Outside);
    r, actions := Extend(v, s, r, actions, Move(0, true));
  }

  lemma FreshInit(v: Vendor, s: State) returns (r: State, actions: seq<Action>)
    requires v.init && At(s, Uninitialized, {}, 0, None, Some(0), TearPublish(false), Outside)
    ensures r == Run(v, s, actions) && At(r, Initializing, {}, 0, Some(1), Some(0), TearPublish(false), InitVendor)
  {
    r, actions := s, [];
    r, actions := Extend(v, s, r, actions, CallInit(1));
    assert At(r, Uninitialized, {}, 0, None, Some(0), TearPublish(false), InitWant);
    r, actions := Extend(v, s, r, actions, Move(1, true));
    assert At(r, Uninitialized, {}, 0, Some(1), Some(0), TearPublish(false), InitGate);
    r, actions := Extend(v, s, r, actions, Move(1, true));
  }
}
