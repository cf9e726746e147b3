/**
 Safety of the controller over whole call histories.
 */
module ControllerHistory {
  import opened Options
  import opened RobotController

  datatype Call =
    | Accept(cmd: Command, now: int)
    | Trigger(now: int)
    | Clear(now: int)
    | Request(mode: Option<nat>, now: int)
    | Complete(success: bool, now: int)
    | Ready(on: bool, now: int)
    | Disconnect(now: int)
    | Report(status: Status, now: int)

  function After(c: Controller, op: Call): Controller
  {
    match op
    case Accept(cmd, now) => AcceptVelocity(c, cmd, now)
    case Trigger(now) => TriggerEstop(c, now)
    case Clear(now) => ClearEstop(c, now)
    case Request(mode, now) => RequestMode(c, mode, now)
    case Complete(success, now) => CompleteMode(c, success, now)
    case Ready(on, now) => SetReady(c, on, now)
    case Disconnect(now) => Invalidate(c, now)
    case Report(s, now) => UpdateStatus(c, s, now)
  }

  // The controller after a history of calls.
  function Run(ops: seq<Call>): Controller
  {
    if ops == [] then Initial() else After(Run(ops[..|ops| - 1]), ops[|ops| - 1])
  }

  // The state before the k-th call.
  function At(ops: seq<Call>, k: nat): Controller
    requires k <= |ops|
  {
    Run(ops[..k])
  }

  lemma AtSnoc(ops: seq<Call>, k: nat)
    requires k < |ops|
    ensures At(ops, k + 1) == After(At(ops, k), ops[k])
  {
    assert ops[..k + 1][..k] == ops[..k];
  }

  lemma AtPrefix(ops: seq<Call>, n: nat, k: nat)
    requires k <= n <= |ops|
    ensures At(ops[..n], k) == At(ops, k)
  {
    assert ops[..n][..k] == ops[..k];
  }

  // ---------- tick provenance ----------

  // The call neither closes the gate nor discards the stored velocity.
  ghost predicate Harmless(c: Controller, op: Call)
  {
    match op
    case Accept(_, _) => false
    case Trigger(_) => false
    case Clear(_) => false
    case Request(mode, _) => ModeRefusal(c, mode).Some?
    case Complete(_, _) => false
    case Ready(on, _) => on
    case Disconnect(_) => false
    case Report(s, _) => MovementReady(c.(status := s))
  }

  // Call k is an accepted velocity and every later state kept the gate open
  // and saw only harmless calls.
  ghost predicate Provenance(ops: seq<Call>, k: nat, now: int, deadman: int, v: Velocity)
  {
    && k < |ops| && ops[k].Accept? && Accepts(At(ops, k), ops[k].cmd) && Clamped(ops[k].cmd) == v
    && now - ops[k].now <= deadman
    && (forall j :: k < j < |ops| ==> OpenAt(ops, j))
    && MovementReady(Run(ops))
  }

  // A stored velocity implies an open gate: the readiness test inside the tick
  // is redundant.
  lemma {:induction false} StoredImpliesReady(ops: seq<Call>)
    ensures Run(ops).hasVelocity ==> MovementReady(Run(ops))
  {
    if ops != [] { StoredImpliesReady(ops[..|ops| - 1]); }
  }

  lemma TickTestRedundant(ops: seq<Call>, now: int, deadman: int)
    ensures var c := Run(ops);
            TickVelocity(c, now, deadman) ==
            if c.hasVelocity && now - c.latestAt <= deadman then Some(c.latest) else None
  {
    StoredImpliesReady(ops);
  }

  lemma HarmlessKeeps(c: Controller, op: Call)
    requires MovementReady(c) && Harmless(c, op)
    ensures MovementReady(After(c, op)) && After(c, op).(status := c.status) == c
  {
  }

  lemma HarmfulDrops(c: Controller, op: Call)
    requires (c.hasVelocity ==> MovementReady(c)) && !Harmless(c, op)
    ensures After(c, op).hasVelocity ==> op.Accept? && Accepts(c, op.cmd)
  {
  }

  // The gate is open before call j, and call j is harmless.
  ghost predicate OpenAt(ops: seq<Call>, j: nat)
    requires j < |ops|
  {
    MovementReady(At(ops, j)) && Harmless(At(ops, j), ops[j])
  }

  lemma OpenPrefix(ops: seq<Call>, n: nat, j: nat)
    requires j < n <= |ops|
    ensures OpenAt(ops[..n], j) <==> OpenAt(ops, j)
  {
    AtPrefix(ops, n, j);
  }

  lemma ProvenanceSnoc(ops: seq<Call>, k: nat, now: int, deadman: int, v: Velocity)
    requires ops != [] && Provenance(ops[..|ops| - 1], k, now, deadman, v)
    requires Harmless(Run(ops[..|ops| - 1]), ops[|ops| - 1])
    ensures Provenance(ops, k, now, deadman, v)
  {
    var n := |ops| - 1;
    AtPrefix(ops, n, k);
    forall j | k < j < |ops|
      ensures OpenAt(ops, j)
    {
      if j < n { OpenPrefix(ops, n, j); }
    }
    assert OpenAt(ops, n);
    HarmlessKeeps(At(ops, n), ops[n]);
  }

  lemma {:induction false} TickFindsSource(ops: seq<Call>, now: int, deadman: int) returns (k: nat)
    requires Run(ops).hasVelocity && now - Run(ops).latestAt <= deadman
    ensures Provenance(ops, k, now, deadman, Run(ops).latest)
  {
    var n := |ops| - 1;
    var c, op := Run(ops[..n]), ops[n];
    StoredImpliesReady(ops[..n]);
    assert ops[..|ops|] == ops;
    if Harmless(c, op) && c.hasVelocity {
      k := TickFindsSource(ops[..n], now, deadman);
      HarmlessKeeps(c, op);
      ProvenanceSnoc(ops, k, now, deadman, c.latest);
    } else {
      if !Harmless(c, op) { HarmfulDrops(c, op); }
      k := n;
    }
  }

  lemma {:induction false} SourceKept(ops: seq<Call>, k: nat, now: int, deadman: int, v: Velocity)
    requires Provenance(ops, k, now, deadman, v)
    ensures Run(ops).hasVelocity && Run(ops).latest == v && Run(ops).latestAt == ops[k].now
  {
    var n := |ops| - 1;
    assert ops[..|ops|] == ops;
    if k < n {
      AtPrefix(ops, n, k);
      forall j | k < j < n
        ensures OpenAt(ops[..n], j)
      {
        OpenPrefix(ops, n, j);
      }
      assert OpenAt(ops, n);
      SourceKept(ops[..n], k, now, deadman, v);
      HarmlessKeeps(At(ops, n), ops[n]);
    }
  }

  // MAIN RESULT. Over every history, a tick sends v exactly when v is the
  // clamp of one earlier accepted command no older than the deadman and
  // nothing since closed the gate or discarded it.
  lemma TickProvenance(ops: seq<Call>, now: int, deadman: int, v: Velocity)
    ensures TickVelocity(Run(ops), now, deadman) == Some(v) <==> exists k :: Provenance(ops, k, now, deadman, v)
  {
    StoredImpliesReady(ops);
    if TickVelocity(Run(ops), now, deadman) == Some(v) {
      var k := TickFindsSource(ops, now, deadman);
    }
    if k :| Provenance(ops, k, now, deadman, v) {
      SourceKept(ops, k, now, deadman, v);
    }
  }

  // ---------- no restoration after a disconnect ----------

  ghost predicate Unready(op: Call) { op.Disconnect? || (op.Ready? && !op.on) }

  // Readiness in terms of calls alone.
  ghost predicate ArmedSince(ops: seq<Call>, i: nat)
  {
    i < |ops| && ops[i].Ready? && ops[i].on && forall j :: i < j < |ops| ==> !Unready(ops[j])
  }

  lemma ReadyStep(c: Controller, op: Call)
    ensures After(c, op).ready <==> (op.Ready? && op.on) || (c.ready && !Unready(op))
  {
  }

  lemma ArmedSnoc(ops: seq<Call>, i: nat)
    requires i + 1 < |ops|
    ensures ArmedSince(ops, i) <==> ArmedSince(ops[..|ops| - 1], i) && !Unready(ops[|ops| - 1])
  {
    var n := |ops| - 1;
    assert forall j :: 0 <= j < n ==> ops[..n][j] == ops[j];
    if ArmedSince(ops[..n], i) && !Unready(ops[n]) {
      forall j | i < j < |ops|
        ensures !Unready(ops[j])
      {
        if j < n { assert !Unready(ops[..n][j]); }
      }
    }
  }

  lemma {:induction false} ReadyMeaning(ops: seq<Call>)
    ensures Run(ops).ready <==> exists i :: ArmedSince(ops, i)
  {
    if ops != [] {
      var n := |ops| - 1;
      ReadyMeaning(ops[..n]);
      ReadyStep(Run(ops[..n]), ops[n]);
      if ops[n].Ready? && ops[n].on {
        assert ArmedSince(ops, n);
      } else if i :| ArmedSince(ops[..n], i) {
        ArmedSnoc(ops, i);
      }
      if i: nat :| ArmedSince(ops, i) && i < n { ArmedSnoc(ops, i); }
    }
  }

  // A call that clears a pending transition.
  ghost predicate Aborts(op: Call)
  {
    Unready(op) || op.Complete? || (op.Report? && Loses(op.status))
  }

  // Call j is an accepted request for `mode` and nothing cleared it since.
  ghost predicate PendingSince(ops: seq<Call>, j: nat, mode: nat)
  {
    && j < |ops| && ops[j].Request? && ops[j].mode == Some(mode) && ModeRefusal(At(ops, j), ops[j].mode).None?
    && forall m :: j < m < |ops| ==> !Aborts(ops[m])
  }

  lemma PendingStep(c: Controller, op: Call)
    requires After(c, op).pending
    ensures if c.pending then !Aborts(op) && After(c, op).pendingMode == c.pendingMode
            else op.Request? && ModeRefusal(c, op.mode).None? && op.mode == Some(After(c, op).pendingMode)
  {
  }

  lemma {:induction false} PendingMeaning(ops: seq<Call>) returns (j: nat)
    requires Run(ops).pending
    ensures PendingSince(ops, j, Run(ops).pendingMode)
  {
    var n := |ops| - 1;
    PendingStep(Run(ops[..n]), ops[n]);
    if Run(ops[..n]).pending {
      j := PendingMeaning(ops[..n]);
      PendingSnoc(ops, j, Run(ops).pendingMode);
    } else {
      j := n;
    }
  }

  lemma PendingSnoc(ops: seq<Call>, j: nat, mode: nat)
    requires ops != [] && PendingSince(ops[..|ops| - 1], j, mode) && !Aborts(ops[|ops| - 1])
    ensures PendingSince(ops, j, mode)
  {
    var n := |ops| - 1;
    AtPrefix(ops, n, j);
    forall m | j < m < |ops|
      ensures !Aborts(ops[m])
    {
      if m < n { assert ops[..n][m] == ops[m]; }
    }
  }

  // A call that closes the motion gate in state c.
  ghost predicate Closes(c: Controller, op: Call)
  {
    Aborts(op) || (op.Request? && ModeRefusal(c, op.mode).None?)
  }

  // No call from position `from` on closed the gate.
  ghost predicate QuietFrom(ops: seq<Call>, from: nat)
  {
    forall m :: from <= m < |ops| ==> !Closes(At(ops, m), ops[m])
  }

  // Call k completed the move transition requested by call j, and the gate
  // stayed open since.
  ghost predicate OpenedBy(ops: seq<Call>, j: nat, k: nat)
  {
    && j < k < |ops| && PendingSince(ops[..k], j, MODE_MOVE) && ops[k].Complete? && ops[k].success
    && QuietFrom(ops, k + 1)
  }

  lemma GateStep(c: Controller, op: Call)
    ensures !After(c, op).gate <==>
            (!c.gate && !Closes(c, op)) || (op.Complete? && op.success && c.pending && c.pendingMode == MODE_MOVE)
  {
  }

  lemma QuietSnoc(ops: seq<Call>, from: nat)
    requires ops != [] && from < |ops|
    ensures var n := |ops| - 1;
            QuietFrom(ops, from) <==> QuietFrom(ops[..n], from) && !Closes(Run(ops[..n]), ops[n])
  {
    var n := |ops| - 1;
    assert At(ops, n) == Run(ops[..n]);
    forall m | 0 <= m < n
      ensures ops[..n][m] == ops[m] && At(ops[..n], m) == At(ops, m)
    {
      AtPrefix(ops, n, m);
    }
    if QuietFrom(ops[..n], from) && !Closes(Run(ops[..n]), ops[n]) {
      forall m | from <= m < |ops|
        ensures !Closes(At(ops, m), ops[m])
      {
        if m < n { assert !Closes(At(ops[..n], m), ops[..n][m]); }
      }
    }
    if QuietFrom(ops, from) {
      forall m | from <= m < n
        ensures !Closes(At(ops[..n], m), ops[..n][m])
      {
        assert !Closes(At(ops, m), ops[m]);
      }
    }
  }

  lemma {:induction false} GateMeaning(ops: seq<Call>) returns (j: nat, k: nat)
    requires !Run(ops).gate && !QuietFrom(ops, 0)
    ensures OpenedBy(ops, j, k)
  {
    var n := |ops| - 1;
    var c, op := Run(ops[..n]), ops[n];
    GateStep(c, op);
    QuietSnoc(ops, 0);
    if op.Complete? {
      j := PendingMeaning(ops[..n]);
      k := n;
    } else {
      j, k := GateMeaning(ops[..n]);
      assert ops[..n][..k] == ops[..k] && ops[..n][k] == ops[k];
      if k + 1 < |ops| { QuietSnoc(ops, k + 1); }
    }
  }

  // MAIN RESULT. The gate is open exactly when no call ever closed it, or the
  // last closing was undone by completing an accepted move request.
  lemma GateOpenIff(ops: seq<Call>)
    ensures !Run(ops).gate <==> QuietFrom(ops, 0) || exists j: nat, k: nat :: OpenedBy(ops, j, k)
  {
    if QuietFrom(ops, 0) {
      assert ops[..0] == [];
      StillOpen(ops, 0);
    } else {
      if !Run(ops).gate {
        var j, k := GateMeaning(ops);
      }
      forall j: nat, k: nat | OpenedBy(ops, j, k)
        ensures !Run(ops).gate
      {
        OpensGate(ops, j, k);
      }
    }
  }

  lemma {:induction false} StillOpen(ops: seq<Call>, from: nat)
    requires from <= |ops| && !At(ops, from).gate && QuietFrom(ops, from)
    ensures !Run(ops).gate
    decreases |ops| - from
  {
    if from < |ops| {
      AtSnoc(ops, from);
      GateStep(At(ops, from), ops[from]);
      StillOpen(ops, from + 1);
    } else {
      assert ops[..from] == ops;
    }
  }

  lemma OpensGate(ops: seq<Call>, j: nat, k: nat)
    requires OpenedBy(ops, j, k)
    ensures !Run(ops).gate
  {
    PendingKept(ops[..k], j, MODE_MOVE);
    AtSnoc(ops, k);
    GateStep(At(ops, k), ops[k]);
    StillOpen(ops, k + 1);
  }

  lemma PendingStays(c: Controller, op: Call)
    requires !Aborts(op)
    ensures c.pending ==> After(c, op).pending && After(c, op).pendingMode == c.pendingMode
    ensures op.Request? && ModeRefusal(c, op.mode).None? ==>
              After(c, op).pending && op.mode == Some(After(c, op).pendingMode)
  {
  }

  lemma {:induction false} PendingKept(ops: seq<Call>, j: nat, mode: nat)
    requires PendingSince(ops, j, mode)
    ensures Run(ops).pending && Run(ops).pendingMode == mode
  {
    var n := |ops| - 1;
    PendingStays(Run(ops[..n]), ops[n]);
    if j < n {
      AtPrefix(ops, n, j);
      forall m | j < m < n
        ensures !Aborts(ops[..n][m])
      {
        assert ops[..n][m] == ops[m];
      }
      PendingKept(ops[..n], j, mode);
    }
  }

  // What must have happened, in order, since call d for a velocity to be
  // accepted now.
  ghost predicate Restored(ops: seq<Call>, d: nat, i: nat, j: nat, k: nat)
  {
    && d < i < j < k < |ops|
    && ArmedSince(ops, i)          // set_driver_ready(true), still armed
    && OpenedBy(ops, j, k)         // an accepted "move" request and its completion
    && NoLossSince(ops, j)
  }

  ghost predicate NoLossSince(ops: seq<Call>, j: nat)
  {
    forall m :: j < m < |ops| ==> !(ops[m].Report? && Loses(ops[m].status))
  }

  lemma OpenedQuiet(ops: seq<Call>, j: nat, k: nat, m: nat)
    requires OpenedBy(ops, j, k) && j < m < |ops| && m != k
    ensures !Aborts(ops[m])
  {
    if m < k {
      assert ops[..k][m] == ops[m];
    } else {
      assert !Closes(At(ops, m), ops[m]);
    }
  }

  // The driver was re-armed between a disconnect and any accepted request.
  lemma ArmedBefore(ops: seq<Call>, d: nat, j: nat) returns (i: nat)
    requires d < j <= |ops| && ops[d].Disconnect? && At(ops, j).ready
    ensures d < i < j && ArmedSince(ops[..j], i)
  {
    ReadyMeaning(ops[..j]);
    i :| ArmedSince(ops[..j], i);
    if i <= d { assert Unready(ops[..j][d]); }
  }

  lemma OpenedReady(ops: seq<Call>, j: nat, k: nat)
    requires OpenedBy(ops, j, k)
    ensures At(ops, j).ready && !Unready(ops[j]) && !Unready(ops[k])
  {
    assert ops[..k][j] == ops[j] && ops[..k][..j] == ops[..j];
  }

  lemma ChainRestored(ops: seq<Call>, d: nat, i: nat, j: nat, k: nat)
    requires OpenedBy(ops, j, k) && d < i < j && ArmedSince(ops[..j], i)
    ensures Restored(ops, d, i, j, k)
  {
    OpenedReady(ops, j, k);
    assert ops[..j][i] == ops[i];
    forall m | j < m < |ops|
      ensures m == k || !Aborts(ops[m])
    {
      if m != k { OpenedQuiet(ops, j, k, m); }
    }
    forall m | i < m < |ops|
      ensures !Unready(ops[m])
    {
      if m < j { assert ops[..j][m] == ops[m]; }
    }
  }

  // MAIN RESULT. After any disconnect no velocity is accepted before the
  // driver is re-armed, a move request is accepted, and that very request is
  // completed, in this order and without a loss in between.
  lemma NoRestoration(ops: seq<Call>, d: nat, cmd: Command)
    requires d < |ops| && ops[d].Disconnect? && Accepts(Run(ops), cmd)
    ensures exists i, j, k :: Restored(ops, d, i, j, k)
  {
    assert Closes(At(ops, d), ops[d]);
    var j, k := GateMeaning(ops);
    OpenedReady(ops, j, k);
    if j < d && d != k { OpenedQuiet(ops, j, k, d); }
    var i := ArmedBefore(ops, d, j);
    ChainRestored(ops, d, i, j, k);
  }

  // The gate starts open: before any call has closed it, motion needs no mode
  // request. This history accepts a velocity without one.
  lemma FirstSessionNeedsNoRequest()
    ensures var ops := [Ready(true, 0), Report(Status(true, true, SPORT_MOVE, 0), 0)];
            Accepts(Run(ops), Command(Finite(1.0), Finite(0.0), Finite(0.0)))
  {
    var ops := [Ready(true, 0), Report(Status(true, true, SPORT_MOVE, 0), 0)];
    assert ops[..1][..0] == [] && ops[..1][0] == ops[0];
    assert Run(ops[..1]) == After(Initial(), ops[0]);
  }

  // ---------- the emergency-stop latch ----------

  function LastLatch(ops: seq<Call>): bool
  {
    if ops == [] then false
    else match ops[|ops| - 1]
      case Trigger(_) => true
      case Clear(_) => false
      case _ => LastLatch(ops[..|ops| - 1])
  }

  // The latch is what the last trigger or clear said, whatever else happened;
  // in particular no disconnect clears it.
  lemma LatchStep(c: Controller, op: Call)
    ensures After(c, op).estop == (op.Trigger? || (!op.Clear? && c.estop))
  {
  }

  lemma {:induction false} LatchMeaning(ops: seq<Call>)
    ensures Run(ops).estop == LastLatch(ops)
  {
    if ops != [] {
      LatchMeaning(ops[..|ops| - 1]);
      LatchStep(Run(ops[..|ops| - 1]), ops[|ops| - 1]);
    }
  }
}
