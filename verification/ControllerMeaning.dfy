/**
 The controller's decisions in terms of the calls made to it, and of nothing else.
 */
module ControllerMeaning {
  import opened Options
  import opened ModeNames
  import opened RobotController
  import opened ControllerHistory

  // ---------- what the calls say ----------

  // The last report, or no link at all before the first one.
  function LastReport(ops: seq<Call>): Status
  {
    if ops == [] then Status(false, false, 0, 0)
    else if ops[|ops| - 1].Report? then ops[|ops| - 1].status
    else LastReport(ops[..|ops| - 1])
  }

  // set_driver_ready(true) was called and neither undone nor followed by a
  // disconnect.
  ghost predicate Armed(ops: seq<Call>) { exists i: nat :: ArmedSince(ops, i) }

  // The call ends a pending transition and closes the gate: a disarming, a
  // disconnect, a completion, or a report without link, without authority or
  // with an error.
  predicate Interrupts(op: Call)
  {
    match op
    case Ready(on, _) => !on
    case Disconnect(_) => true
    case Complete(_, _) => true
    case Report(s, _) => !s.linked || !s.authority || s.error != 0
    case _ => false
  }

  // A mode request made now is accepted.
  ghost predicate Granted(ops: seq<Call>, mode: Option<nat>)
    decreases |ops|, 2
  {
    && mode.Some? && Armed(ops) && !Waiting(ops)
    && LastReport(ops).linked && LastReport(ops).authority && LastReport(ops).error == 0
    && (LastLatch(ops) ==> mode == Some(0xA101))
  }

  // Call j is an accepted request for the mode and nothing cleared it since.
  ghost predicate Waits(ops: seq<Call>, j: nat, mode: nat)
    decreases |ops|, 0
  {
    && j < |ops| && ops[j].Request? && ops[j].mode == Some(mode) && Granted(ops[..j], ops[j].mode)
    && forall i :: j < i < |ops| ==> !Interrupts(ops[i])
  }

  ghost predicate Waiting(ops: seq<Call>)
    decreases |ops|, 1
  {
    exists j: nat, m: nat :: Waits(ops, j, m)
  }

  // Call m closes the motion gate.
  ghost predicate Shuts(ops: seq<Call>, m: nat)
    requires m < |ops|
  {
    Interrupts(ops[m]) || (ops[m].Request? && Granted(ops[..m], ops[m].mode))
  }

  ghost predicate NoneShuts(ops: seq<Call>, from: nat)
  {
    forall m :: from <= m < |ops| ==> !Shuts(ops, m)
  }

  // Call k completed the move transition requested by call j, and nothing
  // closed the gate since.
  ghost predicate Opens(ops: seq<Call>, j: nat, k: nat)
  {
    j < k < |ops| && Waits(ops[..k], j, 0xA104) && ops[k].Complete? && ops[k].success && NoneShuts(ops, k + 1)
  }

  ghost predicate GateOpen(ops: seq<Call>) { NoneShuts(ops, 0) || exists j: nat, k: nat :: Opens(ops, j, k) }

  // The robot may move: armed, gate open, nothing pending, linked with
  // authority in the Move state without an error, and not latched.
  ghost predicate MayMove(ops: seq<Call>)
  {
    && Armed(ops) && GateOpen(ops) && !Waiting(ops)
    && LastReport(ops).linked && LastReport(ops).authority && LastReport(ops).sport == 0xB104
    && LastReport(ops).error == 0 && !LastLatch(ops)
  }

  // ---------- the controller agrees ----------

  lemma {:induction false} StatusMeaning(ops: seq<Call>)
    ensures Run(ops).status == LastReport(ops)
  {
    if ops != [] {
      StatusMeaning(ops[..|ops| - 1]);
      StatusStep(Run(ops[..|ops| - 1]), ops[|ops| - 1]);
    }
  }

  lemma StatusStep(c: Controller, op: Call)
    ensures After(c, op).status == if op.Report? then op.status else c.status
  {
  }

  lemma InterruptsIff(op: Call)
    ensures Interrupts(op) <==> Aborts(op)
  {
  }

  lemma WaitsIff(ops: seq<Call>, j: nat, mode: nat)
    ensures Waits(ops, j, mode) <==> PendingSince(ops, j, mode)
    decreases |ops|, 0
  {
    if j < |ops| && ops[j].Request? { GrantedIff(ops[..j], ops[j].mode); }
    forall i | j < i < |ops|
      ensures Interrupts(ops[i]) <==> Aborts(ops[i])
    {
      InterruptsIff(ops[i]);
    }
  }

  lemma PendingIff(ops: seq<Call>)
    ensures Run(ops).pending <==> Waiting(ops)
    decreases |ops|, 1
  {
    if Run(ops).pending {
      var j := PendingMeaning(ops);
      WaitsIff(ops, j, Run(ops).pendingMode);
    }
    forall j: nat, m: nat | Waits(ops, j, m)
      ensures Run(ops).pending && Run(ops).pendingMode == m
    {
      WaitsIff(ops, j, m);
      PendingKept(ops, j, m);
    }
  }

  // MAIN RESULT. Over every history, a mode request is accepted if and only if
  // the mode is known, the driver armed, nothing pending, the last report free
  // of loss, and the latch not set unless the mode is damping.
  lemma GrantedIff(ops: seq<Call>, mode: Option<nat>)
    ensures ModeRefusal(Run(ops), mode).None? <==> Granted(ops, mode)
    decreases |ops|, 2
  {
    ReadyMeaning(ops);
    PendingIff(ops);
    StatusMeaning(ops);
    LatchMeaning(ops);
  }

  lemma ShutsIff(ops: seq<Call>, m: nat)
    requires m < |ops|
    ensures Shuts(ops, m) <==> Closes(At(ops, m), ops[m])
  {
    InterruptsIff(ops[m]);
    if ops[m].Request? { GrantedIff(ops[..m], ops[m].mode); }
  }

  lemma NoneShutsIff(ops: seq<Call>, from: nat)
    ensures NoneShuts(ops, from) <==> QuietFrom(ops, from)
  {
    forall m | from <= m < |ops|
      ensures Shuts(ops, m) <==> Closes(At(ops, m), ops[m])
    {
      ShutsIff(ops, m);
    }
  }

  lemma OpensIff(ops: seq<Call>, j: nat, k: nat)
    ensures Opens(ops, j, k) <==> OpenedBy(ops, j, k)
  {
    if j < k < |ops| {
      WaitsIff(ops[..k], j, 0xA104);
      NoneShutsIff(ops, k + 1);
    }
  }

  lemma GateIff(ops: seq<Call>)
    ensures !Run(ops).gate <==> GateOpen(ops)
  {
    GateOpenIff(ops);
    NoneShutsIff(ops, 0);
    forall j: nat, k: nat
      ensures Opens(ops, j, k) <==> OpenedBy(ops, j, k)
    {
      OpensIff(ops, j, k);
    }
  }

  // MAIN RESULT. Over every history, the movement gate in terms of the calls.
  lemma MayMoveIff(ops: seq<Call>)
    ensures MovementReady(Run(ops)) <==> MayMove(ops)
  {
    ReadyMeaning(ops);
    PendingIff(ops);
    StatusMeaning(ops);
    LatchMeaning(ops);
    GateIff(ops);
  }

  // A velocity is accepted if and only if it is finite and the robot may move.
  lemma AcceptsIff(ops: seq<Call>, cmd: Command)
    ensures Accepts(Run(ops), cmd) <==> cmd.vx.Finite? && cmd.vy.Finite? && cmd.vyaw.Finite? && MayMove(ops)
  {
    MayMoveIff(ops);
  }

  // ---------- the tick ----------

  // Call j leaves a stored velocity alone while the robot may move.
  ghost predicate LeavesVelocity(ops: seq<Call>, j: nat)
    requires j < |ops|
  {
    match ops[j]
    case Request(mode, _) => !Granted(ops[..j], mode)
    case Ready(on, _) => on
    case Report(_, _) => true
    case _ => false
  }

  function Limited(v: real): real { Max(-1.0, Min(1.0, v)) }

  function Max(a: real, b: real): real { if a >= b then a else b }

  function Min(a: real, b: real): real { if a <= b then a else b }

  // Call k submitted a finite command when the robot might move; v is that
  // command limited to [-1, 1]; it is no older than the deadman; since then the
  // robot might move all the time and no call discarded the velocity.
  ghost predicate ComesFrom(ops: seq<Call>, k: nat, now: int, deadman: int, v: Velocity)
  {
    && k < |ops| && ops[k].Accept? && MayMove(ops[..k])
    && ops[k].cmd.vx.Finite? && ops[k].cmd.vy.Finite? && ops[k].cmd.vyaw.Finite?
    && v == Velocity(Limited(ops[k].cmd.vx.v), Limited(ops[k].cmd.vy.v), Limited(ops[k].cmd.vyaw.v))
    && now - ops[k].now <= deadman
    && StaysOpen(ops, k)
  }

  ghost predicate StaysOpen(ops: seq<Call>, k: nat)
  {
    && (forall j :: k < j <= |ops| ==> MayMove(ops[..j]))
    && (forall j :: k < j < |ops| ==> LeavesVelocity(ops, j))
  }

  // MAIN RESULT. Over every history a tick sends v if and only if v comes from
  // one submitted command in the sense of `ComesFrom`.
  lemma TickFromCalls(ops: seq<Call>, now: int, deadman: int, v: Velocity)
    ensures TickVelocity(Run(ops), now, deadman) == Some(v) <==> exists k: nat :: ComesFrom(ops, k, now, deadman, v)
  {
    TickProvenance(ops, now, deadman, v);
    forall k: nat
      ensures Provenance(ops, k, now, deadman, v) <==> ComesFrom(ops, k, now, deadman, v)
    {
      ProvenanceIff(ops, k, now, deadman, v);
    }
  }

  lemma ProvenanceIff(ops: seq<Call>, k: nat, now: int, deadman: int, v: Velocity)
    ensures Provenance(ops, k, now, deadman, v) <==> ComesFrom(ops, k, now, deadman, v)
  {
    if k < |ops| && ops[k].Accept? {
      AcceptsIff(ops[..k], ops[k].cmd);
      if Provenance(ops, k, now, deadman, v) { OpenMeansStays(ops, k); }
      if ComesFrom(ops, k, now, deadman, v) { StaysMeansOpen(ops, k); }
    }
  }

  lemma OpenMeansStays(ops: seq<Call>, k: nat)
    requires MovementReady(Run(ops)) && forall j :: k < j < |ops| ==> OpenAt(ops, j)
    ensures StaysOpen(ops, k)
  {
    assert ops[..|ops|] == ops;
    forall j | k < j <= |ops|
      ensures MayMove(ops[..j])
    {
      if j < |ops| { assert OpenAt(ops, j); }
      MayMoveIff(ops[..j]);
    }
    forall j | k < j < |ops|
      ensures LeavesVelocity(ops, j)
    {
      assert OpenAt(ops, j) && MayMove(ops[..j + 1]);
      OpenAtIff(ops, j);
    }
  }

  lemma StaysMeansOpen(ops: seq<Call>, k: nat)
    requires k < |ops| && StaysOpen(ops, k)
    ensures MovementReady(Run(ops)) && forall j :: k < j < |ops| ==> OpenAt(ops, j)
  {
    assert ops[..|ops|] == ops;
    assert MayMove(ops[..|ops|]);
    MayMoveIff(ops);
    forall j | k < j < |ops|
      ensures OpenAt(ops, j)
    {
      assert MayMove(ops[..j]) && MayMove(ops[..j + 1]) && LeavesVelocity(ops, j);
      OpenAtIff(ops, j);
    }
  }

  lemma OpenAtIff(ops: seq<Call>, j: nat)
    requires j < |ops|
    ensures OpenAt(ops, j) && MayMove(ops[..j + 1]) <==>
            MayMove(ops[..j]) && LeavesVelocity(ops, j) && MayMove(ops[..j + 1])
  {
    MayMoveIff(ops[..j]);
    MayMoveIff(ops[..j + 1]);
    AtSnoc(ops, j);
    if ops[j].Request? { GrantedIff(ops[..j], ops[j].mode); }
    if ops[j].Report? { ReportKeeps(At(ops, j), ops[j]); }
  }

  lemma ReportKeeps(c: Controller, op: Call)
    requires op.Report?
    ensures MovementReady(After(c, op)) && MovementReady(c) ==> MovementReady(c.(status := op.status))
  {
  }
}
