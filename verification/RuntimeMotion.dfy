/**
 The runtime drives the controller only through its calls, so the controller's
 history theorems hold of every runtime run: whatever nonzero velocity reaches
 the SDK can be traced to one submitted command.
 */
module RuntimeMotion {
  import opened Options
  import opened ModeNames
  import opened RobotController
  import opened DriverRuntime
  import History = ControllerHistory
  import Meaning = ControllerMeaning

  // The controller call a worker step makes, if any.
  function WorkerCall(s: State): Option<History.Call>
  {
    var now := s.m.time;
    match s.pc
    case EstopAbort(_) => Some(History.Complete(false, now))
    case EstopUndo(_, cmd) => if cmd.Mode? then Some(History.Complete(false, now)) else None
    case OrphanAbort => Some(History.Complete(false, now))
    case Undo(_) => Some(History.Complete(false, now))
    case Deadline =>
      if s.h.trans.Armed? && s.m.passNow >= s.h.trans.deadline then Some(History.Complete(false, now)) else None
    case PollApply(snap) => Some(History.Report(Status(s.f.linked, s.f.authority, snap.sport, snap.error), now))
    case PollOrphanAbort(_) => Some(History.Complete(false, now))
    case PollArm(snap) => if snap.linked && !s.m.readyArmed then Some(History.Ready(true, now)) else None
    case PollCheck(snap) =>
      if s.h.trans.Armed? && s.ctl.pending && snap.sport != s.h.trans.stable && s.m.passNow >= s.h.trans.deadline
      then Some(History.Complete(false, now)) else None
    case PollConfirm(_) => if s.h.trans.Armed? then Some(History.Complete(true, now)) else None
    case DrainUndo(cmd) => if cmd.Mode? then Some(History.Complete(false, now)) else None
    case ClearStatus => Some(History.Report(NO_STATUS, now))
    case ClearController => Some(History.Disconnect(now))
    case _ => None
  }

  // The controller call a step makes, if any.
  function CallOf(cfg: Config, s: State, a: Action): Option<History.Call>
  {
    var now := s.m.time;
    if !Enabled(s, a) then None
    else match a
      case Report(linked, authority) =>
        Some(History.Report(Status(linked, authority, s.f.snapSport, s.f.snapError), now))
      case SubmitVelocity(cmd) => Some(History.Accept(cmd, now))
      case ReleaseEstop => Some(History.Clear(now))
      case LatchEstop => Some(History.Trigger(now))
      case AskMode(_, name) => Some(History.Request(ModeCode(name), now))
      case EnqueueMode(p) =>
        if DriverRuntime.Disconnected(s) || !Pushed(s.h.queue, cfg, Mode(s.h.accepted[p], p)).1
        then Some(History.Complete(false, now)) else None
      case Worker(_) => WorkerCall(s)
      case _ => None
  }

  function Applied(c: Controller, call: Option<History.Call>): Controller
  {
    if call.None? then c else History.After(c, call.value)
  }

  lemma StepCalls(cfg: Config, s: State, a: Action)
    ensures Step(cfg, s, a).ctl == Applied(s.ctl, CallOf(cfg, s, a))
  {
    if Enabled(s, a) {
      if a.Worker? {
        WorkerCalls(cfg, s, a.choice);
      } else {
        match a
        case AskMode(_, _) =>
        case EnqueueMode(_) =>
        case MarkEstop =>
        case _ =>
      }
    }
  }

  lemma WorkerCalls(cfg: Config, s: State, ch: Choice)
    ensures WorkerStep(cfg, s, ch).ctl == Applied(s.ctl, WorkerCall(s))
  {
    match PhaseOf(s.pc)
    case SessionPhase => assert SessionStep(s, ch).ctl == s.ctl;
    case EstopPhase => assert EstopStep(s, ch).ctl == Applied(s.ctl, WorkerCall(s));
    case CommandPhase => assert CommandStep(cfg, s, ch).ctl == Applied(s.ctl, WorkerCall(s));
    case TickPhase => assert TickStep(cfg, s, ch).ctl == Applied(s.ctl, WorkerCall(s));
    case PollPhase => assert PollStep(s, ch).ctl == Applied(s.ctl, WorkerCall(s));
    case EndPhase => assert EndStep(s, ch).ctl == Applied(s.ctl, WorkerCall(s));
  }

  // The controller calls of a run, in order.
  function Calls(cfg: Config, time: int, actions: seq<Action>): seq<History.Call>
  {
    if actions == [] then []
    else
      var before := actions[..|actions| - 1];
      var call := CallOf(cfg, Run(cfg, Start(time), before), actions[|actions| - 1]);
      Calls(cfg, time, before) + (if call.Some? then [call.value] else [])
  }

  // The runtime refines the controller's call histories.
  lemma {:induction false} ControllerRefinement(cfg: Config, time: int, actions: seq<Action>)
    ensures Run(cfg, Start(time), actions).ctl == History.Run(Calls(cfg, time, actions))
  {
    if actions != [] {
      var n := |actions| - 1;
      var s := Run(cfg, Start(time), actions[..n]);
      ControllerRefinement(cfg, time, actions[..n]);
      StepCalls(cfg, s, actions[n]);
      var calls, call := Calls(cfg, time, actions[..n]), CallOf(cfg, s, actions[n]);
      if call.Some? {
        assert (calls + [call.value])[..|calls|] == calls;
      } else {
        assert calls + [] == calls;
      }
    }
  }

  // v was read by the motion tick after the first n steps, and then was the
  // clamp of one accepted command within the deadman, with the gate open since.
  ghost predicate Traced(cfg: Config, time: int, actions: seq<Action>, n: nat, v: Velocity)
  {
    && n <= |actions|
    && Run(cfg, Start(time), actions[..n]).pc.TickRead?
    && var now := Run(cfg, Start(time), actions[..n]).m.time;
       exists k: nat :: Meaning.ComesFrom(Calls(cfg, time, actions[..n]), k, now, cfg.deadman, v)
  }

  ghost predicate Traceable(cfg: Config, time: int, actions: seq<Action>, v: Velocity)
  {
    exists n: nat :: Traced(cfg, time, actions, n, v)
  }

  lemma TraceableGrows(cfg: Config, time: int, actions: seq<Action>, v: Velocity)
    requires actions != [] && Traceable(cfg, time, actions[..|actions| - 1], v)
    ensures Traceable(cfg, time, actions, v)
  {
    var n: nat :| Traced(cfg, time, actions[..|actions| - 1], n, v);
    assert actions[..|actions| - 1][..n] == actions[..n];
    assert Traced(cfg, time, actions, n, v);
  }

  lemma ReadIsTraced(cfg: Config, time: int, actions: seq<Action>, v: Velocity)
    requires actions != [] && v != ZERO
    requires var s := Run(cfg, Start(time), actions[..|actions| - 1]); s.pc.TickRead? && TickTarget(cfg, s) == v
    ensures Traceable(cfg, time, actions, v)
  {
    var n := |actions| - 1;
    var s, calls := Run(cfg, Start(time), actions[..n]), Calls(cfg, time, actions[..n]);
    ControllerRefinement(cfg, time, actions[..n]);
    Meaning.TickFromCalls(calls, s.m.time, cfg.deadman, v);
    assert Traced(cfg, time, actions, n, v);
  }

  // What a step can do to the SDK's velocity and to the pending tick target.
  lemma MotionStep(cfg: Config, s: State, a: Action)
    ensures var t := Step(cfg, s, a);
            && (t.m.sdkVelocity == s.m.sdkVelocity || t.m.sdkVelocity == ZERO ||
                (s.pc.TickSend? && t.m.sdkVelocity == s.pc.target))
            && (t.pc.TickSend? ==> s.pc == t.pc || (s.pc.TickRead? && t.pc.target == TickTarget(cfg, s)))
  {
    if Enabled(s, a) {
      if a.Worker? {
        match PhaseOf(s.pc)
        case SessionPhase =>
        case EstopPhase =>
        case CommandPhase => CommandMotion(cfg, s, a.choice);
        case TickPhase =>
        case PollPhase =>
        case EndPhase =>
      } else {
        assert CallerStep(cfg, s, a).pc == s.pc;
        assert CallerStep(cfg, s, a).m.(time := 0) == s.m.(time := 0);
      }
    }
  }

  lemma CommandMotion(cfg: Config, s: State, ch: Choice)
    requires PhaseOf(s.pc) == CommandPhase
    ensures var t := CommandStep(cfg, s, ch);
            (t.m.sdkVelocity == s.m.sdkVelocity || t.m.sdkVelocity == ZERO) && !t.pc.TickSend?
  {
  }

  // MAIN RESULT. In every reachable state, a nonzero velocity held by the SDK,
  // or about to be sent, is the clamp of one submitted command that was
  // accepted no longer ago than the deadman when the tick read it, with the
  // movement gate open in between.
  lemma {:induction false} SentVelocityProvenance(cfg: Config, time: int, actions: seq<Action>)
    ensures var s := Run(cfg, Start(time), actions);
            && (s.m.sdkVelocity != ZERO ==> Traceable(cfg, time, actions, s.m.sdkVelocity))
            && (s.pc.TickSend? && s.pc.target != ZERO ==> Traceable(cfg, time, actions, s.pc.target))
  {
    if actions != [] {
      var n := |actions| - 1;
      var s, t := Run(cfg, Start(time), actions[..n]), Run(cfg, Start(time), actions);
      SentVelocityProvenance(cfg, time, actions[..n]);
      MotionStep(cfg, s, actions[n]);
      if t.m.sdkVelocity != ZERO { TraceableGrows(cfg, time, actions, t.m.sdkVelocity); }
      if t.pc.TickSend? && t.pc.target != ZERO {
        if s.pc.TickRead? {
          ReadIsTraced(cfg, time, actions, t.pc.target);
        } else {
          TraceableGrows(cfg, time, actions, t.pc.target);
        }
      }
    }
  }

  // After any session invalidation in a run, a velocity is accepted only once
  // the driver was re-armed, a move request accepted and a pending transition
  // completed, in this order among the run's controller calls.
  lemma SessionRestoration(cfg: Config, time: int, actions: seq<Action>, d: nat, cmd: Command)
    requires d < |Calls(cfg, time, actions)| && Calls(cfg, time, actions)[d].Disconnect?
    requires Accepts(Run(cfg, Start(time), actions).ctl, cmd)
    ensures exists i, j, k :: History.Restored(Calls(cfg, time, actions), d, i, j, k)
  {
    ControllerRefinement(cfg, time, actions);
    History.NoRestoration(Calls(cfg, time, actions), d, cmd);
  }

  // ---------- modes under the emergency-stop latch ----------

  lemma LatchedCall(c: Controller, op: History.Call)
    requires c.estop && !op.Clear?
    ensures var d := History.After(c, op);
            d.estop && (d.pending ==> d.pendingMode == MODE_DAMPING || (c.pending && d.pendingMode == c.pendingMode))
  {
  }

  // MAIN RESULT. From any state with the latch set, until it is released the
  // controller comes to wait for no mode but damping.
  lemma {:induction false} LatchedModes(cfg: Config, s: State, actions: seq<Action>)
    requires s.ctl.estop && forall n :: 0 <= n < |actions| ==> !actions[n].ReleaseEstop?
    ensures var c := Run(cfg, s, actions).ctl;
            && c.estop
            && (c.pending ==> c.pendingMode == 0xA101 || (s.ctl.pending && c.pendingMode == s.ctl.pendingMode))
  {
    if actions != [] {
      var n := |actions| - 1;
      var t, a := Run(cfg, s, actions[..n]), actions[n];
      LatchedModes(cfg, s, actions[..n]);
      StepCalls(cfg, t, a);
      var call := CallOf(cfg, t, a);
      if call.Some? { LatchedCall(t.ctl, call.value); }
    }
  }
}
