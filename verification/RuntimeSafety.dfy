/**
 Two invariants of every run: a controller-side pending transition always has
 somebody who will complete it, and the worker's record of the last velocity
 matches what the SDK accepted.
 */
module RuntimeSafety {
  import opened Options
  import opened ModeNames
  import opened RobotController
  import opened DriverRuntime
  import opened RuntimePromises

  // ---------- ownership of a pending transition ----------

  ghost predicate HasMode(queue: seq<Cmd>)
  {
    exists i :: 0 <= i < |queue| && queue[i].Mode?
  }

  // The worker is handling a mode command.
  predicate HandlesMode(pc: Pc)
  {
    match pc
    case EstopUndo(_, cmd) => cmd.Mode?
    case Execute(cmd) => cmd.Mode?
    case SetMode(_) => true
    case Undo(_) => true
    case DrainUndo(cmd) => cmd.Mode?
    case _ => false
  }

  // The teardown that clears the controller is under way.
  predicate TearingDown(pc: Pc)
  {
    pc.Draining? || pc.DrainUndo? || pc.ClearCaches? || pc.ClearStatus? || pc.ClearController?
  }

  // A caller between acceptance and enqueue, a queued mode command, the mode
  // command being handled, the armed transition, or the teardown.
  ghost predicate HasOwner(s: State)
  {
    s.h.accepted != map[] || HasMode(s.h.queue) || s.h.trans.Armed? || HandlesMode(s.pc) || TearingDown(s.pc)
  }

  ghost predicate Owned(s: State) { s.ctl.pending ==> HasOwner(s) }

  lemma PopMode(queue: seq<Cmd>)
    requires queue != [] && HasMode(queue) && !queue[0].Mode?
    ensures HasMode(queue[1..])
  {
    var i :| 0 <= i < |queue| && queue[i].Mode?;
    assert queue[1..][i - 1] == queue[i];
  }

  lemma PushKeepsMode(queue: seq<Cmd>, cmd: Cmd)
    ensures HasMode(queue) || cmd.Mode? ==> HasMode(queue + [cmd])
  {
    if HasMode(queue) {
      var i :| 0 <= i < |queue| && queue[i].Mode?;
      assert (queue + [cmd])[i] == queue[i];
    } else if cmd.Mode? {
      assert (queue + [cmd])[|queue|] == cmd;
    }
  }

  lemma CallerOwned(cfg: Config, s: State, a: Action)
    requires Owned(s) && Enabled(s, a)
    ensures Owned(CallerStep(cfg, s, a))
  {
    match a
    case RequestAuthority(sdk) => PushKeepsMode(s.h.queue, Authority(sdk, s.l.next));
    case EnqueueMode(p) => PushKeepsMode(s.h.queue, Mode(s.h.accepted[p], p));
    case AskMode(p, name) => AskOwned(s, p, name);
    case Report(_, _) =>
    case MarkEstop =>
    case CheckMode =>
    case _ =>
  }

  lemma AskOwned(s: State, p: Promise, name: string)
    requires Owned(s)
    ensures Owned(ModeAsked(s, p, name))
  {
    if ModeRefusal(s.ctl, ModeCode(name)).None? {
      assert p in ModeAsked(s, p, name).h.accepted;
    }
  }

  lemma WorkerOwned(cfg: Config, s: State, ch: Choice)
    requires Owned(s)
    ensures Owned(WorkerStep(cfg, s, ch))
  {
    match PhaseOf(s.pc)
    case SessionPhase => assert Owned(SessionStep(s, ch));
    case EstopPhase => EstopOwned(s, ch);
    case CommandPhase => CommandOwned(cfg, s, ch);
    case TickPhase => TickOwned(cfg, s, ch);
    case PollPhase => PollOwned(s, ch);
    case EndPhase => EndOwned(s, ch);
  }

  lemma EstopOwned(s: State, ch: Choice)
    requires Owned(s)
    ensures Owned(EstopStep(s, ch))
  {
    if s.pc.EstopDrain? && s.h.queue != [] && HasMode(s.h.queue) && !s.h.queue[0].Mode? { PopMode(s.h.queue); }
  }

  lemma CommandOwned(cfg: Config, s: State, ch: Choice)
    requires Owned(s)
    ensures Owned(CommandStep(cfg, s, ch))
  {
    if s.pc.PopCommand? && s.h.queue != [] && HasMode(s.h.queue) && !s.h.queue[0].Mode? { PopMode(s.h.queue); }
  }

  lemma TickOwned(cfg: Config, s: State, ch: Choice)
    requires Owned(s)
    ensures Owned(TickStep(cfg, s, ch))
  {
  }

  lemma PollOwned(s: State, ch: Choice)
    requires Owned(s)
    ensures Owned(PollStep(s, ch))
  {
    match s.pc
    case PollOrphanAbort(_) => assert !PollStep(s, ch).ctl.pending;
    case PollCheck(_) => PollCheckOwned(s, ch);
    case PollConfirm(_) => assert s.h.trans.Armed? ==> !PollStep(s, ch).ctl.pending;
    case _ =>
  }

  lemma PollCheckOwned(s: State, ch: Choice)
    requires Owned(s) && s.pc.PollCheck?
    ensures Owned(PollStep(s, ch))
  {
  }

  lemma EndOwned(s: State, ch: Choice)
    requires Owned(s)
    ensures Owned(EndStep(s, ch))
  {
  }

  lemma {:induction false} RunOwned(cfg: Config, time: int, actions: seq<Action>)
    ensures Owned(Run(cfg, Start(time), actions))
  {
    if actions != [] {
      RunOwned(cfg, time, actions[..|actions| - 1]);
      var s, a := Run(cfg, Start(time), actions[..|actions| - 1]), actions[|actions| - 1];
      if Enabled(s, a) {
        if a.Worker? { WorkerOwned(cfg, s, a.choice); } else { CallerOwned(cfg, s, a); }
      }
    }
  }

  // MAIN RESULT. In every reachable state, motion is gated by a pending
  // transition only while somebody is going to settle it; while connected
  // that is a caller, a queued command, the command handled or the armed
  // transition.
  lemma PendingHasOwner(cfg: Config, time: int, actions: seq<Action>)
    ensures var s := Run(cfg, Start(time), actions);
            && (s.ctl.pending ==> HasOwner(s))
            && (s.ctl.pending && s.f.connected ==>
                  s.h.accepted != map[] || HasMode(s.h.queue) || s.h.trans.Armed? || HandlesMode(s.pc))
  {
    RunOwned(cfg, time, actions);
    RunAccounted(cfg, time, actions);
  }

  // ---------- the velocity record ----------

  // A zero move was accepted and the flag is cleared after the damping call.
  predicate ClearingFlag(pc: Pc) { (pc.EstopDamp? || pc.StopDamp?) && pc.moved }

  ghost predicate Tracked(s: State)
  {
    && (if ClearingFlag(s.pc) then s.m.sdkVelocity == ZERO else s.m.lastNonzero <==> s.m.sdkVelocity != ZERO)
    && (s.pc.SetMode? ==> s.m.sdkVelocity == ZERO)
  }

  lemma StepTracked(cfg: Config, s: State, a: Action)
    requires Tracked(s)
    ensures Tracked(Step(cfg, s, a))
  {
    if Enabled(s, a) {
      if a.Worker? {
        WorkerTracked(cfg, s, a.choice);
      } else {
        assert CallerStep(cfg, s, a).pc == s.pc;
        assert CallerStep(cfg, s, a).m.(time := 0) == s.m.(time := 0);
      }
    }
  }

  lemma WorkerTracked(cfg: Config, s: State, ch: Choice)
    requires Tracked(s)
    ensures Tracked(WorkerStep(cfg, s, ch))
  {
    match PhaseOf(s.pc)
    case SessionPhase =>
    case EstopPhase => EstopTracked(s, ch);
    case CommandPhase => CommandTracked(cfg, s, ch);
    case TickPhase => TickTracked(cfg, s, ch);
    case PollPhase =>
    case EndPhase =>
  }

  lemma EstopTracked(s: State, ch: Choice)
    requires Tracked(s)
    ensures Tracked(EstopStep(s, ch))
  {
  }

  lemma TickTracked(cfg: Config, s: State, ch: Choice)
    requires Tracked(s) && PhaseOf(s.pc) == TickPhase
    ensures Tracked(TickStep(cfg, s, ch))
  {
  }

  lemma CommandTracked(cfg: Config, s: State, ch: Choice)
    requires Tracked(s)
    ensures Tracked(CommandStep(cfg, s, ch))
  {
  }

  lemma {:induction false} RunTracked(cfg: Config, time: int, actions: seq<Action>)
    ensures Tracked(Run(cfg, Start(time), actions))
  {
    if actions != [] {
      RunTracked(cfg, time, actions[..|actions| - 1]);
      StepTracked(cfg, Run(cfg, Start(time), actions[..|actions| - 1]), actions[|actions| - 1]);
    }
  }

  // MAIN RESULT. In every reachable state the record is exact, except that it
  // lags behind an accepted zero during the damping call that follows it; a mode
  // command reaches set_mode only at zero velocity; and a motion tick whose move
  // does not fail leaves the SDK at the tick's target, sent or not.
  lemma VelocityTracking(cfg: Config, time: int, actions: seq<Action>, ch: Choice)
    ensures var s := Run(cfg, Start(time), actions);
            && (!ClearingFlag(s.pc) ==> (s.m.lastNonzero <==> s.m.sdkVelocity != ZERO))
            && (ClearingFlag(s.pc) ==> s.m.sdkVelocity == ZERO && !Step(cfg, s, Worker(ch)).m.lastNonzero)
            && (s.pc.SetMode? ==> s.m.sdkVelocity == ZERO)
            && (s.pc.TickSend? && ch.ok ==> Step(cfg, s, Worker(ch)).m.sdkVelocity == s.pc.target)
            && (s.pc.TickSend? && !ch.ok ==> Step(cfg, s, Worker(ch)).m == s.m)
  {
    RunTracked(cfg, time, actions);
    TrackingStep(cfg, Run(cfg, Start(time), actions), ch);
  }

  lemma TrackingStep(cfg: Config, s: State, ch: Choice)
    requires Tracked(s)
    ensures ClearingFlag(s.pc) ==> !Step(cfg, s, Worker(ch)).m.lastNonzero
    ensures s.pc.TickSend? && ch.ok ==> Step(cfg, s, Worker(ch)).m.sdkVelocity == s.pc.target
    ensures s.pc.TickSend? && !ch.ok ==> Step(cfg, s, Worker(ch)).m == s.m
  {
  }
}
