/**
 What a successful mode future proves about the run that produced it.
 */
module RuntimeVerdict {
  import opened Options
  import opened ModeNames
  import opened RobotController
  import opened DriverRuntime
  import opened RuntimePromises

  // ---------- evidence in the log ----------

  ghost predicate NoSessionAfter(log: seq<Event>, i: nat)
  {
    forall j :: i < j < |log| ==> !log[j].SessionStart?
  }

  // set_mode(mode) succeeded for p in the current session.
  ghost predicate ArmedAt(log: seq<Event>, i: nat, p: Promise, mode: nat, deadline: int)
  {
    && i < |log| && log[i].SetModeOk? && log[i].promise == p && log[i].mode == mode && log[i].deadline == deadline
    && NoSessionAfter(log, i)
  }

  ghost predicate ArmedEvidence(log: seq<Event>, t: Transition)
    requires t.Armed?
  {
    exists i: nat :: ArmedAt(log, i, t.promise, t.mode, t.deadline)
  }

  // The success at position k rests on an earlier set_mode(mode) for the same
  // promise and a later snapshot showing that mode's stable status in a pass
  // begun before the deadline, all in one session.
  ghost predicate Justified(log: seq<Event>, k: nat, p: Promise, i: nat, j: nat)
  {
    && i < j < k < |log|
    && log[i].SetModeOk? && log[i].promise == p && log[j].Seen?
    && StableStatus(log[i].mode) != 0
    && log[j].sport == StableStatus(log[i].mode) && log[j].passNow < log[i].deadline
    && forall n :: i < n <= k ==> !log[n].SessionStart?
  }

  ghost predicate Verdict(log: seq<Event>, k: nat)
    requires k < |log| && log[k].ModeSucceeded?
  {
    exists i: nat, j: nat :: Justified(log, k, log[k].promise, i, j)
  }

  // ---------- the invariant ----------

  predicate Known(mode: nat) { StableStatus(mode) != 0 }

  predicate KnownCmd(cmd: Cmd) { cmd.Mode? ==> Known(cmd.mode) }

  predicate PollSnapshot(pc: Pc) { PhaseOf(pc) == PollPhase && !pc.Poll? }

  ghost predicate KnownModes(s: State)
  {
    && (forall i :: 0 <= i < |s.h.queue| ==> KnownCmd(s.h.queue[i]))
    && (forall p :: p in s.h.accepted ==> Known(s.h.accepted[p]))
    && (s.pc.Execute? ==> KnownCmd(s.pc.cmd))
    && (s.pc.SetMode? ==> s.pc.cmd.Mode? && Known(s.pc.cmd.mode))
  }

  // The armed transition is backed by the log, is still in time while polling,
  // and a snapshot being processed is the last thing logged.
  ghost predicate Backed(s: State)
  {
    && (s.h.trans.Armed? ==> ArmedEvidence(s.y.log, s.h.trans) && s.h.trans.stable == StableStatus(s.h.trans.mode)
                             && Known(s.h.trans.mode))
    && (PhaseOf(s.pc) == PollPhase && s.h.trans.Armed? ==> s.m.passNow < s.h.trans.deadline)
    && (PollSnapshot(s.pc) ==> s.y.log != [] && s.y.log[|s.y.log| - 1] == Seen(s.pc.snap.sport, s.m.passNow))
    && (s.pc.PollConfirm? && s.h.trans.Armed? ==> s.pc.snap.sport == s.h.trans.stable)
  }

  ghost predicate AllVerdicts(log: seq<Event>)
  {
    forall k :: 0 <= k < |log| && log[k].ModeSucceeded? ==> Verdict(log, k)
  }

  lemma ModeCodesKnown(name: string)
    ensures ModeCode(name).Some? ==> Known(ModeCode(name).value)
  {
  }

  // ---------- log growth ----------

  lemma EvidenceGrows(log: seq<Event>, e: Event, t: Transition)
    requires t.Armed? && ArmedEvidence(log, t) && !e.SessionStart?
    ensures ArmedEvidence(log + [e], t)
  {
    var i: nat :| ArmedAt(log, i, t.promise, t.mode, t.deadline);
    assert ArmedAt(log + [e], i, t.promise, t.mode, t.deadline);
  }

  lemma EvidenceFresh(log: seq<Event>, t: Transition, at: int)
    requires t.Armed?
    ensures ArmedEvidence(log + [SetModeOk(t.promise, t.mode, at, t.deadline)], t)
  {
    var log' := log + [SetModeOk(t.promise, t.mode, at, t.deadline)];
    assert ArmedAt(log', |log|, t.promise, t.mode, t.deadline);
  }

  lemma VerdictsGrow(log: seq<Event>, e: Event)
    requires AllVerdicts(log) && !e.ModeSucceeded?
    ensures AllVerdicts(log + [e])
  {
    var log' := log + [e];
    forall k | 0 <= k < |log'| && log'[k].ModeSucceeded?
      ensures Verdict(log', k)
    {
      VerdictKept(log, e, k);
    }
  }

  lemma VerdictKept(log: seq<Event>, e: Event, k: nat)
    requires k < |log| && log[k].ModeSucceeded? && Verdict(log, k)
    ensures Verdict(log + [e], k)
  {
    var i: nat, j: nat :| Justified(log, k, log[k].promise, i, j);
    var log' := log + [e];
    forall n | i < n <= k
      ensures !log'[n].SessionStart?
    {
      assert log'[n] == log[n];
    }
    assert log'[i] == log[i] && log'[j] == log[j] && log'[k] == log[k];
    assert Justified(log', k, log'[k].promise, i, j);
  }

  lemma NewVerdict(log: seq<Event>, t: Transition, sport: nat, passNow: int)
    requires AllVerdicts(log) && t.Armed? && ArmedEvidence(log, t) && Known(t.mode)
    requires log != [] && log[|log| - 1] == Seen(sport, passNow)
    requires sport == StableStatus(t.mode) && passNow < t.deadline
    ensures AllVerdicts(log + [ModeSucceeded(t.promise)])
  {
    var e := ModeSucceeded(t.promise);
    var log' := log + [e];
    var i: nat :| ArmedAt(log, i, t.promise, t.mode, t.deadline);
    forall k | 0 <= k < |log'| && log'[k].ModeSucceeded?
      ensures Verdict(log', k)
    {
      if k < |log| {
        VerdictKept(log, e, k);
      } else {
        forall n | i < n <= k
          ensures !log'[n].SessionStart?
        {
          if n < k { assert log'[n] == log[n]; }
        }
        assert log'[i] == log[i] && log'[|log| - 1] == log[|log| - 1];
        assert Justified(log', k, t.promise, i, |log| - 1);
      }
    }
  }

  // ---------- preservation ----------

  ghost predicate Evident(s: State)
  {
    KnownModes(s) && Backed(s) && AllVerdicts(s.y.log)
  }

  lemma CallerEvident(cfg: Config, s: State, a: Action)
    requires Evident(s) && Enabled(s, a)
    ensures Evident(CallerStep(cfg, s, a))
  {
    var t := CallerStep(cfg, s, a);
    assert t.pc == s.pc && t.y == s.y && t.h.trans == s.h.trans && t.m.(time := 0) == s.m.(time := 0);
    if a.AskMode? { ModeCodesKnown(a.name); }
    CallerKnown(cfg, s, a);
  }

  lemma CallerKnown(cfg: Config, s: State, a: Action)
    requires KnownModes(s) && Enabled(s, a)
    ensures KnownModes(CallerStep(cfg, s, a))
  {
    match a
    case AskMode(_, name) => ModeCodesKnown(name);
    case EnqueueMode(_) =>
    case RequestAuthority(_) =>
    case MarkEstop =>
    case CheckMode =>
    case _ =>
  }

  lemma WorkerEvident(cfg: Config, s: State, ch: Choice)
    requires Evident(s) && (s.pc.Initializing? ==> s.h.trans.Idle?)
    ensures Evident(WorkerStep(cfg, s, ch))
  {
    match PhaseOf(s.pc)
    case SessionPhase => SessionEvident(s, ch);
    case EstopPhase => EstopEvident(s, ch);
    case CommandPhase => CommandEvident(cfg, s, ch);
    case TickPhase => TickEvident(cfg, s, ch);
    case PollPhase => PollEvident(s, ch);
    case EndPhase => EndEvident(s, ch);
  }

  lemma SessionEvident(s: State, ch: Choice)
    requires Evident(s) && (s.pc.Initializing? ==> s.h.trans.Idle?)
    ensures Evident(SessionStep(s, ch))
  {
    VerdictsGrow(s.y.log, SessionStart);
  }

  lemma EstopEvident(s: State, ch: Choice)
    requires Evident(s) && PhaseOf(s.pc) == EstopPhase
    ensures Evident(EstopStep(s, ch))
  {
  }

  lemma CommandEvident(cfg: Config, s: State, ch: Choice)
    requires Evident(s) && PhaseOf(s.pc) == CommandPhase
    ensures Evident(CommandStep(cfg, s, ch))
  {
    if s.pc.SetMode? { SetModeEvident(cfg, s, ch); }
  }

  lemma SetModeEvident(cfg: Config, s: State, ch: Choice)
    requires Evident(s) && s.pc.SetMode?
    ensures Evident(CommandStep(cfg, s, ch))
  {
    var cmd, deadline := s.pc.cmd, s.m.time + cfg.modeTimeout;
    EvidenceFresh(s.y.log, Armed(cmd.promise, cmd.mode, StableStatus(cmd.mode), deadline), s.m.time);
    VerdictsGrow(s.y.log, SetModeOk(cmd.promise, cmd.mode, s.m.time, deadline));
  }

  lemma TickEvident(cfg: Config, s: State, ch: Choice)
    requires Evident(s) && PhaseOf(s.pc) == TickPhase
    ensures Evident(TickStep(cfg, s, ch))
  {
  }

  lemma PollEvident(s: State, ch: Choice)
    requires Evident(s) && PhaseOf(s.pc) == PollPhase
    ensures Evident(PollStep(s, ch))
  {
    match s.pc
    case Poll =>
      var e := Seen(ch.snap.sport, s.m.passNow);
      if s.h.trans.Armed? { EvidenceGrows(s.y.log, e, s.h.trans); }
      VerdictsGrow(s.y.log, e);
    case PollConfirm(snap) =>
      if s.h.trans.Armed? { NewVerdict(s.y.log, s.h.trans, snap.sport, s.m.passNow); }
    case _ =>
  }

  lemma EndEvident(s: State, ch: Choice)
    requires Evident(s) && PhaseOf(s.pc) == EndPhase
    ensures Evident(EndStep(s, ch))
  {
  }

  // ---------- which future a success belongs to ----------

  predicate IsMode(l: Ledger, p: Promise) { p in l.kind && l.kind[p] == ModeRequest }

  function AuthorityQueued(queue: seq<Cmd>, p: Promise): (n: nat)
    ensures n <= Queued(queue, p)
  {
    if queue == [] then 0 else One(queue[0].Authority? && queue[0].promise == p) + AuthorityQueued(queue[1..], p)
  }

  lemma {:induction false} AuthorityQueuedSnoc(queue: seq<Cmd>, cmd: Cmd, p: Promise)
    ensures AuthorityQueued(queue + [cmd], p) == AuthorityQueued(queue, p) + One(cmd.Authority? && cmd.promise == p)
  {
    if queue == [] {
      assert queue + [cmd] == [cmd];
    } else {
      AuthorityQueuedSnoc(queue[1..], cmd, p);
      assert (queue + [cmd])[1..] == queue[1..] + [cmd];
    }
  }

  // The worker holds p as an emergency stop or an authority command.
  predicate OtherInHand(pc: Pc, p: Promise)
  {
    match pc
    case EstopAbort(q) => p == q
    case EstopDrain(q) => p == q
    case EstopUndo(q, _) => p == q
    case EstopLook(q) => p == q
    case EstopMove(q) => p == q
    case EstopDamp(q, _) => p == q
    case Execute(cmd) => cmd.Authority? && cmd.promise == p
    case _ => false
  }

  // A mode future never sits where another kind of request is answered, an
  // unissued one has no outcome, and a mode success is logged.
  ghost predicate Labelled(s: State, p: Promise)
  {
    && (IsMode(s.l, p) ==>
          AuthorityQueued(s.h.queue, p) == 0 && s.h.estopMark != Some(p) && !OtherInHand(s.pc, p))
    && (p !in s.l.kind ==> p !in s.l.outcome)
    && (IsMode(s.l, p) && p in s.l.outcome && s.l.outcome[p] == Success ==> ModeSucceeded(p) in s.y.log)
  }

  lemma FailTransitionLabelled(s: State, code: Code, p: Promise)
    requires Conserved(s, p) && Labelled(s, p)
    ensures Labelled(FailTransition(s, code), p)
  {
  }

  lemma CallerLabelled(cfg: Config, s: State, a: Action, p: Promise)
    requires Sound(s) && Conserved(s, p) && Labelled(s, p) && Conserved(s, s.l.next) && Enabled(s, a) && !a.Worker?
    ensures Labelled(CallerStep(cfg, s, a), p)
  {
    match a
    case Advance(_) =>
    case Stop =>
    case Report(_, _) =>
    case SubmitVelocity(_) =>
    case ReleaseEstop =>
    case LatchEstop =>
    case MarkEstop => MarkLabelled(s, p);
    case RequestAuthority(sdk) => AuthorityLabelled(cfg, s, sdk, p);
    case CheckMode => CheckLabelled(s, p);
    case AskMode(q, name) => AskLabelled(s, q, name, p);
    case EnqueueMode(q) => EnqueueLabelled(cfg, s, q, p);
  }

  lemma MarkLabelled(s: State, p: Promise)
    requires Sound(s) && Conserved(s, p) && Labelled(s, p) && Conserved(s, s.l.next) && s.h.latching > 0
    ensures Labelled(EstopMarked(s), p)
  {
  }

  lemma AuthorityLabelled(cfg: Config, s: State, sdk: bool, p: Promise)
    requires Sound(s) && Conserved(s, p) && Labelled(s, p) && Conserved(s, s.l.next)
    ensures Labelled(AuthorityRequested(cfg, s, sdk), p)
  {
    AuthorityQueuedSnoc(s.h.queue, Authority(sdk, s.l.next), p);
  }

  lemma CheckLabelled(s: State, p: Promise)
    requires Sound(s) && Conserved(s, p) && Labelled(s, p) && Conserved(s, s.l.next)
    ensures Labelled(ModeChecked(s), p)
  {
  }

  lemma AskLabelled(s: State, q: Promise, name: string, p: Promise)
    requires Conserved(s, p) && Labelled(s, p) && q in s.h.checked
    ensures Labelled(ModeAsked(s, q, name), p)
  {
  }

  lemma EnqueueLabelled(cfg: Config, s: State, q: Promise, p: Promise)
    requires Conserved(s, p) && Labelled(s, p) && q in s.h.accepted
    ensures Labelled(ModeEnqueued(cfg, s, q), p)
  {
    AuthorityQueuedSnoc(s.h.queue, Mode(s.h.accepted[q], q), p);
  }

  lemma WorkerLabelled(cfg: Config, s: State, ch: Choice, p: Promise)
    requires Conserved(s, p) && Labelled(s, p)
    ensures Labelled(WorkerStep(cfg, s, ch), p)
  {
    match PhaseOf(s.pc)
    case SessionPhase => assert Labelled(SessionStep(s, ch), p);
    case EstopPhase => EstopLabelled(s, ch, p);
    case CommandPhase => CommandLabelled(cfg, s, ch, p);
    case TickPhase => TickLabelled(cfg, s, ch, p);
    case PollPhase => PollLabelled(s, ch, p);
    case EndPhase => EndLabelled(s, ch, p);
  }

  lemma EstopLabelled(s: State, ch: Choice, p: Promise)
    requires Conserved(s, p) && Labelled(s, p)
    ensures Labelled(EstopStep(s, ch), p)
  {
    match s.pc
    case TakeEstop => TakeEstopLabelled(s, ch, p);
    case EstopAbort(_) => FailTransitionLabelled(s, Failed, p);
    case EstopDrain(_) => EstopDrainLabelled(s, ch, p);
    case EstopUndo(_, _) => EstopUndoLabelled(s, ch, p);
    case _ => EstopActLabelled(s, ch, p);
  }

  lemma TakeEstopLabelled(s: State, ch: Choice, p: Promise)
    requires Conserved(s, p) && Labelled(s, p) && s.pc.TakeEstop?
    ensures Labelled(EstopStep(s, ch), p)
  {
  }

  lemma EstopActLabelled(s: State, ch: Choice, p: Promise)
    requires Conserved(s, p) && Labelled(s, p)
    requires !s.pc.TakeEstop? && !s.pc.EstopAbort? && !s.pc.EstopDrain? && !s.pc.EstopUndo?
    ensures Labelled(EstopStep(s, ch), p)
  {
  }

  lemma EstopDrainLabelled(s: State, ch: Choice, p: Promise)
    requires Conserved(s, p) && Labelled(s, p) && s.pc.EstopDrain?
    ensures Labelled(EstopStep(s, ch), p)
  {
  }

  lemma EstopUndoLabelled(s: State, ch: Choice, p: Promise)
    requires Conserved(s, p) && Labelled(s, p) && s.pc.EstopUndo?
    ensures Labelled(EstopStep(s, ch), p)
  {
  }

  lemma CommandLabelled(cfg: Config, s: State, ch: Choice, p: Promise)
    requires Conserved(s, p) && Labelled(s, p) && PhaseOf(s.pc) == CommandPhase
    ensures Labelled(CommandStep(cfg, s, ch), p)
  {
    match s.pc
    case OrphanCheck =>
    case OrphanAbort => FailTransitionLabelled(s, Failed, p);
    case PopCommand =>
    case Execute(_) => ExecuteLabelled(cfg, s, ch, p);
    case SetMode(_) =>
    case Undo(_) =>
  }

  lemma ExecuteLabelled(cfg: Config, s: State, ch: Choice, p: Promise)
    requires Conserved(s, p) && Labelled(s, p) && s.pc.Execute?
    ensures Labelled(CommandStep(cfg, s, ch), p)
  {
    if s.pc.cmd.Mode? { ExecuteModeLabelled(cfg, s, ch, p); }
  }

  lemma ExecuteModeLabelled(cfg: Config, s: State, ch: Choice, p: Promise)
    requires Conserved(s, p) && Labelled(s, p) && s.pc.Execute? && s.pc.cmd.Mode?
    ensures Labelled(CommandStep(cfg, s, ch), p)
  {
    FailTransitionLabelled(s, Failed, p);
  }

  lemma TickLabelled(cfg: Config, s: State, ch: Choice, p: Promise)
    requires Conserved(s, p) && Labelled(s, p)
    ensures Labelled(TickStep(cfg, s, ch), p)
  {
    if s.pc.Deadline? { DeadlineLabelled(cfg, s, ch, p); }
  }

  lemma DeadlineLabelled(cfg: Config, s: State, ch: Choice, p: Promise)
    requires Conserved(s, p) && Labelled(s, p) && s.pc.Deadline?
    ensures Labelled(TickStep(cfg, s, ch), p)
  {
    FailTransitionLabelled(s, TimedOut, p);
  }

  lemma PollLabelled(s: State, ch: Choice, p: Promise)
    requires Conserved(s, p) && Labelled(s, p) && PhaseOf(s.pc) == PollPhase
    ensures Labelled(PollStep(s, ch), p)
  {
    match s.pc
    case Poll =>
    case PollApply(_) =>
    case PollOrphan(_) =>
    case PollOrphanAbort(_) => FailTransitionLabelled(s, Failed, p);
    case PollArm(_) =>
    case PollCheck(_) => PollCheckLabelled(s, ch, p);
    case PollConfirm(_) => PollConfirmLabelled(s, ch, p);
  }

  lemma PollCheckLabelled(s: State, ch: Choice, p: Promise)
    requires Conserved(s, p) && Labelled(s, p) && s.pc.PollCheck?
    ensures Labelled(PollStep(s, ch), p)
  {
    FailTransitionLabelled(s, Failed, p);
    FailTransitionLabelled(s, TimedOut, p);
  }

  lemma PollConfirmLabelled(s: State, ch: Choice, p: Promise)
    requires Conserved(s, p) && Labelled(s, p) && s.pc.PollConfirm?
    ensures Labelled(PollStep(s, ch), p)
  {
  }

  lemma EndLabelled(s: State, ch: Choice, p: Promise)
    requires Conserved(s, p) && Labelled(s, p)
    ensures Labelled(EndStep(s, ch), p)
  {
    match s.pc
    case EndSession => EndSessionLabelled(s, ch, p);
    case Draining =>
    case DrainUndo(_) => DrainUndoLabelled(s, ch, p);
    case _ =>
  }

  lemma EndSessionLabelled(s: State, ch: Choice, p: Promise)
    requires Conserved(s, p) && Labelled(s, p) && s.pc.EndSession?
    ensures Labelled(EndStep(s, ch), p)
  {
  }

  lemma DrainUndoLabelled(s: State, ch: Choice, p: Promise)
    requires Conserved(s, p) && Labelled(s, p) && s.pc.DrainUndo?
    ensures Labelled(EndStep(s, ch), p)
  {
  }

  // ---------- whole runs ----------

  lemma {:induction false} RunEvident(cfg: Config, time: int, actions: seq<Action>)
    ensures Evident(Run(cfg, Start(time), actions))
  {
    if actions != [] {
      var before, a := actions[..|actions| - 1], actions[|actions| - 1];
      var s := Run(cfg, Start(time), before);
      RunEvident(cfg, time, before);
      RunAccounted(cfg, time, before);
      if Enabled(s, a) {
        if a.Worker? { WorkerEvident(cfg, s, a.choice); } else { CallerEvident(cfg, s, a); }
      }
    }
  }

  lemma {:induction false} RunLabelled(cfg: Config, time: int, actions: seq<Action>, p: Promise)
    ensures Labelled(Run(cfg, Start(time), actions), p)
  {
    if actions != [] {
      var before, a := actions[..|actions| - 1], actions[|actions| - 1];
      var s := Run(cfg, Start(time), before);
      RunLabelled(cfg, time, before, p);
      RunAccounted(cfg, time, before);
      assert Conserved(s, p) && Conserved(s, s.l.next);
      if Enabled(s, a) {
        if a.Worker? { WorkerLabelled(cfg, s, a.choice, p); } else { CallerLabelled(cfg, s, a, p); }
      }
    }
  }

  // MAIN RESULT. In every reachable state, a mode future that succeeded did so
  // after set_mode succeeded for it and a later snapshot of the same session
  // showed that mode's stable status in a pass begun before the deadline.
  lemma ModeVerdict(cfg: Config, time: int, actions: seq<Action>, p: Promise)
    requires var s := Run(cfg, Start(time), actions);
             IsMode(s.l, p) && p in s.l.outcome && s.l.outcome[p] == Success
    ensures var log := Run(cfg, Start(time), actions).y.log;
            exists i: nat, j: nat, k: nat :: k < |log| && log[k] == ModeSucceeded(p) && Justified(log, k, p, i, j)
  {
    RunEvident(cfg, time, actions);
    RunLabelled(cfg, time, actions, p);
    var log := Run(cfg, Start(time), actions).y.log;
    var k: nat :| k < |log| && log[k] == ModeSucceeded(p);
    assert Verdict(log, k);
    var i: nat, j: nat :| Justified(log, k, p, i, j);
  }

  // The poll-time timeout branch and the unmapped-mode branch never run.
  lemma DeadBranches(cfg: Config, time: int, actions: seq<Action>)
    ensures var s := Run(cfg, Start(time), actions);
            && !(s.pc.PollCheck? && s.h.trans.Armed? && s.m.passNow >= s.h.trans.deadline)
            && (s.pc.SetMode? ==> s.pc.cmd.Mode? && StableStatus(s.pc.cmd.mode) != 0)
            && !(s.pc.PollConfirm? && s.h.trans.Idle?)
  {
    RunEvident(cfg, time, actions);
    RunConfirming(cfg, time, actions);
  }

  lemma {:induction false} RunConfirming(cfg: Config, time: int, actions: seq<Action>)
    ensures var s := Run(cfg, Start(time), actions); s.pc.PollConfirm? ==> s.h.trans.Armed?
  {
    if actions != [] {
      var before, a := actions[..|actions| - 1], actions[|actions| - 1];
      var s := Run(cfg, Start(time), before);
      RunConfirming(cfg, time, before);
      if Enabled(s, a) {
        if a.Worker? {
          WorkerConfirming(cfg, s, a.choice);
        } else {
          assert CallerStep(cfg, s, a).pc == s.pc && CallerStep(cfg, s, a).h.trans == s.h.trans;
        }
      }
    }
  }

  lemma WorkerConfirming(cfg: Config, s: State, ch: Choice)
    ensures WorkerStep(cfg, s, ch).pc.PollConfirm? ==> WorkerStep(cfg, s, ch).h.trans.Armed?
  {
    match PhaseOf(s.pc)
    case SessionPhase =>
    case EstopPhase =>
    case CommandPhase =>
    case TickPhase =>
    case PollPhase =>
    case EndPhase =>
  }
}
