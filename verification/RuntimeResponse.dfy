/**
 How soon the worker reacts to a dropped link and to an emergency stop.
 */
module RuntimeResponse {
  import opened Options
  import opened ModeNames
  import opened RobotController
  import opened DriverRuntime
  import opened RuntimePromises

  // ---------- a dropped link ----------

  // Commands the worker may still execute once a drop is latched: one when the
  // pass is already beyond the re-check, none otherwise.
  predicate PastRecheck(pc: Pc)
  {
    PhaseOf(pc) == EstopPhase || pc.OrphanCheck? || pc.OrphanAbort? || pc.PopCommand?
  }

  function DropBudget(s: State): nat { One(PastRecheck(s.pc)) }

  // A latched drop, or no session at all.
  ghost predicate Ending(s: State) { s.f.dropped || !InSession(s.pc) }

  ghost predicate DropStep(s: State, t: State)
  {
    && t.y.sessions >= s.y.sessions
    && (t.y.sessions == s.y.sessions ==>
          Ending(t) && t.y.executed + DropBudget(t) <= s.y.executed + DropBudget(s))
  }

  lemma CallerDrop(cfg: Config, s: State, a: Action)
    requires Sound(s) && Ending(s) && Enabled(s, a)
    ensures DropStep(s, CallerStep(cfg, s, a))
  {
    assert CallerStep(cfg, s, a).pc == s.pc && CallerStep(cfg, s, a).y == s.y;
  }

  lemma WorkerDrop(cfg: Config, s: State, ch: Choice)
    requires Sound(s) && Ending(s)
    ensures DropStep(s, WorkerStep(cfg, s, ch))
  {
    match PhaseOf(s.pc)
    case SessionPhase => SessionDrop(s, ch);
    case EstopPhase => EstopDrop(s, ch);
    case CommandPhase => CommandDrop(cfg, s, ch);
    case TickPhase => TickDrop(cfg, s, ch);
    case PollPhase => PollDrop(s, ch);
    case EndPhase => EndDrop(s, ch);
  }

  lemma SessionDrop(s: State, ch: Choice)
    requires Ending(s) && PhaseOf(s.pc) == SessionPhase
    ensures DropStep(s, SessionStep(s, ch))
  {
  }

  lemma EstopDrop(s: State, ch: Choice)
    requires Ending(s) && PhaseOf(s.pc) == EstopPhase
    ensures DropStep(s, EstopStep(s, ch))
  {
  }

  lemma CommandDrop(cfg: Config, s: State, ch: Choice)
    requires Ending(s) && PhaseOf(s.pc) == CommandPhase
    ensures DropStep(s, CommandStep(cfg, s, ch))
  {
  }

  lemma TickDrop(cfg: Config, s: State, ch: Choice)
    requires Ending(s) && PhaseOf(s.pc) == TickPhase
    ensures DropStep(s, TickStep(cfg, s, ch))
  {
  }

  lemma PollDrop(s: State, ch: Choice)
    requires Ending(s) && PhaseOf(s.pc) == PollPhase
    ensures DropStep(s, PollStep(s, ch))
  {
  }

  lemma EndDrop(s: State, ch: Choice)
    requires Ending(s) && PhaseOf(s.pc) == EndPhase
    ensures DropStep(s, EndStep(s, ch))
  {
    assert EndStep(s, ch).y == s.y && EndStep(s, ch).f.dropped == s.f.dropped;
  }

  lemma {:induction false} DropBound(cfg: Config, s: State, actions: seq<Action>)
    requires Sound(s) && Ending(s)
    ensures Sound(Run(cfg, s, actions)) && DropStep(s, Run(cfg, s, actions))
  {
    if actions != [] {
      var n := |actions| - 1;
      var t, a := Run(cfg, s, actions[..n]), actions[n];
      DropBound(cfg, s, actions[..n]);
      if Enabled(t, a) {
        if a.Worker? {
          WorkerSound(cfg, t, a.choice);
          if Ending(t) { WorkerDrop(cfg, t, a.choice); } else { SessionsGrow(cfg, t, a.choice); }
        } else {
          CallerSound(cfg, t, a);
          assert CallerStep(cfg, t, a).y == t.y;
          if Ending(t) { CallerDrop(cfg, t, a); }
        }
      }
    }
  }

  // The worker never enqueues.
  lemma WorkerPops(cfg: Config, s: State, ch: Choice)
    ensures WorkerStep(cfg, s, ch).h.queue == s.h.queue ||
            (s.h.queue != [] && WorkerStep(cfg, s, ch).h.queue == s.h.queue[1..])
  {
    match PhaseOf(s.pc)
    case SessionPhase =>
    case EstopPhase =>
    case CommandPhase =>
    case TickPhase =>
    case PollPhase =>
    case EndPhase =>
  }

  lemma CallerKeepsQueue(cfg: Config, s: State, a: Action)
    requires Sound(s) && Ending(s) && Enabled(s, a)
    ensures CallerStep(cfg, s, a).h.queue == s.h.queue
  {
  }

  // What is left of a queue from which items were only taken.
  ghost predicate IsTail(rest: seq<Cmd>, queue: seq<Cmd>)
  {
    |rest| <= |queue| && rest == queue[|queue| - |rest|..]
  }

  lemma TailOfTail(a: seq<Cmd>, b: seq<Cmd>, c: seq<Cmd>)
    requires IsTail(a, b) && IsTail(b, c)
    ensures IsTail(a, c)
  {
    assert c[|c| - |b|..][|b| - |a|..] == c[|c| - |a|..];
  }

  lemma OnlyPops(queue: seq<Cmd>)
    ensures IsTail(queue, queue) && (queue != [] ==> IsTail(queue[1..], queue))
  {
  }

  lemma {:induction false} DropQueue(cfg: Config, s: State, actions: seq<Action>)
    requires Sound(s) && Ending(s) && Run(cfg, s, actions).y.sessions == s.y.sessions
    ensures IsTail(Run(cfg, s, actions).h.queue, s.h.queue)
  {
    if actions == [] {
      OnlyPops(s.h.queue);
    } else {
      var n := |actions| - 1;
      var t, a := Run(cfg, s, actions[..n]), actions[n];
      DropBound(cfg, s, actions[..n]);
      SessionsKept(cfg, t, a);
      DropQueue(cfg, s, actions[..n]);
      OnlyPops(t.h.queue);
      if Enabled(t, a) {
        if a.Worker? { WorkerPops(cfg, t, a.choice); } else { CallerKeepsQueue(cfg, t, a); }
      }
      TailOfTail(Step(cfg, t, a).h.queue, t.h.queue, s.h.queue);
    }
  }

  lemma SessionsKept(cfg: Config, s: State, a: Action)
    ensures Step(cfg, s, a).y.sessions >= s.y.sessions
  {
    if Enabled(s, a) {
      if a.Worker? { SessionsGrow(cfg, s, a.choice); } else { assert CallerStep(cfg, s, a).y == s.y; }
    }
  }

  lemma SessionsGrow(cfg: Config, s: State, ch: Choice)
    ensures WorkerStep(cfg, s, ch).y.sessions >= s.y.sessions
  {
    match PhaseOf(s.pc)
    case SessionPhase =>
    case EstopPhase =>
    case CommandPhase =>
    case TickPhase =>
    case PollPhase =>
    case EndPhase =>
  }

  // MAIN RESULT. From any reachable state with a latched drop, until the next
  // session starts, at most one more command is executed and none is enqueued.
  lemma DropResponse(cfg: Config, time: int, past: seq<Action>, future: seq<Action>)
    requires var s := Run(cfg, Start(time), past);
             s.f.dropped && Run(cfg, s, future).y.sessions == s.y.sessions
    ensures var s := Run(cfg, Start(time), past);
            var t := Run(cfg, s, future);
            t.y.executed <= s.y.executed + 1 && (!PastRecheck(s.pc) ==> t.y.executed == s.y.executed) &&
            IsTail(t.h.queue, s.h.queue)
  {
    RunAccounted(cfg, time, past);
    var s := Run(cfg, Start(time), past);
    DropBound(cfg, s, future);
    DropQueue(cfg, s, future);
    ExecutedGrows(cfg, s, future);
  }

  lemma {:induction false} ExecutedGrows(cfg: Config, s: State, actions: seq<Action>)
    ensures Run(cfg, s, actions).y.executed >= s.y.executed
  {
    if actions != [] {
      var n := |actions| - 1;
      var t, a := Run(cfg, s, actions[..n]), actions[n];
      ExecutedGrows(cfg, s, actions[..n]);
      if Enabled(t, a) {
        if a.Worker? { WorkerExecutes(cfg, t, a.choice); } else { assert CallerStep(cfg, t, a).y == t.y; }
      }
    }
  }

  lemma WorkerExecutes(cfg: Config, s: State, ch: Choice)
    ensures WorkerStep(cfg, s, ch).y.executed >= s.y.executed
  {
    match PhaseOf(s.pc)
    case SessionPhase =>
    case EstopPhase =>
    case CommandPhase =>
    case TickPhase =>
    case PollPhase =>
    case EndPhase =>
  }

  // ---------- an emergency-stop mark ----------

  predicate PastTake(pc: Pc) { PastRecheck(pc) && !pc.TakeEstop? }

  function EstopBudget(s: State): nat { One(PastTake(s.pc)) }

  // While the mark stands, executions are paid from the budget.
  lemma EstopStepBound(cfg: Config, s: State, a: Action)
    requires s.h.estopMark.Some? && Step(cfg, s, a).h.estopMark.Some?
    ensures Step(cfg, s, a).y.executed + EstopBudget(Step(cfg, s, a)) <= s.y.executed + EstopBudget(s)
  {
    if Enabled(s, a) {
      if a.Worker? {
        MarkWorker(cfg, s, a.choice);
      } else {
        assert CallerStep(cfg, s, a).pc == s.pc && CallerStep(cfg, s, a).y == s.y;
      }
    }
  }

  lemma MarkWorker(cfg: Config, s: State, ch: Choice)
    requires s.h.estopMark.Some? && WorkerStep(cfg, s, ch).h.estopMark.Some?
    ensures WorkerStep(cfg, s, ch).y.executed + EstopBudget(WorkerStep(cfg, s, ch)) <= s.y.executed + EstopBudget(s)
  {
    match PhaseOf(s.pc)
    case SessionPhase =>
    case EstopPhase =>
    case CommandPhase =>
    case TickPhase =>
    case PollPhase =>
    case EndPhase =>
  }

  // The mark stands in every state of the run.
  ghost predicate MarkStands(cfg: Config, s: State, actions: seq<Action>)
  {
    forall n :: 0 <= n <= |actions| ==> Run(cfg, s, actions[..n]).h.estopMark.Some?
  }

  // MAIN RESULT. While an emergency-stop mark is waiting, at most one command
  // is executed before the worker takes it.
  lemma {:induction false} EstopResponse(cfg: Config, s: State, actions: seq<Action>)
    requires MarkStands(cfg, s, actions)
    ensures Run(cfg, s, actions).y.executed + EstopBudget(Run(cfg, s, actions)) <= s.y.executed + EstopBudget(s)
    ensures Run(cfg, s, actions).y.executed <= s.y.executed + 1
  {
    assert actions[..|actions|] == actions;
    if actions != [] {
      var n := |actions| - 1;
      forall k | 0 <= k <= n
        ensures Run(cfg, s, actions[..n][..k]).h.estopMark.Some?
      {
        assert actions[..n][..k] == actions[..k];
      }
      EstopResponse(cfg, s, actions[..n]);
      EstopStepBound(cfg, Run(cfg, s, actions[..n]), actions[n]);
    }
  }

  // ---------- commands caught by an emergency stop ----------

  ghost predicate FailedFor(l: Ledger, p: Promise) { p in l.outcome && l.outcome[p].Failure? }

  predicate DrainsEstop(pc: Pc) { pc.EstopAbort? || pc.EstopDrain? || pc.EstopUndo? }

  // The command just taken out of the queue by the emergency-stop drain.
  predicate CaughtInHand(pc: Pc, p: Promise) { pc.EstopUndo? && pc.cmd.promise == p }

  // Places a request passes through before it is executed.
  function Upcoming(s: State, p: Promise): nat
  {
    Queued(s.h.queue, p) + One(p in s.h.checked) + One(p in s.h.accepted) + One(CaughtInHand(s.pc, p))
  }

  // A started request has left those places for good; a request found queued
  // when a mark is taken is never started and is failed by the drain.
  ghost predicate Caught(s: State, p: Promise)
  {
    && (p in s.l.outcome <==> s.l.answered[p] > 0)
    && (p in s.y.started ==> p in s.l.kind && Upcoming(s, p) == 0)
    && (p in s.y.doomed ==> p in s.l.kind && p !in s.y.started && (FailedFor(s.l, p) || StillCaught(s, p)))
  }

  ghost predicate StillCaught(s: State, p: Promise)
  {
    DrainsEstop(s.pc) && (Queued(s.h.queue, p) > 0 || CaughtInHand(s.pc, p))
  }

  lemma {:induction false} QueuedIff(queue: seq<Cmd>, p: Promise)
    ensures Queued(queue, p) > 0 <==> p in Promises(queue)
  {
    if queue != [] {
      QueuedIff(queue[1..], p);
      if p in Promises(queue[1..]) {
        var i :| 0 <= i < |queue[1..]| && queue[1..][i].promise == p;
        assert queue[i + 1].promise == p;
      }
      if p in Promises(queue) {
        var i :| 0 <= i < |queue| && queue[i].promise == p;
        if i > 0 { assert queue[1..][i - 1].promise == p; }
      } else {
        assert queue[0].promise in Promises(queue);
      }
    }
  }

  lemma FailTransitionCaught(s: State, code: Code, p: Promise)
    requires Conserved(s, p) && Caught(s, p)
    ensures Caught(FailTransition(s, code), p)
  {
  }

  lemma CallerCaught(cfg: Config, s: State, a: Action, p: Promise)
    requires Sound(s) && Conserved(s, p) && Caught(s, p) && Conserved(s, s.l.next) && Enabled(s, a) && !a.Worker?
    ensures Caught(CallerStep(cfg, s, a), p)
  {
    match a
    case Advance(_) =>
    case Stop =>
    case Report(_, _) =>
    case SubmitVelocity(_) =>
    case ReleaseEstop =>
    case LatchEstop =>
    case MarkEstop => MarkCaught(s, p);
    case RequestAuthority(sdk) => AuthorityCaught(cfg, s, sdk, p);
    case CheckMode => CheckCaught(s, p);
    case AskMode(q, name) => AskCaught(s, q, name, p);
    case EnqueueMode(q) => EnqueueCaught(cfg, s, q, p);
  }

  lemma MarkCaught(s: State, p: Promise)
    requires Sound(s) && Conserved(s, p) && Caught(s, p) && Conserved(s, s.l.next) && s.h.latching > 0
    ensures Caught(EstopMarked(s), p)
  {
  }

  lemma AuthorityCaught(cfg: Config, s: State, sdk: bool, p: Promise)
    requires Sound(s) && Conserved(s, p) && Caught(s, p) && Conserved(s, s.l.next)
    ensures Caught(AuthorityRequested(cfg, s, sdk), p)
  {
    QueuedSnoc(s.h.queue, Authority(sdk, s.l.next), p);
  }

  lemma CheckCaught(s: State, p: Promise)
    requires Sound(s) && Conserved(s, p) && Caught(s, p) && Conserved(s, s.l.next)
    ensures Caught(ModeChecked(s), p)
  {
  }

  lemma AskCaught(s: State, q: Promise, name: string, p: Promise)
    requires Conserved(s, p) && Caught(s, p) && q in s.h.checked
    ensures Caught(ModeAsked(s, q, name), p)
  {
  }

  lemma EnqueueCaught(cfg: Config, s: State, q: Promise, p: Promise)
    requires Conserved(s, p) && Caught(s, p) && q in s.h.accepted
    ensures Caught(ModeEnqueued(cfg, s, q), p)
  {
    QueuedSnoc(s.h.queue, Mode(s.h.accepted[q], q), p);
  }

  lemma WorkerCaught(cfg: Config, s: State, ch: Choice, p: Promise)
    requires Conserved(s, p) && Caught(s, p)
    ensures Caught(WorkerStep(cfg, s, ch), p)
  {
    match PhaseOf(s.pc)
    case SessionPhase => assert Caught(SessionStep(s, ch), p);
    case EstopPhase => EstopCaught(s, ch, p);
    case CommandPhase => CommandCaught(cfg, s, ch, p);
    case TickPhase => TickCaught(cfg, s, ch, p);
    case PollPhase => PollCaught(s, ch, p);
    case EndPhase => EndCaught(s, ch, p);
  }

  lemma EstopCaught(s: State, ch: Choice, p: Promise)
    requires Conserved(s, p) && Caught(s, p) && PhaseOf(s.pc) == EstopPhase
    ensures Caught(EstopStep(s, ch), p)
  {
    match s.pc
    case TakeEstop => TakeEstopCaught(s, ch, p);
    case EstopAbort(_) => FailTransitionCaught(s, Failed, p);
    case EstopDrain(_) => EstopDrainCaught(s, ch, p);
    case EstopUndo(_, _) => EstopUndoCaught(s, ch, p);
    case _ => EstopActCaught(s, ch, p);
  }

  lemma TakeEstopCaught(s: State, ch: Choice, p: Promise)
    requires Conserved(s, p) && Caught(s, p) && s.pc.TakeEstop?
    ensures Caught(EstopStep(s, ch), p)
  {
    QueuedIff(s.h.queue, p);
  }

  lemma EstopActCaught(s: State, ch: Choice, p: Promise)
    requires Conserved(s, p) && Caught(s, p) && (s.pc.EstopLook? || s.pc.EstopMove? || s.pc.EstopDamp?)
    ensures Caught(EstopStep(s, ch), p)
  {
  }

  lemma EstopDrainCaught(s: State, ch: Choice, p: Promise)
    requires Conserved(s, p) && Caught(s, p) && s.pc.EstopDrain?
    ensures Caught(EstopStep(s, ch), p)
  {
  }

  lemma EstopUndoCaught(s: State, ch: Choice, p: Promise)
    requires Conserved(s, p) && Caught(s, p) && s.pc.EstopUndo?
    ensures Caught(EstopStep(s, ch), p)
  {
  }

  lemma CommandCaught(cfg: Config, s: State, ch: Choice, p: Promise)
    requires Conserved(s, p) && Caught(s, p) && PhaseOf(s.pc) == CommandPhase
    ensures Caught(CommandStep(cfg, s, ch), p)
  {
    match s.pc
    case OrphanCheck =>
    case OrphanAbort => FailTransitionCaught(s, Failed, p);
    case PopCommand => PopCaught(cfg, s, ch, p);
    case Execute(_) => ExecuteCaught(cfg, s, ch, p);
    case SetMode(_) => SetModeCaught(cfg, s, ch, p);
    case Undo(_) => UndoCaught(cfg, s, ch, p);
  }

  lemma SetModeCaught(cfg: Config, s: State, ch: Choice, p: Promise)
    requires Conserved(s, p) && Caught(s, p) && s.pc.SetMode?
    ensures Caught(CommandStep(cfg, s, ch), p)
  {
  }

  lemma UndoCaught(cfg: Config, s: State, ch: Choice, p: Promise)
    requires Conserved(s, p) && Caught(s, p) && s.pc.Undo?
    ensures Caught(CommandStep(cfg, s, ch), p)
  {
  }

  lemma PopCaught(cfg: Config, s: State, ch: Choice, p: Promise)
    requires Conserved(s, p) && Caught(s, p) && s.pc.PopCommand?
    ensures Caught(CommandStep(cfg, s, ch), p)
  {
  }

  lemma ExecuteCaught(cfg: Config, s: State, ch: Choice, p: Promise)
    requires Conserved(s, p) && Caught(s, p) && s.pc.Execute?
    ensures Caught(CommandStep(cfg, s, ch), p)
  {
    if s.pc.cmd.Mode? { ExecuteModeCaught(cfg, s, ch, p); }
  }

  lemma ExecuteModeCaught(cfg: Config, s: State, ch: Choice, p: Promise)
    requires Conserved(s, p) && Caught(s, p) && s.pc.Execute? && s.pc.cmd.Mode?
    ensures Caught(CommandStep(cfg, s, ch), p)
  {
    FailTransitionCaught(s, Failed, p);
  }

  lemma TickCaught(cfg: Config, s: State, ch: Choice, p: Promise)
    requires Conserved(s, p) && Caught(s, p) && PhaseOf(s.pc) == TickPhase
    ensures Caught(TickStep(cfg, s, ch), p)
  {
    FailTransitionCaught(s, TimedOut, p);
  }

  lemma PollCaught(s: State, ch: Choice, p: Promise)
    requires Conserved(s, p) && Caught(s, p) && PhaseOf(s.pc) == PollPhase
    ensures Caught(PollStep(s, ch), p)
  {
    match s.pc
    case PollOrphanAbort(_) => FailTransitionCaught(s, Failed, p);
    case PollCheck(_) => PollCheckCaught(s, ch, p);
    case PollConfirm(_) => PollConfirmCaught(s, ch, p);
    case _ =>
  }

  lemma PollConfirmCaught(s: State, ch: Choice, p: Promise)
    requires Conserved(s, p) && Caught(s, p) && s.pc.PollConfirm?
    ensures Caught(PollStep(s, ch), p)
  {
  }

  lemma PollCheckCaught(s: State, ch: Choice, p: Promise)
    requires Conserved(s, p) && Caught(s, p) && s.pc.PollCheck?
    ensures Caught(PollStep(s, ch), p)
  {
    FailTransitionCaught(s, Failed, p);
    FailTransitionCaught(s, TimedOut, p);
  }

  lemma EndCaught(s: State, ch: Choice, p: Promise)
    requires Conserved(s, p) && Caught(s, p) && PhaseOf(s.pc) == EndPhase
    ensures Caught(EndStep(s, ch), p)
  {
    match s.pc
    case EndSession => EndSessionCaught(s, ch, p);
    case Draining =>
    case DrainUndo(_) => DrainUndoCaught(s, ch, p);
    case _ =>
  }

  lemma EndSessionCaught(s: State, ch: Choice, p: Promise)
    requires Conserved(s, p) && Caught(s, p) && s.pc.EndSession?
    ensures Caught(EndStep(s, ch), p)
  {
  }

  lemma DrainUndoCaught(s: State, ch: Choice, p: Promise)
    requires Conserved(s, p) && Caught(s, p) && s.pc.DrainUndo?
    ensures Caught(EndStep(s, ch), p)
  {
  }

  lemma {:induction false} RunCaught(cfg: Config, time: int, actions: seq<Action>, p: Promise)
    ensures Caught(Run(cfg, Start(time), actions), p)
  {
    if actions != [] {
      var before, a := actions[..|actions| - 1], actions[|actions| - 1];
      var s := Run(cfg, Start(time), before);
      RunCaught(cfg, time, before, p);
      RunAccounted(cfg, time, before);
      assert Conserved(s, p) && Conserved(s, s.l.next);
      if Enabled(s, a) {
        if a.Worker? { WorkerCaught(cfg, s, a.choice, p); } else { CallerCaught(cfg, s, a, p); }
      }
    }
  }

  // MAIN RESULT. A command that was queued when the worker took an
  // emergency-stop mark is never executed, and once the drain is over it has
  // been answered with a failure.
  lemma CaughtNeverExecuted(cfg: Config, time: int, actions: seq<Action>, p: Promise)
    requires p in Run(cfg, Start(time), actions).y.doomed
    ensures var s := Run(cfg, Start(time), actions);
            p !in s.y.started && (!DrainsEstop(s.pc) ==> FailedFor(s.l, p) && s.l.answered[p] == 1)
  {
    RunCaught(cfg, time, actions, p);
    AnsweredExactlyOnce(cfg, time, actions, p);
  }

  // What `doomed` collects: exactly the requests queued when a mark is taken.
  lemma TakingDooms(cfg: Config, s: State, a: Action, p: Promise)
    ensures p in Step(cfg, s, a).y.doomed <==>
            p in s.y.doomed || (a.Worker? && s.pc.TakeEstop? && s.h.estopMark.Some? && Queued(s.h.queue, p) > 0)
  {
    QueuedIff(s.h.queue, p);
    if Enabled(s, a) && !a.Worker? { assert CallerStep(cfg, s, a).y == s.y; }
    if Enabled(s, a) && a.Worker? { DoomedOnlyByTake(cfg, s, a.choice); }
  }

  lemma DoomedOnlyByTake(cfg: Config, s: State, ch: Choice)
    ensures !s.pc.TakeEstop? ==> WorkerStep(cfg, s, ch).y.doomed == s.y.doomed
  {
    match PhaseOf(s.pc)
    case SessionPhase =>
    case EstopPhase =>
    case CommandPhase =>
    case TickPhase =>
    case PollPhase =>
    case EndPhase =>
  }

  // ---------- motion under the emergency-stop latch ----------

  // A nonzero tick target that was read and not yet sent.
  predicate SendingNonzero(pc: Pc) { pc.TickSend? && pc.target != ZERO }

  ghost predicate LatchedStep(s: State, t: State)
  {
    t.ctl.estop && t.y.nonzero + One(SendingNonzero(t.pc)) <= s.y.nonzero + One(SendingNonzero(s.pc))
  }

  lemma LatchedCaller(cfg: Config, s: State, a: Action)
    requires s.ctl.estop && Enabled(s, a) && !a.ReleaseEstop?
    ensures LatchedStep(s, CallerStep(cfg, s, a))
  {
    assert CallerStep(cfg, s, a).pc == s.pc && CallerStep(cfg, s, a).y == s.y;
    match a
    case Report(_, _) =>
    case AskMode(_, _) =>
    case EnqueueMode(_) =>
    case _ =>
  }

  lemma LatchedWorker(cfg: Config, s: State, ch: Choice)
    requires s.ctl.estop
    ensures LatchedStep(s, WorkerStep(cfg, s, ch))
  {
    match PhaseOf(s.pc)
    case SessionPhase =>
    case EstopPhase =>
    case CommandPhase =>
    case TickPhase => LatchedTick(cfg, s, ch);
    case PollPhase =>
    case EndPhase =>
  }

  lemma LatchedTick(cfg: Config, s: State, ch: Choice)
    requires s.ctl.estop && PhaseOf(s.pc) == TickPhase
    ensures LatchedStep(s, TickStep(cfg, s, ch))
  {
  }

  // MAIN RESULT. From any state with the latch set, until it is released at
  // most one more nonzero move is sent, and only if a tick had already read it.
  lemma {:induction false} LatchedMotion(cfg: Config, s: State, actions: seq<Action>)
    requires s.ctl.estop && forall n :: 0 <= n < |actions| ==> !actions[n].ReleaseEstop?
    ensures var t := Run(cfg, s, actions);
            t.ctl.estop && t.y.nonzero + One(SendingNonzero(t.pc)) <= s.y.nonzero + One(SendingNonzero(s.pc))
    ensures Run(cfg, s, actions).y.nonzero <= s.y.nonzero + 1
  {
    if actions != [] {
      var n := |actions| - 1;
      var t, a := Run(cfg, s, actions[..n]), actions[n];
      LatchedMotion(cfg, s, actions[..n]);
      if Enabled(t, a) {
        if a.Worker? { LatchedWorker(cfg, t, a.choice); } else { LatchedCaller(cfg, t, a); }
      }
    }
  }
}
