/**
 Every future is answered exactly once: in every reachable state each issued
 promise is either answered once or held in exactly one place.
 */
module RuntimePromises {
  import opened Options
  import opened ModeNames
  import opened RobotController
  import opened DriverRuntime

  function One(b: bool): nat { if b then 1 else 0 }

  // Occurrences of a promise among queued commands.
  function Queued(queue: seq<Cmd>, p: Promise): nat
  {
    if queue == [] then 0 else One(queue[0].promise == p) + Queued(queue[1..], p)
  }

  // Occurrences in the worker's hands.
  function InHand(pc: Pc, p: Promise): nat
  {
    match pc
    case EstopAbort(q) => One(p == q)
    case EstopDrain(q) => One(p == q)
    case EstopUndo(q, cmd) => One(p == q) + One(p == cmd.promise)
    case EstopLook(q) => One(p == q)
    case EstopMove(q) => One(p == q)
    case EstopDamp(q, _) => One(p == q)
    case Execute(cmd) => One(p == cmd.promise)
    case SetMode(cmd) => One(p == cmd.promise)
    case Undo(cmd) => One(p == cmd.promise)
    case DrainUndo(cmd) => One(p == cmd.promise)
    case _ => 0
  }

  // All places that hold an unanswered promise.
  function Held(s: State, p: Promise): nat
  {
    Queued(s.h.queue, p) + One(s.h.estopMark == Some(p)) + One(s.h.trans.Armed? && s.h.trans.promise == p)
    + InHand(s.pc, p) + One(p in s.h.checked) + One(p in s.h.accepted)
  }

  // The conservation law for one promise.
  ghost predicate Conserved(s: State, p: Promise)
  {
    s.l.answered[p] + Held(s, p) == One(p in s.l.kind)
  }

  // Structure that the law relies on: fresh identities, and outside a session
  // the queue, the transition and the estop mark are empty.
  ghost predicate Sound(s: State)
  {
    && (forall p :: p in s.l.kind ==> p < s.l.next)
    && (s.f.connected <==> InSession(s.pc))
    && (!s.f.connected ==> s.h.estopMark == None && s.h.trans == Idle)
    && (!s.f.connected && !WakeHeld(s) ==> s.h.queue == [])
    && (s.pc.SetMode? ==> s.h.trans == Idle)
  }

  predicate InSession(pc: Pc)
  {
    match pc
    case Attempt | Initializing | Draining | DrainUndo(_) | ClearCaches | ClearStatus | ClearController | Exited =>
      false
    case _ => true
  }

  lemma {:induction false} QueuedSnoc(queue: seq<Cmd>, cmd: Cmd, p: Promise)
    ensures Queued(queue + [cmd], p) == Queued(queue, p) + One(cmd.promise == p)
  {
    if queue == [] {
      assert queue + [cmd] == [cmd];
    } else {
      QueuedSnoc(queue[1..], cmd, p);
      assert (queue + [cmd])[1..] == queue[1..] + [cmd];
    }
  }

  lemma WorkerConserves(cfg: Config, s: State, ch: Choice, p: Promise)
    requires Sound(s) && Conserved(s, p)
    ensures Conserved(WorkerStep(cfg, s, ch), p)
  {
    match PhaseOf(s.pc)
    case SessionPhase => SessionConserves(s, ch, p);
    case EstopPhase => EstopConserves(s, ch, p);
    case CommandPhase => CommandConserves(cfg, s, ch, p);
    case TickPhase => TickConserves(cfg, s, ch, p);
    case PollPhase => PollConserves(s, ch, p);
    case EndPhase => EndConserves(s, ch, p);
  }

  lemma SessionConserves(s: State, ch: Choice, p: Promise)
    requires Conserved(s, p)
    ensures Conserved(SessionStep(s, ch), p)
  {
  }

  lemma TickConserves(cfg: Config, s: State, ch: Choice, p: Promise)
    requires Conserved(s, p)
    ensures Conserved(TickStep(cfg, s, ch), p)
  {
  }

  lemma FailTransitionConserves(s: State, code: Code, p: Promise)
    requires Conserved(s, p)
    ensures Conserved(FailTransition(s, code), p) && FailTransition(s, code).h.trans.Idle?
  {
  }

  lemma EstopConserves(s: State, ch: Choice, p: Promise)
    requires Conserved(s, p)
    ensures Conserved(EstopStep(s, ch), p)
  {
    match s.pc
    case TakeEstop => TakeConserves(s, ch, p);
    case EstopAbort(_) => FailTransitionConserves(s, Failed, p);
    case EstopDrain(_) => DrainConserves(s, ch, p);
    case EstopUndo(_, _) => UndoConserves(s, ch, p);
    case EstopLook(_) => LookConserves(s, ch, p);
    case EstopDamp(_, _) => DampConserves(s, ch, p);
    case _ =>
  }

  lemma TakeConserves(s: State, ch: Choice, p: Promise)
    requires Conserved(s, p) && s.pc.TakeEstop?
    ensures Conserved(EstopStep(s, ch), p)
  {
  }

  lemma LookConserves(s: State, ch: Choice, p: Promise)
    requires Conserved(s, p) && s.pc.EstopLook?
    ensures Conserved(EstopStep(s, ch), p)
  {
  }

  lemma DampConserves(s: State, ch: Choice, p: Promise)
    requires Conserved(s, p) && s.pc.EstopDamp?
    ensures Conserved(EstopStep(s, ch), p)
  {
  }

  lemma DrainConserves(s: State, ch: Choice, p: Promise)
    requires Conserved(s, p) && s.pc.EstopDrain?
    ensures Conserved(EstopStep(s, ch), p)
  {
  }

  lemma UndoConserves(s: State, ch: Choice, p: Promise)
    requires Conserved(s, p) && s.pc.EstopUndo?
    ensures Conserved(EstopStep(s, ch), p)
  {
  }

  lemma CommandConserves(cfg: Config, s: State, ch: Choice, p: Promise)
    requires Sound(s) && Conserved(s, p) && PhaseOf(s.pc).CommandPhase?
    ensures Conserved(CommandStep(cfg, s, ch), p)
  {
    match s.pc
    case OrphanCheck =>
    case OrphanAbort => FailTransitionConserves(s, Failed, p);
    case PopCommand =>
    case Execute(_) => ExecuteConserves(cfg, s, ch, p);
    case SetMode(_) => SetModeConserves(cfg, s, ch, p);
    case Undo(_) =>
  }

  lemma ExecuteConserves(cfg: Config, s: State, ch: Choice, p: Promise)
    requires Conserved(s, p) && s.pc.Execute?
    ensures Conserved(CommandStep(cfg, s, ch), p)
  {
    if s.pc.cmd.Mode? { ModeConserves(cfg, s, ch, p); }
  }

  lemma ModeConserves(cfg: Config, s: State, ch: Choice, p: Promise)
    requires Conserved(s, p) && s.pc.Execute? && s.pc.cmd.Mode?
    ensures Conserved(CommandStep(cfg, s, ch), p)
  {
    FailTransitionConserves(s, Failed, p);
  }

  lemma SetModeConserves(cfg: Config, s: State, ch: Choice, p: Promise)
    requires Conserved(s, p) && s.pc.SetMode? && s.h.trans == Idle
    ensures Conserved(CommandStep(cfg, s, ch), p)
  {
  }

  lemma PollConserves(s: State, ch: Choice, p: Promise)
    requires Conserved(s, p)
    ensures Conserved(PollStep(s, ch), p)
  {
    if s.pc.PollOrphanAbort? || s.pc.PollCheck? || s.pc.PollConfirm? {
      SettleConserves(s, ch, p);
    }
  }

  lemma SettleConserves(s: State, ch: Choice, p: Promise)
    requires Conserved(s, p) && (s.pc.PollOrphanAbort? || s.pc.PollCheck? || s.pc.PollConfirm?)
    ensures Conserved(PollStep(s, ch), p)
  {
  }

  lemma EndConserves(s: State, ch: Choice, p: Promise)
    requires Conserved(s, p)
    ensures Conserved(EndStep(s, ch), p)
  {
    match s.pc
    case EndSession => EndSessionConserves(s, ch, p);
    case Draining =>
    case DrainUndo(_) => DrainUndoConserves(s, ch, p);
    case _ =>
  }

  lemma EndSessionConserves(s: State, ch: Choice, p: Promise)
    requires Conserved(s, p) && s.pc.EndSession?
    ensures Conserved(EndStep(s, ch), p)
  {
  }

  lemma DrainUndoConserves(s: State, ch: Choice, p: Promise)
    requires Conserved(s, p) && s.pc.DrainUndo?
    ensures Conserved(EndStep(s, ch), p)
  {
  }

  lemma CallerConserves(cfg: Config, s: State, a: Action, p: Promise)
    requires Sound(s) && Conserved(s, p) && Conserved(s, s.l.next) && !a.Worker? && Enabled(s, a)
    ensures Conserved(CallerStep(cfg, s, a), p)
  {
    match a
    case Advance(_) =>
    case Stop =>
    case Report(_, _) =>
    case SubmitVelocity(_) =>
    case ReleaseEstop =>
    case LatchEstop =>
    case MarkEstop => MarkConserves(s, p);
    case RequestAuthority(sdk) => AuthorityConserves(cfg, s, sdk, p);
    case CheckMode => CheckConserves(s, p);
    case AskMode(q, name) => AskConserves(s, q, name, p);
    case EnqueueMode(q) => EnqueueConserves(cfg, s, q, p);
  }

  lemma MarkConserves(s: State, p: Promise)
    requires Sound(s) && Conserved(s, p) && Conserved(s, s.l.next) && s.h.latching > 0
    ensures Conserved(EstopMarked(s), p)
  {
  }

  lemma AuthorityConserves(cfg: Config, s: State, sdk: bool, p: Promise)
    requires Sound(s) && Conserved(s, p) && Conserved(s, s.l.next)
    ensures Conserved(AuthorityRequested(cfg, s, sdk), p)
  {
    IssueConserves(s, AuthorityRequest, p);
    AuthorityHolds(cfg, s, sdk, p);
  }

  // The new promise is answered or queued, once.
  lemma AuthorityHolds(cfg: Config, s: State, sdk: bool, p: Promise)
    ensures var t := AuthorityRequested(cfg, s, sdk);
            && t.l.answered[p] + Held(t, p) == s.l.answered[p] + Held(s, p) + One(p == s.l.next)
            && t.l.kind == Issued(s.l, AuthorityRequest).kind
  {
    QueuedSnoc(s.h.queue, Authority(sdk, s.l.next), p);
  }

  // Issuing a promise adds exactly one obligation: the new promise's.
  lemma IssueConserves(s: State, kind: Kind, p: Promise)
    requires Sound(s) && Conserved(s, p)
    ensures s.l.answered[p] + Held(s, p) + One(p == s.l.next) == One(p in Issued(s.l, kind).kind)
  {
  }

  lemma CheckConserves(s: State, p: Promise)
    requires Sound(s) && Conserved(s, p) && Conserved(s, s.l.next)
    ensures Conserved(ModeChecked(s), p)
  {
  }

  lemma AskConserves(s: State, q: Promise, name: string, p: Promise)
    requires Conserved(s, p) && q in s.h.checked
    ensures Conserved(ModeAsked(s, q, name), p)
  {
  }

  lemma EnqueueConserves(cfg: Config, s: State, q: Promise, p: Promise)
    requires Conserved(s, p) && q in s.h.accepted
    ensures Conserved(ModeEnqueued(cfg, s, q), p)
  {
    QueuedSnoc(s.h.queue, Mode(s.h.accepted[q], q), p);
  }

  lemma CallerSound(cfg: Config, s: State, a: Action)
    requires Sound(s) && Enabled(s, a)
    ensures Sound(CallerStep(cfg, s, a))
  {
    match a
    case Report(_, _) =>
    case MarkEstop =>
    case RequestAuthority(_) =>
    case EnqueueMode(_) =>
    case _ =>
  }

  lemma WorkerSound(cfg: Config, s: State, ch: Choice)
    requires Sound(s)
    ensures Sound(WorkerStep(cfg, s, ch))
  {
    match PhaseOf(s.pc)
    case SessionPhase => assert Sound(SessionStep(s, ch));
    case EstopPhase => EstopSound(s, ch);
    case CommandPhase => CommandSound(cfg, s, ch);
    case TickPhase => TickSound(cfg, s, ch);
    case PollPhase => PollSound(s, ch);
    case EndPhase => EndSound(s, ch);
  }

  lemma EstopSound(s: State, ch: Choice)
    requires Sound(s)
    ensures Sound(EstopStep(s, ch))
  {
  }

  lemma CommandSound(cfg: Config, s: State, ch: Choice)
    requires Sound(s)
    ensures Sound(CommandStep(cfg, s, ch))
  {
  }

  lemma TickSound(cfg: Config, s: State, ch: Choice)
    requires Sound(s)
    ensures Sound(TickStep(cfg, s, ch))
  {
  }

  lemma PollSound(s: State, ch: Choice)
    requires Sound(s)
    ensures Sound(PollStep(s, ch))
  {
  }

  lemma EndSound(s: State, ch: Choice)
    requires Sound(s)
    ensures Sound(EndStep(s, ch))
  {
  }

  ghost predicate Accounted(s: State)
  {
    Sound(s) && forall p :: Conserved(s, p)
  }

  lemma StepAccounted(cfg: Config, s: State, a: Action)
    requires Accounted(s)
    ensures Accounted(Step(cfg, s, a))
  {
    if Enabled(s, a) {
      if a.Worker? { WorkerSound(cfg, s, a.choice); } else { CallerSound(cfg, s, a); }
    }
    forall p
      ensures Conserved(Step(cfg, s, a), p)
    {
      assert Conserved(s, p) && Conserved(s, s.l.next);
      if Enabled(s, a) {
        if a.Worker? { WorkerConserves(cfg, s, a.choice, p); } else { CallerConserves(cfg, s, a, p); }
      }
    }
  }

  lemma {:induction false} RunAccounted(cfg: Config, time: int, actions: seq<Action>)
    ensures Accounted(Run(cfg, Start(time), actions))
  {
    if actions != [] {
      RunAccounted(cfg, time, actions[..|actions| - 1]);
      StepAccounted(cfg, Run(cfg, Start(time), actions[..|actions| - 1]), actions[|actions| - 1]);
    }
  }

  // MAIN RESULT. In every reachable state an issued promise is answered once
  // and held nowhere, or unanswered and held in exactly one place; an unissued
  // one is neither. Outside a session nothing is queued, armed or marked.
  lemma AnsweredExactlyOnce(cfg: Config, time: int, actions: seq<Action>, p: Promise)
    ensures var s := Run(cfg, Start(time), actions);
            && (p in s.l.kind ==>
                  (s.l.answered[p] == 1 && Held(s, p) == 0) || (s.l.answered[p] == 0 && Held(s, p) == 1))
            && (p !in s.l.kind ==> s.l.answered[p] == 0 && Held(s, p) == 0)
            && (!s.f.connected && !WakeHeld(s) ==> s.h.queue == [] && s.h.trans == Idle && s.h.estopMark == None)
  {
    RunAccounted(cfg, time, actions);
    assert Conserved(Run(cfg, Start(time), actions), p);
  }
}
