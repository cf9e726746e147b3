/**
 When an emergency-stop or authority future succeeds: exactly when the SDK calls
 made for it did.
 */
module RuntimeAnswers {
  import opened Options
  import opened ModeNames
  import opened RobotController
  import opened DriverRuntime
  import opened RuntimePromises
  import opened RuntimeResponse

  // What was done for p, in order.
  function DoneFor(deeds: seq<Deed>, p: Promise): seq<Deed>
  {
    if deeds == [] then []
    else
      var d := deeds[|deeds| - 1];
      DoneFor(deeds[..|deeds| - 1], p) + (if d.promise == p then [d] else [])
  }

  lemma DoneSnoc(deeds: seq<Deed>, d: Deed, p: Promise)
    ensures DoneFor(deeds + [d], p) == DoneFor(deeds, p) + (if d.promise == p then [d] else [])
  {
    assert (deeds + [d])[..|deeds|] == deeds;
  }

  predicate IsKind(l: Ledger, p: Promise, k: Kind) { p in l.kind && l.kind[p] == k }

  // ---------- emergency stops ----------

  // The worker holds p as the emergency stop it is processing.
  predicate Processing(pc: Pc, p: Promise)
  {
    (pc.EstopAbort? || pc.EstopDrain? || pc.EstopUndo? || pc.EstopLook? || pc.EstopMove? || pc.EstopDamp?) && pc.p == p
  }

  // The worker holds p as a command.
  predicate Handling(pc: Pc, p: Promise)
  {
    (pc.EstopUndo? || pc.Execute? || pc.SetMode? || pc.Undo? || pc.DrainUndo?) && pc.cmd.promise == p
  }

  // No place meant for commands holds p.
  ghost predicate NoCommand(s: State, p: Promise)
  {
    && Queued(s.h.queue, p) == 0 && !Handling(s.pc, p) && p !in s.h.checked && p !in s.h.accepted
    && (s.h.trans.Armed? ==> s.h.trans.promise != p)
  }

  // What was done for p while it is being processed.
  ghost predicate UnderWay(pc: Pc, done: seq<Deed>, p: Promise, session: nat)
  {
    if pc.EstopDamp? then done == [EstopTaken(p, session), ZeroSent(p, session, pc.moved)]
    else done == [EstopTaken(p, session)]
  }

  // What was done for p against its answer, before and after processing: never
  // taken, taken without link or authority, or both calls made.
  ghost predicate Settled(l: Ledger, done: seq<Deed>, p: Promise)
  {
    if p !in l.outcome then done == []
    else match |done|
      case 0 => l.outcome[p] == Failure(Failed) || l.outcome[p] == Failure(NotInit)
      case 1 => done[0].EstopTaken? && l.outcome[p] == Failure(WithoutAuth)
      case 3 =>
        && done[0].EstopTaken? && done[1].ZeroSent? && done[2].DampingSent?
        && done[0].session == done[1].session == done[2].session
        && l.outcome[p] == (if done[1].ok && done[2].ok then Success else Failure(Failed))
      case _ => false
  }

  ghost predicate AnswerWith(s: State, p: Promise, done: seq<Deed>)
  {
    && NoCommand(s, p)
    && (if Processing(s.pc, p) then UnderWay(s.pc, done, p, s.y.sessions) else Settled(s.l, done, p))
  }

  ghost predicate EstopAnswer(s: State, p: Promise)
  {
    && (p !in s.l.kind ==> DoneFor(s.y.deeds, p) == [])
    && (IsKind(s.l, p, EstopRequest) ==> AnswerWith(s, p, DoneFor(s.y.deeds, p)))
  }

  // The law that ties answers to outcomes, and the conservation law.
  ghost predicate Known(s: State, p: Promise)
  {
    Conserved(s, p) && (p in s.l.outcome <==> s.l.answered[p] > 0)
  }

  lemma CallerEstop(cfg: Config, s: State, a: Action, p: Promise)
    requires Sound(s) && Known(s, p) && EstopAnswer(s, p) && Enabled(s, a) && !a.Worker?
    ensures EstopAnswer(CallerStep(cfg, s, a), p)
  {
    match a
    case Advance(_) =>
    case Stop =>
    case Report(_, _) =>
    case SubmitVelocity(_) =>
    case ReleaseEstop =>
    case LatchEstop =>
    case MarkEstop => MarkEstopAnswer(s, p);
    case RequestAuthority(sdk) => AuthorityEstop(cfg, s, sdk, p);
    case CheckMode => CheckEstop(s, p);
    case AskMode(q, name) => AskEstop(s, q, name, p);
    case EnqueueMode(q) => EnqueueEstop(cfg, s, q, p);
  }

  lemma MarkEstopAnswer(s: State, p: Promise)
    requires Sound(s) && Known(s, p) && EstopAnswer(s, p) && s.h.latching > 0
    ensures EstopAnswer(EstopMarked(s), p)
  {
    assert EstopMarked(s).y == s.y && EstopMarked(s).l.kind == s.l.kind[s.l.next := EstopRequest];
    if p == s.l.next {
      NextFree(s);
      NewMark(s);
    } else if IsKind(s.l, p, EstopRequest) {
      MarkAnswerWith(s, p, DoneFor(s.y.deeds, p));
    }
  }

  // The next promise is held nowhere and has no answer.
  ghost predicate Free(s: State)
  {
    var p := s.l.next;
    p !in s.l.kind && NoCommand(s, p) && s.h.estopMark != Some(p) && !Processing(s.pc, p) && p !in s.l.outcome
  }

  lemma NextFree(s: State)
    requires Sound(s) && Known(s, s.l.next)
    ensures Free(s)
  {
    assert Held(s, s.l.next) == 0;
  }

  lemma NewMark(s: State)
    requires Free(s) && s.h.latching > 0
    ensures AnswerWith(EstopMarked(s), s.l.next, [])
  {
  }

  lemma MarkAnswerWith(s: State, p: Promise, done: seq<Deed>)
    requires Known(s, p) && AnswerWith(s, p, done) && s.h.latching > 0 && p in s.l.kind && p != s.l.next
    ensures AnswerWith(EstopMarked(s), p, done)
  {
  }

  lemma AuthorityEstop(cfg: Config, s: State, sdk: bool, p: Promise)
    requires Sound(s) && Known(s, p) && EstopAnswer(s, p)
    ensures EstopAnswer(AuthorityRequested(cfg, s, sdk), p)
  {
    var t := AuthorityRequested(cfg, s, sdk);
    assert t.y == s.y && t.l.kind == s.l.kind[s.l.next := AuthorityRequest];
    if IsKind(s.l, p, EstopRequest) { AuthorityAnswerWith(cfg, s, sdk, p, DoneFor(s.y.deeds, p)); }
  }

  lemma AuthorityAnswerWith(cfg: Config, s: State, sdk: bool, p: Promise, done: seq<Deed>)
    requires AnswerWith(s, p, done) && p != s.l.next
    ensures AnswerWith(AuthorityRequested(cfg, s, sdk), p, done)
  {
    QueuedSnoc(s.h.queue, Authority(sdk, s.l.next), p);
  }

  lemma CheckEstop(s: State, p: Promise)
    requires Sound(s) && Known(s, p) && EstopAnswer(s, p)
    ensures EstopAnswer(ModeChecked(s), p)
  {
  }

  lemma AskEstop(s: State, q: Promise, name: string, p: Promise)
    requires Known(s, p) && EstopAnswer(s, p) && q in s.h.checked
    ensures EstopAnswer(ModeAsked(s, q, name), p)
  {
  }

  lemma EnqueueEstop(cfg: Config, s: State, q: Promise, p: Promise)
    requires Known(s, p) && EstopAnswer(s, p) && q in s.h.accepted
    ensures EstopAnswer(ModeEnqueued(cfg, s, q), p)
  {
    assert ModeEnqueued(cfg, s, q).y == s.y && ModeEnqueued(cfg, s, q).l.kind == s.l.kind;
    if IsKind(s.l, p, EstopRequest) { EnqueueAnswerWith(cfg, s, q, p, DoneFor(s.y.deeds, p)); }
  }

  lemma EnqueueAnswerWith(cfg: Config, s: State, q: Promise, p: Promise, done: seq<Deed>)
    requires AnswerWith(s, p, done) && q in s.h.accepted
    ensures AnswerWith(ModeEnqueued(cfg, s, q), p, done)
  {
    QueuedSnoc(s.h.queue, Mode(s.h.accepted[q], q), p);
  }

  // The deed of a worker step.
  function DeedOf(s: State, ch: Choice): Option<Deed>
  {
    match s.pc
    case TakeEstop => if s.h.estopMark.Some? then Some(EstopTaken(s.h.estopMark.value, s.y.sessions)) else None
    case EstopMove(p) => Some(ZeroSent(p, s.y.sessions, ch.ok))
    case EstopDamp(p, _) => Some(DampingSent(p, s.y.sessions, ch.ok))
    case Execute(cmd) =>
      if cmd.Authority? then Some(AuthorityCalled(cmd.promise, s.y.sessions, cmd.sdk, ch.ok)) else None
    case _ => None
  }

  function Extended(done: seq<Deed>, d: Option<Deed>, p: Promise): seq<Deed>
  {
    if d.Some? && d.value.promise == p then done + [d.value] else done
  }

  lemma WorkerDeed(cfg: Config, s: State, ch: Choice)
    ensures var d := DeedOf(s, ch);
            WorkerStep(cfg, s, ch).y.deeds == (if d.Some? then s.y.deeds + [d.value] else s.y.deeds)
    ensures WorkerStep(cfg, s, ch).l.kind == s.l.kind
  {
    match PhaseOf(s.pc)
    case SessionPhase =>
    case EstopPhase => EstopDeed(s, ch);
    case CommandPhase => CommandDeed(cfg, s, ch);
    case TickPhase => TickDeed(cfg, s, ch);
    case PollPhase => PollDeed(s, ch);
    case EndPhase => EndDeed(s, ch);
  }

  lemma EstopDeed(s: State, ch: Choice)
    requires PhaseOf(s.pc) == EstopPhase
    ensures var d := DeedOf(s, ch); var t := EstopStep(s, ch);
            t.l.kind == s.l.kind && t.y.deeds == (if d.Some? then s.y.deeds + [d.value] else s.y.deeds)
  {
  }

  lemma CommandDeed(cfg: Config, s: State, ch: Choice)
    requires PhaseOf(s.pc) == CommandPhase
    ensures var d := DeedOf(s, ch); var t := CommandStep(cfg, s, ch);
            t.l.kind == s.l.kind && t.y.deeds == (if d.Some? then s.y.deeds + [d.value] else s.y.deeds)
  {
  }

  lemma TickDeed(cfg: Config, s: State, ch: Choice)
    ensures TickStep(cfg, s, ch).y.deeds == s.y.deeds && TickStep(cfg, s, ch).l.kind == s.l.kind
  {
  }

  lemma PollDeed(s: State, ch: Choice)
    ensures PollStep(s, ch).y.deeds == s.y.deeds && PollStep(s, ch).l.kind == s.l.kind
  {
  }

  lemma EndDeed(s: State, ch: Choice)
    ensures EndStep(s, ch).y.deeds == s.y.deeds && EndStep(s, ch).l.kind == s.l.kind
  {
  }

  // The worker acts only for promises it holds.
  lemma DeedHeld(s: State, ch: Choice, p: Promise)
    requires Conserved(s, p) && DeedOf(s, ch).Some? && DeedOf(s, ch).value.promise == p
    ensures p in s.l.kind
  {
  }

  lemma WorkerDone(cfg: Config, s: State, ch: Choice, p: Promise)
    ensures DoneFor(WorkerStep(cfg, s, ch).y.deeds, p) == Extended(DoneFor(s.y.deeds, p), DeedOf(s, ch), p)
  {
    WorkerDeed(cfg, s, ch);
    if DeedOf(s, ch).Some? { DoneSnoc(s.y.deeds, DeedOf(s, ch).value, p); }
  }

  lemma WorkerEstop(cfg: Config, s: State, ch: Choice, p: Promise)
    requires Known(s, p) && EstopAnswer(s, p)
    ensures EstopAnswer(WorkerStep(cfg, s, ch), p)
  {
    WorkerDone(cfg, s, ch, p);
    WorkerDeed(cfg, s, ch);
    if p !in s.l.kind {
      if DeedOf(s, ch).Some? && DeedOf(s, ch).value.promise == p { DeedHeld(s, ch, p); }
    } else if IsKind(s.l, p, EstopRequest) {
      WorkerAnswer(cfg, s, ch, p, DoneFor(s.y.deeds, p));
    }
  }

  lemma WorkerAnswer(cfg: Config, s: State, ch: Choice, p: Promise, done: seq<Deed>)
    requires Known(s, p) && AnswerWith(s, p, done) && p in s.l.kind
    ensures AnswerWith(WorkerStep(cfg, s, ch), p, Extended(done, DeedOf(s, ch), p))
  {
    if PhaseOf(s.pc) == EstopPhase {
      EstopPhaseAnswer(s, ch, p, done);
    } else if s.pc.EndSession? {
      EndSessionAnswer(s, ch, p, done);
    } else {
      WorkerKeeps(cfg, s, ch, p);
    }
  }

  // ---------- steps that do not concern p ----------

  ghost predicate SameOutcome(l: Ledger, l': Ledger, p: Promise)
  {
    (p in l'.outcome <==> p in l.outcome) && (p in l.outcome ==> l'.outcome[p] == l.outcome[p])
  }

  ghost predicate Untouched(s: State, t: State, p: Promise)
  {
    SameOutcome(s.l, t.l, p) && NoCommand(t, p) && !Processing(t.pc, p)
  }

  // Outside its processing and the end of the session the worker leaves an
  // emergency-stop request alone.
  lemma WorkerKeeps(cfg: Config, s: State, ch: Choice, p: Promise)
    requires NoCommand(s, p) && PhaseOf(s.pc) != EstopPhase && !s.pc.EndSession?
    ensures Untouched(s, WorkerStep(cfg, s, ch), p)
  {
    match PhaseOf(s.pc)
    case SessionPhase => assert Untouched(s, SessionStep(s, ch), p);
    case CommandPhase => CommandKeeps(cfg, s, ch, p);
    case TickPhase => TickKeeps(cfg, s, ch, p);
    case PollPhase => PollKeeps(s, ch, p);
    case EndPhase => EndKeeps(s, ch, p);
  }

  lemma AnswerKeeps(l: Ledger, q: Promise, o: Outcome, p: Promise)
    requires q != p
    ensures SameOutcome(l, Answered(l, q, o), p)
  {
  }

  lemma FailKeeps(s: State, code: Code, p: Promise)
    requires NoCommand(s, p)
    ensures SameOutcome(s.l, FailTransition(s, code).l, p) && NoCommand(FailTransition(s, code), p)
  {
  }

  lemma CommandKeeps(cfg: Config, s: State, ch: Choice, p: Promise)
    requires NoCommand(s, p) && PhaseOf(s.pc) == CommandPhase
    ensures Untouched(s, CommandStep(cfg, s, ch), p)
  {
    match s.pc
    case OrphanCheck => assert CommandStep(cfg, s, ch).l == s.l;
    case OrphanAbort => FailKeeps(s, Failed, p);
    case PopCommand => PopKeeps(cfg, s, ch, p);
    case Execute(_) => ExecuteKeeps(cfg, s, ch, p);
    case SetMode(_) => SetModeKeeps(cfg, s, ch, p);
    case Undo(cmd) => AnswerKeeps(s.l, cmd.promise, Failure(Vendor), p);
  }

  lemma PopKeeps(cfg: Config, s: State, ch: Choice, p: Promise)
    requires NoCommand(s, p) && s.pc.PopCommand?
    ensures Untouched(s, CommandStep(cfg, s, ch), p)
  {
  }

  lemma ExecuteKeeps(cfg: Config, s: State, ch: Choice, p: Promise)
    requires NoCommand(s, p) && s.pc.Execute?
    ensures Untouched(s, CommandStep(cfg, s, ch), p)
  {
    var cmd := s.pc.cmd;
    if cmd.Authority? { AnswerKeeps(s.l, cmd.promise, if ch.ok then Success else Failure(Vendor), p); }
    else { FailKeeps(s, Failed, p); }
  }

  lemma SetModeKeeps(cfg: Config, s: State, ch: Choice, p: Promise)
    requires NoCommand(s, p) && s.pc.SetMode?
    ensures Untouched(s, CommandStep(cfg, s, ch), p)
  {
  }

  lemma TickKeeps(cfg: Config, s: State, ch: Choice, p: Promise)
    requires NoCommand(s, p) && PhaseOf(s.pc) == TickPhase
    ensures Untouched(s, TickStep(cfg, s, ch), p)
  {
    if s.pc.Deadline? { FailKeeps(s, TimedOut, p); } else { assert TickStep(cfg, s, ch).l == s.l; }
  }

  lemma PollKeeps(s: State, ch: Choice, p: Promise)
    requires NoCommand(s, p) && PhaseOf(s.pc) == PollPhase
    ensures Untouched(s, PollStep(s, ch), p)
  {
    if s.pc.PollOrphanAbort? { FailKeeps(s, Failed, p); }
    else if s.pc.PollCheck? { PollCheckKeeps(s, ch, p); }
    else if s.pc.PollConfirm? { PollConfirmKeeps(s, ch, p); }
    else { assert PollStep(s, ch).l == s.l; }
  }

  lemma PollCheckKeeps(s: State, ch: Choice, p: Promise)
    requires NoCommand(s, p) && s.pc.PollCheck?
    ensures Untouched(s, PollStep(s, ch), p)
  {
    FailKeeps(s, Failed, p);
    FailKeeps(s, TimedOut, p);
  }

  lemma PollConfirmKeeps(s: State, ch: Choice, p: Promise)
    requires NoCommand(s, p) && s.pc.PollConfirm?
    ensures Untouched(s, PollStep(s, ch), p)
  {
    if s.h.trans.Armed? { AnswerKeeps(s.l, s.h.trans.promise, Success, p); }
  }

  lemma EndKeeps(s: State, ch: Choice, p: Promise)
    requires NoCommand(s, p) && PhaseOf(s.pc) == EndPhase && !s.pc.EndSession?
    ensures Untouched(s, EndStep(s, ch), p)
  {
    if s.pc.DrainUndo? { AnswerKeeps(s.l, s.pc.cmd.promise, Failure(NotInit), p); }
    else { assert EndStep(s, ch).l == s.l; }
  }

  // ---------- steps that process p ----------

  lemma EstopPhaseAnswer(s: State, ch: Choice, p: Promise, done: seq<Deed>)
    requires Known(s, p) && AnswerWith(s, p, done) && PhaseOf(s.pc) == EstopPhase
    ensures AnswerWith(EstopStep(s, ch), p, Extended(done, DeedOf(s, ch), p))
  {
    match s.pc
    case TakeEstop => TakeAnswer(s, ch, p, done);
    case EstopAbort(_) => FailKeeps(s, Failed, p);
    case EstopDrain(_) => DrainAnswer(s, ch, p, done);
    case EstopUndo(_, cmd) => UndoAnswer(s, ch, p, done);
    case EstopLook(_) => LookAnswer(s, ch, p, done);
    case EstopMove(_) => MoveAnswer(s, ch, p, done);
    case EstopDamp(_, _) => DampAnswer(s, ch, p, done);
  }

  lemma TakeAnswer(s: State, ch: Choice, p: Promise, done: seq<Deed>)
    requires Known(s, p) && AnswerWith(s, p, done) && s.pc.TakeEstop?
    ensures AnswerWith(EstopStep(s, ch), p, Extended(done, DeedOf(s, ch), p))
  {
  }

  lemma DrainAnswer(s: State, ch: Choice, p: Promise, done: seq<Deed>)
    requires Known(s, p) && AnswerWith(s, p, done) && s.pc.EstopDrain?
    ensures AnswerWith(EstopStep(s, ch), p, Extended(done, DeedOf(s, ch), p))
  {
  }

  lemma UndoAnswer(s: State, ch: Choice, p: Promise, done: seq<Deed>)
    requires Known(s, p) && AnswerWith(s, p, done) && s.pc.EstopUndo?
    ensures AnswerWith(EstopStep(s, ch), p, Extended(done, DeedOf(s, ch), p))
  {
    AnswerKeeps(s.l, s.pc.cmd.promise, Failure(Failed), p);
  }

  lemma LookAnswer(s: State, ch: Choice, p: Promise, done: seq<Deed>)
    requires Known(s, p) && AnswerWith(s, p, done) && s.pc.EstopLook?
    ensures AnswerWith(EstopStep(s, ch), p, Extended(done, DeedOf(s, ch), p))
  {
    if s.pc.p != p { AnswerKeeps(s.l, s.pc.p, Failure(WithoutAuth), p); }
  }

  lemma MoveAnswer(s: State, ch: Choice, p: Promise, done: seq<Deed>)
    requires Known(s, p) && AnswerWith(s, p, done) && s.pc.EstopMove?
    ensures AnswerWith(EstopStep(s, ch), p, Extended(done, DeedOf(s, ch), p))
  {
  }

  lemma DampAnswer(s: State, ch: Choice, p: Promise, done: seq<Deed>)
    requires Known(s, p) && AnswerWith(s, p, done) && s.pc.EstopDamp?
    ensures AnswerWith(EstopStep(s, ch), p, Extended(done, DeedOf(s, ch), p))
  {
    if s.pc.p != p { AnswerKeeps(s.l, s.pc.p, if s.pc.moved && ch.ok then Success else Failure(Failed), p); }
  }

  lemma EndSessionAnswer(s: State, ch: Choice, p: Promise, done: seq<Deed>)
    requires Known(s, p) && AnswerWith(s, p, done) && s.pc.EndSession?
    ensures AnswerWith(EndStep(s, ch), p, done)
  {
  }

  lemma {:induction false} RunEstopAnswer(cfg: Config, time: int, actions: seq<Action>, p: Promise)
    ensures EstopAnswer(Run(cfg, Start(time), actions), p)
  {
    if actions != [] {
      var before, a := actions[..|actions| - 1], actions[|actions| - 1];
      var s := Run(cfg, Start(time), before);
      RunEstopAnswer(cfg, time, before, p);
      RunAccounted(cfg, time, before);
      RunCaught(cfg, time, before, p);
      assert Known(s, p);
      if Enabled(s, a) {
        if a.Worker? { WorkerEstop(cfg, s, a.choice, p); } else { CallerEstop(cfg, s, a, p); }
      }
    }
  }

  // MAIN RESULT. In every reachable state an engage future has succeeded if and
  // only if, after its mark was taken, the zero move and then the damping call
  // were made for it in one session and both succeeded.
  lemma EstopVerdict(cfg: Config, time: int, actions: seq<Action>, p: Promise)
    requires IsKind(Run(cfg, Start(time), actions).l, p, EstopRequest)
    ensures var s := Run(cfg, Start(time), actions);
            p in s.l.outcome && s.l.outcome[p] == Success <==>
            exists n: nat ::
              DoneFor(s.y.deeds, p) == [EstopTaken(p, n), ZeroSent(p, n, true), DampingSent(p, n, true)]
  {
    RunEstopAnswer(cfg, time, actions, p);
    RunAccounted(cfg, time, actions);
    RunCaught(cfg, time, actions, p);
    var s := Run(cfg, Start(time), actions);
    assert Known(s, p);
    SuccessMeans(s, p);
  }

  lemma SuccessMeans(s: State, p: Promise)
    requires Known(s, p) && EstopAnswer(s, p) && IsKind(s.l, p, EstopRequest)
    ensures p in s.l.outcome && s.l.outcome[p] == Success <==>
            exists n: nat ::
              DoneFor(s.y.deeds, p) == [EstopTaken(p, n), ZeroSent(p, n, true), DampingSent(p, n, true)]
  {
    var done := DoneFor(s.y.deeds, p);
    OwnDeeds(s.y.deeds, p);
    if p in s.l.outcome && s.l.outcome[p] == Success {
      assert !Processing(s.pc, p);
      var n := done[0].session;
      assert done == [EstopTaken(p, n), ZeroSent(p, n, true), DampingSent(p, n, true)];
    }
  }

  lemma {:induction false} OwnDeeds(deeds: seq<Deed>, p: Promise)
    ensures forall i :: 0 <= i < |DoneFor(deeds, p)| ==> DoneFor(deeds, p)[i].promise == p
  {
    if deeds != [] { OwnDeeds(deeds[..|deeds| - 1], p); }
  }
}
