/**
 When an authority future succeeds: exactly when the SDK granted the authority it
 asked for.
 */
module RuntimeAuthority {
  import opened Options
  import opened ModeNames
  import opened RobotController
  import opened DriverRuntime
  import opened RuntimePromises
  import opened RuntimeResponse
  import opened RuntimeAnswers

  // Only the queue and the worker's hands hold p, and only as the authority
  // command it was issued for.
  ghost predicate OwnCommand(s: State, p: Promise, sdk: bool)
  {
    && s.h.estopMark != Some(p) && !Processing(s.pc, p) && p !in s.h.checked && p !in s.h.accepted
    && (s.h.trans.Armed? ==> s.h.trans.promise != p)
    && OwnQueued(s.h.queue, p, sdk) && (Handling(s.pc, p) ==> s.pc.cmd == Authority(sdk, p))
    && (s.pc.SetMode? || s.pc.Undo? ==> s.pc.cmd.promise != p)
  }

  ghost predicate OwnQueued(queue: seq<Cmd>, p: Promise, sdk: bool)
  {
    forall i :: 0 <= i < |queue| && queue[i].promise == p ==> queue[i] == Authority(sdk, p)
  }

  // What was done for p against its answer.
  ghost predicate Resolved(l: Ledger, done: seq<Deed>, p: Promise, sdk: bool)
  {
    if p !in l.outcome then done == []
    else if done == [] then l.outcome[p] == Failure(Failed) || l.outcome[p] == Failure(NotInit)
    else
      && |done| == 1 && done[0].AuthorityCalled? && done[0].sdk == sdk
      && l.outcome[p] == (if done[0].ok then Success else Failure(Vendor))
  }

  ghost predicate ResolvedWith(s: State, p: Promise, done: seq<Deed>)
  {
    p in s.l.wanted && OwnCommand(s, p, s.l.wanted[p]) && Resolved(s.l, done, p, s.l.wanted[p])
  }

  ghost predicate AuthorityAnswer(s: State, p: Promise)
  {
    && (p !in s.l.kind ==> DoneFor(s.y.deeds, p) == [])
    && (IsKind(s.l, p, AuthorityRequest) ==> ResolvedWith(s, p, DoneFor(s.y.deeds, p)))
  }

  // ---------- callers ----------

  lemma CallerAuthority(cfg: Config, s: State, a: Action, p: Promise)
    requires Sound(s) && Known(s, p) && AuthorityAnswer(s, p) && Enabled(s, a) && !a.Worker?
    ensures AuthorityAnswer(CallerStep(cfg, s, a), p)
  {
    match a
    case Advance(_) =>
    case Stop =>
    case Report(_, _) =>
    case SubmitVelocity(_) =>
    case ReleaseEstop =>
    case LatchEstop =>
    case MarkEstop => MarkAuthority(s, p);
    case RequestAuthority(sdk) => RequestedAuthority(cfg, s, sdk, p);
    case CheckMode => CheckAuthority(s, p);
    case AskMode(q, name) => AskAuthority(s, q, name, p);
    case EnqueueMode(q) => EnqueueAuthority(cfg, s, q, p);
  }

  lemma MarkAuthority(s: State, p: Promise)
    requires Sound(s) && Known(s, p) && AuthorityAnswer(s, p) && s.h.latching > 0
    ensures AuthorityAnswer(EstopMarked(s), p)
  {
    assert EstopMarked(s).y == s.y && EstopMarked(s).l.kind == s.l.kind[s.l.next := EstopRequest];
    if IsKind(s.l, p, AuthorityRequest) { MarkResolved(s, p, DoneFor(s.y.deeds, p)); }
  }

  lemma MarkResolved(s: State, p: Promise, done: seq<Deed>)
    requires ResolvedWith(s, p, done) && s.h.latching > 0 && p != s.l.next
    ensures ResolvedWith(EstopMarked(s), p, done)
  {
  }

  lemma RequestedAuthority(cfg: Config, s: State, sdk: bool, p: Promise)
    requires Sound(s) && Known(s, p) && AuthorityAnswer(s, p)
    ensures AuthorityAnswer(AuthorityRequested(cfg, s, sdk), p)
  {
    var t := AuthorityRequested(cfg, s, sdk);
    assert t.y == s.y && t.l.kind == s.l.kind[s.l.next := AuthorityRequest];
    if p == s.l.next {
      NextFree(s);
      NewAuthority(cfg, s, sdk);
    } else if IsKind(s.l, p, AuthorityRequest) {
      OtherAuthority(cfg, s, sdk, p, DoneFor(s.y.deeds, p));
    }
  }

  lemma NewAuthority(cfg: Config, s: State, sdk: bool)
    requires RuntimeAnswers.Free(s)
    ensures ResolvedWith(AuthorityRequested(cfg, s, sdk), s.l.next, [])
  {
    NotQueued(s.h.queue, s.l.next);
  }

  lemma NotQueued(queue: seq<Cmd>, p: Promise)
    requires Queued(queue, p) == 0
    ensures forall i :: 0 <= i < |queue| ==> queue[i].promise != p
  {
    QueuedIff(queue, p);
    forall i | 0 <= i < |queue|
      ensures queue[i].promise != p
    {
      assert queue[i].promise in Promises(queue);
    }
  }

  lemma OtherAuthority(cfg: Config, s: State, sdk: bool, p: Promise, done: seq<Deed>)
    requires ResolvedWith(s, p, done) && p != s.l.next
    ensures ResolvedWith(AuthorityRequested(cfg, s, sdk), p, done)
  {
  }

  lemma CheckAuthority(s: State, p: Promise)
    requires Sound(s) && Known(s, p) && AuthorityAnswer(s, p)
    ensures AuthorityAnswer(ModeChecked(s), p)
  {
  }

  lemma AskAuthority(s: State, q: Promise, name: string, p: Promise)
    requires Known(s, p) && AuthorityAnswer(s, p) && q in s.h.checked
    ensures AuthorityAnswer(ModeAsked(s, q, name), p)
  {
  }

  lemma EnqueueAuthority(cfg: Config, s: State, q: Promise, p: Promise)
    requires Known(s, p) && AuthorityAnswer(s, p) && q in s.h.accepted
    ensures AuthorityAnswer(ModeEnqueued(cfg, s, q), p)
  {
    assert ModeEnqueued(cfg, s, q).y == s.y && ModeEnqueued(cfg, s, q).l.kind == s.l.kind;
    if IsKind(s.l, p, AuthorityRequest) { EnqueueResolved(cfg, s, q, p, DoneFor(s.y.deeds, p)); }
  }

  lemma EnqueueResolved(cfg: Config, s: State, q: Promise, p: Promise, done: seq<Deed>)
    requires ResolvedWith(s, p, done) && q in s.h.accepted
    ensures ResolvedWith(ModeEnqueued(cfg, s, q), p, done)
  {
  }

  // ---------- the worker ----------

  lemma WorkerAuthority(cfg: Config, s: State, ch: Choice, p: Promise)
    requires Known(s, p) && AuthorityAnswer(s, p)
    ensures AuthorityAnswer(WorkerStep(cfg, s, ch), p)
  {
    WorkerDone(cfg, s, ch, p);
    WorkerDeed(cfg, s, ch);
    if p !in s.l.kind {
      if DeedOf(s, ch).Some? && DeedOf(s, ch).value.promise == p { DeedHeld(s, ch, p); }
    } else if IsKind(s.l, p, AuthorityRequest) {
      WorkerResolves(cfg, s, ch, p, DoneFor(s.y.deeds, p));
    }
  }

  lemma WorkerResolves(cfg: Config, s: State, ch: Choice, p: Promise, done: seq<Deed>)
    requires Known(s, p) && ResolvedWith(s, p, done)
    ensures ResolvedWith(WorkerStep(cfg, s, ch), p, Extended(done, DeedOf(s, ch), p))
  {
    match PhaseOf(s.pc)
    case SessionPhase => assert ResolvedWith(SessionStep(s, ch), p, done);
    case EstopPhase => EstopResolves(s, ch, p, done);
    case CommandPhase => CommandResolves(cfg, s, ch, p, done);
    case TickPhase => TickResolves(cfg, s, ch, p, done);
    case PollPhase => PollResolves(s, ch, p, done);
    case EndPhase => EndResolves(s, ch, p, done);
  }

  lemma FailResolves(s: State, code: Code, p: Promise, done: seq<Deed>)
    requires ResolvedWith(s, p, done)
    ensures ResolvedWith(FailTransition(s, code), p, done)
  {
  }

  lemma EstopResolves(s: State, ch: Choice, p: Promise, done: seq<Deed>)
    requires Known(s, p) && ResolvedWith(s, p, done) && PhaseOf(s.pc) == EstopPhase
    ensures ResolvedWith(EstopStep(s, ch), p, Extended(done, DeedOf(s, ch), p))
  {
    match s.pc
    case TakeEstop => TakeResolves(s, ch, p, done);
    case EstopAbort(_) => FailResolves(s, Failed, p, done);
    case EstopDrain(_) => DrainResolves(s, ch, p, done);
    case EstopUndo(_, _) => UndoResolves(s, ch, p, done);
    case EstopLook(_) => LookResolves(s, ch, p, done);
    case EstopMove(_) => assert EstopStep(s, ch).l == s.l && EstopStep(s, ch).h == s.h;
    case EstopDamp(_, _) => DampResolves(s, ch, p, done);
  }

  lemma LookResolves(s: State, ch: Choice, p: Promise, done: seq<Deed>)
    requires ResolvedWith(s, p, done) && s.pc.EstopLook?
    ensures ResolvedWith(EstopStep(s, ch), p, done)
  {
    AnswerKeeps(s.l, s.pc.p, Failure(WithoutAuth), p);
  }

  lemma DampResolves(s: State, ch: Choice, p: Promise, done: seq<Deed>)
    requires ResolvedWith(s, p, done) && s.pc.EstopDamp?
    ensures ResolvedWith(EstopStep(s, ch), p, done)
  {
    AnswerKeeps(s.l, s.pc.p, if s.pc.moved && ch.ok then Success else Failure(Failed), p);
  }

  lemma TakeResolves(s: State, ch: Choice, p: Promise, done: seq<Deed>)
    requires ResolvedWith(s, p, done) && s.pc.TakeEstop?
    ensures ResolvedWith(EstopStep(s, ch), p, Extended(done, DeedOf(s, ch), p))
  {
  }

  lemma DrainResolves(s: State, ch: Choice, p: Promise, done: seq<Deed>)
    requires ResolvedWith(s, p, done) && s.pc.EstopDrain?
    ensures ResolvedWith(EstopStep(s, ch), p, done)
  {
  }

  lemma UndoResolves(s: State, ch: Choice, p: Promise, done: seq<Deed>)
    requires Known(s, p) && ResolvedWith(s, p, done) && s.pc.EstopUndo?
    ensures ResolvedWith(EstopStep(s, ch), p, done)
  {
    if s.pc.cmd.promise != p { AnswerKeeps(s.l, s.pc.cmd.promise, Failure(Failed), p); }
  }

  lemma CommandResolves(cfg: Config, s: State, ch: Choice, p: Promise, done: seq<Deed>)
    requires Known(s, p) && ResolvedWith(s, p, done) && PhaseOf(s.pc) == CommandPhase
    ensures ResolvedWith(CommandStep(cfg, s, ch), p, Extended(done, DeedOf(s, ch), p))
  {
    match s.pc
    case OrphanCheck => assert CommandStep(cfg, s, ch).l == s.l;
    case OrphanAbort => FailResolves(s, Failed, p, done);
    case PopCommand => PopResolves(cfg, s, ch, p, done);
    case Execute(_) => ExecuteResolves(cfg, s, ch, p, done);
    case SetMode(_) => SetModeResolves(cfg, s, ch, p, done);
    case Undo(cmd) => AnswerKeeps(s.l, cmd.promise, Failure(Vendor), p);
  }

  lemma PopResolves(cfg: Config, s: State, ch: Choice, p: Promise, done: seq<Deed>)
    requires ResolvedWith(s, p, done) && s.pc.PopCommand?
    ensures ResolvedWith(CommandStep(cfg, s, ch), p, done)
  {
  }

  lemma ExecuteResolves(cfg: Config, s: State, ch: Choice, p: Promise, done: seq<Deed>)
    requires Known(s, p) && ResolvedWith(s, p, done) && s.pc.Execute?
    ensures ResolvedWith(CommandStep(cfg, s, ch), p, Extended(done, DeedOf(s, ch), p))
  {
    if s.pc.cmd.Mode? { ExecuteModeResolves(cfg, s, ch, p, done); } else { CallResolves(cfg, s, ch, p, done); }
  }

  lemma ExecuteModeResolves(cfg: Config, s: State, ch: Choice, p: Promise, done: seq<Deed>)
    requires ResolvedWith(s, p, done) && s.pc.Execute? && s.pc.cmd.Mode?
    ensures ResolvedWith(CommandStep(cfg, s, ch), p, done)
  {
    FailResolves(s, Failed, p, done);
  }

  lemma CallResolves(cfg: Config, s: State, ch: Choice, p: Promise, done: seq<Deed>)
    requires Known(s, p) && ResolvedWith(s, p, done) && s.pc.Execute? && s.pc.cmd.Authority?
    ensures ResolvedWith(CommandStep(cfg, s, ch), p, Extended(done, DeedOf(s, ch), p))
  {
    var q := s.pc.cmd.promise;
    if q != p { AnswerKeeps(s.l, q, if ch.ok then Success else Failure(Vendor), p); }
  }

  lemma SetModeResolves(cfg: Config, s: State, ch: Choice, p: Promise, done: seq<Deed>)
    requires ResolvedWith(s, p, done) && s.pc.SetMode?
    ensures ResolvedWith(CommandStep(cfg, s, ch), p, done)
  {
  }

  lemma TickResolves(cfg: Config, s: State, ch: Choice, p: Promise, done: seq<Deed>)
    requires ResolvedWith(s, p, done) && PhaseOf(s.pc) == TickPhase
    ensures ResolvedWith(TickStep(cfg, s, ch), p, done)
  {
    if s.pc.Deadline? { FailResolves(s, TimedOut, p, done); } else { assert TickStep(cfg, s, ch).l == s.l; }
  }

  lemma PollResolves(s: State, ch: Choice, p: Promise, done: seq<Deed>)
    requires ResolvedWith(s, p, done) && PhaseOf(s.pc) == PollPhase
    ensures ResolvedWith(PollStep(s, ch), p, done)
  {
    if s.pc.PollOrphanAbort? { FailResolves(s, Failed, p, done); }
    else if s.pc.PollCheck? { PollCheckResolves(s, ch, p, done); }
    else if s.pc.PollConfirm? { PollConfirmResolves(s, ch, p, done); }
    else { PollOtherResolves(s, ch, p, done); }
  }

  lemma PollCheckResolves(s: State, ch: Choice, p: Promise, done: seq<Deed>)
    requires ResolvedWith(s, p, done) && s.pc.PollCheck?
    ensures ResolvedWith(PollStep(s, ch), p, done)
  {
    FailResolves(s, Failed, p, done);
    FailResolves(s, TimedOut, p, done);
  }

  lemma PollConfirmResolves(s: State, ch: Choice, p: Promise, done: seq<Deed>)
    requires ResolvedWith(s, p, done) && s.pc.PollConfirm?
    ensures ResolvedWith(PollStep(s, ch), p, done)
  {
    if s.h.trans.Armed? { AnswerKeeps(s.l, s.h.trans.promise, Success, p); }
  }

  lemma PollOtherResolves(s: State, ch: Choice, p: Promise, done: seq<Deed>)
    requires ResolvedWith(s, p, done) && PhaseOf(s.pc) == PollPhase
    requires !s.pc.PollOrphanAbort? && !s.pc.PollCheck? && !s.pc.PollConfirm?
    ensures ResolvedWith(PollStep(s, ch), p, done)
  {
    assert PollStep(s, ch).l == s.l && PollStep(s, ch).h == s.h;
  }

  lemma EndResolves(s: State, ch: Choice, p: Promise, done: seq<Deed>)
    requires Known(s, p) && ResolvedWith(s, p, done) && PhaseOf(s.pc) == EndPhase
    ensures ResolvedWith(EndStep(s, ch), p, done)
  {
    if s.pc.EndSession? { EndSessionResolves(s, ch, p, done); }
    else if s.pc.Draining? { DrainingResolves(s, ch, p, done); }
    else if s.pc.DrainUndo? { DrainUndoResolves(s, ch, p, done); }
    else { assert EndStep(s, ch).l == s.l; }
  }

  lemma EndSessionResolves(s: State, ch: Choice, p: Promise, done: seq<Deed>)
    requires ResolvedWith(s, p, done) && s.pc.EndSession?
    ensures ResolvedWith(EndStep(s, ch), p, done)
  {
  }

  lemma DrainingResolves(s: State, ch: Choice, p: Promise, done: seq<Deed>)
    requires ResolvedWith(s, p, done) && s.pc.Draining?
    ensures ResolvedWith(EndStep(s, ch), p, done)
  {
  }

  lemma DrainUndoResolves(s: State, ch: Choice, p: Promise, done: seq<Deed>)
    requires Known(s, p) && ResolvedWith(s, p, done) && s.pc.DrainUndo?
    ensures ResolvedWith(EndStep(s, ch), p, done)
  {
    if s.pc.cmd.promise != p { AnswerKeeps(s.l, s.pc.cmd.promise, Failure(NotInit), p); }
  }

  // ---------- whole runs ----------

  lemma {:induction false} RunAuthorityAnswer(cfg: Config, time: int, actions: seq<Action>, p: Promise)
    ensures AuthorityAnswer(Run(cfg, Start(time), actions), p)
  {
    if actions != [] {
      var before, a := actions[..|actions| - 1], actions[|actions| - 1];
      var s := Run(cfg, Start(time), before);
      RunAuthorityAnswer(cfg, time, before, p);
      RunAccounted(cfg, time, before);
      RunCaught(cfg, time, before, p);
      assert Known(s, p);
      if Enabled(s, a) {
        if a.Worker? { WorkerAuthority(cfg, s, a.choice, p); } else { CallerAuthority(cfg, s, a, p); }
      }
    }
  }

  // MAIN RESULT. In every reachable state an authority future has succeeded if
  // and only if the one SDK call made for it asked for the authority it was
  // issued for and succeeded.
  lemma AuthorityVerdict(cfg: Config, time: int, actions: seq<Action>, p: Promise)
    requires IsKind(Run(cfg, Start(time), actions).l, p, AuthorityRequest)
    ensures var s := Run(cfg, Start(time), actions);
            && p in s.l.wanted
            && (p in s.l.outcome && s.l.outcome[p] == Success <==>
                exists n: nat :: DoneFor(s.y.deeds, p) == [AuthorityCalled(p, n, s.l.wanted[p], true)])
  {
    RunAuthorityAnswer(cfg, time, actions, p);
    ResolvedMeans(Run(cfg, Start(time), actions), p);
  }

  lemma ResolvedMeans(s: State, p: Promise)
    requires AuthorityAnswer(s, p) && IsKind(s.l, p, AuthorityRequest)
    ensures p in s.l.wanted
    ensures p in s.l.outcome && s.l.outcome[p] == Success <==>
            exists n: nat :: DoneFor(s.y.deeds, p) == [AuthorityCalled(p, n, s.l.wanted[p], true)]
  {
    var done := DoneFor(s.y.deeds, p);
    OwnDeeds(s.y.deeds, p);
    if p in s.l.outcome && s.l.outcome[p] == Success {
      assert done == [AuthorityCalled(p, done[0].session, s.l.wanted[p], true)];
    }
  }
}
