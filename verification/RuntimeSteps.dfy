/**
 When the runtime admits, refuses, arms, confirms and actuates, stated over the
 flags a reader can see.
 */
module RuntimeSteps {
  import opened Options
  import opened ModeNames
  import opened RobotController
  import opened DriverRuntime
  import opened RuntimeMotion
  import History = ControllerHistory

  // ---------- admission ----------

  // A session is up, linked, without a latched drop and not being stopped.
  predicate Live(s: State) { s.f.connected && s.f.linked && !s.f.dropped && !s.f.stop }

  predicate AnsweredWith(s: State, t: State, p: Promise, o: Outcome)
  {
    t.l.answered[p] == s.l.answered[p] + 1 && (p !in s.l.outcome ==> p in t.l.outcome && t.l.outcome[p] == o)
  }

  // An authority request is enqueued exactly in a live session with room, and
  // otherwise answered at once: not initialized, or failed when the queue is full.
  lemma AuthorityAdmission(cfg: Config, s: State, sdk: bool)
    requires !WakeHeld(s) && s.l.next !in s.l.outcome
    ensures var t := Step(cfg, s, RequestAuthority(sdk));
            if Live(s) && |s.h.queue| != cfg.capacity
            then t.h.queue == s.h.queue + [Authority(sdk, s.l.next)] && t.l.answered == s.l.answered
            else t.h == s.h && AnsweredWith(s, t, s.l.next, Failure(if Live(s) then Failed else NotInit))
  {
  }

  // A mode request passes the first gate exactly in a live session.
  lemma ModeCheckAdmission(cfg: Config, s: State)
    requires !WakeHeld(s) && s.l.next !in s.l.outcome
    ensures var t := Step(cfg, s, CheckMode);
            if Live(s) then t.h.checked == s.h.checked + {s.l.next} && t.l.answered == s.l.answered
            else t.h == s.h && AnsweredWith(s, t, s.l.next, Failure(NotInit))
  {
  }

  // An accepted mode request is enqueued exactly in a live session with room;
  // otherwise the controller's acceptance is undone.
  lemma ModeAdmission(cfg: Config, s: State, p: Promise)
    requires !WakeHeld(s) && p in s.h.accepted && p !in s.l.outcome
    ensures var t := Step(cfg, s, EnqueueMode(p));
            && p !in t.h.accepted
            && if Live(s) && |s.h.queue| != cfg.capacity
               then t.h.queue == s.h.queue + [Mode(s.h.accepted[p], p)] && t.ctl == s.ctl && t.l == s.l
               else t.h.queue == s.h.queue && !t.ctl.pending && t.ctl.gate && !t.ctl.hasVelocity &&
                    AnsweredWith(s, t, p, Failure(if Live(s) then Failed else NotInit))
  {
  }

  // The controller's refusal of a mode request, test by test, and its answer.
  lemma RefusalAnswer(cfg: Config, s: State, p: Promise, name: string)
    requires p in s.h.checked && p !in s.l.outcome && ModeCode(name).Some?
    ensures var t := Step(cfg, s, AskMode(p, name)); var c := s.ctl;
            if !c.ready then AnsweredWith(s, t, p, Failure(Failed)) && t.ctl == c
            else if c.pending then AnsweredWith(s, t, p, Failure(Running)) && t.ctl == c
            else if !c.status.linked then AnsweredWith(s, t, p, Failure(NotInit)) && t.ctl == c
            else if c.status.error != 0 then AnsweredWith(s, t, p, Failure(Failed)) && t.ctl == c
            else if !c.status.authority then AnsweredWith(s, t, p, Failure(WithoutAuth)) && t.ctl == c
            else if c.estop && ModeCode(name) != Some(0xA101) then AnsweredWith(s, t, p, Failure(Failed)) && t.ctl == c
            else p in t.h.accepted && Some(t.h.accepted[p]) == ModeCode(name) && t.ctl.pending && t.ctl.gate
  {
  }

  // ---------- the loop ----------

  // At the loop top and at the re-check a stop leads to the stop actuation, a
  // latched drop to the end of the session, and nothing else does either.
  lemma LoopTop(cfg: Config, s: State, ch: Choice)
    requires s.pc.Waiting? || s.pc.Recheck?
    ensures var t := Step(cfg, s, Worker(ch));
            && (t.pc == StopLook <==> s.f.stop)
            && (t.pc == EndSession <==> s.f.dropped && !s.f.stop)
  {
  }

  // The zero move and the damping call are made only with link, authority and
  // no latched drop, and then always.
  lemma ActuationAuthorized(cfg: Config, s: State, ch: Choice)
    requires s.pc.EstopLook? || s.pc.StopLook?
    ensures var t := Step(cfg, s, Worker(ch));
            t.pc.EstopMove? || t.pc.StopMove? <==> s.f.linked && s.f.authority && !s.f.dropped
  {
  }

  // The shutdown actuation: a zero move, the damping call, the end of the session.
  lemma StopEffect(cfg: Config, s: State, ch: Choice)
    requires s.pc.StopMove? || s.pc.StopDamp?
    ensures var t := Step(cfg, s, Worker(ch));
            if s.pc.StopDamp? then t.pc == EndSession
            else t.pc == StopDamp(ch.ok) && t.m.sdkVelocity == (if ch.ok then ZERO else s.m.sdkVelocity)
  {
  }

  // Failed heartbeats end the session; otherwise the pass goes on to the tick.
  lemma HeartbeatEffect(cfg: Config, s: State, ch: Choice)
    requires s.pc.Heartbeat?
    ensures var t := Step(cfg, s, Worker(ch));
            && t.(pc := s.pc) == s && (t.pc == EndSession <==> ch.pick == 0)
            && (t.pc != EndSession ==> t.pc == TickRead(s.pc.requested))
  {
  }

  // A transition the controller no longer waits for is failed before the next
  // command is taken.
  lemma OrphanSettled(cfg: Config, s: State, ch: Choice)
    requires s.pc.OrphanCheck? && s.h.trans.Armed? && !s.ctl.pending && s.h.trans.promise !in s.l.outcome
    ensures var t := Step(cfg, Step(cfg, s, Worker(ch)), Worker(ch));
            && t.pc == PopCommand && t.h.trans == Idle && t.h.queue == s.h.queue
            && AnsweredWith(s, t, s.h.trans.promise, Failure(Failed))
  {
    assert Step(cfg, s, Worker(ch)) == s.(pc := OrphanAbort);
  }

  // ... and also before a fresh snapshot can confirm it.
  lemma PollOrphanSettled(cfg: Config, s: State, ch: Choice)
    requires s.pc.PollOrphan? && s.h.trans.Armed? && !s.ctl.pending && s.h.trans.promise !in s.l.outcome
    ensures var t := Step(cfg, Step(cfg, s, Worker(ch)), Worker(ch));
            && t.pc == PollArm(s.pc.snap) && t.h.trans == Idle && !t.ctl.pending && t.ctl.gate
            && AnsweredWith(s, t, s.h.trans.promise, Failure(Failed))
  {
    assert Step(cfg, s, Worker(ch)) == s.(pc := PollOrphanAbort(s.pc.snap));
  }

  // Confirming needs an armed transition the controller still waits for and a
  // snapshot showing its stable status.
  lemma ConfirmNeedsPending(cfg: Config, s: State, a: Action)
    requires Step(cfg, s, a).pc.PollConfirm? && !s.pc.PollConfirm?
    ensures a.Worker? && s.pc.PollCheck? && s.h.trans.Armed? && s.ctl.pending && s.pc.snap.sport == s.h.trans.stable
  {
    CallerKeepsPc(cfg, s, a);
    if a.Worker? { ConfirmEntry(cfg, s, a.choice); }
  }

  lemma CallerKeepsPc(cfg: Config, s: State, a: Action)
    ensures !a.Worker? ==> Step(cfg, s, a).pc == s.pc
  {
  }

  lemma ConfirmEntry(cfg: Config, s: State, ch: Choice)
    requires WorkerStep(cfg, s, ch).pc.PollConfirm? && !s.pc.PollConfirm?
    ensures s.pc.PollCheck? && s.h.trans.Armed? && s.ctl.pending && s.pc.snap.sport == s.h.trans.stable
  {
    match PhaseOf(s.pc)
    case SessionPhase =>
    case EstopPhase =>
    case CommandPhase =>
    case TickPhase =>
    case PollPhase =>
    case EndPhase =>
  }

  // Confirming answers the future, disarms the worker's transition, ends the
  // controller's, and opens the gate exactly when the controller waited for move.
  lemma ConfirmEffect(cfg: Config, s: State, ch: Choice)
    requires s.pc.PollConfirm? && s.h.trans.Armed? && s.h.trans.promise !in s.l.outcome
    ensures var t := Step(cfg, s, Worker(ch));
            && t.h.trans == Idle && AnsweredWith(s, t, s.h.trans.promise, Success) && !t.ctl.pending
            && (t.ctl.gate <==> !(s.ctl.pending && s.ctl.pendingMode == 0xA104)) && !t.ctl.hasVelocity
  {
  }

  // A command that is given up has its future failed; a mode command moreover
  // leaves the controller waiting for nothing, with the gate closed and nothing
  // stored.
  lemma GivenUp(cfg: Config, s: State, ch: Choice)
    requires s.pc.EstopUndo? || s.pc.Undo? || s.pc.DrainUndo?
    requires s.pc.cmd.promise !in s.l.outcome
    ensures var t := Step(cfg, s, Worker(ch)); var p := s.pc.cmd.promise;
            && (s.pc.cmd.Mode? ==> !t.ctl.pending && t.ctl.gate && !t.ctl.hasVelocity)
            && var code := if s.pc.EstopUndo? then Failed else if s.pc.Undo? then Vendor else NotInit;
               AnsweredWith(s, t, p, Failure(code))
  {
  }

  // Why an armed transition fails: superseded, aborted by the emergency stop or
  // by the safety gate, out of time, or cut off by the end of the session.
  lemma TransitionAborted(cfg: Config, s: State, ch: Choice)
    requires s.h.trans.Armed? && s.h.trans.promise !in s.l.outcome
    requires s.pc.EstopAbort? || s.pc.OrphanAbort? || s.pc.PollOrphanAbort?
    ensures var t := Step(cfg, s, Worker(ch));
            t.h.trans == Idle && AnsweredWith(s, t, s.h.trans.promise, Failure(Failed)) && !t.ctl.pending && t.ctl.gate
  {
  }

  lemma TransitionSuperseded(cfg: Config, s: State, ch: Choice)
    requires s.h.trans.Armed? && s.h.trans.promise !in s.l.outcome && s.pc.Execute? && s.pc.cmd.Mode?
    ensures var t := Step(cfg, s, Worker(ch));
            t.h.trans == Idle && AnsweredWith(s, t, s.h.trans.promise, Failure(Failed)) && t.ctl == s.ctl
  {
  }

  lemma TransitionLate(cfg: Config, s: State, ch: Choice)
    requires s.h.trans.Armed? && s.h.trans.promise !in s.l.outcome && s.pc.Deadline?
    ensures var t := Step(cfg, s, Worker(ch));
            if s.m.passNow >= s.h.trans.deadline
            then t.h.trans == Idle && AnsweredWith(s, t, s.h.trans.promise, Failure(TimedOut)) && !t.ctl.pending
            else t.h.trans == s.h.trans && t.ctl == s.ctl && t.l == s.l
  {
  }

  lemma TransitionCutOff(cfg: Config, s: State, ch: Choice)
    requires s.pc.EndSession? && s.h.trans.Armed? && s.h.trans.promise !in s.l.outcome
    requires s.h.estopMark != Some(s.h.trans.promise)
    ensures var t := Step(cfg, s, Worker(ch));
            t.h.trans == Idle && AnsweredWith(s, t, s.h.trans.promise, Failure(NotInit)) && t.ctl == s.ctl
  {
  }

  // The second half of an engage request: an older mark is superseded, and the
  // new one stands exactly in a live session.
  lemma MarkEffect(cfg: Config, s: State)
    requires !WakeHeld(s) && s.h.latching > 0 && s.l.next !in s.l.outcome && s.h.estopMark != Some(s.l.next)
    ensures var t := Step(cfg, s, MarkEstop); var p := s.l.next;
            && t.h.latching == s.h.latching - 1 && t.ctl == s.ctl
            && (s.h.estopMark.Some? ==> AnsweredWith(s, t, s.h.estopMark.value, Failure(Failed)))
            && (if Live(s) then t.h.estopMark == Some(p) && t.l.answered[p] == s.l.answered[p]
                else t.h.estopMark == None && AnsweredWith(s, t, p, Failure(NotInit)))
  {
  }

  // The pass time is the clock at the start of the pass.
  lemma PassClock(cfg: Config, s: State, a: Action)
    ensures Step(cfg, s, a).m.passNow == if a.Worker? && s.pc.ReadClock? then s.m.time else s.m.passNow
  {
    if Enabled(s, a) && a.Worker? { PassClockWorker(cfg, s, a.choice); }
  }

  lemma PassClockWorker(cfg: Config, s: State, ch: Choice)
    ensures WorkerStep(cfg, s, ch).m.passNow == if s.pc.ReadClock? then s.m.time else s.m.passNow
  {
    match PhaseOf(s.pc)
    case SessionPhase =>
    case EstopPhase =>
    case CommandPhase =>
    case TickPhase =>
    case PollPhase =>
    case EndPhase =>
  }

  // Engaging latches and discards the stored velocity at once; releasing
  // unlatches, discards it too and answers with success. Neither waits for the
  // worker.
  lemma LatchEffect(cfg: Config, s: State)
    requires s.l.next !in s.l.outcome
    ensures var t := Step(cfg, s, LatchEstop);
            t.ctl.estop && !t.ctl.hasVelocity && t.h.latching == s.h.latching + 1 && t.l == s.l
    ensures var t := Step(cfg, s, ReleaseEstop);
            !t.ctl.estop && !t.ctl.hasVelocity && t.h == s.h && AnsweredWith(s, t, s.l.next, Success)
  {
  }

  // A submitted velocity reaches the controller at once, in any state of the
  // worker, and nothing else.
  lemma SubmitEffect(cfg: Config, s: State, cmd: Command)
    ensures var t := Step(cfg, s, SubmitVelocity(cmd));
            && t.(ctl := s.ctl) == s
            && (t.ctl.hasVelocity <==> Accepts(s.ctl, cmd))
            && (Accepts(s.ctl, cmd) ==> t.ctl.latest == Clamped(cmd) && t.ctl.latestAt == s.m.time)
  {
  }

  // The driver becomes ready only by the first snapshot of a connection that
  // reports a link.
  lemma ReadyNeedsLink(cfg: Config, s: State, a: Action)
    requires !s.ctl.ready && Step(cfg, s, a).ctl.ready
    ensures a.Worker? && s.pc.PollArm? && s.pc.snap.linked && !s.m.readyArmed
  {
    StepCalls(cfg, s, a);
    var call := CallOf(cfg, s, a);
    if call.Some? { ReadyByCall(s.ctl, call.value); }
  }

  lemma ReadyByCall(c: Controller, op: History.Call)
    requires !c.ready && History.After(c, op).ready
    ensures op.Ready? && op.on
  {
  }

  // ---------- link and authority ----------

  // The flags, and the status the controller last saw, agree; only between the
  // two clearing steps of a teardown does the controller lag behind.
  ghost predicate CacheAgrees(s: State)
  {
    if s.pc.ClearStatus? then s.f.snapSport == 0 && s.f.snapError == 0
    else
      && (s.ctl.status.linked ==> s.f.linked) && (s.ctl.status.authority ==> s.f.authority)
      && s.ctl.status.sport == s.f.snapSport && s.ctl.status.error == s.f.snapError
  }

  lemma CallerCache(cfg: Config, s: State, a: Action)
    requires CacheAgrees(s) && Enabled(s, a)
    ensures CacheAgrees(CallerStep(cfg, s, a))
  {
    match a
    case Report(_, _) =>
    case EnqueueMode(_) =>
    case AskMode(_, _) =>
    case MarkEstop =>
    case RequestAuthority(_) =>
    case _ =>
  }

  lemma WorkerCache(cfg: Config, s: State, ch: Choice)
    requires CacheAgrees(s)
    ensures CacheAgrees(WorkerStep(cfg, s, ch))
  {
    match PhaseOf(s.pc)
    case SessionPhase => assert CacheAgrees(SessionStep(s, ch));
    case EstopPhase => EstopCache(s, ch);
    case CommandPhase => CommandCache(cfg, s, ch);
    case TickPhase => TickCache(cfg, s, ch);
    case PollPhase => PollCache(s, ch);
    case EndPhase => EndCache(s, ch);
  }

  lemma EstopCache(s: State, ch: Choice)
    requires CacheAgrees(s) && PhaseOf(s.pc) == EstopPhase
    ensures CacheAgrees(EstopStep(s, ch))
  {
    assert EstopStep(s, ch).f == s.f && EstopStep(s, ch).ctl.status == s.ctl.status;
  }

  lemma CommandCache(cfg: Config, s: State, ch: Choice)
    requires CacheAgrees(s) && PhaseOf(s.pc) == CommandPhase
    ensures CacheAgrees(CommandStep(cfg, s, ch))
  {
    assert CommandStep(cfg, s, ch).f == s.f && CommandStep(cfg, s, ch).ctl.status == s.ctl.status;
  }

  lemma TickCache(cfg: Config, s: State, ch: Choice)
    requires CacheAgrees(s) && PhaseOf(s.pc) == TickPhase
    ensures CacheAgrees(TickStep(cfg, s, ch))
  {
  }

  lemma PollCache(s: State, ch: Choice)
    requires CacheAgrees(s) && PhaseOf(s.pc) == PollPhase
    ensures CacheAgrees(PollStep(s, ch))
  {
    if !s.pc.PollApply? {
      assert PollStep(s, ch).f == s.f && PollStep(s, ch).ctl.status == s.ctl.status;
    }
  }

  lemma EndCache(s: State, ch: Choice)
    requires CacheAgrees(s) && PhaseOf(s.pc) == EndPhase
    ensures CacheAgrees(EndStep(s, ch))
  {
  }

  // MAIN RESULT. In every reachable state outside that window the controller
  // believes in link and authority only if the last status report still stands,
  // and knows exactly the last polled sport status and error.
  lemma {:induction false} RunCache(cfg: Config, time: int, actions: seq<Action>)
    ensures CacheAgrees(Run(cfg, Start(time), actions))
  {
    if actions != [] {
      var n := |actions| - 1;
      var s, a := Run(cfg, Start(time), actions[..n]), actions[n];
      RunCache(cfg, time, actions[..n]);
      if Enabled(s, a) {
        if a.Worker? { WorkerCache(cfg, s, a.choice); } else { CallerCache(cfg, s, a); }
      }
    }
  }

  // Link and authority come from status reports alone: a report sets them and
  // latches a drop, a teardown clears them, and no snapshot touches them.
  lemma LinkFromReports(cfg: Config, s: State, a: Action)
    requires Enabled(s, a)
    ensures var t := Step(cfg, s, a);
            if a.Report? then
              t.f.linked == a.linked && t.f.authority == a.authority && t.f.motionDue &&
              t.f.dropped == (s.f.dropped || !a.linked)
            else if a.Worker? && s.pc.ClearCaches? then !t.f.linked && !t.f.authority && t.f.dropped == s.f.dropped
            else
              t.f.linked == s.f.linked && t.f.authority == s.f.authority &&
              (t.f.dropped != s.f.dropped ==> a.Worker? && s.pc.Attempt? && !t.f.dropped)
    ensures s.pc.Attempt? && Step(cfg, s, a).pc.Initializing? ==> !Step(cfg, s, a).f.dropped
  {
    if a.Worker? { WorkerFlags(cfg, s, a.choice); } else { assert CallerStep(cfg, s, a).pc == s.pc; }
  }

  lemma WorkerFlags(cfg: Config, s: State, ch: Choice)
    ensures var t := WorkerStep(cfg, s, ch);
            if s.pc.ClearCaches? then !t.f.linked && !t.f.authority && t.f.dropped == s.f.dropped
            else
              t.f.linked == s.f.linked && t.f.authority == s.f.authority &&
              (t.f.dropped != s.f.dropped ==> s.pc.Attempt? && !t.f.dropped)
    ensures s.pc.Attempt? && WorkerStep(cfg, s, ch).pc.Initializing? ==> !WorkerStep(cfg, s, ch).f.dropped
  {
    match PhaseOf(s.pc)
    case SessionPhase =>
    case EstopPhase =>
    case CommandPhase =>
    case TickPhase =>
    case PollPhase =>
    case EndPhase =>
  }

  // ---------- readiness and shutdown ----------

  // The controller is ready exactly when this connection armed it, except while
  // a teardown is between its first and last step; the worker exits only after a
  // stop.
  ghost predicate Coherent(s: State)
  {
    && (if s.pc.ClearStatus? || s.pc.ClearController? then !s.m.readyArmed else s.ctl.ready <==> s.m.readyArmed)
    && (s.pc.Exited? ==> s.f.stop)
  }

  lemma CallerCoherent(cfg: Config, s: State, a: Action)
    requires Coherent(s) && Enabled(s, a)
    ensures Coherent(CallerStep(cfg, s, a))
  {
    assert CallerStep(cfg, s, a).pc == s.pc && CallerStep(cfg, s, a).m.(time := 0) == s.m.(time := 0);
    match a
    case Report(_, _) =>
    case EnqueueMode(_) =>
    case AskMode(_, _) =>
    case _ =>
  }

  lemma WorkerCoherent(cfg: Config, s: State, ch: Choice)
    requires Coherent(s)
    ensures Coherent(WorkerStep(cfg, s, ch))
  {
    match PhaseOf(s.pc)
    case SessionPhase => assert Coherent(SessionStep(s, ch));
    case EstopPhase => EstopCoherent(s, ch);
    case CommandPhase => CommandCoherent(cfg, s, ch);
    case TickPhase => TickCoherent(cfg, s, ch);
    case PollPhase => PollCoherent(s, ch);
    case EndPhase => EndCoherent(s, ch);
  }

  lemma EstopCoherent(s: State, ch: Choice)
    requires Coherent(s) && PhaseOf(s.pc) == EstopPhase
    ensures Coherent(EstopStep(s, ch))
  {
    assert EstopStep(s, ch).ctl.ready == s.ctl.ready && EstopStep(s, ch).m.readyArmed == s.m.readyArmed;
  }

  lemma CommandCoherent(cfg: Config, s: State, ch: Choice)
    requires Coherent(s) && PhaseOf(s.pc) == CommandPhase
    ensures Coherent(CommandStep(cfg, s, ch))
  {
    assert CommandStep(cfg, s, ch).ctl.ready == s.ctl.ready && CommandStep(cfg, s, ch).m.readyArmed == s.m.readyArmed;
  }

  lemma TickCoherent(cfg: Config, s: State, ch: Choice)
    requires Coherent(s) && PhaseOf(s.pc) == TickPhase
    ensures Coherent(TickStep(cfg, s, ch))
  {
  }

  lemma PollCoherent(s: State, ch: Choice)
    requires Coherent(s) && PhaseOf(s.pc) == PollPhase
    ensures Coherent(PollStep(s, ch))
  {
  }

  lemma EndCoherent(s: State, ch: Choice)
    requires Coherent(s) && PhaseOf(s.pc) == EndPhase
    ensures Coherent(EndStep(s, ch))
  {
  }

  // MAIN RESULT. In every reachable state outside a teardown the controller is
  // ready exactly when a snapshot of this connection armed it, so no session
  // inherits readiness; and the worker exits only after a stop.
  lemma {:induction false} RunCoherent(cfg: Config, time: int, actions: seq<Action>)
    ensures Coherent(Run(cfg, Start(time), actions))
  {
    if actions != [] {
      var n := |actions| - 1;
      var s, a := Run(cfg, Start(time), actions[..n]), actions[n];
      RunCoherent(cfg, time, actions[..n]);
      if Enabled(s, a) {
        if a.Worker? { WorkerCoherent(cfg, s, a.choice); } else { CallerCoherent(cfg, s, a); }
      }
    }
  }

  // ---------- the motion tick after a report ----------

  // A tick was asked for and has not been sent.
  predicate TickDue(s: State)
  {
    s.f.motionDue || ((s.pc.Heartbeat? || s.pc.TickRead?) && s.pc.requested)
  }

  // MAIN RESULT. A tick asked for by a status report is never lost: it stays due
  // until the worker reads the controller's velocity and goes to send it, unless
  // failed heartbeats end the session.
  lemma TickNotLost(cfg: Config, s: State, a: Action)
    requires TickDue(s)
    ensures var t := Step(cfg, s, a);
            TickDue(t) || t.pc == TickSend(TickTarget(cfg, s)) || (s.pc.Heartbeat? && t.pc == EndSession)
  {
    if Enabled(s, a) {
      if a.Worker? { DueWorker(cfg, s, a.choice); } else { assert CallerStep(cfg, s, a).pc == s.pc; }
    }
  }

  lemma DueWorker(cfg: Config, s: State, ch: Choice)
    requires TickDue(s)
    ensures var t := WorkerStep(cfg, s, ch);
            TickDue(t) || t.pc == TickSend(TickTarget(cfg, s)) || (s.pc.Heartbeat? && t.pc == EndSession)
  {
    if PhaseOf(s.pc) == TickPhase { DueTick(cfg, s, ch); } else { DueKept(cfg, s, ch); }
  }

  lemma DueTick(cfg: Config, s: State, ch: Choice)
    requires TickDue(s) && PhaseOf(s.pc) == TickPhase
    ensures var t := TickStep(cfg, s, ch);
            TickDue(t) || t.pc == TickSend(TickTarget(cfg, s)) || (s.pc.Heartbeat? && t.pc == EndSession)
  {
  }

  lemma DueKept(cfg: Config, s: State, ch: Choice)
    requires PhaseOf(s.pc) != TickPhase
    ensures WorkerStep(cfg, s, ch).f.motionDue == s.f.motionDue
  {
    match PhaseOf(s.pc)
    case SessionPhase =>
    case EstopPhase =>
    case CommandPhase =>
    case PollPhase =>
    case EndPhase =>
  }
}
