/**
 Which request a confirmed mode transition belongs to.

 The controller's pending transition carries a mode but no identity, and the
 worker confirms whatever is pending. These results say exactly when the mode
 confirmed is the mode the controller was waiting for.
 */
module RuntimeIdentity {
  import opened Options
  import opened ModeNames
  import opened RobotController
  import opened DriverRuntime
  import opened RuntimePromises
  import opened RuntimeVerdict
  import opened RuntimeRequest
  import opened RuntimeMotion
  import History = ControllerHistory

  // ---------- the request behind the controller's pending transition ----------

  // The pending mode is the one asked for by the request accepted last.
  ghost predicate AskerPending(s: State)
  {
    s.ctl.pending ==>
      s.l.asker.Some? && s.l.asker.value in s.l.asked && s.l.asked[s.l.asker.value] == s.ctl.pendingMode
  }

  predicate AcceptsMode(s: State, a: Action)
  {
    Enabled(s, a) && a.AskMode? && ModeRefusal(s.ctl, ModeCode(a.name)).None?
  }

  // Only an accepted request changes what was asked, and answers never go away.
  ghost predicate LedgerKept(l: Ledger, l': Ledger, q: Promise)
  {
    l'.asked == l.asked && l'.asker == l.asker && l.answered[q] <= l'.answered[q]
  }

  lemma AnswerLedger(l: Ledger, p: Promise, o: Outcome, q: Promise)
    ensures LedgerKept(l, Answered(l, p, o), q)
  {
  }

  lemma CallerLedger(cfg: Config, s: State, a: Action, q: Promise)
    requires Enabled(s, a) && !AcceptsMode(s, a)
    ensures LedgerKept(s.l, CallerStep(cfg, s, a).l, q)
  {
    match a
    case MarkEstop => MarkLedger(s, q);
    case RequestAuthority(sdk) => AuthorityLedger(cfg, s, sdk, q);
    case AskMode(p, name) =>
      AnswerLedger(s.l, p, Failure(RefusalCode(ModeRefusal(s.ctl, ModeCode(name)).value, name)), q);
    case EnqueueMode(p) => EnqueueLedger(cfg, s, p, q);
    case _ =>
  }

  lemma MarkLedger(s: State, q: Promise)
    requires s.h.latching > 0
    ensures LedgerKept(s.l, EstopMarked(s).l, q)
  {
  }

  lemma AuthorityLedger(cfg: Config, s: State, sdk: bool, q: Promise)
    ensures LedgerKept(s.l, AuthorityRequested(cfg, s, sdk).l, q)
  {
  }

  lemma EnqueueLedger(cfg: Config, s: State, p: Promise, q: Promise)
    requires p in s.h.accepted
    ensures LedgerKept(s.l, ModeEnqueued(cfg, s, p).l, q)
  {
    AnswerLedger(s.l, p, Failure(NotInit), q);
    AnswerLedger(s.l, p, Failure(Failed), q);
  }

  lemma WorkerLedger(cfg: Config, s: State, ch: Choice, q: Promise)
    ensures LedgerKept(s.l, WorkerStep(cfg, s, ch).l, q)
  {
    match PhaseOf(s.pc)
    case SessionPhase => assert SessionStep(s, ch).l == s.l;
    case EstopPhase => EstopLedger(s, ch, q);
    case CommandPhase => CommandLedger(cfg, s, ch, q);
    case TickPhase => TickLedger(cfg, s, ch, q);
    case PollPhase => PollLedger(s, ch, q);
    case EndPhase => EndLedger(s, ch, q);
  }

  lemma FailLedger(s: State, code: Code, q: Promise)
    ensures LedgerKept(s.l, FailTransition(s, code).l, q)
  {
  }

  lemma EstopLedger(s: State, ch: Choice, q: Promise)
    ensures LedgerKept(s.l, EstopStep(s, ch).l, q)
  {
    match s.pc
    case EstopAbort(_) => FailLedger(s, Failed, q);
    case EstopUndo(_, cmd) => AnswerLedger(s.l, cmd.promise, Failure(Failed), q);
    case EstopLook(p) => AnswerLedger(s.l, p, Failure(WithoutAuth), q);
    case EstopDamp(p, moved) => AnswerLedger(s.l, p, if moved && ch.ok then Success else Failure(Failed), q);
    case _ => assert EstopStep(s, ch).l == s.l;
  }

  lemma CommandLedger(cfg: Config, s: State, ch: Choice, q: Promise)
    ensures LedgerKept(s.l, CommandStep(cfg, s, ch).l, q)
  {
    FailLedger(s, Failed, q);
    match s.pc
    case Execute(cmd) => AnswerLedger(s.l, cmd.promise, if ch.ok then Success else Failure(Vendor), q);
    case Undo(cmd) => AnswerLedger(s.l, cmd.promise, Failure(Vendor), q);
    case _ =>
  }

  lemma TickLedger(cfg: Config, s: State, ch: Choice, q: Promise)
    ensures LedgerKept(s.l, TickStep(cfg, s, ch).l, q)
  {
    FailLedger(s, TimedOut, q);
  }

  lemma PollLedger(s: State, ch: Choice, q: Promise)
    ensures LedgerKept(s.l, PollStep(s, ch).l, q)
  {
    FailLedger(s, Failed, q);
    FailLedger(s, TimedOut, q);
  }

  lemma EndLedger(s: State, ch: Choice, q: Promise)
    ensures LedgerKept(s.l, EndStep(s, ch).l, q)
  {
    if s.pc.EndSession? { EndSessionLedger(s, ch, q); }
  }

  lemma EndSessionLedger(s: State, ch: Choice, q: Promise)
    requires s.pc.EndSession?
    ensures LedgerKept(s.l, EndStep(s, ch).l, q)
  {
  }

  lemma StepLedger(cfg: Config, s: State, a: Action, q: Promise)
    requires !AcceptsMode(s, a)
    ensures LedgerKept(s.l, Step(cfg, s, a).l, q)
  {
    if Enabled(s, a) {
      if a.Worker? { WorkerLedger(cfg, s, a.choice, q); } else { CallerLedger(cfg, s, a, q); }
    }
  }

  // Nothing but an accepted request makes the controller wait for a mode.
  lemma PendingOnlyByRequest(c: Controller, op: History.Call)
    requires op.Request? ==> ModeRefusal(c, op.mode).Some?
    ensures History.After(c, op).pending ==> c.pending && History.After(c, op).pendingMode == c.pendingMode
  {
  }

  lemma StepAskerPending(cfg: Config, s: State, a: Action)
    requires AskerPending(s)
    ensures AskerPending(Step(cfg, s, a))
  {
    if !AcceptsMode(s, a) {
      StepLedger(cfg, s, a, 0);
      StepCalls(cfg, s, a);
      var call := CallOf(cfg, s, a);
      if call.Some? { PendingOnlyByRequest(s.ctl, call.value); }
    }
  }

  lemma {:induction false} RunAskerPending(cfg: Config, time: int, actions: seq<Action>)
    ensures AskerPending(Run(cfg, Start(time), actions))
  {
    if actions != [] {
      RunAskerPending(cfg, time, actions[..|actions| - 1]);
      StepAskerPending(cfg, Run(cfg, Start(time), actions[..|actions| - 1]), actions[|actions| - 1]);
    }
  }

  // MAIN RESULT. When the worker confirms a transition the controller still
  // waits for, the confirmed mode is the controller's pending mode if and only
  // if the request accepted last asked for the confirmed future's mode.
  lemma ConfirmedModeIff(cfg: Config, time: int, actions: seq<Action>)
    requires var s := Run(cfg, Start(time), actions); s.pc.PollConfirm? && s.ctl.pending
    ensures var s := Run(cfg, Start(time), actions);
            && s.h.trans.Armed? && s.h.trans.promise in s.l.asked
            && s.l.asker.Some? && s.l.asker.value in s.l.asked
            && (s.h.trans.mode == s.ctl.pendingMode <==> s.l.asked[s.h.trans.promise] == s.l.asked[s.l.asker.value])
  {
    RunAskerPending(cfg, time, actions);
    RunConfirming(cfg, time, actions);
    RunMatches(cfg, time, actions, Run(cfg, Start(time), actions).h.trans.promise);
  }

  // ---------- one mode request at a time ----------

  // Every other accepted mode request has been answered.
  ghost predicate OthersAnswered(l: Ledger, p: Promise)
  {
    forall q :: q in l.asked && q != p ==> l.answered[q] > 0
  }

  // No mode request is accepted while another accepted one is unanswered.
  ghost predicate Serial(cfg: Config, time: int, actions: seq<Action>)
  {
    forall n :: 0 <= n < |actions| && AcceptsMode(Run(cfg, Start(time), actions[..n]), actions[n]) ==>
                  OthersAnswered(Run(cfg, Start(time), actions[..n]).l, actions[n].p)
  }

  ghost predicate OnlyAskerOpen(l: Ledger)
  {
    forall q :: q in l.asked && l.answered[q] == 0 ==> l.asker == Some(q)
  }

  lemma {:induction false} SerialRun(cfg: Config, time: int, actions: seq<Action>)
    requires Serial(cfg, time, actions)
    ensures OnlyAskerOpen(Run(cfg, Start(time), actions).l)
  {
    if actions != [] {
      var n := |actions| - 1;
      var s, a := Run(cfg, Start(time), actions[..n]), actions[n];
      SerialPrefix(cfg, time, actions, n);
      SerialRun(cfg, time, actions[..n]);
      if AcceptsMode(s, a) {
        assert OthersAnswered(s.l, a.p);
      } else {
        forall q | q in s.l.asked
          ensures LedgerKept(s.l, Step(cfg, s, a).l, q)
        {
          StepLedger(cfg, s, a, q);
        }
        StepLedger(cfg, s, a, 0);
      }
    }
  }

  lemma SerialPrefix(cfg: Config, time: int, actions: seq<Action>, n: nat)
    requires Serial(cfg, time, actions) && n <= |actions|
    ensures Serial(cfg, time, actions[..n])
  {
    forall k | 0 <= k < n && AcceptsMode(Run(cfg, Start(time), actions[..n][..k]), actions[..n][k])
      ensures OthersAnswered(Run(cfg, Start(time), actions[..n][..k]).l, actions[..n][k].p)
    {
      assert actions[..n][..k] == actions[..k] && actions[..n][k] == actions[k];
    }
  }

  // MAIN RESULT. If no mode request is accepted while another accepted one is
  // unanswered, the mode confirmed is always the mode the controller waits for.
  lemma SerialConfirms(cfg: Config, time: int, actions: seq<Action>)
    requires Serial(cfg, time, actions)
    requires var s := Run(cfg, Start(time), actions); s.pc.PollConfirm? && s.ctl.pending
    ensures var s := Run(cfg, Start(time), actions); s.h.trans.Armed? && s.h.trans.mode == s.ctl.pendingMode
  {
    var s := Run(cfg, Start(time), actions);
    ConfirmedModeIff(cfg, time, actions);
    SerialRun(cfg, time, actions);
    AnsweredExactlyOnce(cfg, time, actions, s.h.trans.promise);
  }

  // ---------- opening the motion gate ----------

  // Over every run the gate opens only by confirming while the controller
  // waits for move.
  lemma GateOpensAtConfirm(cfg: Config, s: State, a: Action)
    requires s.ctl.gate && !Step(cfg, s, a).ctl.gate
    ensures a.Worker? && s.pc.PollConfirm? && s.h.trans.Armed? && s.ctl.pending && s.ctl.pendingMode == MODE_MOVE
  {
    StepCalls(cfg, s, a);
    var call := CallOf(cfg, s, a);
    if call.Some? { History.GateStep(s.ctl, call.value); }
  }

  // MAIN RESULT. If mode requests are serial, the motion gate opens only when
  // the future of a move request is confirmed by a snapshot showing 0xB104.
  lemma SerialGate(cfg: Config, time: int, actions: seq<Action>, a: Action)
    requires Serial(cfg, time, actions)
    requires var s := Run(cfg, Start(time), actions); s.ctl.gate && !Step(cfg, s, a).ctl.gate
    ensures var s := Run(cfg, Start(time), actions);
            && s.pc.PollConfirm? && s.pc.snap.sport == SPORT_MOVE
            && s.h.trans.Armed? && s.h.trans.promise in s.l.asked && s.l.asked[s.h.trans.promise] == MODE_MOVE
  {
    var s := Run(cfg, Start(time), actions);
    GateOpensAtConfirm(cfg, s, a);
    SerialConfirms(cfg, time, actions);
    RunMatches(cfg, time, actions, s.h.trans.promise);
    RunEvident(cfg, time, actions);
    ConfirmedMove(s);
  }

  lemma ConfirmedMove(s: State)
    requires Backed(s) && s.pc.PollConfirm? && s.h.trans.Armed? && Matches(s, s.h.trans.promise)
    requires s.h.trans.mode == MODE_MOVE
    ensures s.pc.snap.sport == SPORT_MOVE
    ensures s.h.trans.promise in s.l.asked && s.l.asked[s.h.trans.promise] == MODE_MOVE
  {
  }
}
