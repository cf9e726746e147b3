/**
 The mode a future asked for is the mode the worker sets and confirms for it.
 */
module RuntimeRequest {
  import opened Options
  import opened ModeNames
  import opened RobotController
  import opened DriverRuntime
  import opened RuntimePromises
  import opened RuntimeVerdict

  // The command, if it carries p, carries the mode p asked for.
  ghost predicate CmdMatches(l: Ledger, cmd: Cmd, p: Promise)
  {
    cmd.Mode? && cmd.promise == p ==> p in l.asked && l.asked[p] == cmd.mode
  }

  ghost predicate QueueMatches(l: Ledger, queue: seq<Cmd>, p: Promise)
  {
    forall i :: 0 <= i < |queue| ==> CmdMatches(l, queue[i], p)
  }

  ghost predicate LogMatches(l: Ledger, log: seq<Event>, p: Promise)
  {
    forall i :: 0 <= i < |log| && log[i].SetModeOk? && log[i].promise == p ==> p in l.asked && l.asked[p] == log[i].mode
  }

  // Wherever p is held after acceptance, the mode with it is the one it asked
  // for; before acceptance it has asked for nothing.
  ghost predicate Matches(s: State, p: Promise)
  {
    && (p in s.h.checked || p !in s.l.kind ==> p !in s.l.asked)
    && (p in s.h.accepted ==> p in s.l.asked && s.l.asked[p] == s.h.accepted[p])
    && QueueMatches(s.l, s.h.queue, p)
    && (s.pc.Execute? || s.pc.SetMode? ==> CmdMatches(s.l, s.pc.cmd, p))
    && (s.h.trans.Armed? && s.h.trans.promise == p ==> p in s.l.asked && s.l.asked[p] == s.h.trans.mode)
    && LogMatches(s.l, s.y.log, p)
  }

  lemma CallerMatches(cfg: Config, s: State, a: Action, p: Promise)
    requires Sound(s) && Conserved(s, p) && Matches(s, p) && Enabled(s, a) && !a.Worker?
    ensures Matches(CallerStep(cfg, s, a), p)
  {
    match a
    case Advance(_) =>
    case Stop =>
    case Report(_, _) =>
    case SubmitVelocity(_) =>
    case ReleaseEstop =>
    case LatchEstop =>
    case MarkEstop => MarkMatches(s, p);
    case RequestAuthority(sdk) => AuthorityMatches(cfg, s, sdk, p);
    case CheckMode => CheckMatches(s, p);
    case AskMode(q, name) => AskMatches(s, q, name, p);
    case EnqueueMode(q) => EnqueueMatches(cfg, s, q, p);
  }

  lemma MarkMatches(s: State, p: Promise)
    requires Matches(s, p) && s.h.latching > 0
    ensures Matches(EstopMarked(s), p)
  {
  }

  lemma AuthorityMatches(cfg: Config, s: State, sdk: bool, p: Promise)
    requires Matches(s, p)
    ensures Matches(AuthorityRequested(cfg, s, sdk), p)
  {
  }

  lemma CheckMatches(s: State, p: Promise)
    requires Sound(s) && Matches(s, p)
    ensures Matches(ModeChecked(s), p)
  {
  }

  lemma AskMatches(s: State, q: Promise, name: string, p: Promise)
    requires Conserved(s, p) && Matches(s, p) && q in s.h.checked
    ensures Matches(ModeAsked(s, q, name), p)
  {
  }

  lemma EnqueueMatches(cfg: Config, s: State, q: Promise, p: Promise)
    requires Matches(s, p) && q in s.h.accepted
    ensures Matches(ModeEnqueued(cfg, s, q), p)
  {
  }

  lemma WorkerMatches(cfg: Config, s: State, ch: Choice, p: Promise)
    requires Matches(s, p)
    ensures Matches(WorkerStep(cfg, s, ch), p)
  {
    match PhaseOf(s.pc)
    case SessionPhase => assert Matches(SessionStep(s, ch), p);
    case EstopPhase => EstopMatches(s, ch, p);
    case CommandPhase => CommandMatches(cfg, s, ch, p);
    case TickPhase => TickMatches(cfg, s, ch, p);
    case PollPhase => PollMatches(s, ch, p);
    case EndPhase => EndMatches(s, ch, p);
  }

  lemma EstopMatches(s: State, ch: Choice, p: Promise)
    requires Matches(s, p)
    ensures Matches(EstopStep(s, ch), p)
  {
    match s.pc
    case EstopAbort(_) => EstopAbortMatches(s, ch, p);
    case EstopDrain(_) => EstopDrainMatches(s, ch, p);
    case EstopUndo(_, _) => EstopUndoMatches(s, ch, p);
    case _ => EstopActMatches(s, ch, p);
  }

  lemma EstopAbortMatches(s: State, ch: Choice, p: Promise)
    requires Matches(s, p) && s.pc.EstopAbort?
    ensures Matches(EstopStep(s, ch), p)
  {
  }

  lemma EstopActMatches(s: State, ch: Choice, p: Promise)
    requires Matches(s, p) && !s.pc.EstopAbort? && !s.pc.EstopDrain? && !s.pc.EstopUndo?
    ensures Matches(EstopStep(s, ch), p)
  {
  }

  lemma EstopUndoMatches(s: State, ch: Choice, p: Promise)
    requires Matches(s, p) && s.pc.EstopUndo?
    ensures Matches(EstopStep(s, ch), p)
  {
  }

  lemma EstopDrainMatches(s: State, ch: Choice, p: Promise)
    requires Matches(s, p) && s.pc.EstopDrain?
    ensures Matches(EstopStep(s, ch), p)
  {
  }

  lemma CommandMatches(cfg: Config, s: State, ch: Choice, p: Promise)
    requires Matches(s, p)
    ensures Matches(CommandStep(cfg, s, ch), p)
  {
    match s.pc
    case PopCommand => PopMatches(cfg, s, ch, p);
    case Execute(_) => ExecuteMatches(cfg, s, ch, p);
    case SetMode(_) => SetModeMatches(cfg, s, ch, p);
    case _ =>
  }

  lemma PopMatches(cfg: Config, s: State, ch: Choice, p: Promise)
    requires Matches(s, p) && s.pc.PopCommand?
    ensures Matches(CommandStep(cfg, s, ch), p)
  {
  }

  lemma ExecuteMatches(cfg: Config, s: State, ch: Choice, p: Promise)
    requires Matches(s, p) && s.pc.Execute?
    ensures Matches(CommandStep(cfg, s, ch), p)
  {
  }

  lemma SetModeMatches(cfg: Config, s: State, ch: Choice, p: Promise)
    requires Matches(s, p) && s.pc.SetMode?
    ensures Matches(CommandStep(cfg, s, ch), p)
  {
  }

  lemma TickMatches(cfg: Config, s: State, ch: Choice, p: Promise)
    requires Matches(s, p)
    ensures Matches(TickStep(cfg, s, ch), p)
  {
  }

  lemma PollMatches(s: State, ch: Choice, p: Promise)
    requires Matches(s, p)
    ensures Matches(PollStep(s, ch), p)
  {
    if s.pc.PollOrphanAbort? || s.pc.PollCheck? || s.pc.PollConfirm? { SettleMatches(s, ch, p); }
  }

  lemma SettleMatches(s: State, ch: Choice, p: Promise)
    requires Matches(s, p) && (s.pc.PollOrphanAbort? || s.pc.PollCheck? || s.pc.PollConfirm?)
    ensures Matches(PollStep(s, ch), p)
  {
  }

  lemma EndMatches(s: State, ch: Choice, p: Promise)
    requires Matches(s, p)
    ensures Matches(EndStep(s, ch), p)
  {
    if s.pc.EndSession? { EndSessionMatches(s, ch, p); }
  }

  lemma EndSessionMatches(s: State, ch: Choice, p: Promise)
    requires Matches(s, p) && s.pc.EndSession?
    ensures Matches(EndStep(s, ch), p)
  {
  }

  lemma {:induction false} RunMatches(cfg: Config, time: int, actions: seq<Action>, p: Promise)
    ensures Matches(Run(cfg, Start(time), actions), p)
  {
    if actions != [] {
      var before, a := actions[..|actions| - 1], actions[|actions| - 1];
      var s := Run(cfg, Start(time), before);
      RunMatches(cfg, time, before, p);
      RunAccounted(cfg, time, before);
      assert Conserved(s, p);
      if Enabled(s, a) {
        if a.Worker? { WorkerMatches(cfg, s, a.choice, p); } else { CallerMatches(cfg, s, a, p); }
      }
    }
  }

  // The modes and the sport status that confirms each.
  const STABLE_PAIRS: set<(nat, nat)> :=
    {(0xA101, 0xB101), (0xA102, 0xB102), (0xA103, 0xB103), (0xA104, 0xB104), (0xA105, 0xB107), (0xA106, 0xB10B),
     (0xA1FF, 0xB1FF)}

  lemma StableTable(mode: nat, status: nat)
    ensures (mode, status) in STABLE_PAIRS <==> StableStatus(mode) == status && status != 0
  {
  }

  // Every logged deadline is the configured time after the set_mode call.
  ghost predicate Timed(cfg: Config, log: seq<Event>)
  {
    forall i :: 0 <= i < |log| && log[i].SetModeOk? ==> log[i].deadline == log[i].at + cfg.modeTimeout
  }

  lemma WorkerTimed(cfg: Config, s: State, ch: Choice)
    requires Timed(cfg, s.y.log)
    ensures Timed(cfg, WorkerStep(cfg, s, ch).y.log)
  {
    match PhaseOf(s.pc)
    case SessionPhase =>
    case EstopPhase =>
    case CommandPhase =>
    case TickPhase =>
    case PollPhase =>
    case EndPhase =>
  }

  lemma {:induction false} RunTimed(cfg: Config, time: int, actions: seq<Action>)
    ensures Timed(cfg, Run(cfg, Start(time), actions).y.log)
  {
    if actions != [] {
      var n := |actions| - 1;
      var s, a := Run(cfg, Start(time), actions[..n]), actions[n];
      RunTimed(cfg, time, actions[..n]);
      if Enabled(s, a) {
        if a.Worker? { WorkerTimed(cfg, s, a.choice); } else { assert CallerStep(cfg, s, a).y == s.y; }
      }
    }
  }

  // MAIN RESULT. A mode future succeeds only if set_mode succeeded for the very
  // mode it asked for, and a later snapshot of the same session showed that
  // mode's stable status in a pass begun within the timeout of that call.
  lemma RequestedModeVerdict(cfg: Config, time: int, actions: seq<Action>, p: Promise)
    requires var s := Run(cfg, Start(time), actions);
             IsMode(s.l, p) && p in s.l.outcome && s.l.outcome[p] == Success
    ensures var s := Run(cfg, Start(time), actions); var log := s.y.log;
            p in s.l.asked &&
            exists i: nat, j: nat, k: nat ::
              && Justified(log, k, p, i, j) && log[k] == ModeSucceeded(p) && log[i].mode == s.l.asked[p]
              && (s.l.asked[p], log[j].sport) in STABLE_PAIRS && log[j].passNow < log[i].at + cfg.modeTimeout
  {
    ModeVerdict(cfg, time, actions, p);
    RunMatches(cfg, time, actions, p);
    RunTimed(cfg, time, actions);
    var s := Run(cfg, Start(time), actions);
    var log := s.y.log;
    var i: nat, j: nat, k: nat :| k < |log| && log[k] == ModeSucceeded(p) && Justified(log, k, p, i, j);
    assert log[i].SetModeOk? && log[i].promise == p;
    StableTable(log[i].mode, log[j].sport);
  }

  // The answer to a name that is not in the table: the runtime recognises a busy
  // controller by a word of the reason, which repeats the name.
  lemma UnknownModeAnswer(cfg: Config, s: State, p: Promise, name: string)
    requires p in s.h.checked && p !in s.l.outcome && ModeCode(name).None?
    ensures var l := Step(cfg, s, AskMode(p, name)).l;
            p in l.outcome &&
            l.outcome[p] == Failure(if Mentions(Normalized(name), "pending") then Running else InvalidParam)
  {
    ReasonMentions(name);
  }
}
