/**
 The driver runtime as an interleaved step system.

 One worker thread, any number of caller threads and vendor status reports
 share the state. A step is one critical section of the wake mutex, one
 controller call or one SDK call; thread-local work is merged into an adjacent
 step. Runs are arbitrary sequences of steps.
 */
module DriverRuntime {
  import opened Options
  import Queues = CommandQueue
  import opened ModeNames
  import opened RobotController

  type Promise = nat

  datatype Cmd =
    | Authority(sdk: bool, promise: Promise)
    | Mode(mode: nat, promise: Promise)

  // The worker-side transition; `mode` is kept for specification only.
  datatype Transition = Idle | Armed(promise: Promise, mode: nat, stable: nat, deadline: int)

  datatype Snapshot = Snapshot(linked: bool, sport: nat, error: nat)

  datatype Code = NotInit | Running | InvalidParam | WithoutAuth | Failed | TimedOut | Vendor

  datatype Outcome = Success | Failure(code: Code)

  datatype Kind = AuthorityRequest | ModeRequest | EstopRequest | ReleaseRequest

  // Worker events that the verdict of a mode request depends on.
  datatype Event =
    | SessionStart
    | SetModeOk(promise: Promise, mode: nat, at: int, deadline: int)
    | Seen(sport: nat, passNow: int)
    | ModeSucceeded(promise: Promise)

  // What the worker did for an emergency-stop or authority request, with the
  // session it did it in and the SDK's answer.
  datatype Deed =
    | EstopTaken(promise: Promise, session: nat)
    | ZeroSent(promise: Promise, session: nat, ok: bool)
    | DampingSent(promise: Promise, session: nat, ok: bool)
    | AuthorityCalled(promise: Promise, session: nat, sdk: bool, ok: bool)

  // Where the worker is.
  datatype Pc =
    | Attempt | Initializing
    | Waiting | ReadClock | Recheck
    | TakeEstop | EstopAbort(p: Promise) | EstopDrain(p: Promise) | EstopUndo(p: Promise, cmd: Cmd)
    | EstopLook(p: Promise) | EstopMove(p: Promise) | EstopDamp(p: Promise, moved: bool)
    | OrphanCheck | OrphanAbort
    | PopCommand | Execute(cmd: Cmd) | SetMode(cmd: Cmd) | Undo(cmd: Cmd)
    | MotionFlag | Heartbeat(requested: bool) | TickRead(requested: bool) | TickSend(target: Velocity)
    | Deadline | Poll | PollApply(snap: Snapshot) | PollOrphan(snap: Snapshot) | PollOrphanAbort(snap: Snapshot)
    | PollArm(snap: Snapshot) | PollCheck(snap: Snapshot) | PollConfirm(snap: Snapshot)
    | StopLook | StopMove | StopDamp(moved: bool)
    | EndSession | Draining | DrainUndo(cmd: Cmd)
    | ClearCaches | ClearStatus | ClearController
    | Exited

  datatype Config = Config(capacity: nat, deadman: int, modeTimeout: int)

  // Guarded by the wake mutex.
  datatype Flags = Flags(stop: bool, connected: bool, linked: bool, authority: bool, dropped: bool,
                         snapSport: nat, snapError: nat, motionDue: bool)

  // Everything that can hold an unanswered promise besides the worker's hands:
  // the command queue, the estop mark, the armed transition, and callers
  // between two steps of one call.
  datatype Holders = Holders(queue: seq<Cmd>, estopMark: Option<Promise>, trans: Transition,
                             latching: nat, checked: set<Promise>, accepted: map<Promise, nat>)

  // Promises issued, the authorities and modes asked for, whose request the controller accepted
  // last, and every set_value call.
  datatype Ledger = Ledger(kind: map<Promise, Kind>, next: Promise, wanted: map<Promise, bool>,
                           asked: map<Promise, nat>, asker: Option<Promise>,
                           answered: multiset<Promise>, outcome: map<Promise, Outcome>)

  // Specification-only history; `nonzero` counts the nonzero moves sent.
  datatype History = History(sessions: nat, executed: nat, nonzero: nat, started: set<Promise>, doomed: set<Promise>,
                             log: seq<Event>, deeds: seq<Deed>)

  // The clock, the worker's pass time, the velocity the SDK last accepted this
  // session, and the worker's own record of it.
  datatype Motion = Motion(time: int, passNow: int, sdkVelocity: Velocity, lastNonzero: bool, readyArmed: bool)

  datatype State = State(pc: Pc, f: Flags, h: Holders, ctl: Controller, m: Motion, l: Ledger, y: History)

  function Start(time: int): State
  {
    State(Attempt, Flags(false, false, false, false, false, 0, 0, false), Holders([], None, Idle, 0, {}, map[]),
          Initial(), Motion(time, 0, ZERO, false, false), Ledger(map[], 0, map[], map[], None, multiset{}, map[]),
          History(0, 0, 0, {}, {}, [], []))
  }

  function StableStatus(mode: nat): nat
  {
    match mode
    case 0xA101 => 0xB101
    case 0xA102 => 0xB102
    case 0xA103 => 0xB103
    case 0xA104 => 0xB104
    case 0xA105 => 0xB107
    case 0xA106 => 0xB10B
    case 0xA1FF => 0xB1FF
    case _ => 0
  }

  // ---------- shared building blocks ----------

  // set_promise: the first answer wins, later ones are swallowed.
  function Answered(l: Ledger, p: Promise, o: Outcome): Ledger
  {
    l.(answered := l.answered + multiset{p}, outcome := if p in l.outcome then l.outcome else l.outcome[p := o])
  }

  function Answer(s: State, p: Promise, o: Outcome): State { s.(l := Answered(s.l, p, o)) }

  function Issued(l: Ledger, k: Kind): Ledger { l.(kind := l.kind[l.next := k], next := l.next + 1) }

  function Did(y: History, d: Deed): History { y.(deeds := y.deeds + [d]) }

  function Complete(s: State, success: bool): State { s.(ctl := CompleteMode(s.ctl, success, s.m.time)) }

  // Answers and disarms the worker-side transition, if any.
  function FailTransition(s: State, code: Code): State
  {
    if s.h.trans.Idle? then s else s.(l := Answered(s.l, s.h.trans.promise, Failure(code)), h := s.h.(trans := Idle))
  }

  // The SDK's answer to a move call; the worker's own flag is set separately.
  function Moved(m: Motion, v: Velocity, ok: bool): Motion
  {
    if ok then m.(sdkVelocity := v) else m
  }

  function Flagged(m: Motion, nonzero: bool): Motion { m.(lastNonzero := nonzero) }

  // The command queue, never closed and rejecting when full.
  function Pushed(queue: seq<Cmd>, cfg: Config, cmd: Cmd): (seq<Cmd>, bool)
  {
    var (q, ok) := Queues.Push(Queues.Queue(queue, false), cfg.capacity, Queues.RejectNew, cmd);
    (q.items, ok)
  }

  function Popped(h: Holders): Holders
    requires h.queue != []
  {
    h.(queue := Queues.Pop(Queues.Queue(h.queue, false)).0.items)
  }

  predicate Disconnected(s: State) { s.f.stop || !s.f.connected || !s.f.linked || s.f.dropped }

  // The session-end drain holds the wake mutex over several steps.
  predicate WakeHeld(s: State) { s.pc.Draining? || s.pc.DrainUndo? }

  // ---------- caller and vendor steps ----------

  datatype Action =
    | Advance(dt: nat)
    | Stop
    | Report(linked: bool, authority: bool)
    | SubmitVelocity(cmd: Command)
    | ReleaseEstop
    | LatchEstop
    | MarkEstop
    | RequestAuthority(sdk: bool)
    | CheckMode
    | AskMode(p: Promise, name: string)
    | EnqueueMode(p: Promise)
    | Worker(choice: Choice)

  // The worker's environment: result of an SDK call, timer outcomes, snapshot.
  datatype Choice = Choice(ok: bool, pick: nat, snap: Snapshot)

  // The source recognises a busy controller by the word in the reason text.
  function RefusalCode(r: Refusal, name: string): Code
  {
    match r
    case Pending => Running
    case InvalidCommand => if Mentions(UnknownReason(name), "pending") then Running else InvalidParam
    case Disconnected => NotInit
    case NoAuthority => WithoutAuth
    case _ => Failed
  }

  function StatusReport(s: State, linked: bool, authority: bool): State
  {
    s.(f := s.f.(linked := linked, authority := authority, dropped := s.f.dropped || !linked, motionDue := true),
       ctl := UpdateStatus(s.ctl, Status(linked, authority, s.f.snapSport, s.f.snapError), s.m.time))
  }

  function EstopMarked(s: State): State
    requires s.h.latching > 0
  {
    var p, l1 := s.l.next, Issued(s.l, EstopRequest);
    var l2 := if s.h.estopMark.Some? then Answered(l1, s.h.estopMark.value, Failure(Failed)) else l1;
    var h := s.h.(latching := s.h.latching - 1);
    if Disconnected(s) then s.(h := h.(estopMark := None), l := Answered(l2, p, Failure(NotInit)))
    else s.(h := h.(estopMark := Some(p)), l := l2)
  }

  function AuthorityRequested(cfg: Config, s: State, sdk: bool): State
  {
    var p, l := s.l.next, Issued(s.l, AuthorityRequest).(wanted := s.l.wanted[s.l.next := sdk]);
    if Disconnected(s) then s.(l := Answered(l, p, Failure(NotInit)))
    else
      var (queue, ok) := Pushed(s.h.queue, cfg, Authority(sdk, p));
      if !ok then s.(l := Answered(l, p, Failure(Failed))) else s.(l := l, h := s.h.(queue := queue))
  }

  function ModeChecked(s: State): State
  {
    var p, l := s.l.next, Issued(s.l, ModeRequest);
    if Disconnected(s) then s.(l := Answered(l, p, Failure(NotInit)))
    else s.(l := l, h := s.h.(checked := s.h.checked + {p}))
  }

  function ModeAsked(s: State, p: Promise, name: string): State
  {
    var h := s.h.(checked := s.h.checked - {p});
    var refusal := ModeRefusal(s.ctl, ModeCode(name));
    if refusal.Some? then s.(h := h, l := Answered(s.l, p, Failure(RefusalCode(refusal.value, name))))
    else s.(h := h.(accepted := h.accepted[p := ModeCode(name).value]),
            ctl := RequestMode(s.ctl, ModeCode(name), s.m.time),
            l := s.l.(asked := s.l.asked[p := ModeCode(name).value], asker := Some(p)))
  }

  function ModeEnqueued(cfg: Config, s: State, p: Promise): State
    requires p in s.h.accepted
  {
    var h := s.h.(accepted := s.h.accepted - {p});
    if Disconnected(s) then Complete(s.(h := h, l := Answered(s.l, p, Failure(NotInit))), false)
    else
      var (queue, ok) := Pushed(h.queue, cfg, Mode(s.h.accepted[p], p));
      if !ok then Complete(s.(h := h, l := Answered(s.l, p, Failure(Failed))), false) else s.(h := h.(queue := queue))
  }

  // ---------- worker steps ----------

  // Connection management and the wait at the loop top.
  function SessionStep(s: State, ch: Choice): State
  {
    match s.pc
    case Attempt =>
      if ch.pick == 0 then s.(pc := if s.f.stop then Exited else Attempt)
      else if ch.pick == 1 then s.(pc := ClearCaches)
      else s.(f := s.f.(dropped := false), pc := Initializing)
    case Initializing =>
      if ch.pick == 0 then s.(pc := if s.f.stop then Exited else Initializing)
      else if ch.pick == 1 then s.(pc := ClearCaches)
      else s.(f := s.f.(connected := true), m := s.m.(lastNonzero := false, sdkVelocity := ZERO),
              y := s.y.(sessions := s.y.sessions + 1, log := s.y.log + [SessionStart]), pc := Waiting)
    case Waiting =>
      s.(pc := if s.f.stop then StopLook else if s.f.dropped then EndSession else ReadClock)
    case ReadClock => s.(m := s.m.(passNow := s.m.time), pc := Recheck)
    case Recheck =>
      s.(pc := if s.f.stop then StopLook else if s.f.dropped then EndSession else TakeEstop)
    case _ => s
  }

  function EstopStep(s: State, ch: Choice): State
  {
    match s.pc
    case TakeEstop =>
      if s.h.estopMark.None? then s.(pc := OrphanCheck)
      else
        var p := s.h.estopMark.value;
        var y := s.y.(doomed := s.y.doomed + Promises(s.h.queue));
        s.(h := s.h.(estopMark := None), y := Did(y, EstopTaken(p, y.sessions)), pc := EstopAbort(p))
    case EstopAbort(p) => Complete(FailTransition(s, Failed), false).(pc := EstopDrain(p))
    case EstopDrain(p) =>
      if s.h.queue == [] then s.(pc := EstopLook(p)) else s.(h := Popped(s.h), pc := EstopUndo(p, s.h.queue[0]))
    case EstopUndo(p, cmd) =>
      Answer(if cmd.Mode? then Complete(s, false) else s, cmd.promise, Failure(Failed)).(pc := EstopDrain(p))
    case EstopLook(p) =>
      if !s.f.linked || !s.f.authority || s.f.dropped then Answer(s, p, Failure(WithoutAuth)).(pc := OrphanCheck)
      else s.(pc := EstopMove(p))
    case EstopMove(p) =>
      s.(m := Moved(s.m, ZERO, ch.ok), y := Did(s.y, ZeroSent(p, s.y.sessions, ch.ok)), pc := EstopDamp(p, ch.ok))
    case EstopDamp(p, moved) =>
      Answer(s, p, if moved && ch.ok then Success else Failure(Failed))
        .(m := if moved then Flagged(s.m, false) else s.m, y := Did(s.y, DampingSent(p, s.y.sessions, ch.ok)),
          pc := OrphanCheck)
    case _ => s
  }

  function CommandStep(cfg: Config, s: State, ch: Choice): State
  {
    match s.pc
    case OrphanCheck => s.(pc := if s.h.trans.Armed? && !s.ctl.pending then OrphanAbort else PopCommand)
    case OrphanAbort => Complete(FailTransition(s, Failed), false).(pc := PopCommand)
    case PopCommand =>
      if s.h.queue == [] then s.(pc := MotionFlag)
      else
        var cmd := s.h.queue[0];
        s.(h := Popped(s.h), y := s.y.(executed := s.y.executed + 1, started := s.y.started + {cmd.promise}),
           pc := Execute(cmd))
    case Execute(cmd) =>
      if cmd.Authority? then
        Answer(s, cmd.promise, if ch.ok then Success else Failure(Vendor))
          .(y := Did(s.y, AuthorityCalled(cmd.promise, s.y.sessions, cmd.sdk, ch.ok)), pc := MotionFlag)
      else if !s.m.lastNonzero then FailTransition(s, Failed).(pc := SetMode(cmd))
      else if !ch.ok then FailTransition(s, Failed).(pc := Undo(cmd))
      else FailTransition(s, Failed).(m := Flagged(Moved(s.m, ZERO, true), false), pc := SetMode(cmd))
    case SetMode(cmd) =>
      if !ch.ok || cmd.Authority? || StableStatus(cmd.mode) == 0 then s.(pc := Undo(cmd))
      else
        var deadline := s.m.time + cfg.modeTimeout;
        s.(h := s.h.(trans := Armed(cmd.promise, cmd.mode, StableStatus(cmd.mode), deadline)),
           y := s.y.(log := s.y.log + [SetModeOk(cmd.promise, cmd.mode, s.m.time, deadline)]), pc := MotionFlag)
    case Undo(cmd) => Answer(Complete(s, false), cmd.promise, Failure(Vendor)).(pc := MotionFlag)
    case _ => s
  }

  function TickTarget(cfg: Config, s: State): Velocity
  {
    var t := TickVelocity(s.ctl, s.m.time, cfg.deadman);
    if t.Some? then t.value else ZERO
  }

  function TickStep(cfg: Config, s: State, ch: Choice): State
  {
    match s.pc
    case MotionFlag => s.(f := s.f.(motionDue := false), pc := Heartbeat(s.f.motionDue))
    case Heartbeat(requested) => s.(pc := if ch.pick == 0 then EndSession else TickRead(requested))
    case TickRead(requested) => s.(pc := if requested || ch.pick == 0 then TickSend(TickTarget(cfg, s)) else Deadline)
    case TickSend(target) =>
      if target == ZERO && !s.m.lastNonzero then s.(pc := Deadline)
      else
        var m := Moved(s.m, target, ch.ok);
        s.(m := if ch.ok then Flagged(m, target != ZERO) else m,
           y := s.y.(nonzero := s.y.nonzero + (if target != ZERO then 1 else 0)), pc := Deadline)
    case Deadline =>
      if s.h.trans.Armed? && s.m.passNow >= s.h.trans.deadline
      then Complete(FailTransition(s, TimedOut), false).(pc := Poll)
      else s.(pc := Poll)
    case _ => s
  }

  function PollStep(s: State, ch: Choice): State
  {
    match s.pc
    case Poll =>
      if ch.pick == 0 then s.(pc := Waiting)
      else s.(y := s.y.(log := s.y.log + [Seen(ch.snap.sport, s.m.passNow)]), pc := PollApply(ch.snap))
    case PollApply(snap) =>
      s.(f := s.f.(snapSport := snap.sport, snapError := snap.error),
         ctl := UpdateStatus(s.ctl, Status(s.f.linked, s.f.authority, snap.sport, snap.error), s.m.time),
         pc := PollOrphan(snap))
    case PollOrphan(snap) =>
      s.(pc := if s.h.trans.Armed? && !s.ctl.pending then PollOrphanAbort(snap) else PollArm(snap))
    case PollOrphanAbort(snap) => Complete(FailTransition(s, Failed), false).(pc := PollArm(snap))
    case PollArm(snap) =>
      if snap.linked && !s.m.readyArmed
      then s.(m := s.m.(readyArmed := true), ctl := SetReady(s.ctl, true, s.m.time), pc := PollCheck(snap))
      else s.(pc := PollCheck(snap))
    case PollCheck(snap) =>
      if s.h.trans.Idle? then s.(pc := Waiting)
      else if !s.ctl.pending then FailTransition(s, Failed).(pc := Waiting)
      else if snap.sport == s.h.trans.stable then s.(pc := PollConfirm(snap))
      else if s.m.passNow >= s.h.trans.deadline then Complete(FailTransition(s, TimedOut), false).(pc := Waiting)
      else s.(pc := Waiting)
    case PollConfirm(snap) =>
      if s.h.trans.Idle? then s.(pc := Waiting)
      else
        var p := s.h.trans.promise;
        Complete(s.(h := s.h.(trans := Idle), l := Answered(s.l, p, Success),
                    y := s.y.(log := s.y.log + [ModeSucceeded(p)]), pc := Waiting), true)
    case _ => s
  }

  // Shutdown actuation and session teardown.
  function EndStep(s: State, ch: Choice): State
  {
    match s.pc
    case StopLook => s.(pc := if s.f.linked && s.f.authority && !s.f.dropped then StopMove else EndSession)
    case StopMove => s.(m := Moved(s.m, ZERO, ch.ok), pc := StopDamp(ch.ok))
    case StopDamp(moved) => s.(m := if moved then Flagged(s.m, false) else s.m, pc := EndSession)
    case EndSession =>
      var l := if s.h.estopMark.Some? then Answered(s.l, s.h.estopMark.value, Failure(NotInit)) else s.l;
      FailTransition(s.(f := s.f.(connected := false), h := s.h.(estopMark := None), l := l), NotInit).(pc := Draining)
    case Draining =>
      if s.h.queue == [] then s.(pc := ClearCaches) else s.(h := Popped(s.h), pc := DrainUndo(s.h.queue[0]))
    case DrainUndo(cmd) =>
      Answer(if cmd.Mode? then Complete(s, false) else s, cmd.promise, Failure(NotInit)).(pc := Draining)
    case ClearCaches =>
      s.(f := s.f.(linked := false, authority := false, snapSport := 0, snapError := 0),
         m := s.m.(readyArmed := false), pc := ClearStatus)
    case ClearStatus => s.(ctl := UpdateStatus(s.ctl, NO_STATUS, s.m.time), pc := ClearController)
    case ClearController => s.(ctl := Invalidate(s.ctl, s.m.time), pc := Attempt)
    case _ => s
  }

  datatype Phase = SessionPhase | EstopPhase | CommandPhase | TickPhase | PollPhase | EndPhase

  function PhaseOf(pc: Pc): Phase
  {
    match pc
    case Attempt | Initializing | Waiting | ReadClock | Recheck => SessionPhase
    case TakeEstop | EstopAbort(_) | EstopDrain(_) | EstopUndo(_, _) | EstopLook(_) | EstopMove(_)
      | EstopDamp(_, _) => EstopPhase
    case OrphanCheck | OrphanAbort | PopCommand | Execute(_) | SetMode(_) | Undo(_) => CommandPhase
    case MotionFlag | Heartbeat(_) | TickRead(_) | TickSend(_) | Deadline => TickPhase
    case Poll | PollApply(_) | PollOrphan(_) | PollOrphanAbort(_) | PollArm(_) | PollCheck(_) | PollConfirm(_) =>
      PollPhase
    case _ => EndPhase
  }

  function WorkerStep(cfg: Config, s: State, ch: Choice): State
  {
    match PhaseOf(s.pc)
    case SessionPhase => SessionStep(s, ch)
    case EstopPhase => EstopStep(s, ch)
    case CommandPhase => CommandStep(cfg, s, ch)
    case TickPhase => TickStep(cfg, s, ch)
    case PollPhase => PollStep(s, ch)
    case EndPhase => EndStep(s, ch)
  }

  // Steps that take the wake mutex wait while the drain holds it.
  predicate Enabled(s: State, a: Action)
  {
    match a
    case Stop | Report(_, _) | RequestAuthority(_) | CheckMode => !WakeHeld(s)
    case MarkEstop => !WakeHeld(s) && s.h.latching > 0
    case AskMode(p, _) => p in s.h.checked
    case EnqueueMode(p) => !WakeHeld(s) && p in s.h.accepted
    case _ => true
  }

  function CallerStep(cfg: Config, s: State, a: Action): State
    requires Enabled(s, a)
  {
    match a
    case Advance(dt) => s.(m := s.m.(time := s.m.time + dt))
    case Stop => s.(f := s.f.(stop := true))
    case Report(linked, authority) => StatusReport(s, linked, authority)
    case SubmitVelocity(cmd) => s.(ctl := AcceptVelocity(s.ctl, cmd, s.m.time))
    case ReleaseEstop =>
      s.(ctl := ClearEstop(s.ctl, s.m.time), l := Answered(Issued(s.l, ReleaseRequest), s.l.next, Success))
    case LatchEstop => s.(ctl := TriggerEstop(s.ctl, s.m.time), h := s.h.(latching := s.h.latching + 1))
    case MarkEstop => EstopMarked(s)
    case RequestAuthority(sdk) => AuthorityRequested(cfg, s, sdk)
    case CheckMode => ModeChecked(s)
    case AskMode(p, name) => ModeAsked(s, p, name)
    case EnqueueMode(p) => ModeEnqueued(cfg, s, p)
    case Worker(_) => s
  }

  function Step(cfg: Config, s: State, a: Action): State
  {
    if !Enabled(s, a) then s else if a.Worker? then WorkerStep(cfg, s, a.choice) else CallerStep(cfg, s, a)
  }

  function Run(cfg: Config, s: State, actions: seq<Action>): State
  {
    if actions == [] then s else Step(cfg, Run(cfg, s, actions[..|actions| - 1]), actions[|actions| - 1])
  }

  function Promises(queue: seq<Cmd>): set<Promise>
  {
    set i | 0 <= i < |queue| :: queue[i].promise
  }
}
