/**
 A run in which one request's confirmation settles another's transition.

 A "stand" request is accepted in the first session and enqueued in the
 second, after a "move" request was accepted there. The worker sets and confirms
 stand; the controller, waiting for move, opens the motion gate.
 */
module RuntimeMismatch {
  import opened Options
  import opened ModeNames
  import opened RobotController
  import opened DriverRuntime

  lemma Extend(cfg: Config, s: State, r: State, actions: seq<Action>, a: Action)
    returns (r': State, actions': seq<Action>)
    requires r == Run(cfg, s, actions)
    ensures r' == Step(cfg, r, a) && actions' == actions + [a] && r' == Run(cfg, s, actions')
  {
    r', actions' := Step(cfg, r, a), actions + [a];
    assert actions'[..|actions'| - 1] == actions;
  }

  lemma {:induction false} RunAppend(cfg: Config, s: State, xs: seq<Action>, ys: seq<Action>)
    ensures Run(cfg, s, xs + ys) == Run(cfg, Run(cfg, s, xs), ys)
  {
    if ys == [] {
      assert xs + ys == xs;
    } else {
      var n := |ys| - 1;
      RunAppend(cfg, s, xs, ys[..n]);
      assert (xs + ys)[..|xs + ys| - 1] == xs + ys[..n];
    }
  }

  // A worker step in which every SDK call succeeds.
  function Turn(pick: nat, sport: nat): Action { Worker(Choice(true, pick, Snapshot(true, sport, 0))) }

  // No shutdown, no emergency stop, nothing moving.
  predicate Calm(s: State)
  {
    !s.f.stop && s.h.estopMark == None && !s.m.lastNonzero && !s.ctl.estop && !s.ctl.hasVelocity
  }

  // The controller after a step that concerns neither its latch nor its modes.
  predicate SameModes(c: Controller, d: Controller)
  {
    d.pending == c.pending && d.pendingMode == c.pendingMode && d.estop == c.estop && !d.hasVelocity
  }

  // ---------- segments ----------

  // init succeeds and the robot reports link and authority.
  lemma Connects(cfg: Config, s: State) returns (r: State, actions: seq<Action>)
    requires Calm(s) && s.pc == Attempt && !s.ctl.pending && s.f.snapError == 0
    ensures r == Run(cfg, s, actions) && Calm(r) && SameModes(s.ctl, r.ctl)
    ensures r.pc == Waiting && r.h == s.h && r.l == s.l && r.m.readyArmed == s.m.readyArmed
    ensures r.ctl.ready == s.ctl.ready
    ensures r.f.connected && r.f.linked && r.f.authority && !r.f.dropped && r.y.sessions == s.y.sessions + 1
  {
    InitBegins(cfg, s);
    r, actions := Extend(cfg, s, s, [], Turn(2, 0));
    LinkReported(cfg, r);
    r, actions := Extend(cfg, s, r, actions, Report(true, true));
    InitSucceeds(cfg, r);
    r, actions := Extend(cfg, s, r, actions, Turn(2, 0));
  }

  lemma InitBegins(cfg: Config, s: State)
    requires s.pc == Attempt
    ensures Step(cfg, s, Turn(2, 0)) == s.(pc := Initializing, f := s.f.(dropped := false))
  {
  }

  lemma LinkReported(cfg: Config, s: State)
    requires Calm(s) && s.pc == Initializing && s.f.snapError == 0
    ensures var r := Step(cfg, s, Report(true, true));
            && r == s.(f := s.f.(linked := true, authority := true, motionDue := true), ctl := r.ctl)
            && SameModes(s.ctl, r.ctl) && r.ctl.ready == s.ctl.ready
  {
  }

  lemma InitSucceeds(cfg: Config, s: State)
    requires s.pc == Initializing
    ensures var r := Step(cfg, s, Turn(2, 0));
            && r == s.(pc := Waiting, f := s.f.(connected := true), m := r.m, y := r.y)
            && r.m == s.m.(lastNonzero := false, sdkVelocity := ZERO) && r.y.sessions == s.y.sessions + 1
  {
  }

  // From the loop top to the command queue.
  lemma ReachesQueue(cfg: Config, s: State) returns (r: State, actions: seq<Action>)
    requires Calm(s) && s.pc == Waiting && !s.f.dropped && s.h.trans == Idle
    ensures r == Run(cfg, s, actions) && r == s.(pc := PopCommand, m := s.m.(passNow := s.m.time))
  {
    r, actions := Extend(cfg, s, s, [], Turn(0, 0));
    r, actions := Extend(cfg, s, r, actions, Turn(0, 0));
    r, actions := Extend(cfg, s, r, actions, Turn(0, 0));
    r, actions := Extend(cfg, s, r, actions, Turn(0, 0));
    r, actions := Extend(cfg, s, r, actions, Turn(0, 0));
  }

  // From the motion flag past an idle tick to the poll.
  lemma ReachesPoll(cfg: Config, s: State) returns (r: State, actions: seq<Action>)
    requires Calm(s) && s.pc == MotionFlag && (s.h.trans.Armed? ==> s.m.passNow < s.h.trans.deadline)
    ensures r == Run(cfg, s, actions) && r == s.(pc := Poll, f := s.f.(motionDue := false))
  {
    var s1, a1 := ReachesTick(cfg, s);
    var a2;
    r, a2 := TicksIdle(cfg, s1);
    actions := a1 + a2;
    RunAppend(cfg, s, a1, a2);
  }

  lemma ReachesTick(cfg: Config, s: State) returns (r: State, actions: seq<Action>)
    requires s.pc == MotionFlag
    ensures r == Run(cfg, s, actions) && r == s.(pc := TickRead(s.f.motionDue), f := s.f.(motionDue := false))
  {
    r, actions := Extend(cfg, s, s, [], Turn(0, 0));
    assert r == s.(pc := Heartbeat(s.f.motionDue), f := s.f.(motionDue := false));
    r, actions := Extend(cfg, s, r, actions, Turn(1, 0));
  }

  lemma TicksIdle(cfg: Config, s: State) returns (r: State, actions: seq<Action>)
    requires Calm(s) && s.pc.TickRead? && (s.h.trans.Armed? ==> s.m.passNow < s.h.trans.deadline)
    ensures r == Run(cfg, s, actions) && r == s.(pc := Poll)
  {
    r, actions := Extend(cfg, s, s, [], Turn(0, 0));
    assert r == s.(pc := TickSend(ZERO));
    r, actions := Extend(cfg, s, r, actions, Turn(0, 0));
    assert r == s.(pc := Deadline);
    r, actions := Extend(cfg, s, r, actions, Turn(0, 0));
  }

  // From the poll through the snapshot to the transition check.
  lemma ReachesCheck(cfg: Config, s: State, sport: nat) returns (r: State, actions: seq<Action>)
    requires Calm(s) && s.pc == Poll && s.f.linked && s.f.authority && (s.m.readyArmed ==> s.ctl.ready)
    requires s.h.trans.Armed? ==> s.ctl.pending
    ensures r == Run(cfg, s, actions) && Calm(r) && SameModes(s.ctl, r.ctl)
    ensures r.pc == PollCheck(Snapshot(true, sport, 0)) && r.h == s.h && r.l == s.l
    ensures r.f == s.f.(snapSport := sport, snapError := 0) && r.m.readyArmed && r.ctl.ready
    ensures r.ctl.status == Status(true, true, sport, 0) && r.y.sessions == s.y.sessions
  {
    var s1, a1 := AppliesSnapshot(cfg, s, sport);
    var a2;
    r, a2 := ArmsReadiness(cfg, s1, Snapshot(true, sport, 0));
    actions := a1 + a2;
    RunAppend(cfg, s, a1, a2);
  }

  lemma AppliesSnapshot(cfg: Config, s: State, sport: nat) returns (r: State, actions: seq<Action>)
    requires Calm(s) && s.pc == Poll && s.f.linked && s.f.authority
    ensures r == Run(cfg, s, actions) && Calm(r) && SameModes(s.ctl, r.ctl) && r.ctl.ready == s.ctl.ready
    ensures r.pc == PollOrphan(Snapshot(true, sport, 0)) && r.h == s.h && r.l == s.l && r.m == s.m
    ensures r.f == s.f.(snapSport := sport, snapError := 0)
    ensures r.ctl.status == Status(true, true, sport, 0) && r.y.sessions == s.y.sessions
  {
    var snap := Snapshot(true, sport, 0);
    PollStarts(cfg, s, sport);
    r, actions := Extend(cfg, s, s, [], Turn(1, sport));
    PollApplies(cfg, r, snap);
    r, actions := Extend(cfg, s, r, actions, Turn(0, 0));
  }

  lemma PollStarts(cfg: Config, s: State, sport: nat)
    requires s.pc == Poll
    ensures Step(cfg, s, Turn(1, sport)) ==
            s.(pc := PollApply(Snapshot(true, sport, 0)), y := s.y.(log := s.y.log + [Seen(sport, s.m.passNow)]))
  {
  }

  lemma PollApplies(cfg: Config, s: State, snap: Snapshot)
    requires Calm(s) && s.pc == PollApply(snap) && s.f.linked && s.f.authority && snap.error == 0
    ensures var r := Step(cfg, s, Turn(0, 0));
            && r == s.(pc := PollOrphan(snap), f := s.f.(snapSport := snap.sport, snapError := 0), ctl := r.ctl)
            && SameModes(s.ctl, r.ctl) && r.ctl.ready == s.ctl.ready
            && r.ctl.status == Status(true, true, snap.sport, 0)
  {
  }

  lemma ArmsReadiness(cfg: Config, s: State, snap: Snapshot) returns (r: State, actions: seq<Action>)
    requires s.pc == PollOrphan(snap) && snap.linked && (s.m.readyArmed ==> s.ctl.ready)
    requires s.h.trans.Armed? ==> s.ctl.pending
    ensures r == Run(cfg, s, actions)
    ensures r == s.(pc := PollCheck(snap), m := s.m.(readyArmed := true), ctl := s.ctl.(ready := true))
  {
    r, actions := Extend(cfg, s, s, [], Turn(0, 0));
    assert r == s.(pc := PollArm(snap));
    r, actions := Extend(cfg, s, r, actions, Turn(0, 0));
  }

  // A whole session start: connected, ready and idle at the loop top.
  predicate Ready(s: State)
  {
    && Calm(s) && s.pc == Waiting && s.f.connected && s.f.linked && s.f.authority && !s.f.dropped
    && s.m.readyArmed && s.ctl.ready && !s.ctl.pending && s.ctl.status == Status(true, true, 0, 0)
    && s.h.queue == [] && s.h.trans == Idle && s.f.snapError == 0
  }

  lemma Starts(cfg: Config, s: State) returns (r: State, actions: seq<Action>)
    requires Calm(s) && s.pc == Attempt && !s.ctl.pending && s.f.snapError == 0 && !s.m.readyArmed
    requires s.h.queue == [] && s.h.trans == Idle
    ensures r == Run(cfg, s, actions) && Ready(r) && r.h == s.h && r.l == s.l && r.y.sessions == s.y.sessions + 1
  {
    var s1, a1 := Connects(cfg, s);
    var s2, a2 := PassesQueue(cfg, s1);
    var a3;
    r, a3 := FirstPoll(cfg, s2);
    actions := a1 + (a2 + a3);
    RunAppend(cfg, s, a1, a2 + a3);
    RunAppend(cfg, s1, a2, a3);
  }

  // A pass with nothing queued.
  lemma PassesQueue(cfg: Config, s: State) returns (r: State, actions: seq<Action>)
    requires Calm(s) && s.pc == Waiting && !s.f.dropped && s.h.trans == Idle && s.h.queue == []
    ensures r == Run(cfg, s, actions) && r == s.(pc := MotionFlag, m := s.m.(passNow := s.m.time))
  {
    var s1, a1 := ReachesQueue(cfg, s);
    var a2;
    r, a2 := Extend(cfg, s1, s1, [], Turn(0, 0));
    actions := a1 + a2;
    RunAppend(cfg, s, a1, a2);
  }

  // The first snapshot of a session arms readiness.
  lemma FirstPoll(cfg: Config, s: State) returns (r: State, actions: seq<Action>)
    requires Calm(s) && s.pc == MotionFlag && s.f.connected && s.f.linked && s.f.authority && !s.f.dropped
    requires !s.m.readyArmed && !s.ctl.pending && s.h.queue == [] && s.h.trans == Idle
    ensures r == Run(cfg, s, actions) && Ready(r) && r.h == s.h && r.l == s.l && r.y.sessions == s.y.sessions
  {
    var s1, a1 := ReachesPoll(cfg, s);
    var s2, a2 := ReachesCheck(cfg, s1, 0);
    var a3;
    r, a3 := Extend(cfg, s2, s2, [], Turn(0, 0));
    assert r == s2.(pc := Waiting);
    actions := a1 + (a2 + a3);
    RunAppend(cfg, s, a1, a2 + a3);
    RunAppend(cfg, s1, a2, a3);
  }

  // Two steps of request_mode: the gate check and the controller's acceptance.
  lemma Asks(cfg: Config, s: State, name: string, mode: nat) returns (r: State, actions: seq<Action>)
    requires Ready(s) && ModeCode(name) == Some(mode) && s.l.next !in s.h.checked
    ensures r == Run(cfg, s, actions) && Calm(r)
    ensures r.h == s.h.(accepted := s.h.accepted[s.l.next := mode])
    ensures r.f == s.f && r.pc == s.pc && r.m == s.m && r.y == s.y
    ensures r.ctl.pending && r.ctl.pendingMode == mode && r.ctl.gate && r.ctl.ready && r.ctl.status == s.ctl.status
    ensures r.l.next == s.l.next + 1 && r.l.outcome == s.l.outcome
  {
    var p := s.l.next;
    r, actions := Extend(cfg, s, s, [], CheckMode);
    r, actions := Extend(cfg, s, r, actions, AskMode(p, name));
    assert s.h.checked + {p} - {p} == s.h.checked;
  }

  // The link drops and the session is torn down.
  lemma Drops(cfg: Config, s: State) returns (r: State, actions: seq<Action>)
    requires Calm(s) && s.pc == Waiting && s.h.queue == [] && s.h.trans == Idle
    ensures r == Run(cfg, s, actions) && Calm(r) && r.pc == Attempt && !r.ctl.pending && r.f.snapError == 0
    ensures !r.m.readyArmed && r.h == s.h && r.l == s.l && r.y.sessions == s.y.sessions
  {
    var s1, a1 := LosesLink(cfg, s);
    var s2, a2 := EndsSession(cfg, s1);
    var a3;
    r, a3 := Clears(cfg, s2);
    actions := a1 + (a2 + a3);
    RunAppend(cfg, s, a1, a2 + a3);
    RunAppend(cfg, s1, a2, a3);
  }

  lemma LosesLink(cfg: Config, s: State) returns (r: State, actions: seq<Action>)
    requires Calm(s) && s.pc == Waiting
    ensures r == Run(cfg, s, actions) && Calm(r) && r.pc == EndSession && !r.ctl.pending
    ensures r.m == s.m && r.h == s.h && r.l == s.l && r.y == s.y
  {
    r, actions := Extend(cfg, s, s, [], Report(false, false));
    r, actions := Extend(cfg, s, r, actions, Turn(0, 0));
  }

  lemma EndsSession(cfg: Config, s: State) returns (r: State, actions: seq<Action>)
    requires Calm(s) && s.pc == EndSession && s.h.queue == [] && s.h.trans == Idle
    ensures r == Run(cfg, s, actions) && r == s.(pc := ClearCaches, f := s.f.(connected := false))
  {
    r, actions := Extend(cfg, s, s, [], Turn(0, 0));
    assert r == s.(pc := Draining, f := s.f.(connected := false));
    r, actions := Extend(cfg, s, r, actions, Turn(0, 0));
  }

  lemma Clears(cfg: Config, s: State) returns (r: State, actions: seq<Action>)
    requires Calm(s) && s.pc == ClearCaches && !s.ctl.pending
    ensures r == Run(cfg, s, actions) && Calm(r) && r.pc == Attempt && !r.ctl.pending && r.f.snapError == 0
    ensures !r.m.readyArmed && r.h == s.h && r.l == s.l && r.y == s.y
  {
    CachesCleared(cfg, s);
    r, actions := Extend(cfg, s, s, [], Turn(0, 0));
    ControllerCleared(cfg, r);
    r, actions := Extend(cfg, s, r, actions, Turn(0, 0));
    r, actions := Extend(cfg, s, r, actions, Turn(0, 0));
  }

  lemma CachesCleared(cfg: Config, s: State)
    requires s.pc == ClearCaches
    ensures var r := Step(cfg, s, Turn(0, 0));
            && r == s.(pc := ClearStatus, m := s.m.(readyArmed := false), f := r.f)
            && r.f.stop == s.f.stop && r.f.snapError == 0
  {
  }

  lemma ControllerCleared(cfg: Config, s: State)
    requires Calm(s) && s.pc == ClearStatus
    ensures var r := Step(cfg, s, Turn(0, 0)); var t := Step(cfg, r, Turn(0, 0));
            && t == s.(pc := Attempt, ctl := t.ctl) && !t.ctl.pending && !t.ctl.estop && !t.ctl.hasVelocity
  {
    assert Step(cfg, s, Turn(0, 0)).pc == ClearController;
  }

  // The earlier request is enqueued and executed.
  lemma Executes(cfg: Config, s: State, p: Promise) returns (r: State, actions: seq<Action>)
    requires cfg.capacity > 0 && cfg.modeTimeout > 0
    requires Calm(s) && s.pc == Waiting && s.f.connected && s.f.linked && !s.f.dropped
    requires s.h.queue == [] && s.h.trans == Idle && p in s.h.accepted && StableStatus(s.h.accepted[p]) != 0
    ensures r == Run(cfg, s, actions) && Calm(r) && r.pc == MotionFlag && r.ctl == s.ctl && r.f == s.f && r.l == s.l
    ensures r.h.trans.Armed? && r.h.trans.promise == p && r.h.trans.mode == s.h.accepted[p]
    ensures r.h.trans.stable == StableStatus(s.h.accepted[p]) && r.m.passNow < r.h.trans.deadline
    ensures r.m.readyArmed == s.m.readyArmed && r.y.sessions == s.y.sessions
  {
    var mode := s.h.accepted[p];
    var s1, a1 := Enqueues(cfg, s, p);
    var s2, a2 := ReachesQueue(cfg, s1);
    var a3;
    r, a3 := SetsMode(cfg, s2, p, mode);
    actions := a1 + (a2 + a3);
    RunAppend(cfg, s, a1, a2 + a3);
    RunAppend(cfg, s1, a2, a3);
  }

  lemma Enqueues(cfg: Config, s: State, p: Promise) returns (r: State, actions: seq<Action>)
    requires cfg.capacity > 0 && Calm(s) && s.pc == Waiting && s.f.connected && s.f.linked && !s.f.dropped
    requires s.h.queue == [] && p in s.h.accepted
    ensures r == Run(cfg, s, actions)
    ensures r == s.(h := s.h.(accepted := s.h.accepted - {p}, queue := [Mode(s.h.accepted[p], p)]))
  {
    r, actions := Extend(cfg, s, s, [], EnqueueMode(p));
  }

  lemma SetsMode(cfg: Config, s: State, p: Promise, mode: nat) returns (r: State, actions: seq<Action>)
    requires cfg.modeTimeout > 0 && Calm(s) && s.pc == PopCommand && s.m.passNow == s.m.time
    requires s.h.queue == [Mode(mode, p)] && s.h.trans == Idle && StableStatus(mode) != 0
    ensures r == Run(cfg, s, actions) && Calm(r) && r.pc == MotionFlag && r.ctl == s.ctl && r.f == s.f && r.l == s.l
    ensures r.h.trans == Armed(p, mode, StableStatus(mode), s.m.time + cfg.modeTimeout)
    ensures r.m == s.m && r.y.sessions == s.y.sessions
  {
    PopsMode(cfg, s, p, mode);
    r, actions := Extend(cfg, s, s, [], Turn(0, 0));
    ModeIsSet(cfg, r, p, mode);
    r, actions := Extend(cfg, s, r, actions, Turn(0, 0));
    r, actions := Extend(cfg, s, r, actions, Turn(0, 0));
  }

  lemma PopsMode(cfg: Config, s: State, p: Promise, mode: nat)
    requires s.pc == PopCommand && s.h.queue == [Mode(mode, p)]
    ensures var r := Step(cfg, s, Turn(0, 0));
            r == s.(pc := Execute(Mode(mode, p)), h := s.h.(queue := []), y := r.y) && r.y.sessions == s.y.sessions
  {
  }

  lemma ModeIsSet(cfg: Config, s: State, p: Promise, mode: nat)
    requires Calm(s) && s.pc == Execute(Mode(mode, p)) && s.h.trans == Idle && StableStatus(mode) != 0
    ensures var r := Step(cfg, s, Turn(0, 0)); var t := Step(cfg, r, Turn(0, 0));
            && t == s.(pc := MotionFlag, h := t.h, y := t.y) && t.y.sessions == s.y.sessions
            && t.h.estopMark == s.h.estopMark
            && t.h.trans == Armed(p, mode, StableStatus(mode), s.m.time + cfg.modeTimeout)
  {
    assert Step(cfg, s, Turn(0, 0)) == s.(pc := SetMode(Mode(mode, p)));
  }

  // A snapshot shows the executed mode's stable status.
  lemma Confirms(cfg: Config, s: State) returns (r: State, actions: seq<Action>)
    requires Calm(s) && s.pc == MotionFlag && s.f.linked && s.f.authority && s.ctl.ready && s.ctl.pending
    requires s.h.trans.Armed? && s.m.passNow < s.h.trans.deadline
    ensures r == Run(cfg, s, actions) && r.pc.PollConfirm? && r.h == s.h && r.l == s.l && SameModes(s.ctl, r.ctl)
    ensures r.y.sessions == s.y.sessions
  {
    var s1, a1 := ReachesPoll(cfg, s);
    var s2, a2 := ReachesCheck(cfg, s1, s.h.trans.stable);
    var a3;
    r, a3 := Extend(cfg, s2, s2, [], Turn(0, 0));
    actions := a1 + (a2 + a3);
    RunAppend(cfg, s, a1, a2 + a3);
    RunAppend(cfg, s1, a2, a3);
  }

  // ---------- the run ----------

  lemma Names()
    ensures ModeCode("stand") == Some(0xA102) && ModeCode("move") == Some(MODE_MOVE)
  {
    NormalKept("stand");
    NormalKept("move");
  }

  // First session: promise 0 asks for stand, and the link drops.
  lemma FirstSession(cfg: Config) returns (r: State, actions: seq<Action>)
    ensures r == Run(cfg, Start(0), actions) && Calm(r) && r.pc == Attempt && !r.ctl.pending && r.f.snapError == 0
    ensures !r.m.readyArmed && r.h.queue == [] && r.h.trans == Idle && r.h.accepted == map[0 := 0xA102]
    ensures r.h.checked == {} && r.l.next == 1 && r.l.outcome == map[] && r.y.sessions == 1
  {
    Names();
    var s1, a1 := Starts(cfg, Start(0));
    var s2, a2 := Asks(cfg, s1, "stand", 0xA102);
    var a3;
    r, a3 := Drops(cfg, s2);
    actions := a1 + (a2 + a3);
    RunAppend(cfg, Start(0), a1, a2 + a3);
    RunAppend(cfg, s1, a2, a3);
  }

  // Second session: promise 1 asks for move, and only then is promise 0
  // enqueued, executed and seen stable.
  lemma SecondSession(cfg: Config, s: State) returns (r: State, actions: seq<Action>)
    requires cfg.capacity > 0 && cfg.modeTimeout > 0
    requires Calm(s) && s.pc == Attempt && !s.ctl.pending && s.f.snapError == 0 && !s.m.readyArmed
    requires s.h.queue == [] && s.h.trans == Idle && s.h.accepted == map[0 := 0xA102]
    requires s.h.checked == {} && s.l.next == 1 && s.l.outcome == map[]
    ensures r == Run(cfg, s, actions) && r.pc.PollConfirm? && r.y.sessions == s.y.sessions + 1
    ensures r.h.trans.Armed? && r.h.trans.promise == 0 && r.h.trans.mode == 0xA102 && r.l.outcome == map[]
    ensures r.ctl.pending && r.ctl.pendingMode == MODE_MOVE
  {
    Names();
    var s1, a1 := Starts(cfg, s);
    var s2, a2 := Asks(cfg, s1, "move", MODE_MOVE);
    var s3, a3 := Executes(cfg, s2, 0);
    var a4;
    r, a4 := Confirms(cfg, s3);
    actions := a1 + (a2 + (a3 + a4));
    RunAppend(cfg, s, a1, a2 + (a3 + a4));
    RunAppend(cfg, s1, a2, a3 + a4);
    RunAppend(cfg, s2, a3, a4);
  }

  // MAIN RESULT. The future of a stand request accepted in the first session
  // succeeds in the second one, and its confirmation opens the motion gate.
  lemma StandOpensGate(cfg: Config) returns (actions: seq<Action>)
    requires cfg.capacity > 0 && cfg.modeTimeout > 0
    ensures var s := Run(cfg, Start(0), actions);
            var t := Step(cfg, s, Turn(0, 0));
            && s.y.sessions == 2 && s.pc.PollConfirm? && s.h.trans.Armed? && s.h.trans.promise == 0
            && s.h.trans.mode == 0xA102 && s.ctl.pending && s.ctl.pendingMode == MODE_MOVE
            && 0 in t.l.outcome && t.l.outcome[0] == Success && !t.ctl.gate
  {
    var s1, a1 := FirstSession(cfg);
    var s2, a2 := SecondSession(cfg, s1);
    actions := a1 + a2;
    RunAppend(cfg, Start(0), a1, a2);
  }
}
