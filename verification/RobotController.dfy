/**
 The motion safety controller: a readiness gate, a mode-transition gate, an
 emergency-stop latch and a command deadman.

 Functions give one call on values; the class performs the calls in place. The
 clock is a parameter of every call that reads it.
 */
module RobotController {
  import opened Options
  import opened ModeNames

  // A velocity component; the source rejects infinities and NaN.
  datatype Component = Finite(v: real) | NonFinite

  datatype Command = Command(vx: Component, vy: Component, vyaw: Component)

  datatype Velocity = Velocity(vx: real, vy: real, vyaw: real)

  const ZERO := Velocity(0.0, 0.0, 0.0)

  datatype Status = Status(linked: bool, authority: bool, sport: nat, error: nat)

  const NO_STATUS := Status(false, false, 0, 0)

  datatype Refusal = Protocol | InvalidCommand | Pending | Timeout | Disconnected | NoAuthority | EstopLatched
      | SystemError

  datatype Controller = Controller(status: Status, latest: Velocity, latestAt: int, hasVelocity: bool,
                                   estop: bool, ready: bool, gate: bool, pending: bool, pendingMode: nat)

  const SPORT_MOVE := 0xB104
  const MODE_DAMPING := 0xA101
  const MODE_MOVE := 0xA104

  function Initial(): Controller
  {
    Controller(NO_STATUS, ZERO, 0, false, false, false, false, false, 0)
  }

  predicate MovementReady(c: Controller)
  {
    && c.ready && !c.gate && !c.pending && c.status.linked && c.status.authority
    && c.status.sport == SPORT_MOVE && c.status.error == 0 && !c.estop
  }

  function ForceZero(c: Controller, now: int): Controller
  {
    c.(latest := ZERO, hasVelocity := false, latestAt := now)
  }

  predicate IsFinite(cmd: Command) { cmd.vx.Finite? && cmd.vy.Finite? && cmd.vyaw.Finite? }

  function Clamp(v: real): (r: real)
    ensures -1.0 <= r <= 1.0 && (-1.0 <= v <= 1.0 ==> r == v)
  {
    if v < -1.0 then -1.0 else if v > 1.0 then 1.0 else v
  }

  function Clamped(cmd: Command): Velocity
    requires IsFinite(cmd)
  {
    Velocity(Clamp(cmd.vx.v), Clamp(cmd.vy.v), Clamp(cmd.vyaw.v))
  }

  predicate Accepts(c: Controller, cmd: Command) { IsFinite(cmd) && MovementReady(c) }

  function AcceptVelocity(c: Controller, cmd: Command, now: int): Controller
  {
    if Accepts(c, cmd) then c.(latest := Clamped(cmd), latestAt := now, hasVelocity := true) else ForceZero(c, now)
  }

  // velocity_for_tick: the value to send, or None.
  function TickVelocity(c: Controller, now: int, deadman: int): Option<Velocity>
  {
    if !MovementReady(c) || !c.hasVelocity || now - c.latestAt > deadman then None else Some(c.latest)
  }

  function TriggerEstop(c: Controller, now: int): Controller { ForceZero(c.(estop := true), now) }

  function ClearEstop(c: Controller, now: int): Controller { ForceZero(c.(estop := false), now) }

  // Why a mode request is refused, or None when it is accepted.
  function ModeRefusal(c: Controller, mode: Option<nat>): Option<Refusal>
  {
    if mode.None? then Some(InvalidCommand)
    else if !c.ready then Some(Protocol)
    else if c.pending then Some(Pending)
    else if !c.status.linked then Some(Disconnected)
    else if c.status.error != 0 then Some(SystemError)
    else if !c.status.authority then Some(NoAuthority)
    else if c.estop && mode.value != MODE_DAMPING then Some(EstopLatched)
    else None
  }

  function RequestMode(c: Controller, mode: Option<nat>, now: int): Controller
  {
    if ModeRefusal(c, mode).Some? then c
    else ForceZero(c.(pending := true, pendingMode := mode.value, gate := true), now)
  }

  function CompleteMode(c: Controller, success: bool, now: int): Controller
  {
    ForceZero(c.(pending := false, pendingMode := 0,
                 gate := !(success && c.pending && c.pendingMode == MODE_MOVE)), now)
  }

  function SetReady(c: Controller, ready: bool, now: int): Controller
  {
    if ready then c.(ready := true)
    else ForceZero(c.(ready := false, pending := false, pendingMode := 0, gate := true), now)
  }

  function Invalidate(c: Controller, now: int): Controller
  {
    ForceZero(c.(ready := false, pending := false, pendingMode := 0, gate := true), now)
  }

  // A report without link, without authority or with a system error.
  predicate Loses(s: Status) { !s.linked || !s.authority || s.error != 0 }

  function UpdateStatus(c: Controller, s: Status, now: int): Controller
  {
    var d := if Loses(s) then c.(status := s, pending := false, pendingMode := 0, gate := true) else c.(status := s);
    if MovementReady(c) != MovementReady(d) || !MovementReady(d) then ForceZero(d, now) else d
  }

  // ---------- the controller object ----------

  class SafetyController {
    const deadman: int
    var status: Status
    var latest: Velocity
    var latestAt: int
    var hasVelocity: bool
    var estop: bool
    var ready: bool
    var gate: bool
    var pending: bool
    var pendingMode: nat

    function Value(): Controller
      reads this
    {
      Controller(status, latest, latestAt, hasVelocity, estop, ready, gate, pending, pendingMode)
    }

    constructor (commandDeadman: int)
      ensures deadman == commandDeadman && Value() == Initial()
    {
      deadman := commandDeadman;
      status, latest, latestAt, hasVelocity := NO_STATUS, ZERO, 0, false;
      estop, ready, gate, pending, pendingMode := false, false, false, false, 0;
    }

    method ForceZeroVelocity(now: int)
      modifies this`latest, this`hasVelocity, this`latestAt
      ensures Value() == ForceZero(old(Value()), now)
    {
      latest, hasVelocity, latestAt := ZERO, false, now;
    }

    method AcceptCommand(cmd: Command, now: int) returns (r: Option<Velocity>)
      modifies this
      ensures Value() == AcceptVelocity(old(Value()), cmd, now)
      ensures r == if Accepts(old(Value()), cmd) then Some(Clamped(cmd)) else None
    {
      if !IsFinite(cmd) || !MovementReady(Value()) {
        ForceZeroVelocity(now);
        return None;
      }
      latest := Velocity(Clamp(cmd.vx.v), Clamp(cmd.vy.v), Clamp(cmd.vyaw.v));
      latestAt := now;
      hasVelocity := true;
      r := Some(latest);
    }

    method VelocityForTick(now: int) returns (r: Option<Velocity>)
      ensures r == TickVelocity(Value(), now, deadman)
    {
      if !MovementReady(Value()) || !hasVelocity || now - latestAt > deadman {
        return None;
      }
      r := Some(latest);
    }

    method Trigger(now: int)
      modifies this
      ensures Value() == TriggerEstop(old(Value()), now)
    {
      estop := true;
      ForceZeroVelocity(now);
    }

    method Clear(now: int)
      modifies this
      ensures Value() == ClearEstop(old(Value()), now)
    {
      estop := false;
      ForceZeroVelocity(now);
    }

    method Request(name: string, now: int) returns (refusal: Option<Refusal>)
      modifies this
      ensures Value() == RequestMode(old(Value()), ModeCode(name), now)
      ensures refusal == ModeRefusal(old(Value()), ModeCode(name))
    {
      var normalized := NormalizedMode(name);
      var mode := TableCode(normalized);
      refusal := ModeRefusal(Value(), mode);
      if refusal.None? {
        pending := true;
        pendingMode := mode.value;
        gate := true;
        ForceZeroVelocity(now);
      }
    }

    method Complete(success: bool, now: int)
      modifies this
      ensures Value() == CompleteMode(old(Value()), success, now)
    {
      var enteredMove := success && pending && pendingMode == MODE_MOVE;
      pending := false;
      pendingMode := 0;
      gate := !enteredMove;
      ForceZeroVelocity(now);
    }

    method SetDriverReady(isReady: bool, now: int)
      modifies this
      ensures Value() == SetReady(old(Value()), isReady, now)
    {
      ready := isReady;
      if !isReady {
        pending := false;
        pendingMode := 0;
        gate := true;
        ForceZeroVelocity(now);
      }
    }

    method InvalidateConnection(now: int)
      modifies this
      ensures Value() == Invalidate(old(Value()), now)
    {
      ready := false;
      pending := false;
      pendingMode := 0;
      gate := true;
      ForceZeroVelocity(now);
    }

    method UpdateRobotState(s: Status, now: int)
      modifies this
      ensures Value() == UpdateStatus(old(Value()), s, now)
    {
      var wasReady := MovementReady(Value());
      status := s;
      if !status.linked || !status.authority || status.error != 0 {
        pending := false;
        pendingMode := 0;
        gate := true;
      }
      if wasReady != MovementReady(Value()) || !MovementReady(Value()) {
        ForceZeroVelocity(now);
      }
    }
  }

  // Construction; a non-positive deadman is the source's invalid_argument
  // exception.
  method Create(deadman: int) returns (c: Option<SafetyController>)
    ensures c.Some? <==> deadman > 0
    ensures c.Some? ==> fresh(c.value) && c.value.deadman == deadman && c.value.Value() == Initial()
  {
    if deadman <= 0 { return None; }
    var made := new SafetyController(deadman);
    c := Some(made);
  }
}
