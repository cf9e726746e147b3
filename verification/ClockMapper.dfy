/**
 Mapping of the sensor's device clock onto the receiver's clock.

 Arithmetic is on unbounded integers; NoOverflow shows where the 64-bit
 original computes the same values.
 */
module ClockMapper {

  const I64_MAX := 0x7FFF_FFFF_FFFF_FFFF
  const RESTART_TOLERANCE := 1_000_000_000
  const OFFSET_JUMP := 2_000_000_000

  datatype Mapper = Mapper(initialized: bool, offset: int, lastDevice: int)

  function Abs(x: int): int { if x < 0 then -x else x }

  // Device restart or a multi-second jump: the old offset is void.
  predicate Resets(m: Mapper, device: nat, receive: int)
  {
    !m.initialized || device + RESTART_TOLERANCE < m.lastDevice || Abs(receive - device - m.offset) > OFFSET_JUMP
  }

  function Observe(m: Mapper, device: nat, receive: int): Mapper
  {
    if device > I64_MAX then m
    else
      var seen := receive - device;
      var offset :=
        if Resets(m, device, receive) || seen < m.offset then seen else m.offset + (seen - m.offset) / 64;
      Mapper(true, offset, device)
  }

  function Mapped(m: Mapper, device: nat, receive: int): int
  {
    if device + m.offset < receive then device + m.offset else receive
  }

  function OdometryStamp(m: Mapper, device: nat, receive: int): int
  {
    if device > I64_MAX then receive else Mapped(Observe(m, device, receive), device, receive)
  }

  function CloudStamp(m: Mapper, device: nat, receive: int): int
  {
    if !m.initialized || device > I64_MAX then receive else Mapped(m, device, receive)
  }

  class LidarDeviceClockMapper {
    var initialized: bool
    var offset: int
    var lastDevice: int

    function Value(): Mapper
      reads this
    {
      Mapper(initialized, offset, lastDevice)
    }

    constructor ()
      ensures Value() == Mapper(false, 0, 0)
    {
      initialized, offset, lastDevice := false, 0, 0;
    }

    method ObserveOdometry(device: nat, receive: int) returns (stamp: int)
      modifies this
      ensures Value() == Observe(old(Value()), device, receive)
      ensures stamp == OdometryStamp(old(Value()), device, receive)
    {
      if device > I64_MAX { return receive; }
      var seen := receive - device;
      var restarted := initialized && device + RESTART_TOLERANCE < lastDevice;
      var jumped := initialized && Abs(seen - offset) > OFFSET_JUMP;
      if !initialized || restarted || jumped {
        offset := seen;
        initialized := true;
      } else if seen < offset {
        offset := seen;
      } else {
        offset := offset + (seen - offset) / 64;
      }
      lastDevice := device;
      stamp := Mapped(Value(), device, receive);
    }

    method MapCloud(device: nat, receive: int) returns (stamp: int)
      ensures stamp == CloudStamp(Value(), device, receive)
    {
      if !initialized || device > I64_MAX { return receive; }
      stamp := Mapped(Value(), device, receive);
    }
  }

  // ---------- runs ----------

  datatype Sample = Sample(device: nat, receive: int)

  function Run(xs: seq<Sample>): Mapper
  {
    if xs == [] then Mapper(false, 0, 0)
    else Observe(Run(xs[..|xs| - 1]), xs[|xs| - 1].device, xs[|xs| - 1].receive)
  }

  ghost predicate InRange(xs: seq<Sample>)
  {
    forall i :: 0 <= i < |xs| ==> xs[i].device <= I64_MAX
  }

  // After an observation the offset never exceeds the observed one, so the
  // clamp of an odometry stamp never bites.
  lemma OffsetAtMostObserved(m: Mapper, device: nat, receive: int)
    requires device <= I64_MAX
    ensures Observe(m, device, receive).offset <= receive - device
    ensures OdometryStamp(m, device, receive) == device + Observe(m, device, receive).offset
  {
  }

  // MAIN RESULT. The first observation, a device clock more than a second behind
  // the last one, an offset more than two seconds higher and any lower one set
  // the offset to the observed one; otherwise it rises by a sixty-fourth of the
  // gap, rounded down.
  lemma ObserveMeaning(m: Mapper, device: nat, receive: int)
    requires device <= I64_MAX
    ensures var seen, r := receive - device, Observe(m, device, receive);
            && r.initialized && r.lastDevice == device
            && (!m.initialized || device + 1_000_000_000 < m.lastDevice ==> r.offset == seen)
            && (seen - m.offset > 2_000_000_000 || seen < m.offset ==> r.offset == seen)
            && (m.initialized && device + 1_000_000_000 >= m.lastDevice && 0 <= seen - m.offset <= 2_000_000_000 ==>
                  64 * (r.offset - m.offset) <= seen - m.offset < 64 * (r.offset - m.offset) + 64)
  {
  }

  // A device stamp beyond 63 bits leaves the mapper alone and maps to the
  // reception time.
  lemma HugeStampIgnored(m: Mapper, device: nat, receive: int)
    requires device >= 0x8000_0000_0000_0000
    ensures Observe(m, device, receive) == m
    ensures OdometryStamp(m, device, receive) == receive && CloudStamp(m, device, receive) == receive
  {
  }

  // Before any odometry a cloud keeps its reception time; afterwards it gets its
  // device stamp plus the offset, but never a later time than its reception.
  lemma CloudMeaning(m: Mapper, device: nat, receive: int)
    ensures var r := CloudStamp(m, device, receive);
            if !m.initialized || device >= 0x8000_0000_0000_0000 || device + m.offset >= receive then r == receive
            else r == device + m.offset
  {
  }

  // Observations within [lo, hi] keep the offset in [lo, hi].
  lemma {:induction false} OffsetStaysInBand(xs: seq<Sample>, lo: int, hi: int)
    requires xs != [] && InRange(xs)
    requires forall i :: 0 <= i < |xs| ==> lo <= xs[i].receive - xs[i].device <= hi
    ensures Run(xs).initialized && lo <= Run(xs).offset <= hi
  {
    if |xs| > 1 { OffsetStaysInBand(xs[..|xs| - 1], lo, hi); }
  }

  // A cloud carrying the last odometry's device stamp, received no earlier,
  // gets the odometry's stamp.
  lemma {:induction false} CloudMatchesOdometry(xs: seq<Sample>, device: nat, receive: int, later: int)
    requires InRange(xs) && device <= I64_MAX && receive <= later
    ensures CloudStamp(Run(xs + [Sample(device, receive)]), device, later) == OdometryStamp(Run(xs), device, receive)
  {
    assert (xs + [Sample(device, receive)])[..|xs|] == xs;
    OffsetAtMostObserved(Run(xs), device, receive);
  }

  // No stamp handed out lies after its reception.
  lemma StampsNotInFuture(m: Mapper, device: nat, receive: int)
    ensures OdometryStamp(m, device, receive) <= receive && CloudStamp(m, device, receive) <= receive
  {
  }

  // ---------- convergence ----------

  function Pow(b: nat, n: nat): nat { if n == 0 then 1 else b * Pow(b, n - 1) }

  lemma {:induction false} PowPositive(b: nat, n: nat)
    requires b > 0
    ensures Pow(b, n) > 0
  {
    if n > 0 { PowPositive(b, n - 1); }
  }

  // Observations that all show the offset `seen`.
  ghost predicate Steady(xs: seq<Sample>, seen: int)
  {
    InRange(xs) && forall i :: 0 <= i < |xs| ==> xs[i].receive - xs[i].device == seen
  }

  ghost function RunFrom(m: Mapper, xs: seq<Sample>): Mapper
  {
    if xs == [] then m
    else Observe(RunFrom(m, xs[..|xs| - 1]), xs[|xs| - 1].device, xs[|xs| - 1].receive)
  }

  lemma GapStep(m: Mapper, device: nat, receive: int)
    requires m.initialized && device <= I64_MAX && m.offset <= receive - device
    ensures var gap := receive - device - m.offset;
            var gap' := receive - device - Observe(m, device, receive).offset;
            0 <= gap' <= gap && 64 * (gap' - 63) <= 63 * (gap - 63)
  {
  }

  // Repeated observations of one offset approach it from below without ever
  // passing it, and the distance above 63 ns shrinks by a factor 63/64 a step.
  lemma {:induction false} Converges(m: Mapper, xs: seq<Sample>, seen: int)
    requires m.initialized && m.offset <= seen && Steady(xs, seen)
    ensures var gap := seen - RunFrom(m, xs).offset;
            && RunFrom(m, xs).initialized && 0 <= gap <= seen - m.offset
            && (gap <= 63 || Pow(64, |xs|) * (gap - 63) <= Pow(63, |xs|) * (seen - m.offset - 63))
  {
    if xs != [] {
      var n := |xs| - 1;
      Converges(m, xs[..n], seen);
      var r := RunFrom(m, xs[..n]);
      GapStep(r, xs[n].device, xs[n].receive);
      var g, g', g0 := seen - r.offset, seen - RunFrom(m, xs).offset, seen - m.offset;
      if g' > 63 {
        ScaleStep(Pow(64, n), Pow(63, n), g - 63, g' - 63, g0 - 63);
      }
    }
  }

  lemma ScaleStep(p: nat, q: nat, a: int, a': int, z: int)
    requires p * a <= q * z && 64 * a' <= 63 * a
    ensures (64 * p) * a' <= (63 * q) * z
  {
    calc {
      (64 * p) * a';
      == p * (64 * a');
      <= { MulMono(p, 64 * a', 63 * a); } p * (63 * a);
      == 63 * (p * a);
      <= 63 * (q * z);
      == (63 * q) * z;
    }
  }

  lemma MulMono(p: nat, x: int, y: int)
    requires x <= y
    ensures p * x <= p * y
  {
  }

  // After as many observations as the initial distance the offset is within
  // 63 ns below the observed one, and stays there.
  lemma {:induction false} ReachesBand(m: Mapper, xs: seq<Sample>, seen: int)
    requires m.initialized && m.offset <= seen && Steady(xs, seen) && |xs| >= seen - m.offset
    ensures seen - 63 <= RunFrom(m, xs).offset <= seen
  {
    GapShrinks(m, xs, seen);
  }

  lemma {:induction false} GapShrinks(m: Mapper, xs: seq<Sample>, seen: int)
    requires m.initialized && m.offset <= seen && Steady(xs, seen)
    ensures var r := RunFrom(m, xs);
            r.initialized && r.offset <= seen && (seen - r.offset <= 63 || seen - r.offset <= seen - m.offset - |xs|)
  {
    if xs != [] { GapShrinks(m, xs[..|xs| - 1], seen); }
  }

  // ---------- 64-bit arithmetic ----------

  predicate Fits(x: int) { -0x8000_0000_0000_0000 <= x <= I64_MAX }

  // With stamps below 2^62 every intermediate value fits 64 bits.
  lemma {:induction false} NoOverflow(xs: seq<Sample>, device: nat, receive: nat)
    requires forall i :: 0 <= i < |xs| ==> xs[i].device < 0x4000_0000_0000_0000
    requires forall i :: 0 <= i < |xs| ==> 0 <= xs[i].receive < 0x4000_0000_0000_0000
    requires device < 0x4000_0000_0000_0000 && receive < 0x4000_0000_0000_0000
    ensures var m := Run(xs);
            var m' := Observe(m, device, receive);
            && Fits(receive - device) && Fits(device + RESTART_TOLERANCE) && Fits(receive - device - m.offset)
            && Fits(m'.offset) && Fits(device + m'.offset) && Fits(device + m.offset)
  {
    if xs != [] {
      OffsetStaysInBand(xs, -0x4000_0000_0000_0000, 0x4000_0000_0000_0000 - 1);
    }
  }
}
