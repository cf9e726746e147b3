/**
 Bounded reassembly of point-cloud frames from packets keyed by point offset.

 The functions describe one assembler step on values; the class performs the
 same step in place, with the loops of the original, and is proved against them.
 */
module FrameAssembler {
  import opened Options

  // One accepted packet of a frame: a run of points starting at `offset`.
  datatype Chunk<P> = Chunk(offset: nat, points: seq<P>)

  datatype Packet<P> = Packet(timestamp: nat, total: nat, index: nat, points: seq<P>)

  datatype Frame<P> = Frame(timestamp: nat, totalPoints: nat, points: seq<P>)

  datatype Config = Config(maxParallel: nat, timeout: int, maxPoints: nat, maxPackets: nat)

  // `packets` is the ordered map of the original, listed in key order.
  datatype Slot<P> = Slot(active: bool, timestamp: nat, total: nat, packets: seq<Chunk<P>>,
                          unique: nat, sum: nat, activatedAt: int)

  datatype Stats = Stats(accepted: nat, duplicated: nat, rejected: nat, published: nat,
                         timedOut: nat, conflicts: nat, evicted: nat)

  datatype State<P> = State(slots: seq<Slot<P>>, stats: Stats)

  // ---------- ordered-map operations ----------

  function End<P>(c: Chunk<P>): nat { c.offset + |c.points| }

  // Position of the first entry whose key is not below `index`.
  function LowerBound<P>(ps: seq<Chunk<P>>, index: nat): (j: nat)
    ensures j <= |ps|
    ensures forall i :: 0 <= i < j ==> ps[i].offset < index
    ensures j < |ps| ==> index <= ps[j].offset
  {
    if ps == [] || index <= ps[0].offset then 0 else 1 + LowerBound(ps[1..], index)
  }

  function Insert<P>(ps: seq<Chunk<P>>, j: nat, c: Chunk<P>): seq<Chunk<P>>
    requires j <= |ps|
  {
    ps[..j] + [c] + ps[j..]
  }

  function Sum<P>(ps: seq<Chunk<P>>): nat
  {
    if ps == [] then 0 else |ps[0].points| + Sum(ps[1..])
  }

  function Concat<P>(ps: seq<Chunk<P>>): seq<P>
  {
    if ps == [] then [] else ps[0].points + Concat(ps[1..])
  }

  // End of the gap-free run starting at `from`, or None at the first gap.
  function RunFrom<P>(ps: seq<Chunk<P>>, from: nat): Option<nat>
  {
    if ps == [] then Some(from)
    else if ps[0].offset != from then None
    else RunFrom(ps[1..], End(ps[0]))
  }

  // ---------- slots ----------

  function EmptySlot<P>(): Slot<P> { Slot(false, 0, 0, [], 0, 0, 0) }

  function Cleared<P>(s: Slot<P>): Slot<P>
  {
    s.(active := false, packets := [], unique := 0, sum := 0)
  }

  // First active slot of the timestamp, or |slots|.
  function SlotIndex<P>(slots: seq<Slot<P>>, ts: nat): (k: nat)
    ensures k <= |slots|
    ensures k < |slots| ==> slots[k].active && slots[k].timestamp == ts
    ensures forall i :: 0 <= i < k ==> !(slots[i].active && slots[i].timestamp == ts)
  {
    if slots == [] || (slots[0].active && slots[0].timestamp == ts) then 0
    else 1 + SlotIndex(slots[1..], ts)
  }

  // First inactive slot, or |slots|.
  function FreeIndex<P>(slots: seq<Slot<P>>): (k: nat)
    ensures k <= |slots|
    ensures k < |slots| ==> !slots[k].active
    ensures forall i :: 0 <= i < k ==> slots[i].active
  {
    if slots == [] || !slots[0].active then 0 else 1 + FreeIndex(slots[1..])
  }

  // First slot with the smallest activation time.
  function OldestIndex<P>(slots: seq<Slot<P>>): (k: nat)
    requires slots != []
    ensures k < |slots|
    ensures forall i :: 0 <= i < |slots| ==> slots[k].activatedAt <= slots[i].activatedAt
    ensures forall i :: 0 <= i < k ==> slots[k].activatedAt < slots[i].activatedAt
  {
    if |slots| == 1 then 0
    else
      var k := OldestIndex(slots[..|slots| - 1]);
      if slots[|slots| - 1].activatedAt < slots[k].activatedAt then |slots| - 1 else k
  }

  function InFlight<P>(slots: seq<Slot<P>>): nat
  {
    if slots == [] then 0 else InFlight(slots[..|slots| - 1]) + (if slots[|slots| - 1].active then 1 else 0)
  }

  function OpenedSlot<P>(ts: nat, now: int): Slot<P> { Slot(true, ts, 0, [], 0, 0, now) }

  // The slot for the timestamp: the active one, else a free one, else the
  // oldest incomplete frame is evicted.
  function OpenSlot<P>(s: State<P>, ts: nat, now: int): (r: (State<P>, nat))
    requires s.slots != []
    ensures r.1 < |r.0.slots| && |r.0.slots| == |s.slots|
    ensures r.0.slots[r.1].active && r.0.slots[r.1].timestamp == ts
  {
    var k := SlotIndex(s.slots, ts);
    if k < |s.slots| then (s, k)
    else
      var f := FreeIndex(s.slots);
      if f < |s.slots| then (s.(slots := s.slots[f := OpenedSlot(ts, now)]), f)
      else
        var o := OldestIndex(s.slots);
        (State(s.slots[o := OpenedSlot(ts, now)], s.stats.(evicted := s.stats.evicted + 1)), o)
  }

  // ---------- one step ----------

  function Reject<P>(s: State<P>): State<P>
  {
    s.(stats := s.stats.(rejected := s.stats.rejected + 1))
  }

  function DropConflict<P>(s: State<P>, k: nat): State<P>
    requires k < |s.slots|
  {
    State(s.slots[k := Cleared(s.slots[k])], s.stats.(conflicts := s.stats.conflicts + 1))
  }

  predicate RangeOutside<P>(p: Packet<P>)
  {
    p.index >= p.total || p.index + |p.points| > p.total
  }

  predicate Overlaps<P>(ps: seq<Chunk<P>>, j: nat, c: Chunk<P>)
    requires j <= |ps|
  {
    (j < |ps| && End(c) > ps[j].offset) || (j > 0 && End(ps[j - 1]) > c.offset)
  }

  // The frame-wide total: fixed by the first packet, a conflict when it changes.
  function Store<P(==)>(cfg: Config, s: State<P>, k: nat, p: Packet<P>): (r: (State<P>, Option<Frame<P>>))
    requires k < |s.slots|
    ensures |r.0.slots| == |s.slots|
  {
    var slot := s.slots[k];
    if slot.unique > 0 && slot.total != p.total then (DropConflict(s, k), None)
    else if slot.unique == 0 then Place(cfg, s.(slots := s.slots[k := slot.(total := p.total)]), k, p)
    else Place(cfg, s, k, p)
  }

  // Duplicate, packet cap, overlap and budget checks, then storage.
  function Place<P(==)>(cfg: Config, s: State<P>, k: nat, p: Packet<P>): (r: (State<P>, Option<Frame<P>>))
    requires k < |s.slots|
    ensures |r.0.slots| == |s.slots|
  {
    var slot := s.slots[k];
    var j := LowerBound(slot.packets, p.index);
    if j < |slot.packets| && slot.packets[j].offset == p.index then
      if slot.packets[j].points == p.points
      then (s.(stats := s.stats.(duplicated := s.stats.duplicated + 1)), None)
      else (DropConflict(s, k), None)
    else if |slot.packets| >= cfg.maxPackets then (Reject(s), None)
    else if Overlaps(slot.packets, j, Chunk(p.index, p.points)) || OverBudget(cfg, slot, p)
    then (DropConflict(s, k), None)
    else Finish(Accept(s, k, j, Chunk(p.index, p.points)), k)
  }

  predicate OverBudget<P>(cfg: Config, slot: Slot<P>, p: Packet<P>)
  {
    slot.sum + |p.points| > slot.total || slot.sum + |p.points| > cfg.maxPoints
  }

  function Accept<P>(s: State<P>, k: nat, j: nat, c: Chunk<P>): State<P>
    requires k < |s.slots| && j <= |s.slots[k].packets|
  {
    var slot := s.slots[k];
    State(s.slots[k := slot.(packets := Insert(slot.packets, j, c), unique := slot.unique + 1,
                             sum := slot.sum + |c.points|)],
          s.stats.(accepted := s.stats.accepted + 1))
  }

  predicate IsComplete<P>(slot: Slot<P>)
  {
    slot.sum == slot.total && slot.unique > 0 && RunFrom(slot.packets, 0) == Some(slot.total)
  }

  // Publishes the frame of slot k when it is complete.
  function Finish<P>(s: State<P>, k: nat): (State<P>, Option<Frame<P>>)
    requires k < |s.slots|
  {
    var slot := s.slots[k];
    if !IsComplete(slot) then (s, None)
    else if |Concat(slot.packets)| != slot.total then (DropConflict(s, k), None)
    else (State(s.slots[k := Cleared(slot)], s.stats.(published := s.stats.published + 1)),
          Some(Frame(slot.timestamp, slot.total, Concat(slot.packets))))
  }

  // add_packet; the input is None when the datagram did not parse.
  function AfterPacket<P(==)>(cfg: Config, s: State<P>, input: Option<Packet<P>>, now: int)
    : (r: (State<P>, Option<Frame<P>>))
    requires s.slots != []
    ensures |r.0.slots| == |s.slots|
  {
    if input.None? || input.value.total == 0 || input.value.total > cfg.maxPoints then (Reject(s), None)
    else if RangeOutside(input.value) then
      var k := SlotIndex(s.slots, input.value.timestamp);
      if k < |s.slots| then (DropConflict(s, k), None) else (Reject(s), None)
    else
      var (s1, k) := OpenSlot(s, input.value.timestamp, now);
      Store(cfg, s1, k, input.value)
  }

  predicate Stale<P>(cfg: Config, slot: Slot<P>, now: int)
  {
    slot.active && now - slot.activatedAt >= cfg.timeout
  }

  // Expiry of the first n slots.
  function ExpireFirst<P>(cfg: Config, s: State<P>, now: int, n: nat): (r: State<P>)
    requires n <= |s.slots|
    ensures |r.slots| == |s.slots|
    ensures r.slots[n..] == s.slots[n..]
  {
    if n == 0 then s
    else
      var r := ExpireFirst(cfg, s, now, n - 1);
      assert r.slots[n - 1] == r.slots[n - 1..][0] == s.slots[n - 1..][0] == s.slots[n - 1];
      assert r.slots[n..] == r.slots[n - 1..][1..] == s.slots[n - 1..][1..] == s.slots[n..];
      if !Stale(cfg, s.slots[n - 1], now) then r
      else State(r.slots[n - 1 := Cleared(r.slots[n - 1])], r.stats.(timedOut := r.stats.timedOut + 1))
  }

  function AfterExpiry<P>(cfg: Config, s: State<P>, now: int): (r: State<P>)
    ensures |r.slots| == |s.slots|
  {
    ExpireFirst(cfg, s, now, |s.slots|)
  }

  function Initial<P>(cfg: Config): (s: State<P>)
  {
    State(seq(if cfg.maxParallel == 0 then 1 else cfg.maxParallel, _ => EmptySlot()), Stats(0, 0, 0, 0, 0, 0, 0))
  }

  // ---------- the assembler object ----------

  datatype FinalizeReason = Published | Timeout | Conflict

  class PointCloudFrameAssembler<P(==)> {
    const config: Config
    var slots: seq<Slot<P>>
    var stats: Stats

    function Contents(): State<P>
      reads this
    {
      State(slots, stats)
    }

    constructor (cfg: Config)
      ensures config == cfg && Contents() == Initial(cfg)
    {
      config := cfg;
      slots := seq(if cfg.maxParallel == 0 then 1 else cfg.maxParallel, _ => EmptySlot());
      stats := Stats(0, 0, 0, 0, 0, 0, 0);
    }

    // Clears an active slot and bumps its drop counter.
    method FinalizeSlot(k: nat, reason: FinalizeReason)
      requires k < |slots|
      modifies this
      ensures !old(slots[k].active) ==> Contents() == old(Contents())
      ensures old(slots[k].active) ==>
                slots == old(slots)[k := Cleared(old(slots[k]))] &&
                stats == match reason
                         case Timeout => old(stats).(timedOut := old(stats.timedOut) + 1)
                         case Conflict => old(stats).(conflicts := old(stats.conflicts) + 1)
                         case Published => old(stats)
    {
      if !slots[k].active { return; }
      slots := slots[k := slots[k].(active := false, packets := [], unique := 0, sum := 0)];
      match reason
      case Timeout => stats := stats.(timedOut := stats.timedOut + 1);
      case Conflict => stats := stats.(conflicts := stats.conflicts + 1);
      case Published =>
    }

    method FindSlot(ts: nat) returns (k: nat)
      ensures k == SlotIndex(slots, ts)
    {
      k := 0;
      while k < |slots|
        invariant k <= |slots|
        invariant SlotIndex(slots, ts) == k + SlotIndex(slots[k..], ts)
      {
        if slots[k].active && slots[k].timestamp == ts { return; }
        assert slots[k..][1..] == slots[k + 1..];
        k := k + 1;
      }
    }

    // Scans for a free slot, remembering the oldest slot passed.
    method ScanForRoom() returns (free: nat, oldest: nat)
      requires slots != []
      ensures free == FreeIndex(slots)
      ensures free == |slots| ==> oldest == OldestIndex(slots)
    {
      free, oldest := 0, 0;
      while free < |slots| && slots[free].active
        invariant free <= |slots|
        invariant FreeIndex(slots) == free + FreeIndex(slots[free..])
        invariant 0 < free ==> oldest == OldestIndex(slots[..free])
      {
        assert slots[free..][1..] == slots[free + 1..];
        assert slots[..free + 1][..free] == slots[..free];
        if free == 0 || slots[free].activatedAt < slots[oldest].activatedAt { oldest := free; }
        free := free + 1;
      }
      assert slots[..|slots|] == slots;
    }

    method SlotForTimestamp(ts: nat, now: int) returns (k: nat)
      requires slots != []
      modifies this
      ensures (Contents(), k) == OpenSlot(old(Contents()), ts, now)
    {
      k := FindSlot(ts);
      if k < |slots| { return; }
      var free, oldest := ScanForRoom();
      k := free;
      if k == |slots| {
        k := oldest;
        FinalizeSlot(k, Published);
        stats := stats.(evicted := stats.evicted + 1);
      }
      slots := slots[k := Slot(true, ts, 0, [], 0, 0, now)];
      assert slots == old(slots)[k := OpenedSlot(ts, now)];
    }

    // The ordered completion scan: no gap from 0 to the declared total.
    method ScanComplete(k: nat) returns (complete: bool)
      requires k < |slots|
      ensures complete == IsComplete(slots[k])
    {
      var slot := slots[k];
      complete := false;
      if slot.sum == slot.total && slot.unique > 0 {
        var expected: nat, contiguous, i := 0, true, 0;
        while i < |slot.packets| && contiguous
          decreases |slot.packets| - i, contiguous
          invariant i <= |slot.packets|
          invariant contiguous ==> RunFrom(slot.packets, 0) == RunFrom(slot.packets[i..], expected)
          invariant !contiguous ==> RunFrom(slot.packets, 0) == None
        {
          if slot.packets[i].offset != expected {
            contiguous := false;
          } else {
            assert slot.packets[i..][1..] == slot.packets[i + 1..];
            expected, i := expected + |slot.packets[i].points|, i + 1;
          }
        }
        complete := contiguous && expected == slot.total;
      }
    }

    method GatherPoints(k: nat) returns (points: seq<P>)
      requires k < |slots|
      ensures points == Concat(slots[k].packets)
    {
      var ps := slots[k].packets;
      points := [];
      for i := 0 to |ps|
        invariant points + Concat(ps[i..]) == Concat(ps)
      {
        assert ps[i..][1..] == ps[i + 1..];
        points := points + ps[i].points;
      }
    }

    method AddPacket(input: Option<Packet<P>>, now: int) returns (frame: Option<Frame<P>>)
      requires slots != []
      modifies this
      ensures (Contents(), frame) == AfterPacket(config, old(Contents()), input, now)
    {
      frame := None;
      if input.None? || input.value.total == 0 || input.value.total > config.maxPoints {
        stats := stats.(rejected := stats.rejected + 1);
        return;
      }
      var p := input.value;
      if p.index >= p.total || p.index + |p.points| > p.total {
        var existing := FindSlot(p.timestamp);
        if existing < |slots| {
          FinalizeSlot(existing, Conflict);
        } else {
          stats := stats.(rejected := stats.rejected + 1);
        }
        return;
      }
      var k := SlotForTimestamp(p.timestamp, now);
      frame := StorePacket(k, p);
    }

    method StorePacket(k: nat, p: Packet<P>) returns (frame: Option<Frame<P>>)
      requires k < |slots| && slots[k].active
      modifies this
      ensures (Contents(), frame) == Store(config, old(Contents()), k, p)
    {
      if slots[k].unique > 0 && slots[k].total != p.total {
        FinalizeSlot(k, Conflict);
        return None;
      }
      if slots[k].unique == 0 {
        slots := slots[k := slots[k].(total := p.total)];
      }
      frame := PlacePacket(k, p);
    }

    method PlacePacket(k: nat, p: Packet<P>) returns (frame: Option<Frame<P>>)
      requires k < |slots| && slots[k].active
      modifies this
      ensures (Contents(), frame) == Place(config, old(Contents()), k, p)
    {
      var stored := slots[k].packets;
      var next := LowerBound(stored, p.index);
      if next < |stored| && stored[next].offset == p.index {
        if stored[next].points == p.points {
          stats := stats.(duplicated := stats.duplicated + 1);
        } else {
          FinalizeSlot(k, Conflict);
        }
        return None;
      }
      if |stored| >= config.maxPackets {
        stats := stats.(rejected := stats.rejected + 1);
        return None;
      }
      var conflict := next < |stored| && p.index + |p.points| > stored[next].offset;
      if !conflict && next > 0 {
        conflict := stored[next - 1].offset + |stored[next - 1].points| > p.index;
      }
      if !conflict {
        conflict := slots[k].sum + |p.points| > slots[k].total || slots[k].sum + |p.points| > config.maxPoints;
      }
      if conflict {
        FinalizeSlot(k, Conflict);
        return None;
      }
      slots := slots[k := slots[k].(packets := Insert(stored, next, Chunk(p.index, p.points)),
                                    unique := slots[k].unique + 1, sum := slots[k].sum + |p.points|)];
      stats := stats.(accepted := stats.accepted + 1);
      frame := PublishIfComplete(k);
    }

    method PublishIfComplete(k: nat) returns (frame: Option<Frame<P>>)
      requires k < |slots| && slots[k].active
      modifies this
      ensures (Contents(), frame) == Finish(old(Contents()), k)
    {
      frame := None;
      var complete := ScanComplete(k);
      if !complete { return; }
      var points := GatherPoints(k);
      if |points| != slots[k].total {
        FinalizeSlot(k, Conflict);
        return;
      }
      frame := Some(Frame(slots[k].timestamp, slots[k].total, points));
      stats := stats.(published := stats.published + 1);
      FinalizeSlot(k, Published);
    }

    method Expire(now: int)
      modifies this
      ensures Contents() == AfterExpiry(config, old(Contents()), now)
    {
      for i := 0 to |slots|
        invariant |slots| == |old(slots)|
        invariant Contents() == ExpireFirst(config, old(Contents()), now, i)
      {
        assert slots[i] == slots[i..][0] == old(slots)[i..][0] == old(slots)[i];
        if slots[i].active && now - slots[i].activatedAt >= config.timeout {
          FinalizeSlot(i, Timeout);
        }
      }
    }

    method InFlightCount() returns (n: nat)
      ensures n == InFlight(slots)
    {
      n := 0;
      for i := 0 to |slots|
        invariant n == InFlight(slots[..i])
      {
        assert slots[..i + 1][..i] == slots[..i];
        if slots[i].active { n := n + 1; }
      }
      assert slots[..|slots|] == slots;
    }
  }
}
