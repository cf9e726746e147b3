/**
 What every assembler step keeps: interval facts about one slot, the slot
 invariant, and the two conservation laws over whole runs.
 */
module AssemblerInvariants {
  import opened Options
  import opened FrameAssembler

  // ---------- intervals ----------

  ghost predicate Inside<P>(ps: seq<Chunk<P>>, lo: nat, hi: nat)
  {
    forall i :: 0 <= i < |ps| ==> lo <= ps[i].offset < hi && End(ps[i]) <= hi
  }

  // Strictly increasing offsets and no common point.
  ghost predicate Disjoint<P>(ps: seq<Chunk<P>>)
  {
    forall i, j :: 0 <= i < j < |ps| ==> ps[i].offset < ps[j].offset && End(ps[i]) <= ps[j].offset
  }

  ghost predicate Covers<P>(c: Chunk<P>, pos: nat) { c.offset <= pos < End(c) }

  ghost predicate Covered<P>(ps: seq<Chunk<P>>, pos: nat)
  {
    exists i :: 0 <= i < |ps| && Covers(ps[i], pos)
  }

  // Two ranges with different starts that do not overlap.
  ghost predicate Separate<P>(a: Chunk<P>, b: Chunk<P>)
  {
    a.offset != b.offset && (End(a) <= b.offset || End(b) <= a.offset)
  }

  lemma {:induction false} SumBound<P>(ps: seq<Chunk<P>>, lo: nat, hi: nat)
    requires lo <= hi && Disjoint(ps) && Inside(ps, lo, hi)
    ensures lo + Sum(ps) <= hi
  {
    if ps != [] {
      SumBound(ps[1..], End(ps[0]), hi);
    }
  }

  // Disjoint ranges inside [lo, hi) whose sizes add up to the whole leave no
  // gap: the sum test alone decides the ordered scan.
  lemma {:induction false} SumDecidesScan<P>(ps: seq<Chunk<P>>, lo: nat, hi: nat)
    requires lo <= hi && Disjoint(ps) && Inside(ps, lo, hi)
    ensures lo + Sum(ps) == hi <==> RunFrom(ps, lo) == Some(hi)
  {
    if ps != [] {
      SumBound(ps[1..], End(ps[0]), hi);
      SumDecidesScan(ps[1..], End(ps[0]), hi);
    }
  }

  lemma CoveredRest<P>(ps: seq<Chunk<P>>, pos: nat)
    requires ps != []
    ensures Covered(ps, pos) <==> Covers(ps[0], pos) || Covered(ps[1..], pos)
  {
    if Covered(ps[1..], pos) {
      var i :| 0 <= i < |ps[1..]| && Covers(ps[1..][i], pos);
      assert Covers(ps[i + 1], pos);
    }
    if i :| 0 <= i < |ps| && Covers(ps[i], pos) && i > 0 {
      assert Covers(ps[1..][i - 1], pos);
    }
  }

  // ... and the scan succeeds exactly on an exact cover.
  lemma {:induction false} ScanDecidesCover<P>(ps: seq<Chunk<P>>, lo: nat, hi: nat)
    requires lo <= hi && Disjoint(ps) && Inside(ps, lo, hi)
    ensures RunFrom(ps, lo) == Some(hi) <==> CoversAll(ps, lo, hi)
  {
    if ps == [] {
      if lo < hi { assert !Covered(ps, lo); }
    } else {
      var rest, mid := ps[1..], End(ps[0]);
      ScanDecidesCover(rest, mid, hi);
      if ps[0].offset != lo || mid == lo {
        assert !Covered(ps, lo) && !Covered(rest, lo);
      } else {
        forall pos | lo <= pos < hi
          ensures Covered(ps, pos) <==> pos < mid || Covered(rest, pos)
        {
          CoveredRest(ps, pos);
        }
        SplitCover(ps, rest, lo, mid, hi);
      }
    }
  }

  ghost predicate CoversAll<P>(ps: seq<Chunk<P>>, lo: nat, hi: nat)
  {
    forall pos :: lo <= pos < hi ==> Covered(ps, pos)
  }

  lemma SplitCover<P>(ps: seq<Chunk<P>>, rest: seq<Chunk<P>>, lo: nat, mid: nat, hi: nat)
    requires lo <= mid <= hi && forall pos :: lo <= pos < hi ==> (Covered(ps, pos) <==> pos < mid || Covered(rest, pos))
    ensures CoversAll(ps, lo, hi) <==> CoversAll(rest, mid, hi)
  {
    if CoversAll(ps, lo, hi) {
      forall pos | mid <= pos < hi
        ensures Covered(rest, pos)
      {
        assert Covered(ps, pos);
      }
    }
  }

  lemma {:induction false} ConcatLength<P>(ps: seq<Chunk<P>>)
    ensures |Concat(ps)| == Sum(ps)
  {
    if ps != [] { ConcatLength(ps[1..]); }
  }

  lemma {:induction false} SumInsert<P>(ps: seq<Chunk<P>>, j: nat, c: Chunk<P>)
    requires j <= |ps|
    ensures Sum(Insert(ps, j, c)) == Sum(ps) + |c.points|
  {
    if j == 0 {
      assert Insert(ps, j, c)[1..] == ps;
    } else {
      SumInsert(ps[1..], j - 1, c);
      assert Insert(ps, j, c)[1..] == Insert(ps[1..], j - 1, c);
    }
  }

  // Looking only at the two neighbours decides separation from every stored range.
  lemma NeighboursSuffice<P>(ps: seq<Chunk<P>>, c: Chunk<P>)
    requires Disjoint(ps)
    ensures var j := LowerBound(ps, c.offset);
            !Overlaps(ps, j, c) && !(j < |ps| && ps[j].offset == c.offset)
            <==> forall i :: 0 <= i < |ps| ==> Separate(ps[i], c)
  {
    var j := LowerBound(ps, c.offset);
    if !Overlaps(ps, j, c) && !(j < |ps| && ps[j].offset == c.offset) {
      forall i | 0 <= i < |ps|
        ensures Separate(ps[i], c)
      {
        ClearNeighbours(ps, c, j, i);
      }
    } else if j < |ps| && (End(c) > ps[j].offset || ps[j].offset == c.offset) {
      assert !Separate(ps[j], c);
    } else {
      assert !Separate(ps[j - 1], c);
    }
  }

  lemma ClearNeighbours<P>(ps: seq<Chunk<P>>, c: Chunk<P>, j: nat, i: nat)
    requires Disjoint(ps) && j == LowerBound(ps, c.offset) && i < |ps|
    requires !Overlaps(ps, j, c) && !(j < |ps| && ps[j].offset == c.offset)
    ensures Separate(ps[i], c)
  {
    if i < j {
      assert i == j - 1 || End(ps[i]) <= ps[j - 1].offset;
      assert End(ps[i]) <= c.offset;
    } else {
      assert i == j || ps[j].offset < ps[i].offset;
      assert End(c) <= ps[i].offset;
    }
  }

  lemma InsertAt<P>(ps: seq<Chunk<P>>, j: nat, c: Chunk<P>, i: nat)
    requires j <= |ps| && i <= |ps|
    ensures Insert(ps, j, c)[i] == if i < j then ps[i] else if i == j then c else ps[i - 1]
  {
    var front := ps[..j] + [c];
    if i <= j {
      assert Insert(ps, j, c)[i] == front[i];
    } else {
      assert Insert(ps, j, c)[i] == ps[j..][i - |front|];
    }
  }

  // A new range separate from every stored one keeps the map sorted and disjoint.
  lemma InsertKeepsDisjoint<P>(ps: seq<Chunk<P>>, c: Chunk<P>, hi: nat)
    requires Disjoint(ps) && Inside(ps, 0, hi)
    requires c.offset < hi && End(c) <= hi
    requires forall i :: 0 <= i < |ps| ==> Separate(ps[i], c)
    ensures Disjoint(Insert(ps, LowerBound(ps, c.offset), c))
    ensures Inside(Insert(ps, LowerBound(ps, c.offset), c), 0, hi)
  {
    var j := LowerBound(ps, c.offset);
    forall i | j <= i < |ps|
      ensures c.offset < ps[i].offset && End(c) <= ps[i].offset
    {
      assert Separate(ps[i], c);
      assert i == j || ps[j].offset < ps[i].offset;
    }
    forall i | 0 <= i < j
      ensures End(ps[i]) <= c.offset
    {
      assert Separate(ps[i], c);
    }
    InsertBetween(ps, j, c, hi);
  }

  lemma InsertBetween<P>(ps: seq<Chunk<P>>, j: nat, c: Chunk<P>, hi: nat)
    requires j <= |ps| && Disjoint(ps) && Inside(ps, 0, hi) && c.offset < hi && End(c) <= hi
    requires forall i :: 0 <= i < j ==> ps[i].offset < c.offset && End(ps[i]) <= c.offset
    requires forall i :: j <= i < |ps| ==> c.offset < ps[i].offset && End(c) <= ps[i].offset
    ensures Disjoint(Insert(ps, j, c)) && Inside(Insert(ps, j, c), 0, hi)
  {
    var qs := Insert(ps, j, c);
    forall a, b | 0 <= a < b < |qs|
      ensures qs[a].offset < qs[b].offset && End(qs[a]) <= qs[b].offset
    {
      InsertAt(ps, j, c, a);
      InsertAt(ps, j, c, b);
    }
    forall a | 0 <= a < |qs|
      ensures qs[a].offset < hi && End(qs[a]) <= hi
    {
      InsertAt(ps, j, c, a);
    }
  }

  // ---------- the slot invariant ----------

  ghost predicate SlotOk<P>(cfg: Config, slot: Slot<P>)
  {
    && slot.unique == |slot.packets|
    && slot.sum == Sum(slot.packets)
    && Disjoint(slot.packets)
    && Inside(slot.packets, 0, slot.total)
    && (slot.packets != [] ==> slot.total <= cfg.maxPoints && |slot.packets| <= cfg.maxPackets)
    && (!slot.active ==> slot.packets == [])
  }

  // A buffered frame still misses at least one point.
  ghost predicate Incomplete<P>(slot: Slot<P>)
  {
    slot.packets != [] ==> slot.sum < slot.total
  }

  ghost predicate DistinctStamps<P>(slots: seq<Slot<P>>)
  {
    forall i, j :: 0 <= i < j < |slots| && slots[i].active && slots[j].active ==>
                     slots[i].timestamp != slots[j].timestamp
  }

  ghost predicate Valid<P>(cfg: Config, s: State<P>)
  {
    && |s.slots| == (if cfg.maxParallel == 0 then 1 else cfg.maxParallel)
    && (forall i :: 0 <= i < |s.slots| ==> SlotOk(cfg, s.slots[i]) && Incomplete(s.slots[i]))
    && DistinctStamps(s.slots)
  }

  // In a well-formed slot the budget test never fires, and a slot that passes
  // the completion test holds exactly `total` points.
  lemma BudgetNeverFires<P>(cfg: Config, slot: Slot<P>, p: Packet<P>)
    requires SlotOk(cfg, slot) && slot.total == p.total <= cfg.maxPoints && !RangeOutside(p)
    requires var j := LowerBound(slot.packets, p.index);
             !Overlaps(slot.packets, j, Chunk(p.index, p.points)) &&
             !(j < |slot.packets| && slot.packets[j].offset == p.index)
    ensures !OverBudget(cfg, slot, p)
  {
    var c := Chunk(p.index, p.points);
    var j := LowerBound(slot.packets, p.index);
    NeighboursSuffice(slot.packets, c);
    InsertKeepsDisjoint(slot.packets, c, slot.total);
    SumInsert(slot.packets, j, c);
    SumBound(Insert(slot.packets, j, c), 0, slot.total);
  }

  lemma CompleteMeansExact<P>(cfg: Config, slot: Slot<P>)
    requires SlotOk(cfg, slot)
    ensures IsComplete(slot) <==> slot.unique > 0 && slot.sum == slot.total
    ensures slot.sum == slot.total <==> CoversAll(slot.packets, 0, slot.total)
    ensures IsComplete(slot) ==> |Concat(slot.packets)| == slot.total
  {
    SumDecidesScan(slot.packets, 0, slot.total);
    ScanDecidesCover(slot.packets, 0, slot.total);
    ConcatLength(slot.packets);
  }

  // ---------- preservation ----------

  lemma {:induction false} InFlightUpdate<P>(slots: seq<Slot<P>>, k: nat, x: Slot<P>)
    requires k < |slots|
    ensures InFlight(slots[k := x]) + (if slots[k].active then 1 else 0) ==
            InFlight(slots) + (if x.active then 1 else 0)
  {
    var n := |slots| - 1;
    if k == n {
      assert slots[k := x][..n] == slots[..n];
    } else {
      InFlightUpdate(slots[..n], k, x);
      assert slots[k := x][..n] == slots[..n][k := x];
    }
  }

  // Net effect of one packet on the ledgers of frames and packets.
  ghost predicate Balanced<P>(s: State<P>, t: State<P>, claimed: nat)
  {
    && t.stats.accepted + t.stats.duplicated + t.stats.rejected + t.stats.conflicts
       == s.stats.accepted + s.stats.duplicated + s.stats.rejected + s.stats.conflicts + 1
    && t.stats.published + t.stats.timedOut + t.stats.conflicts + t.stats.evicted + InFlight(t.slots)
       == s.stats.published + s.stats.timedOut + s.stats.conflicts + s.stats.evicted + InFlight(s.slots) + claimed
  }

  // Valid, except that slot k may have become complete.
  ghost predicate ValidExcept<P>(cfg: Config, s: State<P>, k: nat)
  {
    && |s.slots| == (if cfg.maxParallel == 0 then 1 else cfg.maxParallel)
    && (forall i :: 0 <= i < |s.slots| ==> SlotOk(cfg, s.slots[i]) && (i != k ==> Incomplete(s.slots[i])))
    && DistinctStamps(s.slots)
  }

  // Slot k changes its contents, keeping its timestamp if it stays active.
  lemma ReplaceOk<P>(cfg: Config, s: State<P>, t: State<P>, k: nat, x: Slot<P>)
    requires ValidExcept(cfg, s, k) && k < |s.slots| && t.slots == s.slots[k := x] && SlotOk(cfg, x)
    requires x.active ==> s.slots[k].active && x.timestamp == s.slots[k].timestamp
    ensures ValidExcept(cfg, t, k) && (Incomplete(x) ==> Valid(cfg, t))
  {
  }

  // A conflict drops one frame and counts one packet.
  lemma DropOk<P>(cfg: Config, s: State<P>, k: nat)
    requires Valid(cfg, s) && k < |s.slots| && s.slots[k].active
    ensures Valid(cfg, DropConflict(s, k)) && Balanced(s, DropConflict(s, k), 0)
  {
    InFlightUpdate(s.slots, k, Cleared(s.slots[k]));
    ReplaceOk(cfg, s, DropConflict(s, k), k, Cleared(s.slots[k]));
  }

  lemma FinishOk<P>(cfg: Config, s: State<P>, k: nat)
    requires k < |s.slots| && s.slots[k].active && ValidExcept(cfg, s, k)
    ensures var t := Finish(s, k).0;
            && Valid(cfg, t)
            && t.stats.(published := 0) == s.stats.(published := 0)
            && t.stats.published + InFlight(t.slots) == s.stats.published + InFlight(s.slots)
  {
    var slot := s.slots[k];
    CompleteMeansExact(cfg, slot);
    SumBound(slot.packets, 0, slot.total);
    InFlightUpdate(s.slots, k, Cleared(slot));
    ReplaceOk(cfg, s, Finish(s, k).0, k, Finish(s, k).0.slots[k]);
  }

  // Storing a separate packet below the caps.
  lemma AcceptOk<P>(cfg: Config, s: State<P>, k: nat, c: Chunk<P>)
    requires Valid(cfg, s) && k < |s.slots| && s.slots[k].active && s.slots[k].total <= cfg.maxPoints
    requires c.offset < s.slots[k].total && End(c) <= s.slots[k].total
    requires |s.slots[k].packets| < cfg.maxPackets
    requires forall i :: 0 <= i < |s.slots[k].packets| ==> Separate(s.slots[k].packets[i], c)
    ensures var s1 := Accept(s, k, LowerBound(s.slots[k].packets, c.offset), c);
            ValidExcept(cfg, s1, k) && InFlight(s1.slots) == InFlight(s.slots)
  {
    var slot := s.slots[k];
    var j := LowerBound(slot.packets, c.offset);
    InsertKeepsDisjoint(slot.packets, c, slot.total);
    SumInsert(slot.packets, j, c);
    var s1 := Accept(s, k, j, c);
    InFlightUpdate(s.slots, k, s1.slots[k]);
    ReplaceOk(cfg, s, s1, k, s1.slots[k]);
  }

  lemma PlaceOk<P>(cfg: Config, s: State<P>, k: nat, p: Packet<P>)
    requires Valid(cfg, s) && k < |s.slots| && s.slots[k].active
    requires s.slots[k].total == p.total <= cfg.maxPoints && !RangeOutside(p)
    ensures Valid(cfg, Place(cfg, s, k, p).0)
    ensures Balanced(s, Place(cfg, s, k, p).0, 0)
  {
    var slot, c := s.slots[k], Chunk(p.index, p.points);
    var j := LowerBound(slot.packets, p.index);
    DropOk(cfg, s, k);
    if !(j < |slot.packets| && slot.packets[j].offset == p.index) && |slot.packets| < cfg.maxPackets &&
       !Overlaps(slot.packets, j, c)
    {
      BudgetNeverFires(cfg, slot, p);
      NeighboursSuffice(slot.packets, c);
      AcceptOk(cfg, s, k, c);
      FinishOk(cfg, Accept(s, k, j, c), k);
    }
  }

  lemma StoreOk<P>(cfg: Config, s: State<P>, k: nat, p: Packet<P>)
    requires Valid(cfg, s) && k < |s.slots| && s.slots[k].active
    requires p.total <= cfg.maxPoints && !RangeOutside(p)
    ensures Valid(cfg, Store(cfg, s, k, p).0)
    ensures Balanced(s, Store(cfg, s, k, p).0, 0)
  {
    var slot := s.slots[k];
    if slot.unique == 0 {
      var x := slot.(total := p.total);
      var t := s.(slots := s.slots[k := x]);
      InFlightUpdate(s.slots, k, x);
      ReplaceOk(cfg, s, t, k, x);
      PlaceOk(cfg, t, k, p);
    } else if slot.total == p.total {
      PlaceOk(cfg, s, k, p);
    } else {
      DropOk(cfg, s, k);
    }
  }

  // A slot is opened for a timestamp that no active slot has.
  lemma ClaimOk<P>(cfg: Config, s: State<P>, t: State<P>, k: nat, ts: nat, now: int)
    requires Valid(cfg, s) && k < |s.slots| && t.slots == s.slots[k := OpenedSlot(ts, now)]
    requires SlotIndex(s.slots, ts) == |s.slots|
    ensures Valid(cfg, t)
    ensures InFlight(t.slots) == InFlight(s.slots) + (if s.slots[k].active then 0 else 1)
  {
    InFlightUpdate(s.slots, k, OpenedSlot(ts, now));
  }

  lemma OpenSlotOk<P>(cfg: Config, s: State<P>, ts: nat, now: int)
    requires Valid(cfg, s)
    ensures var (t, k) := OpenSlot(s, ts, now);
            && Valid(cfg, t)
            && t.stats.(evicted := 0) == s.stats.(evicted := 0)
            && t.stats.evicted + InFlight(t.slots)
               == s.stats.evicted + InFlight(s.slots) + (if SlotIndex(s.slots, ts) < |s.slots| then 0 else 1)
  {
    if SlotIndex(s.slots, ts) == |s.slots| {
      var (t, k) := OpenSlot(s, ts, now);
      ClaimOk(cfg, s, t, k, ts, now);
    }
  }

  // Whether a packet claims a slot that was not active for its timestamp.
  predicate Opens<P>(cfg: Config, s: State<P>, input: Option<Packet<P>>)
  {
    && input.Some? && 0 < input.value.total <= cfg.maxPoints && !RangeOutside(input.value)
    && SlotIndex(s.slots, input.value.timestamp) == |s.slots|
  }

  lemma PacketOk<P>(cfg: Config, s: State<P>, input: Option<Packet<P>>, now: int)
    requires Valid(cfg, s)
    ensures Valid(cfg, AfterPacket(cfg, s, input, now).0)
    ensures Balanced(s, AfterPacket(cfg, s, input, now).0, if Opens(cfg, s, input) then 1 else 0)
  {
    if input.Some? && 0 < input.value.total <= cfg.maxPoints {
      var p := input.value;
      if RangeOutside(p) {
        var k := SlotIndex(s.slots, p.timestamp);
        if k < |s.slots| { DropOk(cfg, s, k); }
      } else {
        OpenSlotOk(cfg, s, p.timestamp, now);
        var (t, k) := OpenSlot(s, p.timestamp, now);
        StoreOk(cfg, t, k, p);
      }
    }
  }

  lemma {:induction false} ExpireLedger<P>(cfg: Config, s: State<P>, now: int, n: nat)
    requires n <= |s.slots|
    ensures var t := ExpireFirst(cfg, s, now, n);
            && t.stats.(timedOut := 0) == s.stats.(timedOut := 0)
            && t.stats.timedOut + InFlight(t.slots) == s.stats.timedOut + InFlight(s.slots)
  {
    if n > 0 {
      ExpireLedger(cfg, s, now, n - 1);
      var r := ExpireFirst(cfg, s, now, n - 1);
      assert r.slots[n - 1] == r.slots[n - 1..][0] == s.slots[n - 1..][0] == s.slots[n - 1];
      InFlightUpdate(r.slots, n - 1, Cleared(r.slots[n - 1]));
    }
  }

  lemma {:induction false} ExpireSlot<P>(cfg: Config, s: State<P>, now: int, n: nat, i: nat)
    requires n <= |s.slots| && i < |s.slots|
    ensures ExpireFirst(cfg, s, now, n).slots[i] ==
            if i < n && Stale(cfg, s.slots[i], now) then Cleared(s.slots[i]) else s.slots[i]
  {
    if n > 0 {
      ExpireSlot(cfg, s, now, n - 1, i);
    }
  }

  // Expiry clears exactly the stale slots and counts each one.
  lemma ExpiryOk<P>(cfg: Config, s: State<P>, now: int)
    requires Valid(cfg, s)
    ensures var t := AfterExpiry(cfg, s, now);
            && Valid(cfg, t)
            && t.stats.(timedOut := 0) == s.stats.(timedOut := 0)
            && t.stats.timedOut + InFlight(t.slots) == s.stats.timedOut + InFlight(s.slots)
            && forall i :: 0 <= i < |t.slots| ==>
                 t.slots[i] == if Stale(cfg, s.slots[i], now) then Cleared(s.slots[i]) else s.slots[i]
  {
    ExpireLedger(cfg, s, now, |s.slots|);
    forall i | 0 <= i < |s.slots|
      ensures AfterExpiry(cfg, s, now).slots[i] ==
              if Stale(cfg, s.slots[i], now) then Cleared(s.slots[i]) else s.slots[i]
    {
      ExpireSlot(cfg, s, now, |s.slots|, i);
    }
    PruneOk(cfg, s, AfterExpiry(cfg, s, now));
  }

  lemma PruneOk<P>(cfg: Config, s: State<P>, t: State<P>)
    requires Valid(cfg, s) && |t.slots| == |s.slots|
    requires forall i :: 0 <= i < |t.slots| ==> t.slots[i] == s.slots[i] || t.slots[i] == Cleared(s.slots[i])
    ensures Valid(cfg, t)
  {
  }

  // ---------- whole runs ----------

  datatype Event<P> = Arrive(input: Option<Packet<P>>, now: int) | Tick(now: int)

  function Step<P(==)>(cfg: Config, s: State<P>, e: Event<P>): State<P>
    requires s.slots != []
  {
    match e
    case Arrive(input, now) => AfterPacket(cfg, s, input, now).0
    case Tick(now) => AfterExpiry(cfg, s, now)
  }

  lemma StepOk<P>(cfg: Config, s: State<P>, e: Event<P>)
    requires Valid(cfg, s)
    ensures Valid(cfg, Step(cfg, s, e))
  {
    match e
    case Arrive(input, now) => PacketOk(cfg, s, input, now);
    case Tick(now) => ExpiryOk(cfg, s, now);
  }

  ghost function Run<P>(cfg: Config, es: seq<Event<P>>): (s: State<P>)
    ensures Valid(cfg, s)
  {
    if es == [] then Initial(cfg)
    else
      var s := Run(cfg, es[..|es| - 1]);
      var e := es[|es| - 1];
      StepOk(cfg, s, e);
      Step(cfg, s, e)
  }

  function Arrivals<P>(es: seq<Event<P>>): nat
  {
    if es == [] then 0 else Arrivals(es[..|es| - 1]) + (if es[|es| - 1].Arrive? then 1 else 0)
  }

  // Slot activations of a run.
  ghost function Activations<P>(cfg: Config, es: seq<Event<P>>): nat
  {
    if es == [] then 0
    else
      var e := es[|es| - 1];
      Activations(cfg, es[..|es| - 1]) +
      (if e.Arrive? && Opens(cfg, Run(cfg, es[..|es| - 1]), e.input) then 1 else 0)
  }

  lemma {:induction false} NoneInFlight<P>(slots: seq<Slot<P>>)
    requires forall i :: 0 <= i < |slots| ==> !slots[i].active
    ensures InFlight(slots) == 0
  {
    if slots != [] { NoneInFlight(slots[..|slots| - 1]); }
  }

  // Every call is counted exactly once, and every activated frame is accounted for.
  lemma {:induction false} Conservation<P>(cfg: Config, es: seq<Event<P>>)
    ensures var s := Run(cfg, es);
            && Arrivals(es) == s.stats.accepted + s.stats.duplicated + s.stats.rejected + s.stats.conflicts
            && Activations(cfg, es) == s.stats.published + s.stats.timedOut + s.stats.conflicts + s.stats.evicted
                                       + InFlight(s.slots)
  {
    if es == [] {
      NoneInFlight(Initial<P>(cfg).slots);
    } else {
      var s, e := Run(cfg, es[..|es| - 1]), es[|es| - 1];
      Conservation(cfg, es[..|es| - 1]);
      match e
      case Arrive(input, now) => PacketOk(cfg, s, input, now);
      case Tick(now) => ExpiryOk(cfg, s, now);
    }
  }

  function Buffered<P>(slots: seq<Slot<P>>): nat
  {
    if slots == [] then 0 else Buffered(slots[..|slots| - 1]) + Sum(slots[|slots| - 1].packets)
  }

  lemma OneMore(n: nat, m: nat)
    ensures (n + 1) * m == n * m + m
  {
  }

  // The memory bound: no run buffers more than the parallel cap times the point cap.
  lemma {:induction false} BufferBound<P>(cfg: Config, slots: seq<Slot<P>>)
    requires forall i :: 0 <= i < |slots| ==> SlotOk(cfg, slots[i])
    ensures Buffered(slots) <= |slots| * cfg.maxPoints
  {
    if slots != [] {
      BufferBound(cfg, slots[..|slots| - 1]);
      var last := slots[|slots| - 1];
      SumBound(last.packets, 0, last.total);
      OneMore(|slots| - 1, cfg.maxPoints);
    }
  }

  lemma RunBufferBound<P>(cfg: Config, es: seq<Event<P>>)
    ensures Buffered(Run(cfg, es).slots) <= (if cfg.maxParallel == 0 then 1 else cfg.maxParallel) * cfg.maxPoints
  {
    BufferBound(cfg, Run(cfg, es).slots);
  }
}
