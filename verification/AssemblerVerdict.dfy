/**
 What becomes of one packet, stated over the stored chunks of its frame.
 */
module AssemblerVerdict {
  import opened Options
  import opened FrameAssembler
  import opened AssemblerInvariants
  import opened AssemblerRoundTrip

  ghost predicate OffsetTaken<P>(ps: seq<Chunk<P>>, c: Chunk<P>)
  {
    exists i :: 0 <= i < |ps| && ps[i].offset == c.offset
  }

  // Some stored range overlaps the chunk or starts where it starts.
  ghost predicate Clashes<P>(ps: seq<Chunk<P>>, c: Chunk<P>)
  {
    exists i :: 0 <= i < |ps| && !Separate(ps[i], c)
  }

  function ChunkOf<P>(p: Packet<P>): Chunk<P> { Chunk(p.index, p.points) }

  // A packet whose range lies in a frame of admissible size.
  ghost predicate InFrame<P>(cfg: Config, p: Packet<P>)
  {
    0 < p.total <= cfg.maxPoints && p.index < p.total && p.index + |p.points| <= p.total
  }

  // Slot k collects the packet's frame and holds something.
  ghost predicate Collecting<P>(s: State<P>, k: nat, p: Packet<P>)
  {
    k < |s.slots| && s.slots[k].active && s.slots[k].timestamp == p.timestamp && s.slots[k].packets != []
  }

  type Result<P> = (State<P>, Option<Frame<P>>)

  // The whole frame of slot k is dropped as a conflict.
  ghost predicate Drops<P>(s: State<P>, r: Result<P>, k: nat)
  {
    && k < |r.0.slots| && !r.0.slots[k].active && r.0.slots[k].packets == [] && SameElsewhere(s.slots, r.0.slots, k)
    && r.0.stats == s.stats.(conflicts := s.stats.conflicts + 1) && r.1 == None
  }

  // Nothing changes but one counter.
  ghost predicate OnlyDuplicate<P>(s: State<P>, r: Result<P>)
  {
    r.0.slots == s.slots && r.0.stats == s.stats.(duplicated := s.stats.duplicated + 1) && r.1 == None
  }

  ghost predicate OnlyReject<P>(s: State<P>, r: Result<P>)
  {
    r.0.slots == s.slots && r.0.stats == s.stats.(rejected := s.stats.rejected + 1) && r.1 == None
  }

  // Every position of the frame is covered by a stored chunk or the new one.
  ghost predicate Fills<P>(ps: seq<Chunk<P>>, c: Chunk<P>, total: nat)
  {
    forall pos :: 0 <= pos < total ==> Covered(ps, pos) || Covers(c, pos)
  }

  // The frame has each chunk's points at the chunk's offset.
  ghost predicate Lays<P>(points: seq<P>, d: Chunk<P>)
  {
    End(d) <= |points| && points[d.offset..End(d)] == d.points
  }

  ghost predicate Publishes<P>(s: State<P>, r: Result<P>, k: nat, c: Chunk<P>)
    requires k < |s.slots|
  {
    && k < |r.0.slots| && !r.0.slots[k].active && r.0.slots[k].packets == [] && SameElsewhere(s.slots, r.0.slots, k)
    && r.0.stats == s.stats.(accepted := s.stats.accepted + 1, published := s.stats.published + 1)
    && r.1.Some? && r.1.value.timestamp == s.slots[k].timestamp
    && r.1.value.totalPoints == |r.1.value.points| == s.slots[k].total
    && Lays(r.1.value.points, c) && forall d :: d in s.slots[k].packets ==> Lays(r.1.value.points, d)
  }

  ghost predicate Keeps<P>(s: State<P>, r: Result<P>, k: nat, c: Chunk<P>)
    requires k < |s.slots|
  {
    && k < |r.0.slots| && SameElsewhere(s.slots, r.0.slots, k) && r.1 == None
    && r.0.stats == s.stats.(accepted := s.stats.accepted + 1)
    && r.0.slots[k].active && r.0.slots[k].timestamp == s.slots[k].timestamp
    && r.0.slots[k].total == s.slots[k].total && r.0.slots[k].activatedAt == s.slots[k].activatedAt
    && multiset(r.0.slots[k].packets) == multiset(s.slots[k].packets) + multiset{c}
  }

  // ---------- placement ----------

  lemma TakenAtLowerBound<P>(ps: seq<Chunk<P>>, c: Chunk<P>)
    requires Disjoint(ps)
    ensures var j := LowerBound(ps, c.offset);
            && (OffsetTaken(ps, c) <==> j < |ps| && ps[j].offset == c.offset)
            && (c in ps <==> j < |ps| && ps[j] == c)
  {
    var j := LowerBound(ps, c.offset);
    if i :| 0 <= i < |ps| && ps[i].offset == c.offset { FoundAtLowerBound(ps, i); }
    if c in ps {
      var i :| 0 <= i < |ps| && ps[i] == c;
      FoundAtLowerBound(ps, i);
    }
  }

  lemma ClashesIff<P>(ps: seq<Chunk<P>>, c: Chunk<P>)
    requires Disjoint(ps) && !OffsetTaken(ps, c)
    ensures Clashes(ps, c) <==> Overlaps(ps, LowerBound(ps, c.offset), c)
  {
    TakenAtLowerBound(ps, c);
    NeighboursSuffice(ps, c);
  }

  // Gathering the chunks in order lays each at its own offset.
  lemma {:induction false} ConcatLays<P>(ps: seq<Chunk<P>>, from: nat, hi: nat, i: nat)
    requires RunFrom(ps, from) == Some(hi) && i < |ps|
    ensures from <= ps[i].offset && End(ps[i]) <= from + |Concat(ps)|
    ensures Concat(ps)[ps[i].offset - from..End(ps[i]) - from] == ps[i].points
  {
    var front, rest := ps[0].points, ps[1..];
    if i == 0 {
      SliceOfFirst(front, Concat(rest));
    } else {
      ConcatLays(rest, End(ps[0]), hi, i - 1);
      SliceOfSecond(front, Concat(rest), ps[i].offset - End(ps[0]), End(ps[i]) - End(ps[0]));
    }
  }

  lemma SliceOfFirst<T>(a: seq<T>, b: seq<T>)
    ensures (a + b)[0..|a|] == a
  {
  }

  lemma SliceOfSecond<T>(a: seq<T>, b: seq<T>, lo: nat, hi: nat)
    requires lo <= hi <= |b|
    ensures (a + b)[|a| + lo..|a| + hi] == b[lo..hi]
  {
  }

  lemma InsertMembers<P>(ps: seq<Chunk<P>>, j: nat, c: Chunk<P>)
    requires j <= |ps|
    ensures multiset(Insert(ps, j, c)) == multiset(ps) + multiset{c}
  {
    assert ps == ps[..j] + ps[j..];
  }

  lemma InsertCovers<P>(ps: seq<Chunk<P>>, j: nat, c: Chunk<P>, total: nat)
    requires j <= |ps|
    ensures CoversAll(Insert(ps, j, c), 0, total) <==> Fills(ps, c, total)
  {
    forall pos | 0 <= pos < total
      ensures Covered(Insert(ps, j, c), pos) <==> Covered(ps, pos) || Covers(c, pos)
    {
      InsertCovered(ps, j, c, pos);
    }
  }

  lemma InsertCovered<P>(ps: seq<Chunk<P>>, j: nat, c: Chunk<P>, pos: nat)
    requires j <= |ps|
    ensures Covered(Insert(ps, j, c), pos) <==> Covered(ps, pos) || Covers(c, pos)
  {
    var qs := Insert(ps, j, c);
    if i :| 0 <= i < |qs| && Covers(qs[i], pos) { InsertAt(ps, j, c, i); }
    if Covers(c, pos) { InsertAt(ps, j, c, j); }
    if i :| 0 <= i < |ps| && Covers(ps[i], pos) { InsertAt(ps, j, c, if i < j then i else i + 1); }
  }

  // Storing a chunk publishes exactly when it fills the frame.
  lemma StoreVerdict<P>(cfg: Config, s: State<P>, k: nat, j: nat, c: Chunk<P>)
    requires k < |s.slots| && j <= |s.slots[k].packets| && s.slots[k].active
    requires SlotOk(cfg, Accept(s, k, j, c).slots[k])
    ensures var r := Finish(Accept(s, k, j, c), k);
            if Fills(s.slots[k].packets, c, s.slots[k].total) then Publishes(s, r, k, c) else Keeps(s, r, k, c)
  {
    var s1 := Accept(s, k, j, c);
    var slot := s1.slots[k];
    CompleteMeansExact(cfg, slot);
    InsertCovers(s.slots[k].packets, j, c, slot.total);
    InsertMembers(s.slots[k].packets, j, c);
    if IsComplete(slot) {
      LaysAll(slot.packets, slot.total);
      assert c in multiset(slot.packets);
      forall d | d in s.slots[k].packets
        ensures d in slot.packets
      {
        assert d in multiset(slot.packets);
      }
    }
  }

  lemma LaysAll<P>(ps: seq<Chunk<P>>, total: nat)
    requires RunFrom(ps, 0) == Some(total)
    ensures forall d :: d in ps ==> Lays(Concat(ps), d)
  {
    forall d | d in ps
      ensures Lays(Concat(ps), d)
    {
      var i :| 0 <= i < |ps| && ps[i] == d;
      ConcatLays(ps, 0, total, i);
    }
  }

  // The four outcomes of placing a packet of the slot's own total.
  lemma PlaceVerdict<P>(cfg: Config, s: State<P>, k: nat, p: Packet<P>)
    requires Valid(cfg, s) && k < |s.slots| && s.slots[k].active && s.slots[k].total == p.total && InFrame(cfg, p)
    ensures var ps, c, r := s.slots[k].packets, ChunkOf(p), Place(cfg, s, k, p);
            if c in ps then OnlyDuplicate(s, r)
            else if OffsetTaken(ps, c) then Drops(s, r, k)
            else if |ps| >= cfg.maxPackets then OnlyReject(s, r)
            else if Clashes(ps, c) then Drops(s, r, k)
            else if Fills(ps, c, p.total) then Publishes(s, r, k, c)
            else Keeps(s, r, k, c)
  {
    var slot, c := s.slots[k], ChunkOf(p);
    TakenAtLowerBound(slot.packets, c);
    if !OffsetTaken(slot.packets, c) {
      ClashesIff(slot.packets, c);
      if |slot.packets| < cfg.maxPackets && !Clashes(slot.packets, c) {
        BudgetNeverFires(cfg, slot, p);
        PlaceNew(cfg, s, k, p);
        AcceptOk(cfg, s, k, c);
        StoreVerdict(cfg, s, k, LowerBound(slot.packets, c.offset), c);
      }
    }
  }

  // ---------- a frame being collected ----------

  // The first packet fixes the total; a packet with another one conflicts.
  lemma CollectingStep<P>(cfg: Config, s: State<P>, k: nat, p: Packet<P>, now: int)
    requires Valid(cfg, s) && Collecting(s, k, p) && InFrame(cfg, p)
    ensures var r := AfterPacket(cfg, s, Some(p), now);
            if s.slots[k].total != p.total then Drops(s, r, k) else r == Place(cfg, s, k, p)
  {
    SlotIndexUnique(s.slots, k);
  }

  // MAIN RESULT. When a packet of a frame being collected drops the frame, when
  // it is a duplicate, when the packet cap rejects it and when it is stored.
  lemma PacketVerdict<P>(cfg: Config, s: State<P>, k: nat, p: Packet<P>, now: int)
    requires Valid(cfg, s) && Collecting(s, k, p) && InFrame(cfg, p)
    ensures var slot, c, r := s.slots[k], ChunkOf(p), AfterPacket(cfg, s, Some(p), now);
            var fits := slot.total == p.total && !OffsetTaken(slot.packets, c);
            && (Drops(s, r, k) <==>
                  || slot.total != p.total
                  || (c !in slot.packets && OffsetTaken(slot.packets, c))
                  || (fits && |slot.packets| < cfg.maxPackets && Clashes(slot.packets, c)))
            && (OnlyDuplicate(s, r) <==> slot.total == p.total && c in slot.packets)
            && (OnlyReject(s, r) <==> fits && |slot.packets| >= cfg.maxPackets)
            && (Publishes(s, r, k, c) || Keeps(s, r, k, c) <==>
                  fits && |slot.packets| < cfg.maxPackets && !Clashes(slot.packets, c))
            && (Publishes(s, r, k, c) ==> Fills(slot.packets, c, p.total))
            && (Keeps(s, r, k, c) ==> !Fills(slot.packets, c, p.total))
  {
    CollectingStep(cfg, s, k, p, now);
    if s.slots[k].total == p.total { PlaceVerdict(cfg, s, k, p); }
    assert ChunkOf(p) in s.slots[k].packets ==> OffsetTaken(s.slots[k].packets, ChunkOf(p));
  }

  // ---------- every other packet ----------

  ghost predicate NoSlot<P>(s: State<P>, ts: nat)
  {
    forall i :: 0 <= i < |s.slots| && s.slots[i].active ==> s.slots[i].timestamp != ts
  }

  // A packet that did not parse, or whose total or range is inadmissible.
  lemma BadPacketVerdict<P>(cfg: Config, s: State<P>, input: Option<Packet<P>>, now: int, k: nat)
    requires Valid(cfg, s) && (input.Some? ==> !InFrame(cfg, input.value))
    ensures var r := AfterPacket(cfg, s, input, now);
            if input.Some? && 0 < input.value.total <= cfg.maxPoints && k < |s.slots| && s.slots[k].active &&
               s.slots[k].timestamp == input.value.timestamp
            then Drops(s, r, k)
            else input.None? || !(0 < input.value.total <= cfg.maxPoints) || NoSlot(s, input.value.timestamp) ==>
                   OnlyReject(s, r)
  {
    if input.Some? && k < |s.slots| && s.slots[k].active && s.slots[k].timestamp == input.value.timestamp {
      SlotIndexUnique(s.slots, k);
    }
  }

  // The slot a new frame takes: a free one while there is one, otherwise the
  // one activated first, whose frame is lost and counted.
  ghost predicate Takes<P>(s: State<P>, k: nat, evicts: bool)
  {
    && k < |s.slots|
    && (evicts <==> forall i :: 0 <= i < |s.slots| ==> s.slots[i].active)
    && (!evicts ==> !s.slots[k].active)
    && (evicts ==> forall i :: 0 <= i < |s.slots| ==> s.slots[k].activatedAt <= s.slots[i].activatedAt)
  }

  // The state in which slot k was opened for the packet's frame.
  ghost function Opened<P>(s: State<P>, k: nat, evicts: bool, p: Packet<P>, now: int): State<P>
    requires k < |s.slots|
  {
    State(s.slots[k := Slot(true, p.timestamp, p.total, [], 0, 0, now)],
          s.stats.(evicted := s.stats.evicted + if evicts then 1 else 0))
  }

  // MAIN RESULT. The first packet of a frame opens a slot and is stored there;
  // it publishes at once exactly when it is the whole frame.
  lemma NewFrameVerdict<P>(cfg: Config, s: State<P>, p: Packet<P>, now: int) returns (k: nat, evicts: bool)
    requires Valid(cfg, s) && InFrame(cfg, p) && NoSlot(s, p.timestamp)
    ensures Takes(s, k, evicts)
    ensures var c, r, t := ChunkOf(p), AfterPacket(cfg, s, Some(p), now), Opened(s, k, evicts, p, now);
            if cfg.maxPackets == 0 then OnlyReject(t, r)
            else if |p.points| == p.total then Publishes(t, r, k, c)
            else Keeps(t, r, k, c)
  {
    var f := FreeIndex(s.slots);
    evicts := f == |s.slots|;
    k := if evicts then OldestIndex(s.slots) else f;
    var t := Opened(s, k, evicts, p, now);
    OpensFrame(cfg, s, p, now, k, evicts, t);
    PlaceVerdict(cfg, t, k, p);
    FillsAlone(t.slots[k].packets, ChunkOf(p), p.total);
  }

  lemma OpensFrame<P>(cfg: Config, s: State<P>, p: Packet<P>, now: int, k: nat, evicts: bool, t: State<P>)
    requires Valid(cfg, s) && InFrame(cfg, p) && NoSlot(s, p.timestamp) && evicts == (FreeIndex(s.slots) == |s.slots|)
    requires k == (if evicts then OldestIndex(s.slots) else FreeIndex(s.slots)) && t == Opened(s, k, evicts, p, now)
    ensures Valid(cfg, t) && AfterPacket(cfg, s, Some(p), now) == Place(cfg, t, k, p)
  {
    var claimed := OpenSlot(s, p.timestamp, now).0;
    assert OpenSlot(s, p.timestamp, now).1 == k;
    ClaimOk(cfg, s, claimed, k, p.timestamp, now);
    assert t == claimed.(slots := claimed.slots[k := t.slots[k]]);
    ReplaceOk(cfg, claimed, t, k, t.slots[k]);
    FirstStored(cfg, s, claimed, t, k, p, now);
  }

  lemma FirstStored<P>(cfg: Config, s: State<P>, claimed: State<P>, t: State<P>, k: nat, p: Packet<P>, now: int)
    requires s.slots != [] && InFrame(cfg, p) && OpenSlot(s, p.timestamp, now) == (claimed, k)
    requires k < |claimed.slots| && claimed.slots[k] == OpenedSlot(p.timestamp, now)
    requires t == claimed.(slots := claimed.slots[k := OpenedSlot(p.timestamp, now).(total := p.total)])
    ensures AfterPacket(cfg, s, Some(p), now) == Place(cfg, t, k, p)
  {
  }

  lemma FillsAlone<P>(ps: seq<Chunk<P>>, c: Chunk<P>, total: nat)
    requires ps == [] && End(c) <= total && 0 < total
    ensures Fills(ps, c, total) <==> |c.points| == total
  {
    if |c.points| != total {
      var pos := if c.offset > 0 then 0 else End(c);
      assert !Covered(ps, pos) && !Covers(c, pos);
    }
  }

  // ---------- expiry ----------

  // Expiry empties exactly the slots active for the timeout or longer.
  lemma ExpiryVerdict<P>(cfg: Config, s: State<P>, now: int, i: nat)
    requires Valid(cfg, s) && i < |s.slots|
    ensures var t := AfterExpiry(cfg, s, now);
            if s.slots[i].active && now >= s.slots[i].activatedAt + cfg.timeout
            then !t.slots[i].active && t.slots[i].packets == []
            else t.slots[i] == s.slots[i]
  {
    ExpiryOk(cfg, s, now);
  }
}
