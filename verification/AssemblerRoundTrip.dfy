/**
 Reassembly is the inverse of cutting: in any interleaving of the pieces of any
 number of frames, repeats included, a frame comes out, complete and in order,
 each time its pieces since its last publication become all of them.
 */
module AssemblerRoundTrip {
  import opened Options
  import opened FrameAssembler
  import opened AssemblerInvariants

  // A frame as the sensor cuts it: piece i is points[cuts[i]..cuts[i + 1]].
  datatype Source<P> = Source(points: seq<P>, cuts: seq<nat>)

  ghost predicate Ordered(cuts: seq<nat>, i: nat, j: nat)
    requires i < |cuts| && j < |cuts|
  {
    cuts[i] < cuts[j]
  }

  ghost predicate WellCut<P>(f: Source<P>)
  {
    && |f.cuts| >= 2 && f.cuts[0] == 0 && f.cuts[|f.cuts| - 1] == |f.points|
    && forall i, j :: 0 <= i < j < |f.cuts| ==> Ordered(f.cuts, i, j)
  }

  ghost function Pieces<P>(f: Source<P>): nat
    requires WellCut(f)
  {
    |f.cuts| - 1
  }

  ghost function Piece<P>(f: Source<P>, i: nat): (c: Chunk<P>)
    requires WellCut(f) && i < Pieces(f)
    ensures c.offset == f.cuts[i] && End(c) == f.cuts[i + 1] <= |f.points| && c.points != []
    ensures c.points == f.points[c.offset..End(c)]
  {
    assert Ordered(f.cuts, i, i + 1);
    assert i + 1 < |f.cuts| - 1 ==> Ordered(f.cuts, i + 1, |f.cuts| - 1);
    Chunk(f.cuts[i], f.points[f.cuts[i]..f.cuts[i + 1]])
  }

  ghost function PacketOf<P>(ts: nat, f: Source<P>, i: nat): Packet<P>
    requires WellCut(f) && i < Pieces(f)
  {
    Packet(ts, |f.points|, f.cuts[i], Piece(f, i).points)
  }

  ghost function Below(n: nat): (s: set<nat>)
    ensures |s| == n && forall i :: i in s <==> 0 <= i < n
  {
    if n == 0 then {} else Below(n - 1) + {n - 1}
  }

  ghost function AllPieces<P>(f: Source<P>): set<nat>
    requires WellCut(f)
  {
    Below(Pieces(f))
  }

  ghost predicate IsPiece<P>(f: Source<P>, seen: set<nat>, c: Chunk<P>)
    requires WellCut(f) && seen <= AllPieces(f)
  {
    exists i :: i in seen && c == Piece(f, i)
  }

  // The stored packets are exactly the pieces seen.
  ghost predicate Holds<P>(ps: seq<Chunk<P>>, f: Source<P>, seen: set<nat>)
    requires WellCut(f)
  {
    && seen <= AllPieces(f)
    && |ps| == |seen|
    && (forall i :: i in seen ==> Piece(f, i) in ps)
    && (forall k :: 0 <= k < |ps| ==> IsPiece(f, seen, ps[k]))
  }

  // ---------- one frame ----------

  lemma {:induction false} PieceAt<P>(f: Source<P>, pos: nat, n: nat) returns (i: nat)
    requires WellCut(f) && n < |f.cuts| && pos < f.cuts[n]
    ensures i < n && f.cuts[i] <= pos < f.cuts[i + 1]
  {
    if f.cuts[n - 1] <= pos { i := n - 1; } else { i := PieceAt(f, pos, n - 1); }
  }

  lemma PiecesSeparate<P>(f: Source<P>, i: nat, j: nat)
    requires WellCut(f) && i < Pieces(f) && j < Pieces(f) && i != j
    ensures Separate(Piece(f, i), Piece(f, j))
  {
    var lo, hi := if i < j then i else j, if i < j then j else i;
    assert Ordered(f.cuts, lo, hi);
    assert lo + 1 < hi ==> Ordered(f.cuts, lo + 1, hi);
  }

  lemma ProperSubsetSmaller<T>(a: set<T>, b: set<T>)
    requires a < b
    ensures |a| < |b|
  {
    var x :| x in b && x !in a;
    SubsetSize(a, b - {x});
  }

  lemma {:induction false} SubsetSize<T>(a: set<T>, b: set<T>)
    requires a <= b
    ensures |a| <= |b|
  {
    if a != {} {
      var x :| x in a;
      SubsetSize(a - {x}, b - {x});
    }
  }

  lemma SeenAllCovers<P>(ps: seq<Chunk<P>>, f: Source<P>, pos: nat)
    requires WellCut(f) && Holds(ps, f, AllPieces(f)) && pos < |f.points|
    ensures Covered(ps, pos)
  {
    var i := PieceAt(f, pos, |f.cuts| - 1);
    assert Piece(f, i) in ps;
    var k :| 0 <= k < |ps| && ps[k] == Piece(f, i);
    assert Covers(ps[k], pos);
  }

  lemma MissingUncovered<P>(ps: seq<Chunk<P>>, f: Source<P>, seen: set<nat>, i: nat)
    requires WellCut(f) && Holds(ps, f, seen) && i < Pieces(f) && i !in seen
    ensures f.cuts[i] < |f.points| && !Covered(ps, f.cuts[i])
  {
    assert Ordered(f.cuts, i, |f.cuts| - 1);
    AllSeparate(ps, f, seen, i);
    assert Piece(f, i).points != [];
    forall k | 0 <= k < |ps|
      ensures !Covers(ps[k], f.cuts[i])
    {
      assert Separate(ps[k], Piece(f, i));
    }
  }

  // The stored sizes add up to the frame exactly when every piece was seen.
  lemma SeenAllIffFull<P>(cfg: Config, slot: Slot<P>, f: Source<P>, seen: set<nat>)
    requires WellCut(f) && SlotOk(cfg, slot) && slot.total == |f.points| && Holds(slot.packets, f, seen)
    ensures slot.sum == slot.total <==> seen == AllPieces(f)
  {
    CompleteMeansExact(cfg, slot);
    if seen == AllPieces(f) {
      forall pos | 0 <= pos < slot.total
        ensures Covered(slot.packets, pos)
      {
        SeenAllCovers(slot.packets, f, pos);
      }
    } else {
      var i :| i in AllPieces(f) && i !in seen;
      MissingUncovered(slot.packets, f, seen, i);
    }
  }

  lemma {:induction false} ConcatOfRun<P>(ps: seq<Chunk<P>>, points: seq<P>, from: nat, hi: nat)
    requires RunFrom(ps, from) == Some(hi)
    requires forall k :: 0 <= k < |ps| ==> End(ps[k]) <= |points| && ps[k].points == points[ps[k].offset..End(ps[k])]
    requires from <= |points|
    ensures from <= hi <= |points| && Concat(ps) == points[from..hi]
  {
    if ps != [] {
      ConcatOfRun(ps[1..], points, End(ps[0]), hi);
    }
  }

  lemma FoundAtLowerBound<P>(ps: seq<Chunk<P>>, k: nat)
    requires Disjoint(ps) && k < |ps|
    ensures LowerBound(ps, ps[k].offset) == k
  {
    assert forall j :: 0 <= j < k ==> ps[j].offset < ps[k].offset;
  }

  lemma AllSeparate<P>(ps: seq<Chunk<P>>, f: Source<P>, seen: set<nat>, i: nat)
    requires WellCut(f) && Holds(ps, f, seen) && i < Pieces(f) && i !in seen
    ensures forall k :: 0 <= k < |ps| ==> Separate(ps[k], Piece(f, i))
  {
    forall k | 0 <= k < |ps|
      ensures Separate(ps[k], Piece(f, i))
    {
      assert IsPiece(f, seen, ps[k]);
      var j :| j in seen && ps[k] == Piece(f, j);
      PiecesSeparate(f, j, i);
    }
  }

  lemma InsertedIsPiece<P>(ps: seq<Chunk<P>>, f: Source<P>, seen: set<nat>, i: nat, j: nat, k: nat)
    requires WellCut(f) && Holds(ps, f, seen) && i < Pieces(f) && j <= |ps| && k <= |ps|
    ensures IsPiece(f, seen + {i}, Insert(ps, j, Piece(f, i))[k])
  {
    InsertAt(ps, j, Piece(f, i), k);
    if k == j {
      assert i in seen + {i};
    } else {
      var c := if k < j then ps[k] else ps[k - 1];
      assert IsPiece(f, seen, c);
      var m :| m in seen && c == Piece(f, m);
      assert m in seen + {i};
    }
  }

  lemma PieceInserted<P>(ps: seq<Chunk<P>>, f: Source<P>, seen: set<nat>, i: nat, j: nat, m: nat)
    requires WellCut(f) && Holds(ps, f, seen) && i < Pieces(f) && j <= |ps| && m in seen + {i}
    ensures Piece(f, m) in Insert(ps, j, Piece(f, i))
  {
    var k := j;
    if m != i {
      assert Piece(f, m) in ps;
      k :| 0 <= k < |ps| && ps[k] == Piece(f, m);
      k := if k < j then k else k + 1;
    }
    InsertAt(ps, j, Piece(f, i), k);
    assert Insert(ps, j, Piece(f, i))[k] == Piece(f, m);
  }

  lemma HoldsInsert<P>(ps: seq<Chunk<P>>, f: Source<P>, seen: set<nat>, i: nat, j: nat)
    requires WellCut(f) && Holds(ps, f, seen) && i < Pieces(f) && i !in seen && j <= |ps|
    ensures Holds(Insert(ps, j, Piece(f, i)), f, seen + {i})
  {
    var qs, more := Insert(ps, j, Piece(f, i)), seen + {i};
    forall k | 0 <= k < |qs|
      ensures IsPiece(f, more, qs[k])
    {
      InsertedIsPiece(ps, f, seen, i, j, k);
    }
    forall m | m in more
      ensures Piece(f, m) in qs
    {
      PieceInserted(ps, f, seen, i, j, m);
    }
  }

  ghost predicate Admissible<P>(cfg: Config, f: Source<P>)
  {
    WellCut(f) && |f.points| <= cfg.maxPoints && Pieces(f) <= cfg.maxPackets
  }

  // The slot collects frame f and has the pieces in `seen`.
  ghost predicate Collects<P>(slot: Slot<P>, ts: nat, f: Source<P>, seen: set<nat>, begun: int)
    requires WellCut(f)
  {
    && slot.active && slot.timestamp == ts && slot.total == |f.points| && slot.activatedAt == begun
    && Holds(slot.packets, f, seen)
  }

  // No drop, eviction or rejection happened, only these counters moved.
  ghost predicate Lossless(a: Stats, b: Stats)
  {
    b.(accepted := 0, duplicated := 0, published := 0) == a.(accepted := 0, duplicated := 0, published := 0)
  }

  ghost predicate SameElsewhere<P>(a: seq<Slot<P>>, b: seq<Slot<P>>, k: nat)
  {
    |a| == |b| && forall i :: 0 <= i < |a| && i != k ==> a[i] == b[i]
  }

  // A repeat of an accepted piece changes nothing but the duplicate counter.
  lemma RepeatPiece<P>(cfg: Config, s: State<P>, k: nat, ts: nat, f: Source<P>, seen: set<nat>, i: nat)
    requires k < |s.slots| && WellCut(f) && i < Pieces(f) && i in seen
    requires Disjoint(s.slots[k].packets) && Holds(s.slots[k].packets, f, seen)
    ensures Place(cfg, s, k, PacketOf(ts, f, i)) ==
            (s.(stats := s.stats.(duplicated := s.stats.duplicated + 1)), None)
  {
    var ps := s.slots[k].packets;
    assert Piece(f, i) in ps;
    var m :| 0 <= m < |ps| && ps[m] == Piece(f, i);
    FoundAtLowerBound(ps, m);
    PlaceStored(cfg, s, k, PacketOf(ts, f, i));
  }

  lemma PlaceStored<P>(cfg: Config, s: State<P>, k: nat, p: Packet<P>)
    requires k < |s.slots|
    requires var ps := s.slots[k].packets; var j := LowerBound(ps, p.index);
             j < |ps| && ps[j] == Chunk(p.index, p.points)
    ensures Place(cfg, s, k, p) == (s.(stats := s.stats.(duplicated := s.stats.duplicated + 1)), None)
  {
  }

  // A missing piece is stored.
  lemma NewPiece<P>(cfg: Config, s: State<P>, k: nat, ts: nat, f: Source<P>, seen: set<nat>, i: nat)
    requires k < |s.slots| && SlotOk(cfg, s.slots[k]) && Admissible(cfg, f) && i < Pieces(f) && i !in seen
    requires s.slots[k].active && s.slots[k].total == |f.points| && Holds(s.slots[k].packets, f, seen)
    ensures var s1 := Accept(s, k, LowerBound(s.slots[k].packets, f.cuts[i]), Piece(f, i));
            && Place(cfg, s, k, PacketOf(ts, f, i)) == Finish(s1, k)
            && SlotOk(cfg, s1.slots[k]) && Holds(s1.slots[k].packets, f, seen + {i})
  {
    PieceFits(cfg, s.slots[k], ts, f, seen, i);
    PlaceNew(cfg, s, k, PacketOf(ts, f, i));
    NewPieceKept(cfg, s, k, f, seen, i);
  }

  lemma PlaceNew<P>(cfg: Config, s: State<P>, k: nat, p: Packet<P>)
    requires k < |s.slots|
    requires var slot := s.slots[k]; var j := LowerBound(slot.packets, p.index);
             && !(j < |slot.packets| && slot.packets[j].offset == p.index) && |slot.packets| < cfg.maxPackets
             && !Overlaps(slot.packets, j, Chunk(p.index, p.points)) && !OverBudget(cfg, slot, p)
    ensures Place(cfg, s, k, p) ==
            Finish(Accept(s, k, LowerBound(s.slots[k].packets, p.index), Chunk(p.index, p.points)), k)
  {
  }

  lemma NewPieceKept<P>(cfg: Config, s: State<P>, k: nat, f: Source<P>, seen: set<nat>, i: nat)
    requires k < |s.slots| && SlotOk(cfg, s.slots[k]) && Admissible(cfg, f) && i < Pieces(f) && i !in seen
    requires s.slots[k].active && s.slots[k].total == |f.points| && Holds(s.slots[k].packets, f, seen)
    requires |s.slots[k].packets| < cfg.maxPackets
    ensures var s1 := Accept(s, k, LowerBound(s.slots[k].packets, f.cuts[i]), Piece(f, i));
            SlotOk(cfg, s1.slots[k]) && Holds(s1.slots[k].packets, f, seen + {i})
  {
    var slot, c := s.slots[k], Piece(f, i);
    var j := LowerBound(slot.packets, c.offset);
    AllSeparate(slot.packets, f, seen, i);
    PacketInRange(cfg, 0, f, i);
    InsertKeepsDisjoint(slot.packets, c, slot.total);
    SumInsert(slot.packets, j, c);
    HoldsInsert(slot.packets, f, seen, i, j);
  }

  // None of the checks before storage fires for a missing piece.
  lemma PieceFits<P>(cfg: Config, slot: Slot<P>, ts: nat, f: Source<P>, seen: set<nat>, i: nat)
    requires SlotOk(cfg, slot) && Admissible(cfg, f) && i < Pieces(f) && i !in seen
    requires slot.total == |f.points| && Holds(slot.packets, f, seen)
    ensures var p := PacketOf(ts, f, i); var j := LowerBound(slot.packets, p.index);
            && !(j < |slot.packets| && slot.packets[j].offset == p.index) && |slot.packets| < cfg.maxPackets
            && !Overlaps(slot.packets, j, Piece(f, i)) && !OverBudget(cfg, slot, p)
            && Piece(f, i) == Chunk(p.index, p.points)
  {
    AllSeparate(slot.packets, f, seen, i);
    NeighboursSuffice(slot.packets, Piece(f, i));
    assert seen < AllPieces(f) by { assert i in AllPieces(f); }
    ProperSubsetSmaller(seen, AllPieces(f));
    PacketInRange(cfg, ts, f, i);
    BudgetNeverFires(cfg, slot, PacketOf(ts, f, i));
  }

  lemma FinishPiece<P>(cfg: Config, s: State<P>, k: nat, ts: nat, f: Source<P>, seen: set<nat>, begun: int)
    requires k < |s.slots| && Admissible(cfg, f) && SlotOk(cfg, s.slots[k]) && s.slots[k].packets != []
    requires Collects(s.slots[k], ts, f, seen, begun)
    ensures var r := Finish(s, k);
            if seen == AllPieces(f)
            then r.1 == Some(Frame(ts, |f.points|, f.points)) && r.0.slots == s.slots[k := Cleared(s.slots[k])] &&
                 r.0.stats == s.stats.(published := s.stats.published + 1)
            else r == (s, None)
  {
    var slot := s.slots[k];
    SeenAllIffFull(cfg, slot, f, seen);
    CompleteMeansExact(cfg, slot);
    if seen == AllPieces(f) {
      forall m | 0 <= m < |slot.packets|
        ensures End(slot.packets[m]) <= |f.points| &&
                slot.packets[m].points == f.points[slot.packets[m].offset..End(slot.packets[m])]
      {
        assert IsPiece(f, seen, slot.packets[m]);
      }
      ConcatOfRun(slot.packets, f.points, 0, slot.total);
      assert f.points[0..slot.total] == f.points;
    }
  }

  // What storing piece-set `seen` of frame f in slot k amounts to.
  ghost predicate Placed<P>(s: State<P>, r: (State<P>, Option<Frame<P>>), k: nat,
                            ts: nat, f: Source<P>, seen: set<nat>, begun: int)
    requires WellCut(f)
  {
    && k < |r.0.slots| && SameElsewhere(s.slots, r.0.slots, k) && Lossless(s.stats, r.0.stats)
    && if seen == AllPieces(f)
       then r.1 == Some(Frame(ts, |f.points|, f.points)) && !r.0.slots[k].active &&
            r.0.stats.published == s.stats.published + 1
       else r.1 == None && Collects(r.0.slots[k], ts, f, seen, begun) && r.0.stats.published == s.stats.published
  }

  lemma AcceptedPiece<P>(cfg: Config, s: State<P>, s1: State<P>, k: nat, j: nat,
                         ts: nat, f: Source<P>, seen: set<nat>, begun: int, c: Chunk<P>)
    requires k < |s.slots| && Admissible(cfg, f) && j <= |s.slots[k].packets| && s1 == Accept(s, k, j, c)
    requires SlotOk(cfg, s1.slots[k]) && Holds(s1.slots[k].packets, f, seen)
    requires s.slots[k].active && s.slots[k].timestamp == ts && s.slots[k].total == |f.points|
    requires s.slots[k].activatedAt == begun
    ensures Placed(s, Finish(s1, k), k, ts, f, seen, begun)
  {
    FinishPiece(cfg, s1, k, ts, f, seen, begun);
  }

  lemma CountedPiece<P>(s: State<P>, k: nat, ts: nat, f: Source<P>, seen: set<nat>, begun: int)
    requires k < |s.slots| && WellCut(f) && Collects(s.slots[k], ts, f, seen, begun) && seen != AllPieces(f)
    ensures Placed(s, (s.(stats := s.stats.(duplicated := s.stats.duplicated + 1)), None), k, ts, f, seen, begun)
  {
  }

  lemma PlacePiece<P>(cfg: Config, s: State<P>, k: nat, ts: nat, f: Source<P>, seen: set<nat>, begun: int, i: nat)
    requires k < |s.slots| && SlotOk(cfg, s.slots[k]) && Admissible(cfg, f) && i < Pieces(f)
    requires Collects(s.slots[k], ts, f, seen, begun) && seen != AllPieces(f)
    ensures Placed(s, Place(cfg, s, k, PacketOf(ts, f, i)), k, ts, f, seen + {i}, begun)
  {
    if i in seen {
      assert seen + {i} == seen;
      RepeatPiece(cfg, s, k, ts, f, seen, i);
      CountedPiece(s, k, ts, f, seen, begun);
    } else {
      NewPiece(cfg, s, k, ts, f, seen, i);
      var j := LowerBound(s.slots[k].packets, f.cuts[i]);
      var s1 := Accept(s, k, j, Piece(f, i));
      AcceptedPiece(cfg, s, s1, k, j, ts, f, seen + {i}, begun, Piece(f, i));
    }
  }

  // ---------- many frames ----------

  datatype Progress = Progress(seen: set<nat>, begun: int)

  // The reference receiver: which pieces of which unfinished frames arrived,
  // and how many frames it published. It forgets a frame when publishing it.
  datatype Ideal = Ideal(live: map<nat, Progress>, published: nat)

  datatype Delivery = Deliver(ts: nat, piece: nat, now: int) | Idle(now: int)

  ghost predicate World<P>(cfg: Config, world: map<nat, Source<P>>)
  {
    forall ts :: ts in world ==> Admissible(cfg, world[ts])
  }

  function Width(cfg: Config): nat { if cfg.maxParallel == 0 then 1 else cfg.maxParallel }

  // A piece of some frame, with room for its frame; or an expiry call before
  // any unfinished frame is too old.
  ghost predicate Legal<P>(cfg: Config, world: map<nat, Source<P>>, a: Ideal, e: Delivery)
    requires World(cfg, world)
  {
    match e
    case Deliver(ts, i, now) =>
      ts in world && i < Pieces(world[ts]) && (ts in a.live || |a.live| < Width(cfg))
    case Idle(now) => forall ts :: ts in a.live ==> now - a.live[ts].begun < cfg.timeout
  }

  ghost function Before(a: Ideal, ts: nat, now: int): Progress
  {
    if ts in a.live then a.live[ts] else Progress({}, now)
  }

  ghost function IdealStep<P>(cfg: Config, world: map<nat, Source<P>>, a: Ideal, e: Delivery)
    : (Ideal, Option<Frame<P>>)
    requires World(cfg, world)
  {
    match e
    case Idle(_) => (a, None)
    case Deliver(ts, i, now) =>
      if !Legal(cfg, world, a, e) then (a, None) else
      var f, b := world[ts], Before(a, ts, now);
      if b.seen + {i} == AllPieces(f)
      then (Ideal(a.live - {ts}, a.published + 1), Some(Frame(ts, |f.points|, f.points)))
      else (Ideal(a.live[ts := Progress(b.seen + {i}, b.begun)], a.published), None)
  }

  ghost function RealStep<P>(cfg: Config, world: map<nat, Source<P>>, s: State<P>, e: Delivery)
    : (State<P>, Option<Frame<P>>)
    requires World(cfg, world) && s.slots != []
    requires e.Deliver? ==> e.ts in world && e.piece < Pieces(world[e.ts])
  {
    match e
    case Idle(now) => (AfterExpiry(cfg, s, now), None)
    case Deliver(ts, i, now) => AfterPacket(cfg, s, Some(PacketOf(ts, world[ts], i)), now)
  }

  ghost predicate Unfinished<P>(f: Source<P>, p: Progress)
    requires WellCut(f)
  {
    p.seen != AllPieces(f)
  }

  // The simulation relation between the assembler and the reference receiver.
  ghost predicate Tracks<P>(cfg: Config, world: map<nat, Source<P>>, a: Ideal, s: State<P>)
    requires World(cfg, world)
  {
    && Valid(cfg, s) && InFlight(s.slots) == |a.live| && a.live.Keys <= world.Keys
    && StampsFound(world, a, s.slots)
    && SlotsMatch(world, a, s.slots)
    && s.stats.published == a.published
    && s.stats.rejected == s.stats.timedOut == s.stats.conflicts == s.stats.evicted == 0
  }

  ghost predicate SlotTracks<P>(world: map<nat, Source<P>>, a: Ideal, slot: Slot<P>)
    requires forall ts :: ts in world ==> WellCut(world[ts])
  {
    && slot.timestamp in a.live && slot.timestamp in world
    && Collects(slot, slot.timestamp, world[slot.timestamp], a.live[slot.timestamp].seen, a.live[slot.timestamp].begun)
  }

  ghost predicate SlotsMatch<P>(world: map<nat, Source<P>>, a: Ideal, slots: seq<Slot<P>>)
    requires forall ts :: ts in world ==> WellCut(world[ts])
  {
    forall k :: 0 <= k < |slots| && slots[k].active ==> SlotTracks(world, a, slots[k])
  }

  ghost predicate StampsFound<P>(world: map<nat, Source<P>>, a: Ideal, slots: seq<Slot<P>>)
    requires (forall ts :: ts in world ==> WellCut(world[ts])) && a.live.Keys <= world.Keys
  {
    forall ts :: ts in a.live ==> SlotIndex(slots, ts) < |slots| && Unfinished(world[ts], a.live[ts])
  }

  lemma {:induction false} AllActive<P>(slots: seq<Slot<P>>)
    requires forall i :: 0 <= i < |slots| ==> slots[i].active
    ensures InFlight(slots) == |slots|
  {
    if slots != [] { AllActive(slots[..|slots| - 1]); }
  }

  lemma SlotIndexUnique<P>(slots: seq<Slot<P>>, k: nat)
    requires DistinctStamps(slots) && k < |slots| && slots[k].active
    ensures SlotIndex(slots, slots[k].timestamp) == k
  {
    var j := SlotIndex(slots, slots[k].timestamp);
    assert j <= k;
  }

  lemma PacketInRange<P>(cfg: Config, ts: nat, f: Source<P>, i: nat)
    requires Admissible(cfg, f) && i < Pieces(f)
    ensures var p := PacketOf(ts, f, i); 0 < p.total <= cfg.maxPoints && !RangeOutside(p)
  {
    assert Ordered(f.cuts, i, |f.cuts| - 1);
    assert End(Piece(f, i)) <= |f.points|;
  }

  // A packet of a frame already being collected goes straight to its slot.
  lemma OpenLive<P>(cfg: Config, s: State<P>, k: nat, ts: nat, f: Source<P>, seen: set<nat>, begun: int, i: nat,
                    now: int)
    requires k < |s.slots| && SlotIndex(s.slots, ts) == k && SlotOk(cfg, s.slots[k])
    requires Admissible(cfg, f) && i < Pieces(f) && Collects(s.slots[k], ts, f, seen, begun)
    ensures AfterPacket(cfg, s, Some(PacketOf(ts, f, i)), now) == Place(cfg, s, k, PacketOf(ts, f, i))
  {
    PacketInRange(cfg, ts, f, i);
    assert s.slots[k := s.slots[k].(total := |f.points|)] == s.slots;
    assert s.(slots := s.slots) == s;
  }

  // The first packet of a frame takes a free slot.
  lemma OpenNew<P>(cfg: Config, s: State<P>, ts: nat, f: Source<P>, i: nat, now: int) returns (t: State<P>, k: nat)
    requires Valid(cfg, s) && SlotIndex(s.slots, ts) == |s.slots| && InFlight(s.slots) < |s.slots|
    requires Admissible(cfg, f) && i < Pieces(f)
    ensures Valid(cfg, t) && k < |s.slots| && !s.slots[k].active && t.stats == s.stats
    ensures SameElsewhere(s.slots, t.slots, k) && Collects(t.slots[k], ts, f, {}, now)
    ensures InFlight(t.slots) == InFlight(s.slots) + 1
    ensures AfterPacket(cfg, s, Some(PacketOf(ts, f, i)), now) == Place(cfg, t, k, PacketOf(ts, f, i))
  {
    if FreeIndex(s.slots) == |s.slots| { AllActive(s.slots); assert false; }
    k := FreeIndex(s.slots);
    t := FreshSlot(cfg, s, k, ts, |f.points|, now);
    FirstPacket(cfg, s, t, k, PacketOf(ts, f, i), now) by { PacketInRange(cfg, ts, f, i); }
    assert Holds([], f, {});
  }

  lemma FreshSlot<P>(cfg: Config, s: State<P>, k: nat, ts: nat, total: nat, now: int) returns (t: State<P>)
    requires Valid(cfg, s) && SlotIndex(s.slots, ts) == |s.slots| && k < |s.slots| && !s.slots[k].active
    ensures t == s.(slots := s.slots[k := OpenedSlot(ts, now).(total := total)])
    ensures Valid(cfg, t) && InFlight(t.slots) == InFlight(s.slots) + 1
  {
    var claimed := s.(slots := s.slots[k := OpenedSlot<P>(ts, now)]);
    var x := OpenedSlot<P>(ts, now).(total := total);
    t := s.(slots := s.slots[k := x]);
    ClaimOk(cfg, s, claimed, k, ts, now);
    InFlightUpdate(s.slots, k, x);
    assert t.slots == claimed.slots[k := x];
    ReplaceOk(cfg, claimed, t, k, x);
  }

  lemma FirstPacket<P>(cfg: Config, s: State<P>, t: State<P>, k: nat, p: Packet<P>, now: int)
    requires s.slots != [] && 0 < p.total <= cfg.maxPoints && !RangeOutside(p)
    requires SlotIndex(s.slots, p.timestamp) == |s.slots| && k == FreeIndex(s.slots) < |s.slots|
    requires t == s.(slots := s.slots[k := OpenedSlot(p.timestamp, now).(total := p.total)])
    ensures AfterPacket(cfg, s, Some(p), now) == Place(cfg, t, k, p)
  {
    var claimed := s.(slots := s.slots[k := OpenedSlot<P>(p.timestamp, now)]);
    assert OpenSlot(s, p.timestamp, now) == (claimed, k);
    assert claimed.slots[k := OpenedSlot<P>(p.timestamp, now).(total := p.total)] == t.slots;
  }

  lemma MapRemoveSize<K, V>(m: map<K, V>, k: K)
    ensures |m - {k}| == if k in m then |m| - 1 else |m|
  {
    assert (m - {k}).Keys == m.Keys - {k};
  }

  lemma MapAddSize<K, V>(m: map<K, V>, k: K, v: V)
    ensures |m[k := v]| == if k in m then |m| else |m| + 1
  {
    assert m[k := v].Keys == m.Keys + {k};
  }

  // Only the entry of ts differs.
  ghost predicate SameBut(m: map<nat, Progress>, n: map<nat, Progress>, ts: nat)
  {
    forall x :: x != ts ==> (x in m <==> x in n) && (x in m ==> m[x] == n[x])
  }

  // Every slot but k keeps its frame.
  lemma SlotsStillMatch<P>(cfg: Config, world: map<nat, Source<P>>, a: Ideal, a': Ideal, ts: nat,
                           s: State<P>, r: State<P>, k: nat)
    requires World(cfg, world) && Tracks(cfg, world, a, s) && SameBut(a.live, a'.live, ts)
    requires OwnSlot(a, s, ts, k) && SameElsewhere(s.slots, r.slots, k)
    requires r.slots[k].active ==> SlotTracks(world, a', r.slots[k])
    ensures SlotsMatch(world, a', r.slots)
  {
    forall m | 0 <= m < |r.slots| && r.slots[m].active
      ensures SlotTracks(world, a', r.slots[m])
    {
      if m != k {
        assert SlotTracks(world, a, s.slots[m]);
        assert s.slots[m].timestamp != ts;
      }
    }
  }

  lemma StampsStillFound<P>(cfg: Config, world: map<nat, Source<P>>, a: Ideal, a': Ideal, ts: nat,
                            s: State<P>, r: State<P>, k: nat)
    requires World(cfg, world) && Tracks(cfg, world, a, s) && SameBut(a.live, a'.live, ts)
    requires OwnSlot(a, s, ts, k) && SameElsewhere(s.slots, r.slots, k) && DistinctStamps(r.slots)
    requires ts in world && (ts in a'.live ==> Unfinished(world[ts], a'.live[ts]))
    requires ts in a'.live ==> r.slots[k].active && r.slots[k].timestamp == ts
    ensures a'.live.Keys <= world.Keys && StampsFound(world, a', r.slots)
  {
    forall x | x in a'.live
      ensures x in world && SlotIndex(r.slots, x) < |r.slots| && Unfinished(world[x], a'.live[x])
    {
      if x == ts {
        SlotIndexUnique(r.slots, k);
      } else {
        assert x in a.live && a'.live[x] == a.live[x];
        SlotIndexUnique(r.slots, SlotIndex(s.slots, x));
      }
    }
  }

  // Slot k is the slot of frame ts, or a free one when ts is new.
  ghost predicate OwnSlot<P>(a: Ideal, s: State<P>, ts: nat, k: nat)
  {
    k < |s.slots| && if ts in a.live then s.slots[k].active && s.slots[k].timestamp == ts else !s.slots[k].active
  }

  lemma TracksFinished<P>(cfg: Config, world: map<nat, Source<P>>, a: Ideal, s: State<P>, ts: nat, r: State<P>, k: nat)
    requires World(cfg, world) && Tracks(cfg, world, a, s) && OwnSlot(a, s, ts, k) && ts in world
    requires Valid(cfg, r) && SameElsewhere(s.slots, r.slots, k) && !r.slots[k].active
    requires Lossless(s.stats, r.stats) && r.stats.published == s.stats.published + 1
    requires InFlight(r.slots) == InFlight(s.slots) - (if ts in a.live then 1 else 0)
    ensures Tracks(cfg, world, Ideal(a.live - {ts}, a.published + 1), r)
  {
    var a' := Ideal(a.live - {ts}, a.published + 1);
    MapRemoveSize(a.live, ts);
    SlotsStillMatch(cfg, world, a, a', ts, s, r, k);
    StampsStillFound(cfg, world, a, a', ts, s, r, k);
  }

  lemma TracksOpen<P>(cfg: Config, world: map<nat, Source<P>>, a: Ideal, s: State<P>, ts: nat, r: State<P>, k: nat,
                      p: Progress)
    requires World(cfg, world) && Tracks(cfg, world, a, s) && OwnSlot(a, s, ts, k) && ts in world
    requires Valid(cfg, r) && SameElsewhere(s.slots, r.slots, k)
    requires Unfinished(world[ts], p) && Collects(r.slots[k], ts, world[ts], p.seen, p.begun)
    requires Lossless(s.stats, r.stats) && r.stats.published == s.stats.published
    requires InFlight(r.slots) == InFlight(s.slots) + (if ts in a.live then 0 else 1)
    ensures Tracks(cfg, world, Ideal(a.live[ts := p], a.published), r)
  {
    var a' := Ideal(a.live[ts := p], a.published);
    MapAddSize(a.live, ts, p);
    assert SlotTracks(world, a', r.slots[k]);
    SlotsStillMatch(cfg, world, a, a', ts, s, r, k);
    StampsStillFound(cfg, world, a, a', ts, s, r, k);
  }

  // Combines the effect on slot k with the reference step.
  lemma ConcludeTracks<P>(cfg: Config, world: map<nat, Source<P>>, a: Ideal, s: State<P>, e: Delivery,
                          t: State<P>, k: nat, r: (State<P>, Option<Frame<P>>))
    requires World(cfg, world) && Tracks(cfg, world, a, s) && Legal(cfg, world, a, e) && e.Deliver?
    requires Valid(cfg, r.0) && OwnSlot(a, s, e.ts, k) && SameElsewhere(s.slots, t.slots, k) && t.stats == s.stats
    requires InFlight(t.slots) == InFlight(s.slots) + (if e.ts in a.live then 0 else 1)
    requires Balanced(t, r.0, 0)
    requires var b := Before(a, e.ts, e.now);
             Placed(t, r, k, e.ts, world[e.ts], b.seen + {e.piece}, b.begun)
    ensures r.1 == IdealStep(cfg, world, a, e).1
    ensures Tracks(cfg, world, IdealStep(cfg, world, a, e).0, r.0)
  {
    var b := Before(a, e.ts, e.now);
    if b.seen + {e.piece} == AllPieces(world[e.ts]) {
      TracksFinished(cfg, world, a, s, e.ts, r.0, k);
    } else {
      TracksOpen(cfg, world, a, s, e.ts, r.0, k, Progress(b.seen + {e.piece}, b.begun));
    }
  }

  lemma DeliverTracks<P>(cfg: Config, world: map<nat, Source<P>>, a: Ideal, s: State<P>, e: Delivery)
    requires World(cfg, world) && Tracks(cfg, world, a, s) && Legal(cfg, world, a, e) && e.Deliver?
    ensures RealStep(cfg, world, s, e).1 == IdealStep(cfg, world, a, e).1
    ensures Tracks(cfg, world, IdealStep(cfg, world, a, e).0, RealStep(cfg, world, s, e).0)
  {
    var f, b := world[e.ts], Before(a, e.ts, e.now);
    var t, k := s, SlotIndex(s.slots, e.ts);
    if e.ts in a.live {
      assert SlotTracks(world, a, s.slots[k]);
      OpenLive(cfg, s, k, e.ts, f, b.seen, b.begun, e.piece, e.now);
    } else {
      forall m | 0 <= m < |s.slots| && s.slots[m].active
        ensures s.slots[m].timestamp != e.ts
      {
        assert SlotTracks(world, a, s.slots[m]);
      }
      t, k := OpenNew(cfg, s, e.ts, f, e.piece, e.now);
      assert 0 in AllPieces(f);
    }
    PlacePiece(cfg, t, k, e.ts, f, b.seen, b.begun, e.piece);
    PacketInRange(cfg, e.ts, f, e.piece);
    PlaceOk(cfg, t, k, PacketOf(e.ts, f, e.piece));
    ConcludeTracks(cfg, world, a, s, e, t, k, RealStep(cfg, world, s, e));
  }

  lemma IdleTracks<P>(cfg: Config, world: map<nat, Source<P>>, a: Ideal, s: State<P>, now: int)
    requires World(cfg, world) && Tracks(cfg, world, a, s) && Legal(cfg, world, a, Idle(now))
    ensures AfterExpiry(cfg, s, now) == s
  {
    ExpiryOk(cfg, s, now);
    var t := AfterExpiry(cfg, s, now);
    forall k | 0 <= k < |s.slots|
      ensures t.slots[k] == s.slots[k]
    {
      if s.slots[k].active { assert SlotTracks(world, a, s.slots[k]); }
    }
    assert t.slots == s.slots;
  }

  // ---------- whole runs ----------

  // States and outputs after the deliveries, on both sides.
  ghost predicate LegalRun<P>(cfg: Config, world: map<nat, Source<P>>, es: seq<Delivery>)
    requires World(cfg, world)
  {
    es == [] ||
    (LegalRun(cfg, world, es[..|es| - 1]) &&
     Legal(cfg, world, IdealRun(cfg, world, es[..|es| - 1]).0, es[|es| - 1]))
  }

  ghost function IdealRun<P>(cfg: Config, world: map<nat, Source<P>>, es: seq<Delivery>): (Ideal, seq<Option<Frame<P>>>)
    requires World(cfg, world)
  {
    if es == [] then (Ideal(map[], 0), [])
    else
      var (a, out) := IdealRun(cfg, world, es[..|es| - 1]);
      var (a', o) := IdealStep(cfg, world, a, es[|es| - 1]);
      (a', out + [o])
  }

  ghost function RealRun<P>(cfg: Config, world: map<nat, Source<P>>, es: seq<Delivery>)
    : (r: (State<P>, seq<Option<Frame<P>>>))
    requires World(cfg, world) && LegalRun(cfg, world, es)
    ensures r.0.slots != []
  {
    if es == [] then (Initial(cfg), [])
    else
      var (s, out) := RealRun(cfg, world, es[..|es| - 1]);
      var (s', o) := RealStep(cfg, world, s, es[|es| - 1]);
      (s', out + [o])
  }

  // The assembler and the reference receiver publish the same frames at the
  // same deliveries, and nothing is ever rejected, dropped or evicted.
  lemma {:induction false} Refinement<P>(cfg: Config, world: map<nat, Source<P>>, es: seq<Delivery>)
    requires World(cfg, world) && LegalRun(cfg, world, es)
    ensures RealRun(cfg, world, es).1 == IdealRun(cfg, world, es).1
    ensures Tracks(cfg, world, IdealRun(cfg, world, es).0, RealRun(cfg, world, es).0)
  {
    if es == [] {
      NoneInFlight(Initial<P>(cfg).slots);
    } else {
      var before, e := es[..|es| - 1], es[|es| - 1];
      Refinement(cfg, world, before);
      var a, s := IdealRun(cfg, world, before).0, RealRun(cfg, world, before).0;
      match e
      case Deliver(_, _, _) => DeliverTracks(cfg, world, a, s, e);
      case Idle(now) => IdleTracks(cfg, world, a, s, now);
    }
  }

  // Pieces of a frame delivered so far.
  ghost function Delivered(es: seq<Delivery>, ts: nat): set<nat>
  {
    if es == [] then {} else Delivered(es[..|es| - 1], ts) + Brings(es[|es| - 1], ts)
  }

  ghost function Brings(e: Delivery, ts: nat): set<nat>
  {
    if e.Deliver? && e.ts == ts then {e.piece} else {}
  }

  // Pieces of frame f delivered since it was last complete.
  ghost function Since<P>(f: Source<P>, es: seq<Delivery>, ts: nat): set<nat>
    requires WellCut(f)
  {
    if es == [] then {}
    else
      var d := Since(f, es[..|es| - 1], ts) + Brings(es[|es| - 1], ts);
      if d == AllPieces(f) then {} else d
  }

  // The last delivery completes frame f.
  ghost predicate Completes<P>(f: Source<P>, es: seq<Delivery>, ts: nat)
    requires WellCut(f)
  {
    es != [] && Since(f, es[..|es| - 1], ts) + Brings(es[|es| - 1], ts) == AllPieces(f)
  }

  // The reference receiver's view of frame f, in terms of its pieces delivered
  // since it was last complete.
  ghost predicate Means<P>(f: Source<P>, a: Ideal, ts: nat, since: set<nat>)
    requires WellCut(f)
  {
    && since != AllPieces(f)
    && (ts in a.live <==> since != {})
    && (ts in a.live ==> a.live[ts].seen == since)
  }

  lemma MeansOther<P>(cfg: Config, world: map<nat, Source<P>>, a: Ideal, ts: nat, since: set<nat>, e: Delivery)
    requires World(cfg, world) && ts in world && Legal(cfg, world, a, e) && Means(world[ts], a, ts, since)
    requires e.Deliver? ==> e.ts != ts
    ensures Means(world[ts], IdealStep(cfg, world, a, e).0, ts, since)
  {
  }

  lemma MeansOwn<P>(cfg: Config, world: map<nat, Source<P>>, a: Ideal, since: set<nat>, e: Delivery)
    requires World(cfg, world) && e.Deliver? && Legal(cfg, world, a, e) && Means(world[e.ts], a, e.ts, since)
    ensures var d := since + {e.piece};
            var (a', out) := IdealStep(cfg, world, a, e);
            && Means(world[e.ts], a', e.ts, if d == AllPieces(world[e.ts]) then {} else d)
            && out == if d == AllPieces(world[e.ts])
                      then Some(Frame(e.ts, |world[e.ts].points|, world[e.ts].points)) else None
  {
    assert Before(a, e.ts, e.now).seen == since;
    assert e.piece in since + {e.piece};
    assert 0 in AllPieces(world[e.ts]);
  }

  // The reference receiver's state in terms of the deliveries alone.
  lemma {:induction false} IdealMeaning<P>(cfg: Config, world: map<nat, Source<P>>, es: seq<Delivery>, ts: nat)
    requires World(cfg, world) && LegalRun(cfg, world, es) && ts in world
    ensures Means(world[ts], IdealRun(cfg, world, es).0, ts, Since(world[ts], es, ts))
  {
    if es == [] {
      assert 0 in AllPieces(world[ts]);
    } else {
      var before, e := es[..|es| - 1], es[|es| - 1];
      var a, d := IdealRun(cfg, world, before).0, Since(world[ts], before, ts);
      IdealMeaning(cfg, world, before, ts);
      if e.Deliver? && e.ts == ts {
        MeansOwn(cfg, world, a, d, e);
      } else {
        MeansOther(cfg, world, a, ts, d, e);
        assert d + Brings(e, ts) == d;
      }
    }
  }

  // MAIN RESULT. In any legal interleaving, the last delivery publishes frame
  // ts, complete and in order, exactly when with it the pieces since the last
  // publication of ts become all pieces; otherwise it publishes nothing.
  lemma RoundTrip<P>(cfg: Config, world: map<nat, Source<P>>, es: seq<Delivery>, ts: nat, piece: nat, now: int)
    requires World(cfg, world) && LegalRun(cfg, world, es + [Deliver(ts, piece, now)])
    ensures ts in world && LegalRun(cfg, world, es)
    ensures var es' := es + [Deliver(ts, piece, now)];
            RealRun(cfg, world, es').1 == RealRun(cfg, world, es).1 +
              [if Since(world[ts], es, ts) + {piece} == AllPieces(world[ts])
               then Some(Frame(ts, |world[ts].points|, world[ts].points)) else None]
  {
    var e := Deliver(ts, piece, now);
    var es' := es + [e];
    assert es'[..|es|] == es;
    Refinement(cfg, world, es');
    Refinement(cfg, world, es);
    IdealMeaning(cfg, world, es, ts);
    MeansOwn(cfg, world, IdealRun(cfg, world, es).0, Since(world[ts], es, ts), e);
  }

  // Number of times a frame with this timestamp was published.
  ghost function PublishCount<P>(out: seq<Option<Frame<P>>>, ts: nat): nat
  {
    if out == [] then 0
    else
      var o := out[|out| - 1];
      PublishCount(out[..|out| - 1], ts) + (if o.Some? && o.value.timestamp == ts then 1 else 0)
  }

  // Every publication of a run carries the points of its own frame.
  lemma {:induction false} PublishesOwnPoints<P>(cfg: Config, world: map<nat, Source<P>>, es: seq<Delivery>, k: nat)
    requires World(cfg, world) && LegalRun(cfg, world, es)
    requires k < |RealRun(cfg, world, es).1| && RealRun(cfg, world, es).1[k].Some?
    ensures var fr := RealRun(cfg, world, es).1[k].value;
            fr.timestamp in world && fr == Frame(fr.timestamp, |world[fr.timestamp].points|, world[fr.timestamp].points)
  {
    if es != [] {
      var before := es[..|es| - 1];
      Refinement(cfg, world, before);
      Refinement(cfg, world, es);
      if k < |RealRun(cfg, world, before).1| { PublishesOwnPoints(cfg, world, before, k); }
    }
  }

  // Completions of frame f in a sequence of deliveries.
  ghost function Completions<P>(f: Source<P>, es: seq<Delivery>, ts: nat): nat
    requires WellCut(f)
  {
    if es == [] then 0
    else Completions(f, es[..|es| - 1], ts) + (if Completes(f, es, ts) then 1 else 0)
  }

  // A frame is published once per completion.
  lemma {:induction false} PublishedPerCompletion<P>(cfg: Config, world: map<nat, Source<P>>, es: seq<Delivery>,
                                                     ts: nat)
    requires World(cfg, world) && LegalRun(cfg, world, es) && ts in world
    ensures PublishCount(RealRun(cfg, world, es).1, ts) == Completions(world[ts], es, ts)
  {
    IdealPerCompletion(cfg, world, es, ts);
    Refinement(cfg, world, es);
  }

  lemma CountSnoc<P>(out: seq<Option<Frame<P>>>, o: Option<Frame<P>>, ts: nat)
    ensures PublishCount(out + [o], ts) == PublishCount(out, ts) + (if o.Some? && o.value.timestamp == ts then 1 else 0)
  {
    assert (out + [o])[..|out|] == out;
  }

  lemma {:induction false} IdealPerCompletion<P>(cfg: Config, world: map<nat, Source<P>>, es: seq<Delivery>, ts: nat)
    requires World(cfg, world) && LegalRun(cfg, world, es) && ts in world
    ensures PublishCount(IdealRun(cfg, world, es).1, ts) == Completions(world[ts], es, ts)
  {
    if es != [] {
      var before, e := es[..|es| - 1], es[|es| - 1];
      IdealPerCompletion(cfg, world, before, ts);
      IdealMeaning(cfg, world, before, ts);
      var (a, out) := IdealRun(cfg, world, before);
      CountSnoc(out, IdealStep(cfg, world, a, e).1, ts);
      OutputMeans(cfg, world, a, ts, Since(world[ts], before, ts), e);
    }
  }

  lemma OutputMeans<P>(cfg: Config, world: map<nat, Source<P>>, a: Ideal, ts: nat, since: set<nat>, e: Delivery)
    requires World(cfg, world) && ts in world && Legal(cfg, world, a, e) && Means(world[ts], a, ts, since)
    ensures var o := IdealStep(cfg, world, a, e).1;
            o.Some? && o.value.timestamp == ts <==> since + Brings(e, ts) == AllPieces(world[ts])
  {
    if e.Deliver? && e.ts == ts {
      MeansOwn(cfg, world, a, since, e);
    } else {
      assert since + Brings(e, ts) == since;
    }
  }

  // Before its first completion a frame's pieces since then are all delivered.
  lemma {:induction false} SinceStart<P>(f: Source<P>, es: seq<Delivery>, ts: nat)
    requires WellCut(f)
    ensures Since(f, es, ts) != AllPieces(f)
    ensures Completions(f, es, ts) == 0 ==> Since(f, es, ts) == Delivered(es, ts)
  {
    if es == [] { assert 0 in AllPieces(f); } else { SinceStart(f, es[..|es| - 1], ts); }
  }

  ghost predicate Pertains<P>(f: Source<P>, es: seq<Delivery>, ts: nat)
    requires WellCut(f)
  {
    forall k :: 0 <= k < |es| && es[k].Deliver? && es[k].ts == ts ==> es[k].piece < Pieces(f)
  }

  lemma {:induction false} DeliveredPieces<P>(f: Source<P>, es: seq<Delivery>, ts: nat)
    requires WellCut(f) && Pertains(f, es, ts)
    ensures Delivered(es, ts) <= AllPieces(f)
  {
    if es != [] { DeliveredPieces(f, es[..|es| - 1], ts); }
  }

  // A frame was completed at least once exactly when all its pieces arrived.
  lemma {:induction false} CompletedIff<P>(f: Source<P>, es: seq<Delivery>, ts: nat)
    requires WellCut(f) && Pertains(f, es, ts)
    ensures Completions(f, es, ts) > 0 <==> Delivered(es, ts) == AllPieces(f)
  {
    if es == [] {
      assert 0 in AllPieces(f);
    } else {
      var before := es[..|es| - 1];
      CompletedIff(f, before, ts);
      SinceStart(f, before, ts);
      DeliveredPieces(f, es, ts);
    }
  }

  // After a completion counting starts afresh.
  lemma {:induction false} FreshStart<P>(f: Source<P>, first: seq<Delivery>, rest: seq<Delivery>, ts: nat)
    requires WellCut(f) && Since(f, first, ts) == {}
    ensures Since(f, first + rest, ts) == Since(f, rest, ts)
    ensures Completions(f, first + rest, ts) == Completions(f, first, ts) + Completions(f, rest, ts)
  {
    if rest == [] {
      assert first + rest == first;
    } else {
      var init, e := rest[..|rest| - 1], rest[|rest| - 1];
      assert rest == init + [e] && first + rest == (first + init) + [e];
      FreshStart(f, first, init, ts);
      SinceSnoc(f, first + init, e, ts);
      SinceSnoc(f, init, e, ts);
    }
  }

  lemma SinceSnoc<P>(f: Source<P>, es: seq<Delivery>, e: Delivery, ts: nat)
    requires WellCut(f)
    ensures var d := Since(f, es, ts) + Brings(e, ts);
            && Since(f, es + [e], ts) == (if d == AllPieces(f) then {} else d)
            && Completions(f, es + [e], ts) == Completions(f, es, ts) + (if d == AllPieces(f) then 1 else 0)
  {
    assert (es + [e])[..|es|] == es;
  }

  // The first n deliveries are the shortest prefix that brings all pieces.
  ghost predicate FirstComplete<P>(f: Source<P>, es: seq<Delivery>, ts: nat, n: nat)
    requires WellCut(f)
  {
    0 < n <= |es| && Delivered(es[..n], ts) == AllPieces(f) && Delivered(es[..n - 1], ts) != AllPieces(f)
  }

  lemma FirstCompletion<P>(f: Source<P>, es: seq<Delivery>, ts: nat, n: nat)
    requires WellCut(f) && Pertains(f, es, ts) && FirstComplete(f, es, ts, n)
    ensures Since(f, es[..n], ts) == {} && Completions(f, es[..n], ts) == 1
  {
    var first := es[..n];
    assert first[..n - 1] == es[..n - 1];
    PertainsPart(f, es, ts, n - 1);
    CompletedIff(f, es[..n - 1], ts);
    SinceStart(f, es[..n - 1], ts);
  }

  lemma PertainsPart<P>(f: Source<P>, es: seq<Delivery>, ts: nat, n: nat)
    requires WellCut(f) && Pertains(f, es, ts) && n <= |es|
    ensures Pertains(f, es[..n], ts) && Pertains(f, es[n..], ts)
  {
  }

  lemma {:induction false} LegalPertains<P>(cfg: Config, world: map<nat, Source<P>>, es: seq<Delivery>, ts: nat)
    requires World(cfg, world) && LegalRun(cfg, world, es) && ts in world
    ensures Pertains(world[ts], es, ts)
  {
    if es != [] {
      var n := |es| - 1;
      LegalPertains(cfg, world, es[..n], ts);
      forall k | 0 <= k < |es| && es[k].Deliver? && es[k].ts == ts
        ensures es[k].piece < Pieces(world[ts])
      {
        if k < n { assert es[..n][k] == es[k]; }
      }
    }
  }

  // The deliveries after the first completion do not bring all pieces again.
  ghost predicate NotRepeated<P>(f: Source<P>, es: seq<Delivery>, ts: nat, n: nat)
    requires WellCut(f)
  {
    FirstComplete(f, es, ts, n) && Delivered(es[n..], ts) != AllPieces(f)
  }

  // MAIN RESULT. A frame is published at least once if and only if all its
  // pieces arrived, and exactly once if and only if moreover the deliveries
  // after its first completion do not bring all its pieces again.
  lemma ExactlyOnce<P>(cfg: Config, world: map<nat, Source<P>>, es: seq<Delivery>, ts: nat)
    requires World(cfg, world) && LegalRun(cfg, world, es) && ts in world
    ensures PublishCount(RealRun(cfg, world, es).1, ts) > 0 <==> Delivered(es, ts) == AllPieces(world[ts])
    ensures PublishCount(RealRun(cfg, world, es).1, ts) == 1 <==> exists n: nat :: NotRepeated(world[ts], es, ts, n)
  {
    var f := world[ts];
    PublishedPerCompletion(cfg, world, es, ts);
    LegalPertains(cfg, world, es, ts);
    CompletedIff(f, es, ts);
    if Completions(f, es, ts) == 1 {
      var n := FirstCompleteExists(f, es, ts);
      OnceIff(f, es, ts, n);
      assert NotRepeated(f, es, ts, n);
    }
    if n: nat :| NotRepeated(f, es, ts, n) { OnceIff(f, es, ts, n); }
  }

  lemma OnceIff<P>(f: Source<P>, es: seq<Delivery>, ts: nat, n: nat)
    requires WellCut(f) && Pertains(f, es, ts)
    ensures Completions(f, es, ts) > 0 <==> Delivered(es, ts) == AllPieces(f)
    ensures FirstComplete(f, es, ts, n) ==> (Completions(f, es, ts) == 1 <==> Delivered(es[n..], ts) != AllPieces(f))
  {
    CompletedIff(f, es, ts);
    if FirstComplete(f, es, ts, n) {
      FirstCompletion(f, es, ts, n);
      FreshStart(f, es[..n], es[n..], ts);
      assert es[..n] + es[n..] == es;
      PertainsPart(f, es, ts, n);
      CompletedIff(f, es[n..], ts);
    }
  }

  lemma {:induction false} FirstCompleteExists<P>(f: Source<P>, es: seq<Delivery>, ts: nat) returns (n: nat)
    requires WellCut(f) && Delivered(es, ts) == AllPieces(f)
    ensures FirstComplete(f, es, ts, n)
  {
    assert 0 in AllPieces(f) && es != [];
    if Delivered(es[..|es| - 1], ts) == AllPieces(f) {
      n := FirstCompleteExists(f, es[..|es| - 1], ts);
      assert es[..|es| - 1][..n] == es[..n] && es[..|es| - 1][..n - 1] == es[..n - 1];
    } else {
      n := |es|;
      assert es[..n] == es;
    }
  }

  // A repeat after publication does publish again: the one piece of a frame,
  // delivered twice.
  lemma LateRepeatPublishesAgain(cfg: Config, p: int)
    requires cfg.maxPoints > 0 && cfg.maxPackets > 0
    ensures var world := map[7 := Source([p], [0, 1])];
            var es := [Deliver(7, 0, 0), Deliver(7, 0, 1)];
            && World(cfg, world) && LegalRun(cfg, world, es)
            && PublishCount(RealRun(cfg, world, es).1, 7) == 2
  {
    var f := Source([p], [0, 1]);
    var world := map[7 := f];
    var es := [Deliver(7, 0, 0), Deliver(7, 0, 1)];
    assert es == [es[0]] + [es[1]];
    assert AllPieces(f) == {0} by { assert 0 in AllPieces(f); }
    TwoCompletions(f, es[0], es[1]);
    LegalRepeat(cfg, world, es);
    PublishedPerCompletion(cfg, world, es, 7);
  }

  lemma LegalRepeat<P>(cfg: Config, world: map<nat, Source<P>>, es: seq<Delivery>)
    requires World(cfg, world) && es == [Deliver(7, 0, 0), Deliver(7, 0, 1)] && 7 in world && AllPieces(world[7]) == {0}
    ensures LegalRun(cfg, world, es)
  {
    assert es[..1] == [Deliver(7, 0, 0)];
    assert 0 in AllPieces(world[7]);
    IdealForgets(cfg, world, es[..1]);
  }

  lemma TwoCompletions<P>(f: Source<P>, d: Delivery, e: Delivery)
    requires WellCut(f) && AllPieces(f) == {0}
    requires d.Deliver? && d.ts == 7 && d.piece == 0 && e.Deliver? && e.ts == 7 && e.piece == 0
    ensures Completions(f, [d] + [e], 7) == 2
  {
    SinceSnoc(f, [], d, 7);
    assert [] + [d] == [d];
    SinceSnoc(f, [d], e, 7);
  }

  lemma IdealForgets<P>(cfg: Config, world: map<nat, Source<P>>, es: seq<Delivery>)
    requires World(cfg, world) && es == [Deliver(7, 0, 0)] && 7 in world && AllPieces(world[7]) == {0}
    ensures LegalRun(cfg, world, es) && IdealRun(cfg, world, es).0.live == map[]
  {
    var a := Ideal(map[], 0);
    assert es[..0] == [] && IdealRun(cfg, world, es[..0]).0 == a;
    assert 0 in AllPieces(world[7]);
    assert Legal(cfg, world, a, es[0]);
    assert Before(a, 7, 0).seen + {0} == {0};
  }
}
