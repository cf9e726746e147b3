/**
 From datagrams to frames: parsing composed with reassembly.
 */
module LidarStream {
  import opened Options
  import opened FrameAssembler
  import opened AssemblerRoundTrip
  import opened LidarWire

  // One turn of the receive loop: a datagram arrived, or the expiry call.
  datatype Input = Datagram(bytes: seq<Byte>, now: int) | Silence(now: int)

  // Only datagrams that parse reach the assembler.
  function Receive<P(==)>(cfg: Config, decode: RawPoint -> Option<P>, s: State<P>, input: Input)
    : (r: (State<P>, Option<Frame<P>>))
    requires s.slots != []
    ensures |r.0.slots| == |s.slots|
  {
    match input
    case Silence(now) => (AfterExpiry(cfg, s, now), None)
    case Datagram(b, now) =>
      var p := Decoded(ParseDatagram(b), decode);
      if p.None? then (s, None) else AfterPacket(cfg, s, p, now)
  }

  ghost function ReceiveRun<P>(cfg: Config, decode: RawPoint -> Option<P>, ins: seq<Input>)
    : (r: (State<P>, seq<Option<Frame<P>>>))
    ensures r.0.slots != []
  {
    if ins == [] then (Initial(cfg), [])
    else
      var (s, out) := ReceiveRun(cfg, decode, ins[..|ins| - 1]);
      var (s', o) := Receive(cfg, decode, s, ins[|ins| - 1]);
      (s', out + [o])
  }

  // A datagram that is no encoding of a packet whose points decode changes
  // nothing, whatever its bytes.
  lemma GarbageIgnored<P>(cfg: Config, decode: RawPoint -> Option<P>, s: State<P>, b: seq<Byte>, now: int)
    requires s.slots != []
    requires forall p: RawPacket, form: Form ::
               Encodable(p) && FormOk(form, |p.points|) && AllDecode(p.points, decode) ==> b != Encode(form, p)
    ensures Receive(cfg, decode, s, Datagram(b, now)) == (s, None)
  {
    var parsed := ParseDatagram(b);
    if parsed.Some? && AllDecode(parsed.value.points, decode) {
      var form := ParseIsEncoding(b, parsed.value);
    }
  }

  // ---------- the sending side ----------

  // Fits the wire: 32-bit offsets, 64-bit stamps, pieces of at most 50 points.
  ghost predicate Sendable(ts: nat, f: Source<RawPoint>)
  {
    && WellCut(f) && ts < 0x1_0000_0000_0000_0000 && |f.points| < 0x1_0000_0000
    && forall i :: 0 <= i < Pieces(f) ==> |Piece(f, i).points| <= 50
  }

  ghost function RawPacketOf(ts: nat, f: Source<RawPoint>, i: nat): (p: RawPacket)
    requires Sendable(ts, f) && i < Pieces(f)
    ensures Encodable(p)
  {
    assert End(Piece(f, i)) <= |f.points|;
    RawPacket(ts, |f.points|, f.cuts[i], Piece(f, i).points)
  }

  ghost function DecodeSource<P>(f: Source<RawPoint>, decode: RawPoint -> Option<P>): Source<P>
    requires AllDecode(f.points, decode)
  {
    Source(DecodeAll(f.points, decode), f.cuts)
  }

  ghost predicate WireWorld<P>(cfg: Config, world: map<nat, Source<RawPoint>>, decode: RawPoint -> Option<P>)
  {
    forall ts :: ts in world ==>
                   Admissible(cfg, world[ts]) && Sendable(ts, world[ts]) && AllDecode(world[ts].points, decode)
  }

  ghost function DecodeWorld<P>(cfg: Config, world: map<nat, Source<RawPoint>>, decode: RawPoint -> Option<P>)
    : (w: map<nat, Source<P>>)
    requires WireWorld(cfg, world, decode)
    ensures w.Keys == world.Keys && World(cfg, w)
  {
    var w := map ts | ts in world :: DecodeSource(world[ts], decode);
    assert forall ts :: ts in w ==> Admissible(cfg, world[ts]) && Admissible(cfg, w[ts]);
    w
  }

  // The datagram is some encoding of the delivered piece: either layout,
  // either tail, any free bytes.
  ghost predicate Carries(world: map<nat, Source<RawPoint>>, input: Input, e: Delivery)
    requires forall ts :: ts in world ==> Sendable(ts, world[ts])
  {
    match e
    case Idle(now) => input == Silence(now)
    case Deliver(ts, i, now) =>
      ts in world && Sendable(ts, world[ts]) && i < Pieces(world[ts]) && input.Datagram? && input.now == now &&
      exists form ::
        FormOk(form, |Piece(world[ts], i).points|) && input.bytes == Encode(form, RawPacketOf(ts, world[ts], i))
  }

  lemma DecodePiece<P>(ts: nat, f: Source<RawPoint>, i: nat, decode: RawPoint -> Option<P>)
    requires Sendable(ts, f) && i < Pieces(f) && AllDecode(f.points, decode)
    requires WellCut(DecodeSource(f, decode))
    ensures Decoded(Some(RawPacketOf(ts, f, i)), decode) == Some(PacketOf(ts, DecodeSource(f, decode), i))
  {
    var g, c := DecodeSource(f, decode), Piece(f, i);
    forall k | 0 <= k < |c.points|
      ensures decode(c.points[k]) == Some(Piece(g, i).points[k])
    {
      assert c.points[k] == f.points[c.offset + k];
    }
    assert DecodeAll(Piece(f, i).points, decode) == Piece(g, i).points;
  }

  lemma ParsePiece<P>(b: seq<Byte>, form: Form, p: RawPacket, q: Packet<P>, decode: RawPoint -> Option<P>)
    requires Encodable(p) && FormOk(form, |p.points|) && b == Encode(form, p)
    requires Decoded(Some(p), decode) == Some(q)
    ensures Decoded(ParseDatagram(b), decode) == Some(q)
  {
    EncodeParses(form, p);
  }

  lemma CarriesParses<P>(cfg: Config, world: map<nat, Source<RawPoint>>, decode: RawPoint -> Option<P>, input: Input,
                         e: Delivery)
    requires WireWorld(cfg, world, decode) && e.Deliver? && Carries(world, input, e)
    ensures Decoded(ParseDatagram(input.bytes), decode) ==
            Some(PacketOf(e.ts, DecodeWorld(cfg, world, decode)[e.ts], e.piece))
  {
    var f := world[e.ts];
    assert Admissible(cfg, f);
    assert DecodeWorld(cfg, world, decode)[e.ts] == DecodeSource(f, decode);
    var form :| FormOk(form, |Piece(f, e.piece).points|) && input.bytes == Encode(form, RawPacketOf(e.ts, f, e.piece));
    DecodePiece(e.ts, f, e.piece, decode);
    ParsePiece(input.bytes, form, RawPacketOf(e.ts, f, e.piece), PacketOf(e.ts, DecodeSource(f, decode), e.piece),
               decode);
  }

  ghost predicate AllCarry(world: map<nat, Source<RawPoint>>, ins: seq<Input>, es: seq<Delivery>)
    requires forall ts :: ts in world ==> Sendable(ts, world[ts])
  {
    |ins| == |es| && forall k :: 0 <= k < |ins| ==> Carries(world, ins[k], es[k])
  }

  // Receiving encoded pieces is receiving the pieces.
  lemma {:induction false} WireRefines<P>(cfg: Config, world: map<nat, Source<RawPoint>>, decode: RawPoint -> Option<P>,
                                          ins: seq<Input>, es: seq<Delivery>)
    requires WireWorld(cfg, world, decode) && AllCarry(world, ins, es)
    requires LegalRun(cfg, DecodeWorld(cfg, world, decode), es)
    ensures ReceiveRun(cfg, decode, ins) == RealRun(cfg, DecodeWorld(cfg, world, decode), es)
  {
    if es != [] {
      var n := |es| - 1;
      assert AllCarry(world, ins[..n], es[..n]);
      WireRefines(cfg, world, decode, ins[..n], es[..n]);
      assert Carries(world, ins[n], es[n]);
      if es[n].Deliver? { CarriesParses(cfg, world, decode, ins[n], es[n]); }
    }
  }

  lemma CarrySnoc(world: map<nat, Source<RawPoint>>, ins: seq<Input>, es: seq<Delivery>, input: Input, e: Delivery)
    requires forall ts :: ts in world ==> Sendable(ts, world[ts])
    requires AllCarry(world, ins, es) && Carries(world, input, e)
    ensures AllCarry(world, ins + [input], es + [e])
  {
  }

  // What completes a frame depends on how it is cut, not on its points.
  lemma {:induction false} SinceSame<P, Q>(f: Source<P>, g: Source<Q>, es: seq<Delivery>, ts: nat)
    requires WellCut(f) && WellCut(g) && f.cuts == g.cuts
    ensures AllPieces(f) == AllPieces(g) && Since(f, es, ts) == Since(g, es, ts)
  {
    if es != [] { SinceSame(f, g, es[..|es| - 1], ts); }
  }

  // MAIN RESULT. Cut any frames into pieces of at most 50 points, encode each
  // piece in any accepted form, interleave them in any legal order with any
  // repeats: a datagram yields its frame, decoded and in order, exactly when
  // with it the pieces since the frame's last publication become all pieces,
  // and nothing otherwise.
  lemma WireRoundTrip<P>(cfg: Config, world: map<nat, Source<RawPoint>>, decode: RawPoint -> Option<P>,
                         ins: seq<Input>, es: seq<Delivery>, input: Input, ts: nat, piece: nat, now: int)
    requires WireWorld(cfg, world, decode)
    requires AllCarry(world, ins, es) && Carries(world, input, Deliver(ts, piece, now))
    requires LegalRun(cfg, DecodeWorld(cfg, world, decode), es + [Deliver(ts, piece, now)])
    ensures ReceiveRun(cfg, decode, ins + [input]).1 == ReceiveRun(cfg, decode, ins).1 +
              [if Since(world[ts], es, ts) + {piece} == AllPieces(world[ts])
               then Some(Frame(ts, |world[ts].points|, DecodeAll(world[ts].points, decode))) else None]
  {
    var w, e := DecodeWorld(cfg, world, decode), Deliver(ts, piece, now);
    RoundTrip(cfg, w, es, ts, piece, now);
    WireRefines(cfg, world, decode, ins, es);
    CarrySnoc(world, ins, es, input, e);
    WireRefines(cfg, world, decode, ins + [input], es + [e]);
    SinceSame(world[ts], w[ts], es, ts);
  }
}
