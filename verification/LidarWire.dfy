/**
 The UDP 6100 point-cloud datagram: little-endian fields, two header layouts,
 and for each a dynamic or a fixed 50-point tail.
 */
module LidarWire {
  import opened Options
  import opened FrameAssembler

  type Byte = x: int | 0 <= x < 0x100
  type Word = x: int | 0 <= x < 0x1_0000
  type Long = x: int | 0 <= x < 0x1_0000_0000
  type Stamp = x: int | 0 <= x < 0x1_0000_0000_0000_0000
  type Signed = x: int | -0x8000_0000 <= x < 0x8000_0000

  // ---------- readers ----------

  function ReadU16(b: seq<Byte>, at: nat): Word
    requires at + 2 <= |b|
  {
    b[at] as int + 0x100 * (b[at + 1] as int)
  }

  function ReadU32(b: seq<Byte>, at: nat): Long
    requires at + 4 <= |b|
  {
    b[at] as int + 0x100 * (b[at + 1] as int) + 0x1_0000 * (b[at + 2] as int) + 0x100_0000 * (b[at + 3] as int)
  }

  function ReadU64(b: seq<Byte>, at: nat): Stamp
    requires at + 8 <= |b|
  {
    ReadU32(b, at) + 0x1_0000_0000 * ReadU32(b, at + 4)
  }

  function ReadI32(b: seq<Byte>, at: nat): Signed
    requires at + 4 <= |b|
  {
    var u := ReadU32(b, at);
    if u < 0x8000_0000 then u else u - 0x1_0000_0000
  }

  // The value of bytes listed from the least significant one.
  function LittleEndian(b: seq<Byte>): nat
  {
    if b == [] then 0 else b[0] as int + 0x100 * LittleEndian(b[1..])
  }

  // Every reader is little-endian, and the signed one is two's complement.
  lemma ReadersLittleEndian(b: seq<Byte>, at: nat)
    ensures at + 2 <= |b| ==> ReadU16(b, at) == LittleEndian(b[at..at + 2])
    ensures at + 4 <= |b| ==> ReadU32(b, at) == LittleEndian(b[at..at + 4])
    ensures at + 4 <= |b| ==> ReadI32(b, at) % 0x1_0000_0000 == LittleEndian(b[at..at + 4])
    ensures at + 8 <= |b| ==> ReadU64(b, at) == LittleEndian(b[at..at + 8])
  {
    if at + 2 <= |b| {
      LittleAt(b, at, at + 2);
      LittleAt(b, at + 1, at + 2);
      assert b[at + 2..at + 2] == [];
    }
    if at + 4 <= |b| {
      Little32(b, at, at + 4);
      assert b[at + 4..at + 4] == [];
    }
    if at + 8 <= |b| {
      Little32(b, at, at + 8);
      Little32(b, at + 4, at + 8);
      assert b[at + 8..at + 8] == [];
    }
  }

  lemma LittleAt(b: seq<Byte>, at: nat, end: nat)
    requires at < end <= |b|
    ensures LittleEndian(b[at..end]) == b[at] as int + 0x100 * LittleEndian(b[at + 1..end])
  {
    assert b[at..end][1..] == b[at + 1..end];
  }

  lemma Little32(b: seq<Byte>, at: nat, end: nat)
    requires at + 4 <= end <= |b|
    ensures LittleEndian(b[at..end]) == ReadU32(b, at) + 0x1_0000_0000 * LittleEndian(b[at + 4..end])
  {
    LittleAt(b, at, end);
    LittleAt(b, at + 1, end);
    LittleAt(b, at + 2, end);
    LittleAt(b, at + 3, end);
  }

  // ---------- writers ----------

  function Put16(v: Word): seq<Byte> { [v % 0x100, v / 0x100] }

  function Put32(v: Long): seq<Byte>
  {
    [v % 0x100, v / 0x100 % 0x100, v / 0x1_0000 % 0x100, v / 0x100_0000]
  }

  function Put64(v: Stamp): seq<Byte>
  {
    Put32(v % 0x1_0000_0000) + Put32(v / 0x1_0000_0000)
  }

  function PutI32(v: Signed): seq<Byte> { Put32(if v < 0 then v + 0x1_0000_0000 else v) }

  // ---------- layouts ----------

  datatype RawPoint = RawPoint(x: Signed, y: Signed, z: Signed, c0: Long, c1: Long, c2: Long, c3: Long)

  datatype RawPacket = RawPacket(timestamp: Stamp, total: Long, index: Long, points: seq<RawPoint>)

  datatype Layout = Layout(stampAt: nat, totalAt: nat, indexAt: nat, countAt: nat, pointsAt: nat, fixedLen: nat)

  const HEAD: Word := 0xAA55
  const TAIL: Word := 0xFF00
  // A datagram carries 1 to 50 points of 28 bytes each.

  const PACKED := Layout(2, 10, 14, 18, 20, 20 + 28 * 50 + 2)
  const ALIGNED := Layout(8, 16, 20, 24, 28, 28 + 28 * 50 + 2)

  // ---------- parsing ----------

  type PointBytes = s: seq<Byte> | |s| == 28 witness seq(28, _ => 0)

  function DecodePoint(s: PointBytes): RawPoint
  {
    RawPoint(ReadI32(s, 0), ReadI32(s, 4), ReadI32(s, 8),
             ReadU32(s, 12), ReadU32(s, 16), ReadU32(s, 20), ReadU32(s, 24))
  }

  // The i-th 28-byte record of the run starting at `at`.
  function Record(b: seq<Byte>, at: nat, i: nat): PointBytes
    requires at + 28 * (i + 1) <= |b|
  {
    b[at + 28 * i..at + 28 * (i + 1)]
  }

  // The n consecutive records starting at `at`.
  function ReadRecords<T>(b: seq<Byte>, at: nat, n: nat, read: PointBytes -> T): (ps: seq<T>)
    requires at + 28 * n <= |b|
    ensures |ps| == n
  {
    seq(n, i requires 0 <= i < n => read(Record(b, at, i)))
  }

  // Where the tail marker sits, or None when the length fits neither tail.
  function TailAt(len: nat, l: Layout, n: nat): Option<nat>
  {
    if len == l.pointsAt + 28 * n + 2 then Some(l.pointsAt + 28 * n)
    else if len == l.fixedLen && l.fixedLen >= 2 then Some(l.fixedLen - 2)
    else None
  }

  // Header count in 1..50 and a length that fits one of the two tails.
  predicate LengthFits(b: seq<Byte>, l: Layout)
  {
    && l.countAt + 2 <= |b|
    && 1 <= ReadU16(b, l.countAt) <= 50
    && TailAt(|b|, l, ReadU16(b, l.countAt)).Some?
  }

  function ParseWithLayout(b: seq<Byte>, l: Layout): Option<RawPacket>
    requires l == PACKED || l == ALIGNED
  {
    if !LengthFits(b, l) then None
    else
      var n := ReadU16(b, l.countAt);
      if ReadU16(b, TailAt(|b|, l, n).value) != TAIL then None
      else if ReadU32(b, l.totalAt) == 0 then None
      else Some(RawPacket(ReadU64(b, l.stampAt), ReadU32(b, l.totalAt), ReadU32(b, l.indexAt),
                          ReadRecords(b, l.pointsAt, n, DecodePoint)))
  }

  function ParseDatagram(b: seq<Byte>): Option<RawPacket>
  {
    if |b| < 2 || ReadU16(b, 0) != HEAD then None
    else
      var packed := ParseWithLayout(b, PACKED);
      if packed.Some? then packed else ParseWithLayout(b, ALIGNED)
  }

  // `decode` scales and rounds one point, or fails when a coordinate scales to
  // a non-finite value.
  predicate AllDecode<P>(raw: seq<RawPoint>, decode: RawPoint -> Option<P>)
  {
    forall i :: 0 <= i < |raw| ==> decode(raw[i]).Some?
  }

  function DecodeAll<P>(raw: seq<RawPoint>, decode: RawPoint -> Option<P>): seq<P>
    requires AllDecode(raw, decode)
  {
    seq(|raw|, i requires 0 <= i < |raw| => decode(raw[i]).value)
  }

  // The packet handed to the assembler.
  function Decoded<P>(p: Option<RawPacket>, decode: RawPoint -> Option<P>): Option<Packet<P>>
  {
    if p.None? || !AllDecode(p.value.points, decode) then None
    else Some(Packet(p.value.timestamp, p.value.total, p.value.index, DecodeAll(p.value.points, decode)))
  }

  // The decode loop over the valid points; it stops at the first failure.
  method DecodeRecords<P>(b: seq<Byte>, at: nat, n: nat, decode: RawPoint -> Option<P>)
    returns (points: Option<seq<P>>)
    requires at + 28 * n <= |b|
    ensures var raw := ReadRecords(b, at, n, DecodePoint);
            points == if AllDecode(raw, decode) then Some(DecodeAll(raw, decode)) else None
  {
    var pts := [];
    ghost var raw := ReadRecords(b, at, n, DecodePoint);
    for i := 0 to n
      invariant |pts| == i
      invariant forall k :: 0 <= k < i ==> decode(raw[k]) == Some(pts[k])
    {
      var pt := decode(DecodePoint(Record(b, at, i)));
      assert raw[i] == DecodePoint(Record(b, at, i));
      if pt.None? { return None; }
      pts := pts + [pt.value];
    }
    assert forall k :: 0 <= k < n ==> decode(raw[k]) == Some(pts[k]);
    assert AllDecode(raw, decode) && pts == DecodeAll(raw, decode);
    points := Some(pts);
  }

  // One layout attempt.
  method TryLayout<P>(b: seq<Byte>, l: Layout, decode: RawPoint -> Option<P>) returns (r: Option<Packet<P>>)
    requires l == PACKED || l == ALIGNED
    ensures r == Decoded(ParseWithLayout(b, l), decode)
  {
    if |b| < l.countAt + 2 { return None; }
    var n := ReadU16(b, l.countAt);
    if n == 0 || n > 50 { return None; }
    var tailAt := 0;
    if |b| == l.pointsAt + 28 * n + 2 {
      tailAt := l.pointsAt + 28 * n;
    } else if |b| == l.fixedLen {
      tailAt := l.fixedLen - 2;
    } else {
      return None;
    }
    if ReadU16(b, tailAt) != TAIL { return None; }
    var total := ReadU32(b, l.totalAt);
    if total == 0 { return None; }
    var points := DecodeRecords(b, l.pointsAt, n, decode);
    if points.None? { return None; }
    r := Some(Packet(ReadU64(b, l.stampAt), total, ReadU32(b, l.indexAt), points.value));
  }

  // A packed attempt that fails only in decoding falls through to the aligned
  // one, which then cannot pass its length test.
  method ParsePointCloudPacket<P>(b: seq<Byte>, scalesValid: bool, decode: RawPoint -> Option<P>)
    returns (r: Option<Packet<P>>)
    ensures r == if scalesValid then Decoded(ParseDatagram(b), decode) else None
  {
    if !scalesValid || |b| < 2 || ReadU16(b, 0) != HEAD { return None; }
    LayoutsExclusive(b);
    r := TryLayout(b, PACKED, decode);
    if r.None? {
      r := TryLayout(b, ALIGNED, decode);
    }
  }

  // ---------- unambiguity ----------

  // At most one layout passes its length test, so the order of the two
  // attempts never matters.
  lemma LayoutsExclusive(b: seq<Byte>)
    ensures LengthFits(b, PACKED) ==> |b| % 28 == 22
    ensures LengthFits(b, ALIGNED) ==> |b| % 28 == 2
    ensures !(LengthFits(b, PACKED) && LengthFits(b, ALIGNED))
    ensures |b| >= 2 && ReadU16(b, 0) == HEAD ==>
              ParseDatagram(b) ==
              var a := ParseWithLayout(b, ALIGNED); if a.Some? then a else ParseWithLayout(b, PACKED)
  {
    if LengthFits(b, PACKED) { TailLength(|b|, PACKED, ReadU16(b, PACKED.countAt)); }
    if LengthFits(b, ALIGNED) { TailLength(|b|, ALIGNED, ReadU16(b, ALIGNED.countAt)); }
  }

  // Either tail form puts the marker in the last two bytes, so they agree where
  // they coincide.
  lemma TailLength(len: nat, l: Layout, n: nat)
    requires (l == PACKED || l == ALIGNED) && TailAt(len, l, n).Some?
    ensures len % 28 == (l.pointsAt + 2) % 28
    ensures TailAt(len, l, n) == Some(len - 2)
  {
    var k := if len == l.pointsAt + 28 * n + 2 then n else 50;
    assert len == l.pointsAt + 2 + 28 * k;
  }

  // ---------- encoding ----------

  function EncodePoint(p: RawPoint): PointBytes
  {
    PutI32(p.x) + PutI32(p.y) + PutI32(p.z) + Put32(p.c0) + Put32(p.c1) + Put32(p.c2) + Put32(p.c3)
  }

  function WriteRecords<T>(ps: seq<T>, write: T -> PointBytes): (b: seq<Byte>)
    ensures |b| == 28 * |ps|
  {
    if ps == [] then [] else WriteRecords(ps[..|ps| - 1], write) + write(ps[|ps| - 1])
  }

  // The bytes a sender may choose freely: the alignment gaps and the padding
  // points after the valid ones.
  datatype Form = Form(aligned: bool, gapA: seq<Byte>, gapB: seq<Byte>, padding: seq<Byte>)

  predicate FormOk(form: Form, n: nat)
  {
    && |form.gapA| == (if form.aligned then 6 else 0)
    && |form.gapB| == (if form.aligned then 2 else 0)
    && n <= 50
    && (form.padding == [] || |form.padding| == 28 * (50 - n))
  }

  predicate Encodable(p: RawPacket)
  {
    1 <= |p.points| <= 50 && p.total != 0
  }

  function Header(form: Form, p: RawPacket): (h: seq<Byte>)
    requires |p.points| <= 50
    ensures |h| == 20 + |form.gapA| + |form.gapB|
  {
    Put16(HEAD) + form.gapA + Put64(p.timestamp) + Put32(p.total) + Put32(p.index) + Put16(|p.points|) + form.gapB
  }

  function Encode(form: Form, p: RawPacket): seq<Byte>
    requires |p.points| <= 50
  {
    Header(form, p) + WriteRecords(p.points, EncodePoint) + form.padding + Put16(TAIL)
  }

  // ---------- field round trips ----------

  lemma Put32Read(b: seq<Byte>, at: nat, v: Long)
    requires at + 4 <= |b|
    ensures b[at..at + 4] == Put32(v) <==> ReadU32(b, at) == v
  {
    var s := b[at..at + 4];
    assert s == [b[at], b[at + 1], b[at + 2], b[at + 3]];
    if ReadU32(b, at) == v {
      SplitU32(b[at], b[at + 1], b[at + 2], b[at + 3], v);
    } else if s == Put32(v) {
      assert s[0] == v % 0x100 && s[1] == v / 0x100 % 0x100 && s[2] == v / 0x1_0000 % 0x100 && s[3] == v / 0x100_0000;
      JoinU32(v);
    }
  }

  lemma JoinU32(v: Long)
    ensures v == v % 0x100 + 0x100 * (v / 0x100 % 0x100) + 0x1_0000 * (v / 0x1_0000 % 0x100)
            + 0x100_0000 * (v / 0x100_0000)
  {
    assert v / 0x1_0000 == v / 0x100 / 0x100 && v / 0x100_0000 == v / 0x1_0000 / 0x100;
  }

  lemma SplitU32(b0: Byte, b1: Byte, b2: Byte, b3: Byte, v: Long)
    requires v == b0 + 0x100 * b1 + 0x1_0000 * b2 + 0x100_0000 * b3
    ensures v % 0x100 == b0 && v / 0x100 % 0x100 == b1 && v / 0x1_0000 % 0x100 == b2 && v / 0x100_0000 == b3
  {
    assert v / 0x100 == b1 + 0x100 * b2 + 0x1_0000 * b3;
    assert v / 0x1_0000 == b2 + 0x100 * b3;
  }

  lemma Put16Read(b: seq<Byte>, at: nat, v: Word)
    requires at + 2 <= |b|
    ensures b[at..at + 2] == Put16(v) <==> ReadU16(b, at) == v
  {
    assert b[at..at + 2] == [b[at], b[at + 1]];
  }

  lemma Put64Read(b: seq<Byte>, at: nat, v: Stamp)
    requires at + 8 <= |b|
    ensures b[at..at + 8] == Put64(v) <==> ReadU64(b, at) == v
  {
    var lo, hi := v % 0x1_0000_0000, v / 0x1_0000_0000;
    Put32Read(b, at, lo);
    Put32Read(b, at + 4, hi);
    assert b[at..at + 8] == b[at..at + 4] + b[at + 4..at + 8];
    assert ReadU64(b, at) == v <==> ReadU32(b, at) == lo && ReadU32(b, at + 4) == hi;
    assert Put64(v)[..4] == Put32(lo) && Put64(v)[4..] == Put32(hi);
    assert b[at..at + 8][..4] == b[at..at + 4] && b[at..at + 8][4..] == b[at + 4..at + 8];
  }

  lemma PutI32Read(b: seq<Byte>, at: nat, v: Signed)
    requires at + 4 <= |b|
    ensures b[at..at + 4] == PutI32(v) <==> ReadI32(b, at) == v
  {
    Put32Read(b, at, if v < 0 then v + 0x1_0000_0000 else v);
  }

  // Equality of concatenations with matching part lengths, part by part.
  lemma SplitEq(b: seq<Byte>, at: nat, x: seq<Byte>, y: seq<Byte>)
    requires at + |x| + |y| <= |b|
    ensures b[at..at + |x| + |y|] == x + y <==> b[at..at + |x|] == x && b[at + |x|..at + |x| + |y|] == y
  {
    var s := b[at..at + |x| + |y|];
    assert s[..|x|] == b[at..at + |x|] && s[|x|..] == b[at + |x|..at + |x| + |y|];
    assert (x + y)[..|x|] == x && (x + y)[|x|..] == y;
    assert s == s[..|x|] + s[|x|..];
  }

  type Quad = q: seq<Byte> | |q| == 4 witness [0, 0, 0, 0]

  // A record is seven 4-byte fields.
  lemma SplitSeven(s: PointBytes, q0: Quad, q1: Quad, q2: Quad, q3: Quad, q4: Quad, q5: Quad, q6: Quad)
    ensures s == q0 + q1 + q2 + q3 + q4 + q5 + q6 <==>
            (&& s[0..4] == q0 && s[4..8] == q1 && s[8..12] == q2 && s[12..16] == q3
             && s[16..20] == q4 && s[20..24] == q5 && s[24..28] == q6)
  {
    SplitEq(s, 0, q0, q1);
    SplitEq(s, 0, q0 + q1, q2);
    SplitEq(s, 0, q0 + q1 + q2, q3);
    SplitEq(s, 0, q0 + q1 + q2 + q3, q4);
    SplitEq(s, 0, q0 + q1 + q2 + q3 + q4, q5);
    SplitEq(s, 0, q0 + q1 + q2 + q3 + q4 + q5, q6);
    assert s[0..28] == s;
  }

  lemma PointRead(s: PointBytes, p: RawPoint)
    ensures s == EncodePoint(p) <==> DecodePoint(s) == p
  {
    SplitSeven(s, PutI32(p.x), PutI32(p.y), PutI32(p.z), Put32(p.c0), Put32(p.c1), Put32(p.c2), Put32(p.c3));
    PutI32Read(s, 0, p.x);
    PutI32Read(s, 4, p.y);
    PutI32Read(s, 8, p.z);
    Put32Read(s, 12, p.c0);
    Put32Read(s, 16, p.c1);
    Put32Read(s, 20, p.c2);
    Put32Read(s, 24, p.c3);
  }

  ghost predicate Inverse<T(!new)>(read: PointBytes -> T, write: T -> PointBytes)
  {
    forall s: PointBytes, p: T :: s == write(p) <==> read(s) == p
  }

  lemma PointCodec()
    ensures Inverse(DecodePoint, EncodePoint)
  {
    forall s: PointBytes, p: RawPoint
      ensures s == EncodePoint(p) <==> DecodePoint(s) == p
    {
      PointRead(s, p);
    }
  }

  // A record codec that inverts one record inverts any run of them.
  lemma {:induction false} RecordsRead<T(!new)>(b: seq<Byte>, at: nat, ps: seq<T>, n: nat,
                                          read: PointBytes -> T, write: T -> PointBytes)
    requires Inverse(read, write) && n == |ps| && at + 28 * n <= |b|
    ensures b[at..at + 28 * n] == WriteRecords(ps, write) <==> ReadRecords(b, at, n, read) == ps
  {
    if n > 0 {
      var init, last, mid := ps[..n - 1], ps[n - 1], at + 28 * (n - 1);
      RecordsRead(b, at, init, n - 1, read, write);
      var record: PointBytes := Record(b, at, n - 1);
      assert record == b[mid..mid + 28];
      var w, xs := WriteRecords(init, write), ReadRecords(b, at, n - 1, read);
      RecordStep(b, at, mid, w, write(last), xs, read(record), ps) by {
        assert record == write(last) <==> read(record) == last;
      }
      assert ReadRecords(b, at, n, read) == xs + [read(record)];
      assert at + 28 * n == mid + 28;
    }
  }

  lemma RecordStep<T>(b: seq<Byte>, at: nat, mid: nat, w: seq<Byte>, x: PointBytes, xs: seq<T>, r: T, ps: seq<T>)
    requires at + |w| == mid && mid + 28 <= |b| && |ps| == |xs| + 1
    requires b[at..mid] == w <==> xs == ps[..|xs|]
    requires b[mid..mid + 28] == x <==> r == ps[|xs|]
    ensures b[at..mid + 28] == w + x <==> xs + [r] == ps
  {
    SplitEq(b, at, w, x);
    SnocEq(xs, r, ps);
  }

  lemma SnocEq<T>(xs: seq<T>, x: T, ps: seq<T>)
    requires |ps| == |xs| + 1
    ensures xs + [x] == ps <==> xs == ps[..|xs|] && x == ps[|xs|]
  {
    assert ps == ps[..|xs|] + [ps[|xs|]];
    assert (xs + [x])[..|xs|] == xs;
  }

  // ---------- accepted datagrams are exactly the encodings ----------

  function LayoutOf(form: Form): Layout { if form.aligned then ALIGNED else PACKED }

  lemma HeaderRead(b: seq<Byte>, form: Form, p: RawPacket)
    requires FormOk(form, |p.points|) && |p.points| <= 50
    requires LayoutOf(form).pointsAt <= |b|
    ensures var l := LayoutOf(form);
            b[..l.pointsAt] == Header(form, p) <==>
            (&& ReadU16(b, 0) == HEAD && b[2..l.stampAt] == form.gapA && ReadU64(b, l.stampAt) == p.timestamp
             && ReadU32(b, l.totalAt) == p.total && ReadU32(b, l.indexAt) == p.index
             && ReadU16(b, l.countAt) == |p.points| && b[l.countAt + 2..l.pointsAt] == form.gapB)
  {
    var l := LayoutOf(form);
    var h1 := Put16(HEAD) + form.gapA;
    var h2 := h1 + Put64(p.timestamp);
    var h3 := h2 + Put32(p.total);
    var h4 := h3 + Put32(p.index);
    SplitEq(b, 0, Put16(HEAD), form.gapA);
    SplitEq(b, 0, h1, Put64(p.timestamp));
    SplitEq(b, 0, h2, Put32(p.total));
    SplitEq(b, 0, h3, Put32(p.index));
    SplitEq(b, 0, h4, Put16(|p.points|));
    SplitEq(b, 0, h4 + Put16(|p.points|), form.gapB);
    Put16Read(b, 0, HEAD);
    Put64Read(b, l.stampAt, p.timestamp);
    Put32Read(b, l.totalAt, p.total);
    Put32Read(b, l.indexAt, p.index);
    Put16Read(b, l.countAt, |p.points|);
  }

  lemma SplitThree(b: seq<Byte>, h: seq<Byte>, e: seq<Byte>, pad: seq<Byte>, t: seq<Byte>, at: nat, mid: nat, end: nat)
    requires at == |h| && mid == at + |e| && end == mid + |pad| && |b| == end + |t|
    ensures b == h + e + pad + t <==> b[..at] == h && b[at..mid] == e && b[mid..end] == pad && b[end..end + |t|] == t
  {
    SplitEq(b, 0, h, e);
    SplitEq(b, 0, h + e, pad);
    SplitEq(b, 0, h + e + pad, t);
    assert b[0..|b|] == b;
  }

  lemma PointsRead(b: seq<Byte>, at: nat, mid: nat, ps: seq<RawPoint>, w: seq<Byte>)
    requires mid == at + 28 * |ps| && mid <= |b| && w == WriteRecords(ps, EncodePoint)
    ensures at + |w| == mid && (b[at..mid] == w <==> ReadRecords(b, at, |ps|, DecodePoint) == ps)
  {
    PointCodec();
    RecordsRead(b, at, ps, |ps|, DecodePoint, EncodePoint);
  }

  // The body and the tail, each known to be read back.
  lemma BodyRead(b: seq<Byte>, h: seq<Byte>, w: seq<Byte>, pad: seq<Byte>, at: nat, mid: nat, body: bool)
    requires at == |h| && mid == at + |w| && |b| == mid + |pad| + 2
    requires b[at..mid] == w <==> body
    ensures b == h + w + pad + Put16(TAIL) <==>
            b[..at] == h && body && b[mid..mid + |pad|] == pad && ReadU16(b, |b| - 2) == TAIL
  {
    Put16Read(b, |b| - 2, TAIL);
    SplitThree(b, h, w, pad, Put16(TAIL), at, mid, |b| - 2);
  }

  lemma EncodeRead(b: seq<Byte>, form: Form, p: RawPacket)
    requires FormOk(form, |p.points|) && |p.points| <= 50
    requires |b| == LayoutOf(form).pointsAt + 28 * |p.points| + |form.padding| + 2
    ensures var at := LayoutOf(form).pointsAt; var mid := at + 28 * |p.points|;
            b == Encode(form, p) <==>
            (&& b[..at] == Header(form, p) && ReadRecords(b, at, |p.points|, DecodePoint) == p.points
             && b[mid..mid + |form.padding|] == form.padding && ReadU16(b, |b| - 2) == TAIL)
  {
    var at, w := LayoutOf(form).pointsAt, WriteRecords(p.points, EncodePoint);
    var mid := at + 28 * |p.points|;
    PointsRead(b, at, mid, p.points, w);
    BodyRead(b, Header(form, p), w, form.padding, at, mid, ReadRecords(b, at, |p.points|, DecodePoint) == p.points);
  }

  // Every encoding parses back to its packet, whatever the layout, the tail
  // form and the free bytes.
  lemma EncodeParses(form: Form, p: RawPacket)
    requires FormOk(form, |p.points|) && Encodable(p)
    ensures ParseDatagram(Encode(form, p)) == Some(p)
  {
    var b, l := Encode(form, p), LayoutOf(form);
    EncodeRead(b, form, p);
    HeaderRead(b, form, p);
    LayoutsExclusive(b);
  }

  // Conversely, whatever parses is an encoding of the parsed packet.
  lemma ParseIsEncoding(b: seq<Byte>, p: RawPacket) returns (form: Form)
    requires ParseDatagram(b) == Some(p)
    ensures FormOk(form, |p.points|) && Encodable(p) && b == Encode(form, p)
  {
    var aligned := ParseWithLayout(b, PACKED).None?;
    var l := if aligned then ALIGNED else PACKED;
    var n := ReadU16(b, l.countAt);
    var mid := l.pointsAt + 28 * n;
    form := Form(aligned, b[2..l.stampAt], b[l.countAt + 2..l.pointsAt], b[mid..|b| - 2]);
    EncodeRead(b, form, p);
    HeaderRead(b, form, p);
  }

  // MAIN RESULT. The parser accepts exactly the encodings.
  lemma ParseIffEncoding(b: seq<Byte>, p: RawPacket)
    ensures ParseDatagram(b) == Some(p) <==>
            Encodable(p) && exists form :: FormOk(form, |p.points|) && b == Encode(form, p)
  {
    if ParseDatagram(b) == Some(p) {
      var form := ParseIsEncoding(b, p);
    }
    if Encodable(p) {
      forall form | FormOk(form, |p.points|) && b == Encode(form, p)
        ensures ParseDatagram(b) == Some(p)
      {
        EncodeParses(form, p);
      }
    }
  }
}
