/**
 Shifting the clocks of an MPEG transport stream segment in place: the scan for PES headers, the
 33-bit clocks spread over five bytes, and what the rewriting keeps. Bit masks on bytes are
 written as quotients and remainders.
 */
module Timeline {
  import opened Common

  const PACKET: nat := 188
  const WRAP: nat := 0x2_0000_0000 // 2^33

  // ---------------------------------------------------------------- one clock

  /** The number with these parts of three, eight, seven, eight and seven bits. */
  function Number(a: nat, b: nat, c: nat, d: nat, e: nat): nat {
    a * 0x4000_0000 + b * 0x40_0000 + c * 0x8000 + d * 0x80 + e
  }

  /** `read`: three, eight, seven, eight and seven bits, around three marker bits. */
  function Clock(b: seq<byte>, p: nat): (t: nat)
    requires p + 5 <= |b|
    ensures t < WRAP
  {
    Number(b[p] / 2 % 8, b[p + 1], b[p + 2] / 2, b[p + 3], b[p + 4] / 2)
  }

  /** The remainder by 2^33 as JavaScript takes it, with the sign of the dividend. */
  function Remainder(a: int): int {
    if a >= 0 then a % WRAP else -((-a) % WRAP)
  }

  predicate Marked(b: seq<byte>, p: nat)
    requires p + 5 <= |b|
  {
    b[p] % 2 == 1 && b[p + 2] % 2 == 1 && b[p + 4] % 2 == 1
  }

  /** Byte `j` of the field at `p` after the shift. */
  function NewByte(b: seq<byte>, p: nat, offset: int, j: nat): byte
    requires p + 5 <= |b| && j < 5
  {
    var time := Remainder(Clock(b, p) + offset);
    match j
    case 0 => b[p] / 16 * 16 + b[p] % 2 + time / 0x4000_0000 % 8 * 2
    case 1 => time / 0x40_0000 % 256
    case 2 => time / 0x8000 % 128 * 2 + 1
    case 3 => time / 0x80 % 256
    case _ => time % 128 * 2 + 1
  }

  /** A 33-bit number is put together again from its five parts, also when it is given less one wrap. */
  lemma PartsOf(t: nat, time: int)
    requires t < WRAP && (time == t || time == t - WRAP)
    ensures t == Number(time / 0x4000_0000 % 8, time / 0x40_0000 % 256, time / 0x8000 % 128, time / 0x80 % 256, time % 128)
  {
    var a, r := time / 0x80, time % 0x80;
    var b, s := a / 0x100, a % 0x100;
    var c, u := b / 0x80, b % 0x80;
    var d, v := c / 0x100, c % 0x100;
    assert time == 0x80 * a + r && a == 0x100 * b + s && b == 0x80 * c + u && c == 0x100 * d + v;
    assert time / 0x8000 == b && time / 0x40_0000 == c && time / 0x4000_0000 == d;
    assert -8 <= d < 8;
  }

  lemma RemainderIsCongruent(a: int)
    ensures var r := Remainder(a); r == a % WRAP || r == a % WRAP - WRAP
  {
  }

  /** Writing three bits between a prefix and a marker. */
  lemma PrefixAndMarker(was: byte, part: nat)
    requires part < 8
    ensures var whole := was / 16 * 16 + was % 2 + part * 2;
            0 <= whole < 256 && whole / 2 % 8 == part && whole / 16 == was / 16 && whole % 2 == was % 2
  {
  }

  lemma Halves(n: nat)
    ensures (n * 2 + 1) / 2 == n && (n * 2 + 1) % 2 == 1
  {
  }

  lemma Assembled(b: seq<byte>, p: nat, time: int, r: seq<byte>, q: nat)
    requires p + 5 <= |b| && q + 5 <= |r| && Marked(b, p)
    requires r[q] == b[p] / 16 * 16 + b[p] % 2 + time / 0x4000_0000 % 8 * 2 && r[q + 1] == time / 0x40_0000 % 256
    requires r[q + 2] == time / 0x8000 % 128 * 2 + 1 && r[q + 3] == time / 0x80 % 256 && r[q + 4] == time % 128 * 2 + 1
    ensures Clock(r, q) == Number(time / 0x4000_0000 % 8, time / 0x40_0000 % 256, time / 0x8000 % 128, time / 0x80 % 256, time % 128)
    ensures Marked(r, q) && r[q] / 16 == b[p] / 16
  {
    hide Number;
    PrefixAndMarker(b[p], time / 0x4000_0000 % 8);
    Halves(time / 0x8000 % 128);
    Halves(time % 128);
  }

  /** Five rewritten bytes read as the old clock plus the offset, modulo 2^33; prefix and markers are kept. */
  lemma NewClock(b: seq<byte>, p: nat, offset: int, r: seq<byte>, q: nat)
    requires p + 5 <= |b| && q + 5 <= |r| && Marked(b, p)
    requires forall j | 0 <= j < 5 :: r[q + j] == NewByte(b, p, offset, j)
    ensures Clock(r, q) == (Clock(b, p) + offset) % WRAP
    ensures Marked(r, q) && r[q] / 16 == b[p] / 16
  {
    hide Number, Clock, Marked, Remainder;
    var time := Remainder(Clock(b, p) + offset);
    RemainderIsCongruent(Clock(b, p) + offset);
    PartsOf((Clock(b, p) + offset) % WRAP, time);
    assert r[q + 0] == NewByte(b, p, offset, 0) && r[q + 1] == NewByte(b, p, offset, 1) && r[q + 2] == NewByte(b, p, offset, 2);
    assert r[q + 3] == NewByte(b, p, offset, 3) && r[q + 4] == NewByte(b, p, offset, 4);
    Assembled(b, p, time, r, q);
  }

  // ---------------------------------------------------------------- the scan

  /** What one packet contributes: nothing, a refusal of the whole segment, or the clocks of a PES header. */
  datatype Found = Nothing | Refused | Header(at: nat, count: nat, video: bool)

  /** The offset of the payload in a packet, by its adaptation field control. */
  function Payload(b: seq<byte>, packet: nat): nat
    requires packet + PACKET <= |b|
  {
    packet + 4 + (if b[packet + 3] / 16 % 4 == 3 then 1 + (b[packet + 4] as nat) else 0)
  }

  function ScanPacket(b: seq<byte>, packet: nat): (f: Found)
    requires packet + PACKET <= |b|
    ensures f.Header? ==> packet + 13 <= f.at && 1 <= f.count <= 2 && f.at + 5 * f.count <= packet + PACKET
    ensures f.Header? ==> Marked(b, f.at) && (f.count == 2 ==> Marked(b, f.at + 5))
  {
    if b[packet] != 0x47 then Refused
    else if b[packet + 1] / 64 % 2 == 0 || b[packet + 3] / 16 % 4 == 0 || b[packet + 3] / 16 % 4 == 2 then Nothing
    else
      var pes := Payload(b, packet);
      if pes + 9 > packet + PACKET || b[pes] != 0 || b[pes + 1] != 0 || b[pes + 2] != 1 then Nothing
      else
        var stream := b[pes + 3];
        if !(0xc0 <= stream <= 0xef) || b[pes + 7] < 128 then Nothing
        else
          var count := if b[pes + 7] / 64 % 2 == 1 then 2 else 1;
          if b[pes + 8] < 5 * count || pes + 9 + 5 * count > packet + PACKET then Refused
          else if !Marked(b, pes + 9) || (count == 2 && !Marked(b, pes + 14)) then Refused
          else Header(pes + 9, count, stream >= 0xe0)
  }

  function FieldsOf(f: Found): seq<nat> {
    if !f.Header? then [] else if f.count == 2 then [f.at, f.at + 5] else [f.at]
  }

  /** The clock fields of the first `k` packets, unless one of them refuses. */
  function Fields(b: seq<byte>, k: nat): Option<seq<nat>>
    requires k * PACKET <= |b|
  {
    if k == 0 then Some([])
    else
      var before, f := Fields(b, k - 1), ScanPacket(b, (k - 1) * PACKET);
      if before.None? || f.Refused? then None else Some(before.value + FieldsOf(f))
  }

  /** The first clock of the first video, or audio, header among the first `k` packets. */
  function FirstClock(b: seq<byte>, k: nat, video: bool): Option<nat>
    requires k * PACKET <= |b|
  {
    if k == 0 then None
    else
      var before, f := FirstClock(b, k - 1, video), ScanPacket(b, (k - 1) * PACKET);
      if before.Some? then before else if f.Header? && f.video == video then Some(Clock(b, f.at)) else None
  }

  /** The measured segments: video restarts at 135000, audio close to it. */
  predicate Measured(b: seq<byte>)
    requires |b| % PACKET == 0
  {
    var n := |b| / PACKET;
    var video, audio := FirstClock(b, n, true), FirstClock(b, n, false);
    video == Some(135_000) && audio.Some? && 126_000 <= audio.value <= 132_000
  }

  predicate Rewrites(b: seq<byte>, offset: int) {
    offset != 0 && |b| % PACKET == 0 && Fields(b, |b| / PACKET).Some? && Measured(b)
  }

  /** The field that byte `i` belongs to, judged by its own packet alone. */
  function FieldAt(b: seq<byte>, i: nat): (p: Option<nat>)
    requires |b| % PACKET == 0 && i < |b|
    ensures p.Some? ==> i / PACKET * PACKET <= p.value <= i < p.value + 5 <= |b|
  {
    var f := ScanPacket(b, i / PACKET * PACKET);
    if !f.Header? then None
    else if f.at <= i < f.at + 5 then Some(f.at)
    else if f.count == 2 && f.at + 5 <= i < f.at + 10 then Some(f.at + 5)
    else None
  }

  function ShiftedByte(b: seq<byte>, offset: int, i: nat): byte
    requires |b| % PACKET == 0 && i < |b|
  {
    var p := FieldAt(b, i);
    if p.Some? then NewByte(b, p.value, offset, i - p.value) else b[i]
  }

  /** The segment with every clock field shifted, byte by byte. */
  function Shifted(b: seq<byte>, offset: int): (r: seq<byte>)
    requires |b| % PACKET == 0
    ensures |r| == |b| && forall i | 0 <= i < |b| :: r[i] == ShiftedByte(b, offset, i)
  {
    seq(|b|, i requires 0 <= i < |b| => ShiftedByte(b, offset, i))
  }

  /** `rebaseObservedSegment`, on contents. */
  function Rebased(b: seq<byte>, offset: int): seq<byte> {
    if Rewrites(b, offset) then Shifted(b, offset) else b
  }

  // ---------------------------------------------------------------- where fields are

  /** The bytes of a header's fields belong to exactly those fields. */
  lemma HeaderFields(b: seq<byte>, k: nat, j: nat)
    requires |b| % PACKET == 0 && k < |b| / PACKET && j < 5
    requires ScanPacket(b, k * PACKET).Header?
    ensures var f := ScanPacket(b, k * PACKET);
            && FieldAt(b, f.at + j) == Some(f.at)
            && (f.count == 2 ==> FieldAt(b, f.at + 5 + j) == Some(f.at + 5))
  {
    var f := ScanPacket(b, k * PACKET);
    assert (f.at + j) / PACKET == k;
    if f.count == 2 {
      assert (f.at + 5 + j) / PACKET == k;
    }
  }

  lemma FieldOfPacket(b: seq<byte>, k: nat, i: nat)
    requires |b| % PACKET == 0 && k < |b| / PACKET && k * PACKET <= i < k * PACKET + PACKET
    ensures FieldAt(b, i).Some? ==> FieldAt(b, i).value in FieldsOf(ScanPacket(b, k * PACKET))
  {
    hide ScanPacket;
    assert i / PACKET == k;
  }

  lemma FieldsOfPacket(b: seq<byte>, k: nat, p: nat)
    requires |b| % PACKET == 0 && k < |b| / PACKET && p in FieldsOf(ScanPacket(b, k * PACKET))
    ensures k * PACKET <= p && p + 5 <= k * PACKET + PACKET && FieldAt(b, p) == Some(p)
  {
    hide ScanPacket;
    HeaderFields(b, k, 0);
  }

  /** The scan lists exactly the fields, and knows where each of them is. */
  lemma {:induction false} FieldsAreFields(b: seq<byte>, k: nat)
    requires |b| % PACKET == 0 && k <= |b| / PACKET && Fields(b, k).Some?
    ensures forall p | p in Fields(b, k).value :: p + 5 <= k * PACKET && FieldAt(b, p) == Some(p)
    ensures forall i | 0 <= i < k * PACKET && FieldAt(b, i).Some? :: FieldAt(b, i).value in Fields(b, k).value
  {
    hide ScanPacket, FieldAt, FieldsOf;
    if k > 0 {
      FieldsAreFields(b, k - 1);
      var own := FieldsOf(ScanPacket(b, (k - 1) * PACKET));
      var before, all := Fields(b, k - 1).value, Fields(b, k).value;
      forall p | p in all
        ensures p + 5 <= k * PACKET && FieldAt(b, p) == Some(p)
      {
        if p !in before {
          FieldsOfPacket(b, k - 1, p);
        }
      }
      forall i | 0 <= i < k * PACKET && FieldAt(b, i).Some?
        ensures FieldAt(b, i).value in all
      {
        if i >= (k - 1) * PACKET {
          FieldOfPacket(b, k - 1, i);
        }
      }
    }
  }

  // ---------------------------------------------------------------- scanning again

  /** The scan of a packet depends on the bytes before the fields it finds, and on their markers. */
  lemma ScanDependsOn(b: seq<byte>, r: seq<byte>, packet: nat)
    requires packet + PACKET <= |b| == |r|
    requires var f := ScanPacket(b, packet);
             && (forall i | packet <= i < (if f.Header? then f.at else packet + PACKET) :: r[i] == b[i])
             && (f.Header? ==> Marked(r, f.at) && (f.count == 2 ==> Marked(r, f.at + 5)))
    ensures ScanPacket(r, packet) == ScanPacket(b, packet)
  {
    var f := ScanPacket(b, packet);
    if f.Header? {
      hide Marked;
      assert f.at == Payload(b, packet) + 9;
    }
  }

  lemma FieldBytes(b: seq<byte>, offset: int, k: nat, p: nat)
    requires |b| % PACKET == 0 && k < |b| / PACKET
    requires p in FieldsOf(ScanPacket(b, k * PACKET))
    ensures p + 5 <= |b| && forall j | 0 <= j < 5 :: Shifted(b, offset)[p + j] == NewByte(b, p, offset, j)
  {
    hide ScanPacket, NewByte, Shifted, FieldAt;
    forall j | 0 <= j < 5
      ensures Shifted(b, offset)[p + j] == NewByte(b, p, offset, j)
    {
      HeaderFields(b, k, j);
      assert Shifted(b, offset)[p + j] == ShiftedByte(b, offset, p + j);
    }
  }

  predicate FieldIsShifted(b: seq<byte>, r: seq<byte>, offset: int, p: nat) {
    && p + 5 <= |b| == |r|
    && Clock(r, p) == (Clock(b, p) + offset) % WRAP
    && Marked(b, p) && Marked(r, p) && r[p] / 16 == b[p] / 16
  }

  lemma ShiftedClock(b: seq<byte>, offset: int, k: nat)
    requires |b| % PACKET == 0 && k < |b| / PACKET
    requires ScanPacket(b, k * PACKET).Header?
    ensures var f, r := ScanPacket(b, k * PACKET), Shifted(b, offset);
            && FieldIsShifted(b, r, offset, f.at)
            && (f.count == 2 ==> FieldIsShifted(b, r, offset, f.at + 5))
  {
    hide ScanPacket, NewByte, Shifted, Clock, Marked, FieldAt;
    var f, r := ScanPacket(b, k * PACKET), Shifted(b, offset);
    FieldBytes(b, offset, k, f.at);
    NewClock(b, f.at, offset, r, f.at);
    if f.count == 2 {
      FieldBytes(b, offset, k, f.at + 5);
      NewClock(b, f.at + 5, offset, r, f.at + 5);
    }
  }

  /** Shifting touches nothing that the scan of a packet looks at, except bits that it keeps. */
  lemma ScanAgain(b: seq<byte>, offset: int, k: nat)
    requires |b| % PACKET == 0 && k < |b| / PACKET
    ensures ScanPacket(Shifted(b, offset), k * PACKET) == ScanPacket(b, k * PACKET)
  {
    hide ScanPacket, NewByte, Shifted, Clock, Marked;
    var r := Shifted(b, offset);
    var packet := k * PACKET;
    var f := ScanPacket(b, packet);
    forall i | packet <= i < (if f.Header? then f.at else packet + PACKET)
      ensures r[i] == b[i]
    {
      assert i / PACKET == k;
      assert r[i] == ShiftedByte(b, offset, i);
    }
    if f.Header? {
      ShiftedClock(b, offset, k);
    }
    ScanDependsOn(b, r, packet);
  }

  lemma {:induction false} FieldsAgain(b: seq<byte>, offset: int, k: nat)
    requires |b| % PACKET == 0 && k <= |b| / PACKET
    ensures Fields(Shifted(b, offset), k) == Fields(b, k)
    ensures forall video :: var was, now := FirstClock(b, k, video), FirstClock(Shifted(b, offset), k, video);
              now == if was.Some? then Some((was.value + offset) % WRAP) else None
  {
    hide ScanPacket, Shifted, Clock, Marked, FieldsOf;
    if k > 0 {
      FieldsAgain(b, offset, k - 1);
      ScanAgain(b, offset, k - 1);
      if ScanPacket(b, (k - 1) * PACKET).Header? {
        ShiftedClock(b, offset, k - 1);
      }
    }
  }

  // ---------------------------------------------------------------- what rebasing does

  lemma ListedFieldIsShifted(b: seq<byte>, offset: int, p: nat)
    requires |b| % PACKET == 0 && Fields(b, |b| / PACKET).Some? && p in Fields(b, |b| / PACKET).value
    ensures FieldIsShifted(b, Shifted(b, offset), offset, p)
  {
    hide ScanPacket, Fields, FieldIsShifted, Shifted;
    FieldsAreFields(b, |b| / PACKET);
    assert FieldAt(b, p) == Some(p);
    ShiftedClock(b, offset, p / PACKET);
  }

  lemma OtherByteStays(b: seq<byte>, offset: int, i: nat)
    requires |b| % PACKET == 0 && i < |b| && Fields(b, |b| / PACKET).Some?
    requires forall p | p in Fields(b, |b| / PACKET).value :: !(p <= i < p + 5)
    ensures Shifted(b, offset)[i] == b[i]
  {
    hide FieldAt, Fields, Shifted;
    FieldsAreFields(b, |b| / PACKET);
    assert Shifted(b, offset)[i] == ShiftedByte(b, offset, i);
  }

  /**
   Whenever a segment is rewritten, each clock field that the scan finds is shifted by the offset
   modulo 2^33 with its prefix and markers kept, every other byte is unchanged, and scanning the
   result finds the same fields.
   */
  lemma RebaseShiftsTheClocks(b: seq<byte>, offset: int)
    requires Rewrites(b, offset)
    ensures var r, n := Rebased(b, offset), |b| / PACKET;
            && |r| == |b|
            && (forall p | p in Fields(b, n).value :: FieldIsShifted(b, r, offset, p))
            && (forall i | 0 <= i < |b| && (forall p | p in Fields(b, n).value :: !(p <= i < p + 5)) :: r[i] == b[i])
            && Fields(r, n) == Fields(b, n)
  {
    hide ScanPacket, FieldAt, Fields, FieldIsShifted, Shifted, Measured;
    var r, n := Rebased(b, offset), |b| / PACKET;
    FieldsAgain(b, offset, n);
    forall p | p in Fields(b, n).value
      ensures FieldIsShifted(b, r, offset, p)
    {
      ListedFieldIsShifted(b, offset, p);
    }
    forall i | 0 <= i < |b| && (forall p | p in Fields(b, n).value :: !(p <= i < p + 5))
      ensures r[i] == b[i]
    {
      OtherByteStays(b, offset, i);
    }
  }

  lemma SameDistance(x: int, y: int, offset: int)
    ensures ((x + offset) % WRAP - (y + offset) % WRAP) % WRAP == (x - y) % WRAP
  {
    var u, v := (x + offset) / WRAP, (y + offset) / WRAP;
    assert (x + offset) % WRAP == x + offset - WRAP * u && (y + offset) % WRAP == y + offset - WRAP * v;
    assert (x - y - WRAP * (u - v)) % WRAP == (x - y) % WRAP;
  }

  /** The distance between any two clocks, such as audio against video, is kept modulo 2^33. */
  lemma RebaseKeepsDistances(b: seq<byte>, offset: int, p: nat, q: nat)
    requires Rewrites(b, offset) && p in Fields(b, |b| / PACKET).value && q in Fields(b, |b| / PACKET).value
    ensures FieldIsShifted(b, Rebased(b, offset), offset, p) && FieldIsShifted(b, Rebased(b, offset), offset, q)
    ensures (Clock(Rebased(b, offset), p) - Clock(Rebased(b, offset), q)) % WRAP == (Clock(b, p) - Clock(b, q)) % WRAP
  {
    hide Rewrites, Rebased, Clock, Marked;
    RebaseShiftsTheClocks(b, offset);
    SameDistance(Clock(b, p), Clock(b, q), offset);
  }

  lemma WholeWraps(x: nat, offset: int)
    requires x < WRAP && offset % WRAP == 0
    ensures (x + offset) % WRAP == x
  {
  }

  /** A segment that was rewritten is rewritten again exactly when the offset was a multiple of 2^33. */
  lemma RewrittenIsNotMeasured(b: seq<byte>, offset: int, again: int)
    requires Rewrites(b, offset) && again != 0
    ensures Rewrites(Rebased(b, offset), again) <==> offset % WRAP == 0
  {
    hide ScanPacket, Shifted, FirstClock, Fields;
    FieldsAgain(b, offset, |b| / PACKET);
    if offset % WRAP == 0 {
      WholeWraps(135_000, offset);
      WholeWraps(FirstClock(b, |b| / PACKET, false).value, offset);
    }
  }

  lemma SameByteOfParts(b: seq<byte>, p: nat, time: int, j: nat)
    requires p + 5 <= |b| && j < 5 && Marked(b, p)
    requires b[p] / 2 % 8 == time / 0x4000_0000 % 8 && b[p + 1] == time / 0x40_0000 % 256 && b[p + 2] / 2 == time / 0x8000 % 128
    requires b[p + 3] == time / 0x80 % 256 && b[p + 4] / 2 == time % 128
    ensures b[p] == b[p] / 16 * 16 + b[p] % 2 + time / 0x4000_0000 % 8 * 2
    ensures b[p + 2] == time / 0x8000 % 128 * 2 + 1 && b[p + 4] == time % 128 * 2 + 1
  {
  }

  /** The five parts of a 33-bit number are unique. */
  lemma PartsAreUnique(a: nat, b: nat, c: nat, d: nat, e: nat, a': nat, b': nat, c': nat, d': nat, e': nat)
    requires a < 8 && b < 256 && c < 128 && d < 256 && e < 128 && a' < 8 && b' < 256 && c' < 128 && d' < 256 && e' < 128
    requires Number(a, b, c, d, e) == Number(a', b', c', d', e')
    ensures a == a' && b == b' && c == c' && d == d' && e == e'
  {
  }

  lemma SameByte(b: seq<byte>, p: nat, offset: int, j: nat)
    requires p + 5 <= |b| && j < 5 && offset % WRAP == 0 && Marked(b, p)
    ensures NewByte(b, p, offset, j) == b[p + j]
  {
    hide Number, Remainder;
    var time := Remainder(Clock(b, p) + offset);
    RemainderIsCongruent(Clock(b, p) + offset);
    WholeWraps(Clock(b, p), offset);
    PartsOf(Clock(b, p), time);
    PartsAreUnique(b[p] / 2 % 8, b[p + 1], b[p + 2] / 2, b[p + 3], b[p + 4] / 2,
                   time / 0x4000_0000 % 8, time / 0x40_0000 % 256, time / 0x8000 % 128, time / 0x80 % 256, time % 128);
    SameByteOfParts(b, p, time, j);
  }

  /** A shift by whole wraps changes nothing. */
  lemma {:induction false} WholeWrapsShiftNothing(b: seq<byte>, offset: int)
    requires |b| % PACKET == 0 && offset % WRAP == 0
    ensures Shifted(b, offset) == b
  {
    var r := Shifted(b, offset);
    forall i | 0 <= i < |b|
      ensures r[i] == b[i]
    {
      var p := FieldAt(b, i);
      assert r[i] == ShiftedByte(b, offset, i);
      if p.Some? {
        SameByte(b, p.value, offset, i - p.value);
      }
    }
  }

  /** Rebasing a second time changes nothing, for every segment and every offset. */
  lemma RebaseTwice(b: seq<byte>, offset: int)
    ensures Rebased(Rebased(b, offset), offset) == Rebased(b, offset)
  {
    if Rewrites(b, offset) {
      RewrittenIsNotMeasured(b, offset, offset);
      if offset % WRAP == 0 {
        WholeWrapsShiftNothing(b, offset);
      }
    }
  }

  // ---------------------------------------------------------------- the loops

  /** The bytes written for the first `m` fields are in place, and nothing else has changed. */
  ghost predicate Written(b: seq<byte>, r: seq<byte>, offset: int, fields: seq<nat>, m: nat)
    requires |b| % PACKET == 0 && |r| == |b| && m <= |fields|
  {
    forall i | 0 <= i < |b| ::
      r[i] == if FieldAt(b, i).Some? && FieldAt(b, i).value in fields[..m] then ShiftedByte(b, offset, i) else b[i]
  }

  /** The field at `p` is exactly these five bytes. */
  ghost predicate Covers(b: seq<byte>, p: nat)
    requires |b| % PACKET == 0
  {
    p + 5 <= |b| && forall i | p <= i < p + 5 :: FieldAt(b, i) == Some(p)
  }

  lemma WrittenNext(b: seq<byte>, r: seq<byte>, n: seq<byte>, offset: int, fields: seq<nat>, m: nat)
    requires |b| % PACKET == 0 && |n| == |r| == |b| && m < |fields| && Written(b, r, offset, fields, m)
    requires fields[m] + 5 <= |b|
    requires forall p | p in fields :: Covers(b, p)
    requires forall i | 0 <= i < |b| ::
               n[i] == if fields[m] <= i < fields[m] + 5 then NewByte(b, fields[m], offset, i - fields[m]) else r[i]
    ensures Written(b, n, offset, fields, m + 1)
  {
    hide NewByte, FieldAt;
    var p := fields[m];
    assert fields[..m + 1] == fields[..m] + [p];
    forall i | 0 <= i < |b|
      ensures n[i] == if FieldAt(b, i).Some? && FieldAt(b, i).value in fields[..m + 1] then ShiftedByte(b, offset, i) else b[i]
    {
      assert Covers(b, p);
    }
  }

  lemma HeaderCovers(b: seq<byte>, k: nat, p: nat)
    requires |b| % PACKET == 0 && k < |b| / PACKET && p in FieldsOf(ScanPacket(b, k * PACKET))
    ensures Covers(b, p)
  {
    hide ScanPacket, FieldAt;
    forall i | p <= i < p + 5
      ensures FieldAt(b, i) == Some(p)
    {
      HeaderFields(b, k, i - p);
    }
  }

  lemma FieldsCoverTheirBytes(b: seq<byte>, p: nat)
    requires |b| % PACKET == 0 && Fields(b, |b| / PACKET).Some? && p in Fields(b, |b| / PACKET).value
    ensures Covers(b, p)
  {
    hide ScanPacket, Fields, FieldAt, FieldsOf, Covers;
    FieldsAreFields(b, |b| / PACKET);
    assert FieldAt(b, p) == Some(p);
    FieldOfPacket(b, p / PACKET, p);
    HeaderCovers(b, p / PACKET, p);
  }

  lemma {:induction false} RefusalIsFinal(b: seq<byte>, k: nat, n: nat)
    requires k <= n && n * PACKET <= |b| && Fields(b, k).None?
    ensures Fields(b, n).None?
  {
    if k < n {
      RefusalIsFinal(b, k, n - 1);
    }
  }

  /** One turn of the loop over packets. */
  method ExaminePacket(buffer: array<byte>, packet: nat) returns (found: Found)
    requires packet + PACKET <= buffer.Length
    ensures found == ScanPacket(buffer[..], packet)
  {
    if buffer[packet] != 0x47 { return Refused; }
    if buffer[packet + 1] / 64 % 2 == 0 { return Nothing; }
    var mode := buffer[packet + 3] / 16 % 4;
    if mode == 0 || mode == 2 { return Nothing; }
    var pes: nat := packet + 4;
    if mode == 3 {
      pes := pes + 1 + (buffer[packet + 4] as nat);
    }
    if pes + 9 > packet + PACKET || buffer[pes] != 0 || buffer[pes + 1] != 0 || buffer[pes + 2] != 1 { return Nothing; }
    var stream := buffer[pes + 3];
    var video := 0xe0 <= stream <= 0xef;
    var audio := 0xc0 <= stream <= 0xdf;
    if (!video && !audio) || buffer[pes + 7] / 128 == 0 { return Nothing; }
    var count := if buffer[pes + 7] / 64 % 2 == 1 then 2 else 1;
    if buffer[pes + 8] < 5 * count || pes + 9 + 5 * count > packet + PACKET { return Refused; }
    var field := 0;
    while field < count
      invariant field <= count
      invariant forall i | 0 <= i < field :: Marked(buffer[..], pes + 9 + 5 * i)
    {
      var p := pes + 9 + 5 * field;
      if buffer[p] % 2 == 0 || buffer[p + 2] % 2 == 0 || buffer[p + 4] % 2 == 0 {
        assert !Marked(buffer[..], pes + 9 + 5 * field);
        return Refused;
      }
      field := field + 1;
    }
    assert Marked(buffer[..], pes + 9 + 5 * 0) && (count == 2 ==> Marked(buffer[..], pes + 9 + 5 * 1));
    return Header(pes + 9, count, video);
  }

  method ReadClock(buffer: array<byte>, p: nat) returns (time: nat)
    requires p + 5 <= buffer.Length
    ensures time == Clock(buffer[..], p)
  {
    time := Number(buffer[p] / 2 % 8, buffer[p + 1], buffer[p + 2] / 2, buffer[p + 3], buffer[p + 4] / 2);
  }

  /** The five writes for one field. */
  method WriteField(buffer: array<byte>, result: array<byte>, p: nat, offset: int)
    requires buffer != result && buffer.Length == result.Length && p + 5 <= buffer.Length
    modifies result
    ensures forall i | 0 <= i < result.Length ::
              result[i] == if p <= i < p + 5 then NewByte(buffer[..], p, offset, i - p) else old(result[i])
  {
    var clock := ReadClock(buffer, p);
    var time := Remainder(clock + offset);
    result[p] := buffer[p] / 16 * 16 + buffer[p] % 2 + time / 0x4000_0000 % 8 * 2;
    result[p + 1] := time / 0x40_0000 % 256;
    result[p + 2] := time / 0x8000 % 128 * 2 + 1;
    result[p + 3] := time / 0x80 % 256;
    result[p + 4] := time % 128 * 2 + 1;
  }

  lemma AllWritten(b: seq<byte>, r: seq<byte>, offset: int, fields: seq<nat>)
    requires |b| % PACKET == 0 && |r| == |b| && Fields(b, |b| / PACKET) == Some(fields)
    requires Written(b, r, offset, fields, |fields|)
    ensures r == Shifted(b, offset)
  {
    hide FieldAt, Fields, Shifted, ScanPacket;
    FieldsAreFields(b, |b| / PACKET);
    assert fields[..|fields|] == fields;
    forall i | 0 <= i < |b|
      ensures r[i] == Shifted(b, offset)[i]
    {
      assert Shifted(b, offset)[i] == ShiftedByte(b, offset, i);
    }
  }

  method RewriteFields(buffer: array<byte>, result: array<byte>, fields: seq<nat>, offset: int)
    requires buffer != result && result[..] == buffer[..] && buffer.Length % PACKET == 0
    requires Fields(buffer[..], buffer.Length / PACKET) == Some(fields)
    modifies result
    ensures result[..] == Shifted(buffer[..], offset)
  {
    hide NewByte, FieldAt, Fields, Shifted, ScanPacket;
    ghost var b := buffer[..];
    forall p | p in fields
      ensures Covers(b, p)
    {
      FieldsCoverTheirBytes(b, p);
    }
    for m := 0 to |fields|
      invariant Written(b, result[..], offset, fields, m)
    {
      ghost var r := result[..];
      assert Covers(b, fields[m]);
      WriteField(buffer, result, fields[m], offset);
      WrittenNext(b, r, result[..], offset, fields, m);
    }
    AllWritten(b, result[..], offset, fields);
  }

  method RebaseObservedSegment(buffer: array<byte>, offset: int) returns (result: array<byte>)
    ensures result[..] == Rebased(old(buffer[..]), offset)
    ensures if Rewrites(old(buffer[..]), offset) then fresh(result) else result == buffer
    ensures buffer[..] == old(buffer[..])
  {
    hide ScanPacket, Clock;
    if offset == 0 || buffer.Length % PACKET != 0 { return buffer; }
    ghost var b := buffer[..];
    var n := buffer.Length / PACKET;
    var fields: seq<nat> := [];
    var videoFirst: Option<nat> := None;
    var audioFirst: Option<nat> := None;
    var k := 0;
    while k < n
      invariant k <= n
      invariant Fields(b, k) == Some(fields)
      invariant videoFirst == FirstClock(b, k, true) && audioFirst == FirstClock(b, k, false)
    {
      var found := ExaminePacket(buffer, k * PACKET);
      if found.Refused? {
        RefusalIsFinal(b, k + 1, n);
        return buffer;
      }
      assert fields + [] == fields;
      if found.Header? {
        fields := fields + FieldsOf(found);
        var first := ReadClock(buffer, found.at);
        if found.video {
          videoFirst := if videoFirst.Some? then videoFirst else Some(first);
        } else {
          audioFirst := if audioFirst.Some? then audioFirst else Some(first);
        }
      }
      k := k + 1;
    }
    if videoFirst != Some(135_000) || audioFirst.None? || audioFirst.value < 126_000 || audioFirst.value > 132_000 {
      return buffer;
    }
    result := new byte[buffer.Length](i requires 0 <= i < buffer.Length reads buffer => buffer[i]);
    RewriteFields(buffer, result, fields, offset);
  }
}
