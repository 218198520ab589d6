/** The byte layout of the shared-memory ring (rust/src/ring.rs): variable-length
    records with an 8-byte header, padding records at the wrap, and offsets that
    only grow and are reduced modulo the ring size when memory is touched. */
module RingLayout {
  import opened Wrappers

  type Byte = x: int | 0 <= x < 256

  const REC_HDR: nat := 8
  const KIND_DATA: nat := 1
  const KIND_PAD: nat := 2
  const KIND_SPILL: nat := 3
  const KIND_FILE: nat := 4
  const TWO32: nat := 0x1_0000_0000

  datatype Record = Record(kind: nat, payload: seq<Byte>)

  // A multiple of 8, by recursion (see AlignedIsMultiple): keeps proofs linear.
  predicate Aligned(x: nat) {
    x == 0 || (x >= 8 && Aligned(x - 8))
  }

  lemma {:induction false} AlignedIsMultiple(x: nat)
    ensures Aligned(x) <==> x % 8 == 0
  {
    if x >= 8 {
      AlignedIsMultiple(x - 8);
    }
  }

  lemma {:induction false} AlignedSum(a: nat, b: nat)
    requires Aligned(a) && Aligned(b)
    ensures Aligned(a + b)
  {
    if a > 0 {
      AlignedSum(a - 8, b);
      assert a + b - 8 == a - 8 + b;
    }
  }

  lemma {:induction false} AlignedDiff(a: nat, b: nat)
    requires Aligned(a) && Aligned(b) && b <= a
    ensures Aligned(a - b) && (b < a ==> b + 8 <= a)
  {
    if b > 0 {
      AlignedDiff(a - 8, b - 8);
    }
  }

  // `(n + 7) & !7`, by its recursive definition (see Align8IsMasking).
  function Align8(n: nat): (r: nat)
    ensures n <= r < n + 8 && Aligned(r)
  {
    if n == 0 then 0 else if n <= 8 then 8 else 8 + Align8(n - 8)
  }

  lemma {:induction false} Align8IsMasking(n: nat)
    ensures Align8(n) == (n + 7) / 8 * 8
  {
    if n > 8 {
      Align8IsMasking(n - 8);
    }
  }

  predicate IsRing(d: seq<Byte>) {
    |d| > 0 && Aligned(|d|)
  }

  // What a producer may hand to the ring: a kind that carries a payload, and a
  // length the 32-bit header field can hold.
  predicate Storable(r: Record) {
    r.kind in {KIND_DATA, KIND_SPILL, KIND_FILE} && |r.payload| < TWO32
  }

  function SizeOf(r: Record): (n: nat)
    ensures Aligned(n) && n >= REC_HDR + |r.payload|
  {
    AlignedSum(REC_HDR, Align8(|r.payload|));
    REC_HDR + Align8(|r.payload|)
  }

  // ---------- Headers ----------

  function Le32(n: nat): (b: seq<Byte>)
    ensures |b| == 4
  {
    [n % 256, n / 256 % 256, n / 65536 % 256, n / 16777216 % 256]
  }

  function FromLe32(b: seq<Byte>): nat
    requires |b| == 4
  {
    (b[0] as nat) + 256 * (b[1] as nat) + 65536 * (b[2] as nat) + 16777216 * (b[3] as nat)
  }

  function Header(len: nat, kind: nat): (b: seq<Byte>)
    ensures |b| == REC_HDR
  {
    Le32(len) + Le32(kind)
  }

  function Encode(r: Record): (b: seq<Byte>)
    ensures |b| == REC_HDR + |r.payload|
  {
    Header(|r.payload|, r.kind) + r.payload
  }

  function ReadLen(d: seq<Byte>, pos: nat): nat
    requires pos + REC_HDR <= |d|
  {
    FromLe32(d[pos..pos + 4])
  }

  function ReadKind(d: seq<Byte>, pos: nat): nat
    requires pos + REC_HDR <= |d|
  {
    FromLe32(d[pos + 4..pos + 8])
  }

  /** A length survives the header exactly when it fits 32 bits: a larger one is
      silently truncated (`payload.len() as u32`). */
  lemma HeaderLengthSurvives(n: nat)
    ensures FromLe32(Le32(n)) == n % TWO32
    ensures FromLe32(Le32(n)) == n <==> n < TWO32
  {
    assert n / 65536 == n / 256 / 256;
    assert n / 16777216 == n / 256 / 256 / 256;
    var a := n / 256;
    var b := a / 256;
    var c := b / 256;
    assert n == n % 256 + 256 * (a % 256 + 256 * (b % 256 + 256 * c));
    assert n == FromLe32(Le32(n)) + TWO32 * (c / 256);
  }

  // ---------- Offsets ----------

  // The position of an offset in the ring: `offset % cap`, by its recursive
  // definition, which keeps the proofs below linear (see PosIsRemainder).
  function Pos(x: nat, cap: nat): (p: nat)
    requires cap > 0
    ensures p < cap
  {
    if x < cap then x else Pos(x - cap, cap)
  }

  // How often an offset has gone around: `offset / cap`.
  function Lap(x: nat, cap: nat): (l: nat)
    requires cap > 0
  {
    if x < cap then 0 else 1 + Lap(x - cap, cap)
  }

  lemma {:induction false} PosIsRemainder(x: nat, cap: nat)
    requires cap > 0
    ensures Pos(x, cap) == x % cap && x == Lap(x, cap) * cap + Pos(x, cap)
  {
    if x < cap {
    } else {
      PosIsRemainder(x - cap, cap);
      assert Lap(x, cap) * cap == Lap(x - cap, cap) * cap + cap;
    }
    Remainder(x, cap, Lap(x, cap), Pos(x, cap));
  }

  lemma Remainder(x: nat, m: nat, q: nat, r: nat)
    requires m > 0 && r < m && x == q * m + r
    ensures x % m == r
  {
    var k := x / m - q;
    assert k * m == r - x % m by {
      assert x == (x / m) * m + x % m && k * m == (x / m) * m - q * m;
    }
    if k != 0 {
      MultipleIsFar(k, m);
    }
  }

  lemma MultipleIsFar(k: int, m: nat)
    requires k != 0
    ensures k * m >= m || k * m + m <= 0
  {
    if k > 0 {
      var j: nat := k - 1;
      assert k * m == j * m + m;
    } else {
      var j: nat := -k - 1;
      assert k * m + m == 0 - j * m;
    }
  }

  // Moving an offset forward without passing the end of the ring moves the
  // position with it; reaching the end exactly lands on position 0.
  lemma {:induction false} Advance(x: nat, i: nat, cap: nat)
    requires cap > 0 && Pos(x, cap) + i <= cap
    ensures Pos(x + i, cap) == if Pos(x, cap) + i < cap then Pos(x, cap) + i else 0
    ensures Lap(x + i, cap) == if Pos(x, cap) + i < cap then Lap(x, cap) else Lap(x, cap) + 1
  {
    if x >= cap {
      Advance(x - cap, i, cap);
      assert x + i - cap == x - cap + i;
    } else if x + i == cap {
      assert Pos(x + i, cap) == Pos(0, cap);
    }
  }

  lemma {:induction false} AlignedPos(x: nat, cap: nat)
    requires cap > 0 && Aligned(cap) && Aligned(x)
    ensures Aligned(Pos(x, cap)) && Pos(x, cap) + REC_HDR <= cap
  {
    if x >= cap {
      AlignedDiff(x, cap);
      AlignedPos(x - cap, cap);
    } else {
      AlignedDiff(cap, x);
    }
  }

  // Offsets less than a lap apart never share a position.
  lemma {:induction false} FreeMissesLive(cap: nat, x: nat, y: nat)
    requires cap > 0 && x < y < x + cap
    ensures Pos(x, cap) != Pos(y, cap)
  {
    if x >= cap {
      FreeMissesLive(cap, x - cap, y - cap);
    } else if y >= cap {
      assert Pos(y, cap) == y - cap;
    }
  }

  lemma {:induction false} LapMonotone(x: nat, y: nat, cap: nat)
    requires cap > 0 && x <= y
    ensures Lap(x, cap) <= Lap(y, cap)
    ensures y - x <= cap ==> Lap(y, cap) <= Lap(x, cap) + 1
    decreases y
  {
    if x >= cap {
      LapMonotone(x - cap, y - cap, cap);
    } else if y >= cap {
      assert y - x <= cap ==> Lap(y - cap, cap) == 0;
    }
  }

  // ---------- Decoding ----------

  datatype Parse = Unreadable | Parsed(rec: Record, next: nat)

  // The record whose header sits at physical `pos`, for a reader at offset `off`.
  function Body(d: seq<Byte>, pos: nat, off: nat): (p: Parse)
    requires pos + REC_HDR <= |d|
    ensures p.Parsed? ==> p.next >= off + REC_HDR && (Aligned(off) ==> Aligned(p.next))
  {
    var len, kind := ReadLen(d, pos), ReadKind(d, pos);
    AlignedSum(REC_HDR, Align8(len));
    if Aligned(off) then AlignedSum(off, REC_HDR + Align8(len)); BodyAt(d, pos, off, len, kind)
    else BodyAt(d, pos, off, len, kind)
  }

  function BodyAt(d: seq<Byte>, pos: nat, off: nat, len: nat, kind: nat): (p: Parse)
    requires pos + REC_HDR <= |d|
    ensures p.Parsed? ==> p.next == off + REC_HDR + Align8(len) >= off + REC_HDR
  {
    if pos + REC_HDR + Align8(len) <= |d| && kind in {KIND_DATA, KIND_SPILL, KIND_FILE} then
      Parsed(Record(kind, d[pos + REC_HDR..pos + REC_HDR + len]), off + REC_HDR + Align8(len))
    else
      Unreadable
  }

  predicate PadAt(d: seq<Byte>, head: nat)
    requires IsRing(d) && Aligned(head)
  {
    AlignedPos(head, |d|);
    ReadKind(d, Pos(head, |d|)) == KIND_PAD
  }

  // The offset at which the lap of `x` ends.
  function LapEnd(x: nat, cap: nat): (e: nat)
    requires cap > 0 && Aligned(cap) && Aligned(x)
    ensures e >= x + REC_HDR && Aligned(e) && Pos(e, cap) == 0 && Lap(e, cap) == Lap(x, cap) + 1
  {
    AlignedPos(x, cap);
    AlignedDiff(cap, Pos(x, cap));
    AlignedSum(x, cap - Pos(x, cap));
    Advance(x, cap - Pos(x, cap), cap);
    x + (cap - Pos(x, cap))
  }

  // Where the next record of a reader at `head` starts: here, or past a pad.
  function SkipPad(d: seq<Byte>, head: nat): (s: nat)
    requires IsRing(d) && Aligned(head)
    ensures s >= head && Aligned(s)
    ensures PadAt(d, head) ==> s >= head + REC_HDR && Pos(s, |d|) == 0
  {
    if PadAt(d, head) then LapEnd(head, |d|) else head
  }

  function ParseAt(d: seq<Byte>, head: nat): (p: Parse)
    requires IsRing(d) && Aligned(head)
    ensures p.Parsed? ==> p.next >= head + REC_HDR && Aligned(p.next)
  {
    AlignedPos(head, |d|);
    if PadAt(d, head) then Body(d, 0, SkipPad(d, head)) else Body(d, Pos(head, |d|), head)
  }

  /** The queue held between two offsets, or None if the bytes there are not a
      whole number of readable records. */
  function Decode(d: seq<Byte>, head: nat, tail: nat): (q: Option<seq<Record>>)
    requires IsRing(d) && Aligned(head)
    decreases tail - head
  {
    if head == tail then Some([])
    else if head > tail then None
    else
      match ParseAt(d, head)
      case Unreadable => None
      case Parsed(rec, next) =>
        if next > tail then None
        else
          match Decode(d, next, tail)
          case None => None
          case Some(rest) => Some([rec] + rest)
  }

  // A readable body, in terms of the header fields a reader looks at.
  lemma BodyFields(d: seq<Byte>, pos: nat, off: nat)
    requires pos + REC_HDR <= |d| && Body(d, pos, off).Parsed?
    ensures var len, kind := ReadLen(d, pos), ReadKind(d, pos);
      && pos + REC_HDR + len <= |d| && kind in {KIND_DATA, KIND_SPILL, KIND_FILE}
      && Body(d, pos, off) == Parsed(Record(kind, d[pos + REC_HDR..pos + REC_HDR + len]), off + REC_HDR + Align8(len))
  {
    hide ReadLen;
    hide ReadKind;
  }

  lemma DecodeHead(d: seq<Byte>, head: nat, tail: nat)
    requires IsRing(d) && Aligned(head) && head != tail && Decode(d, head, tail).Some?
    ensures head < tail && ParseAt(d, head).Parsed?
    ensures var p := ParseAt(d, head);
      && p.next <= tail && Decode(d, p.next, tail).Some?
      && Decode(d, head, tail).value == [p.rec] + Decode(d, p.next, tail).value
  {
    hide ParseAt;
  }

  // ---------- Framing: decoding reads only live cells ----------

  function Cell(d: seq<Byte>, x: nat): Byte
    requires |d| > 0
  {
    d[Pos(x, |d|)]
  }

  ghost predicate Agree(d: seq<Byte>, e: seq<Byte>, lo: nat, hi: nat) {
    |d| == |e| && |d| > 0 && forall x: nat :: lo <= x < hi ==> Cell(d, x) == Cell(e, x)
  }

  lemma SubSlice(d: seq<Byte>, a: nat, b: nat, i: nat, j: nat)
    requires a <= b <= |d| && i <= j <= b - a
    ensures d[a..b][i..j] == d[a + i..a + j]
  {
    var v, w := d[a..b][i..j], d[a + i..a + j];
    assert forall k | 0 <= k < j - i :: v[k] == d[a..b][i + k] == d[a + i + k] == w[k];
    assert v == w;
  }

  lemma AgreeTrans(a: seq<Byte>, b: seq<Byte>, c: seq<Byte>, lo: nat, hi: nat)
    requires Agree(a, b, lo, hi) && Agree(b, c, lo, hi)
    ensures Agree(a, c, lo, hi)
  {
    forall x: nat | lo <= x < hi ensures Cell(a, x) == Cell(c, x) {
      assert Cell(a, x) == Cell(b, x);
    }
  }

  lemma CellAhead(d: seq<Byte>, x: nat, i: nat)
    requires |d| > 0 && Pos(x, |d|) + i < |d|
    ensures Cell(d, x + i) == d[Pos(x, |d|) + i]
  {
    Advance(x, i, |d|);
  }

  lemma WindowAgrees(d: seq<Byte>, e: seq<Byte>, x: nat, n: nat)
    requires Agree(d, e, x, x + n) && Pos(x, |d|) + n <= |d|
    ensures d[Pos(x, |d|)..Pos(x, |d|) + n] == e[Pos(x, |d|)..Pos(x, |d|) + n]
  {
    hide Pos;
    hide Cell;
    var pos := Pos(x, |d|);
    var v, w := d[pos..pos + n], e[pos..pos + n];
    forall i | 0 <= i < n ensures v[i] == w[i] {
      CellAhead(d, x, i);
      CellAhead(e, x, i);
      assert Cell(d, x + i) == Cell(e, x + i);
    }
  }

  lemma SameHeader(d: seq<Byte>, e: seq<Byte>, pos: nat, n: nat)
    requires |d| == |e| && pos + REC_HDR <= n <= |d| && d[pos..n] == e[pos..n]
    ensures ReadLen(d, pos) == ReadLen(e, pos) && ReadKind(d, pos) == ReadKind(e, pos)
  {
    SubSlice(d, pos, n, 0, 4);
    SubSlice(e, pos, n, 0, 4);
    SubSlice(d, pos, n, 4, 8);
    SubSlice(e, pos, n, 4, 8);
  }

  lemma BodyFrame(d: seq<Byte>, e: seq<Byte>, off: nat, hi: nat)
    requires IsRing(d) && Pos(off, |d|) + REC_HDR <= |d|
    requires Agree(d, e, off, hi)
    requires Body(d, Pos(off, |d|), off).Parsed? && Body(d, Pos(off, |d|), off).next <= hi
    ensures Body(e, Pos(off, |d|), off) == Body(d, Pos(off, |d|), off)
  {
    hide Aligned;
    hide Pos;
    var pos := Pos(off, |d|);
    hide ReadLen;
    hide ReadKind;
    hide Agree;
    var n := pos + REC_HDR + ReadLen(d, pos);
    BodyAtFrame(d, e, pos, off, ReadLen(d, pos), ReadKind(d, pos)) by {
      WindowAgrees(d, e, off, n - pos);
      SubSlice(d, pos, n, REC_HDR, n - pos);
      SubSlice(e, pos, n, REC_HDR, n - pos);
    }
    assert ReadLen(e, pos) == ReadLen(d, pos) && ReadKind(e, pos) == ReadKind(d, pos) by {
      WindowAgrees(d, e, off, n - pos);
      SameHeader(d, e, pos, n);
    }
    hide BodyAt;
  }

  lemma BodyAtFrame(d: seq<Byte>, e: seq<Byte>, pos: nat, off: nat, len: nat, kind: nat)
    requires pos + REC_HDR + len <= |d| && |d| == |e|
    requires d[pos + REC_HDR..pos + REC_HDR + len] == e[pos + REC_HDR..pos + REC_HDR + len]
    ensures BodyAt(d, pos, off, len, kind) == BodyAt(e, pos, off, len, kind)
  {
  }

  lemma HeaderFrame(d: seq<Byte>, e: seq<Byte>, head: nat, hi: nat)
    requires IsRing(d) && Aligned(head) && Agree(d, e, head, hi) && head + REC_HDR <= hi
    ensures PadAt(e, head) == PadAt(d, head)
  {
    AlignedPos(head, |d|);
    var pos := Pos(head, |d|);
    WindowAgrees(d, e, head, REC_HDR);
    SameHeader(d, e, pos, pos + REC_HDR);
    hide ReadKind;
    hide Pos;
    hide Aligned;
  }

  lemma ParseFrame(d: seq<Byte>, e: seq<Byte>, head: nat, hi: nat)
    requires IsRing(d) && Aligned(head) && Agree(d, e, head, hi)
    requires ParseAt(d, head).Parsed? && ParseAt(d, head).next <= hi
    ensures ParseAt(e, head) == ParseAt(d, head)
  {
    AlignedPos(head, |d|);
    HeaderFrame(d, e, head, hi);
    var start := SkipPad(d, head);
    hide Pos;
    hide Aligned;
    hide PadAt;
    hide LapEnd;
    BodyFrame(d, e, start, hi);
    hide Body;
  }

  lemma {:induction false} DecodeFrame(d: seq<Byte>, e: seq<Byte>, head: nat, tail: nat)
    requires IsRing(d) && Aligned(head) && Agree(d, e, head, tail)
    requires Decode(d, head, tail).Some?
    ensures Decode(e, head, tail) == Decode(d, head, tail)
    decreases tail - head
  {
    hide Aligned;
    hide Pos;
    if head < tail {
      ParseFrame(d, e, head, tail);
      DecodeFrame(d, e, ParseAt(d, head).next, tail);
    }
  }

  lemma {:induction false} DecodeAppend(d: seq<Byte>, head: nat, mid: nat, tail: nat)
    requires IsRing(d) && Aligned(head) && Aligned(mid) && mid <= tail
    requires Decode(d, head, mid).Some? && Decode(d, mid, tail).Some?
    ensures Decode(d, head, tail) == Some(Decode(d, head, mid).value + Decode(d, mid, tail).value)
    decreases mid - head
  {
    hide ParseAt;
    if head == mid {
      assert [] + Decode(d, mid, tail).value == Decode(d, mid, tail).value;
    } else {
      var next := ParseAt(d, head).next;
      DecodeAppend(d, next, mid, tail);
      var r := [ParseAt(d, head).rec];
      assert (r + Decode(d, next, mid).value) + Decode(d, mid, tail).value
          == r + (Decode(d, next, mid).value + Decode(d, mid, tail).value);
    }
  }

  // ---------- Writing ----------

  function Overwrite(d: seq<Byte>, at: nat, b: seq<Byte>): (e: seq<Byte>)
    requires at + |b| <= |d|
    ensures |e| == |d|
  {
    d[..at] + b + d[at + |b|..]
  }

  // Bytes skipped before a record of `size` bytes so that it does not wrap.
  function PadFor(cap: nat, tail: nat, size: nat): (pad: nat)
    requires cap > 0
  {
    if cap - Pos(tail, cap) < size then cap - Pos(tail, cap) else 0
  }

  lemma PadAligned(cap: nat, tail: nat, size: nat)
    requires cap > 0 && Aligned(cap) && Aligned(tail) && Aligned(size)
    ensures Aligned(PadFor(cap, tail, size))
    ensures Aligned(tail + PadFor(cap, tail, size) + size)
  {
    AlignedPos(tail, cap);
    AlignedDiff(cap, Pos(tail, cap));
    AlignedSum(tail, PadFor(cap, tail, size));
    AlignedSum(tail + PadFor(cap, tail, size), size);
  }

  predicate Fits(cap: nat, head: nat, tail: nat, size: nat)
    requires cap > 0 && head <= tail
  {
    tail - head + PadFor(cap, tail, size) + size <= cap
  }

  // Where the record itself goes.
  function Slot(cap: nat, tail: nat, size: nat): nat
    requires cap > 0
  {
    if PadFor(cap, tail, size) > 0 then 0 else Pos(tail, cap)
  }

  // The ring's bytes once put has written its pad (if any) and its record.
  function Place(d: seq<Byte>, tail: nat, r: Record): (e: seq<Byte>)
    requires IsRing(d) && Aligned(tail) && SizeOf(r) <= |d|
    ensures |e| == |d|
  {
    AlignedPos(tail, |d|);
    var padded := if PadFor(|d|, tail, SizeOf(r)) > 0
                  then Overwrite(d, Pos(tail, |d|), Header(0, KIND_PAD)) else d;
    Overwrite(padded, Slot(|d|, tail, SizeOf(r)), Encode(r))
  }

  // Writing into free cells leaves every live cell alone.
  lemma OverwriteAgrees(d: seq<Byte>, b: seq<Byte>, head: nat, tail: nat, i: nat)
    requires |d| > 0 && head <= tail && tail - head + i + |b| <= |d|
    requires Pos(tail + i, |d|) + |b| <= |d|
    ensures Agree(d, Overwrite(d, Pos(tail + i, |d|), b), head, tail)
  {
    var at := Pos(tail + i, |d|);
    var e := Overwrite(d, at, b);
    forall x: nat | head <= x < tail ensures Cell(d, x) == Cell(e, x) {
      var p := Pos(x, |d|);
      if at <= p < at + |b| {
        Advance(tail + i, p - at, |d|);
        FreeMissesLive(|d|, x, tail + i + (p - at));
      }
    }
  }

  lemma SlotOffset(cap: nat, tail: nat, size: nat)
    requires cap > 0 && size <= cap
    ensures Pos(tail + PadFor(cap, tail, size), cap) == Slot(cap, tail, size)
    ensures Slot(cap, tail, size) + size <= cap
  {
    if PadFor(cap, tail, size) > 0 {
      Advance(tail, cap - Pos(tail, cap), cap);
    }
  }

  lemma ReadBack(e: seq<Byte>, pos: nat, n: nat, len: nat, kind: nat, payload: seq<Byte>)
    requires n == pos + REC_HDR + |payload| <= |e| && len < TWO32 && kind < TWO32
    requires e[pos..n] == Header(len, kind) + payload
    ensures ReadLen(e, pos) == len && ReadKind(e, pos) == kind && e[pos + REC_HDR..n] == payload
  {
    SubSlice(e, pos, n, 0, 4);
    SubSlice(e, pos, n, 4, 8);
    SubSlice(e, pos, n, REC_HDR, n - pos);
    var w := Header(len, kind) + payload;
    assert w[0..4] == Le32(len) && w[4..8] == Le32(kind) && w[8..] == payload;
    HeaderLengthSurvives(len);
    HeaderLengthSurvives(kind);
  }

  lemma PlacedBytes(d: seq<Byte>, tail: nat, r: Record)
    requires IsRing(d) && Aligned(tail)
    requires PadFor(|d|, tail, SizeOf(r)) + SizeOf(r) <= |d|
    ensures var e, at, pos := Place(d, tail, r), Slot(|d|, tail, SizeOf(r)), Pos(tail, |d|);
      && at + SizeOf(r) <= |d| && pos + REC_HDR <= |d|
      && e[at..at + REC_HDR + |r.payload|] == Encode(r)
      && (PadFor(|d|, tail, SizeOf(r)) > 0 ==> e[pos..pos + REC_HDR] == Header(0, KIND_PAD))
  {
    AlignedPos(tail, |d|);
    SlotOffset(|d|, tail, SizeOf(r));
    if PadFor(|d|, tail, SizeOf(r)) > 0 {
      var pos := Pos(tail, |d|);
      var padded := Overwrite(d, pos, Header(0, KIND_PAD));
      assert padded[pos..pos + REC_HDR] == Header(0, KIND_PAD);
      assert |Encode(r)| <= pos;
      assert Overwrite(padded, 0, Encode(r))[pos..pos + REC_HDR] == padded[pos..pos + REC_HDR];
    }
  }

  lemma PlacedParses(d: seq<Byte>, tail: nat, r: Record)
    requires IsRing(d) && Aligned(tail) && Storable(r)
    requires PadFor(|d|, tail, SizeOf(r)) + SizeOf(r) <= |d|
    ensures ParseAt(Place(d, tail, r), tail) == Parsed(r, tail + PadFor(|d|, tail, SizeOf(r)) + SizeOf(r))
  {
    hide Aligned;
    hide Pos;
    var e, pad, at := Place(d, tail, r), PadFor(|d|, tail, SizeOf(r)), Slot(|d|, tail, SizeOf(r));
    PlacedBytes(d, tail, r);
    hide Place;
    AlignedPos(tail, |d|);
    ReadBack(e, at, at + REC_HDR + |r.payload|, |r.payload|, r.kind, r.payload);
    ParsedBody(e, at, tail + pad, r);
    if pad > 0 {
      assert Header(0, KIND_PAD) == Header(0, KIND_PAD) + [];
      ReadBack(e, Pos(tail, |d|), Pos(tail, |d|) + REC_HDR, 0, KIND_PAD, []);
    }
    hide ReadKind;
    hide Body;
  }

  lemma ParsedBody(e: seq<Byte>, at: nat, off: nat, r: Record)
    requires Storable(r) && at + SizeOf(r) <= |e|
    requires ReadLen(e, at) == |r.payload| && ReadKind(e, at) == r.kind
    requires e[at + REC_HDR..at + REC_HDR + |r.payload|] == r.payload
    ensures Body(e, at, off) == Parsed(r, off + SizeOf(r))
  {
    hide Aligned;
    hide Pos;
    hide ReadLen;
    hide ReadKind;
  }

  /** What put writes at the tail reads back as exactly its record. */
  lemma PlacedDecodes(d: seq<Byte>, tail: nat, r: Record)
    requires IsRing(d) && Aligned(tail) && Storable(r)
    requires PadFor(|d|, tail, SizeOf(r)) + SizeOf(r) <= |d|
    ensures Decode(Place(d, tail, r), tail, tail + PadFor(|d|, tail, SizeOf(r)) + SizeOf(r)) == Some([r])
  {
    hide Aligned;
    hide Pos;
    PlacedParses(d, tail, r);
    hide Place;
    hide PadFor;
    OneRecord(Place(d, tail, r), tail, r, tail + PadFor(|d|, tail, SizeOf(r)) + SizeOf(r));
  }

  lemma OneRecord(e: seq<Byte>, off: nat, r: Record, next: nat)
    requires IsRing(e) && Aligned(off) && ParseAt(e, off) == Parsed(r, next)
    ensures Decode(e, off, next) == Some([r])
  {
    hide ParseAt;
    hide IsRing;
    assert Decode(e, next, next) == Some([]);
    assert [r] + [] == [r];
  }

  /** put's writes touch no live byte. */
  lemma PlacedAgrees(d: seq<Byte>, head: nat, tail: nat, r: Record)
    requires IsRing(d) && Aligned(tail) && head <= tail && Fits(|d|, head, tail, SizeOf(r))
    ensures Agree(d, Place(d, tail, r), head, tail)
  {
    hide Aligned;
    hide Pos;
    var pad := PadFor(|d|, tail, SizeOf(r));
    AlignedPos(tail, |d|);
    SlotOffset(|d|, tail, SizeOf(r));
    var padded := d;
    if pad > 0 {
      OverwriteAgrees(d, Header(0, KIND_PAD), head, tail, 0);
      padded := Overwrite(d, Pos(tail, |d|), Header(0, KIND_PAD));
    }
    OverwriteAgrees(padded, Encode(r), head, tail, pad);
    AgreeTrans(d, padded, Place(d, tail, r), head, tail);
  }

  /** The heart of put: appending a record that fits appends it to the queue. */
  lemma PlaceAppends(d: seq<Byte>, head: nat, tail: nat, r: Record)
    requires IsRing(d) && Aligned(head) && Aligned(tail) && head <= tail
    requires Storable(r) && Fits(|d|, head, tail, SizeOf(r))
    requires Decode(d, head, tail).Some?
    ensures Decode(Place(d, tail, r), head, tail + PadFor(|d|, tail, SizeOf(r)) + SizeOf(r))
         == Some(Decode(d, head, tail).value + [r])
  {
    hide Aligned;
    hide Pos;
    hide ParseAt;
    hide Place;
    var e := Place(d, tail, r);
    PlacedAgrees(d, head, tail, r);
    DecodeFrame(d, e, head, tail);
    PlacedDecodes(d, tail, r);
    DecodeAppend(e, head, tail, tail + PadFor(|d|, tail, SizeOf(r)) + SizeOf(r));
  }

  // ---------- Pads ----------

  /** A pad always ends at the ring's end, and what follows it is a record. */
  lemma PadEndsRing(d: seq<Byte>, head: nat, tail: nat)
    requires IsRing(d) && Aligned(head) && head < tail && Decode(d, head, tail).Some?
    requires PadAt(d, head)
    ensures Pos(SkipPad(d, head), |d|) == 0 && SkipPad(d, head) < tail
    ensures Aligned(SkipPad(d, head)) && !PadAt(d, SkipPad(d, head))
    ensures ParseAt(d, SkipPad(d, head)) == ParseAt(d, head)
  {
    hide Aligned;
    hide Pos;
    var s := SkipPad(d, head);
    assert ParseAt(d, head) == Body(d, 0, s);
    hide ParseAt;
    hide SkipPad;
    assert Body(d, 0, s).Parsed? && Body(d, 0, s).next <= tail;
    assert !PadAt(d, s);
    SamePlace(d, s);
  }

  lemma SamePlace(d: seq<Byte>, s: nat)
    requires IsRing(d) && Aligned(s) && Pos(s, |d|) == 0 && !PadAt(d, s)
    ensures REC_HDR <= |d| && ParseAt(d, s) == Body(d, 0, s)
  {
    AlignedPos(s, |d|);
  }

  // How many pads a reader meets between two offsets.
  function Pads(d: seq<Byte>, head: nat, tail: nat): nat
    requires IsRing(d) && Aligned(head) && Decode(d, head, tail).Some?
    decreases tail - head
  {
    if head == tail then 0
    else (if PadAt(d, head) then 1 else 0) + Pads(d, ParseAt(d, head).next, tail)
  }

  lemma {:induction false} PadsCrossBoundary(d: seq<Byte>, head: nat, tail: nat)
    requires IsRing(d) && Aligned(head) && Decode(d, head, tail).Some?
    ensures Pads(d, head, tail) <= Lap(tail, |d|) - Lap(head, |d|)
    decreases tail - head
  {
    if head < tail {
      var next := ParseAt(d, head).next;
      PadsCrossBoundary(d, next, tail);
      if PadAt(d, head) {
        AlignedPos(head, |d|);
        Advance(head, |d| - Pos(head, |d|), |d|);
        LapMonotone(SkipPad(d, head), next, |d|);
      } else {
        LapMonotone(head, next, |d|);
      }
    }
  }

  /** At most one pad is ever live. */
  lemma AtMostOnePad(d: seq<Byte>, head: nat, tail: nat)
    requires IsRing(d) && Aligned(head) && Decode(d, head, tail).Some?
    requires tail - head <= |d|
    ensures Pads(d, head, tail) <= 1
  {
    PadsCrossBoundary(d, head, tail);
    DecodeOrder(d, head, tail);
    LapMonotone(head, tail, |d|);
  }

  lemma DecodeOrder(d: seq<Byte>, head: nat, tail: nat)
    requires IsRing(d) && Aligned(head) && Decode(d, head, tail).Some?
    ensures head <= tail
  {
  }

  // ---------- The fast path ----------

  /** A payload no longer than a quarter of the ring always travels inline while
      at most cap/2 - 22 bytes are live, so always into an empty ring. */
  lemma SmallPayloadFits(cap: nat, head: nat, tail: nat, r: Record)
    requires cap >= 65536 && Aligned(cap) && Aligned(tail) && head <= tail
    requires |r.payload| <= cap / 4 && tail - head <= cap / 2 - 22
    ensures Fits(cap, head, tail, SizeOf(r))
  {
    PadAligned(cap, tail, SizeOf(r));
    if PadFor(cap, tail, SizeOf(r)) > 0 {
      AlignedDiff(SizeOf(r), PadFor(cap, tail, SizeOf(r)));
    }
  }
}
