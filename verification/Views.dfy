/** Numpy arrays through the payload store (src/pipe/shmstore.py:
    reduce_ndarray, _rebuild_ndarray). A strided view of a block travels as the
    block's handle, the distance of its data from the block's start, its shape
    and its strides; anything else is copied into a fresh block. */
module Views {
  type Byte = bv8

  type Index = seq<nat>

  predicate Inside(idx: Index, shape: seq<nat>) {
    |idx| == |shape| && forall k :: 0 <= k < |idx| ==> idx[k] < shape[k]
  }

  // How far the element at idx is from the first one.
  function Distance(strides: seq<int>, idx: Index): int
    requires |strides| == |idx|
  {
    if idx == [] then 0 else idx[0] * strides[0] + Distance(strides[1..], idx[1..])
  }

  // An array in one process: a block mapped at `addr`, and where in memory the
  // array's first element is.
  datatype Array = Array(addr: int, block: seq<Byte>, data: int, shape: seq<nat>, strides: seq<int>)

  function ByteAt(block: seq<Byte>, i: int): Byte {
    if 0 <= i < |block| then block[i] else 0
  }

  function Bytes(block: seq<Byte>, from: int, item: nat): (bs: seq<Byte>)
    ensures |bs| == item && forall j :: 0 <= j < item ==> bs[j] == ByteAt(block, from + j)
  {
    seq(item, j requires 0 <= j => ByteAt(block, from + j))
  }

  function Read(a: Array, item: nat, idx: Index): seq<Byte>
    requires |a.strides| == |idx|
  {
    Bytes(a.block, a.data - a.addr + Distance(a.strides, idx), item)
  }

  // ---------- the check before forwarding ----------

  function Lowest(shape: seq<nat>, strides: seq<int>): int
    requires |shape| == |strides|
  {
    if shape == [] then 0
    else (if strides[0] < 0 then (shape[0] - 1) * strides[0] else 0) + Lowest(shape[1..], strides[1..])
  }

  function Highest(shape: seq<nat>, strides: seq<int>): int
    requires |shape| == |strides|
  {
    if shape == [] then 0
    else (if strides[0] > 0 then (shape[0] - 1) * strides[0] else 0) + Highest(shape[1..], strides[1..])
  }

  // What np.ndarray(shape, dtype, buffer, offset, strides) checks.
  predicate MapsBack(off: int, shape: seq<nat>, strides: seq<int>, item: nat, len: nat)
    requires |shape| == |strides|
  {
    0 in shape || (0 <= off + Lowest(shape, strides) && off + Highest(shape, strides) + item <= len)
  }

  lemma TimesBounds(i: nat, n: nat, s: int)
    requires i < n
    ensures s >= 0 ==> 0 <= i * s <= (n - 1) * s
    ensures s <= 0 ==> (n - 1) * s <= i * s <= 0
  {
  }

  lemma {:induction false} DistanceBounds(shape: seq<nat>, strides: seq<int>, idx: Index)
    requires |shape| == |strides| && Inside(idx, shape)
    ensures Lowest(shape, strides) <= Distance(strides, idx) <= Highest(shape, strides)
  {
    if shape != [] {
      DistanceBounds(shape[1..], strides[1..], idx[1..]);
      TimesBounds(idx[0], shape[0], strides[0]);
    }
  }

  // The bounds are taken: by the last element against, and along, each stride.
  lemma {:induction false} BoundsTaken(shape: seq<nat>, strides: seq<int>) returns (low: Index, high: Index)
    requires |shape| == |strides| && 0 !in shape
    ensures Inside(low, shape) && Distance(strides, low) == Lowest(shape, strides)
    ensures Inside(high, shape) && Distance(strides, high) == Highest(shape, strides)
  {
    if shape == [] {
      low, high := [], [];
    } else {
      assert shape[0] in shape;
      var l, h := BoundsTaken(shape[1..], strides[1..]);
      var last := shape[0] - 1;
      low := [if strides[0] < 0 then last else 0] + l;
      high := [if strides[0] > 0 then last else 0] + h;
      assert low[1..] == l && high[1..] == h;
    }
  }

  // A view maps back exactly when every element lies inside the block.
  lemma MapsBackExactly(off: int, shape: seq<nat>, strides: seq<int>, item: nat, len: nat)
    requires |shape| == |strides|
    ensures MapsBack(off, shape, strides, item, len) <==>
              forall idx :: Inside(idx, shape) ==>
                0 <= off + Distance(strides, idx) && off + Distance(strides, idx) + item <= len
  {
    if MapsBack(off, shape, strides, item, len) {
      forall idx | Inside(idx, shape)
        ensures 0 <= off + Distance(strides, idx) && off + Distance(strides, idx) + item <= len
      {
        DistanceBounds(shape, strides, idx);
      }
    } else {
      var low, high := BoundsTaken(shape, strides);
    }
  }

  // ---------- copying ----------

  function Size(shape: seq<nat>, item: nat): nat {
    if shape == [] then item else shape[0] * Size(shape[1..], item)
  }

  // The strides of a fresh array in C order.
  function PackedStrides(shape: seq<nat>, item: nat): (strides: seq<int>)
    ensures |strides| == |shape|
  {
    if shape == [] then [] else [Size(shape[1..], item)] + PackedStrides(shape[1..], item)
  }

  // The elements one after another, as copying into a fresh block lays them out.
  function Packed(block: seq<Byte>, off: int, shape: seq<nat>, strides: seq<int>, item: nat): seq<Byte>
    requires |shape| == |strides|
    decreases |shape|, if shape == [] then 0 else shape[0] + 1
  {
    if shape == [] then Bytes(block, off, item)
    else Rows(block, off, shape, strides, item, shape[0])
  }

  function Rows(block: seq<Byte>, off: int, shape: seq<nat>, strides: seq<int>, item: nat, n: nat): seq<Byte>
    requires |shape| == |strides| && shape != []
    decreases |shape|, n
  {
    if n == 0 then []
    else Rows(block, off, shape, strides, item, n - 1)
         + Packed(block, off + (n - 1) * strides[0], shape[1..], strides[1..], item)
  }

  lemma {:induction false} PackedSize(block: seq<Byte>, off: int, shape: seq<nat>, strides: seq<int>, item: nat)
    requires |shape| == |strides|
    ensures |Packed(block, off, shape, strides, item)| == Size(shape, item)
    decreases |shape|, if shape == [] then 0 else shape[0] + 1
  {
    if shape != [] {
      RowsSize(block, off, shape, strides, item, shape[0]);
    }
  }

  lemma {:induction false} RowsSize(block: seq<Byte>, off: int, shape: seq<nat>, strides: seq<int>, item: nat, n: nat)
    requires |shape| == |strides| && shape != []
    ensures |Rows(block, off, shape, strides, item, n)| == n * Size(shape[1..], item)
    decreases |shape|, n
  {
    var row := Size(shape[1..], item);
    if n > 0 {
      RowsSize(block, off, shape, strides, item, n - 1);
      PackedSize(block, off + (n - 1) * strides[0], shape[1..], strides[1..], item);
      assert n * row == (n - 1) * row + row;
    }
  }

  // Row i of a packed array starts i row sizes in.
  lemma {:induction false} RowAt(block: seq<Byte>, off: int, shape: seq<nat>, strides: seq<int>, item: nat, n: nat, i: nat)
    requires |shape| == |strides| && shape != [] && i < n
    ensures var row := Size(shape[1..], item);
            var rows := Rows(block, off, shape, strides, item, n);
            && 0 <= i * row && i * row + row <= |rows|
            && rows[i * row..i * row + row] == Packed(block, off + i * strides[0], shape[1..], strides[1..], item)
    decreases n
  {
    var row := Size(shape[1..], item);
    var front := Rows(block, off, shape, strides, item, n - 1);
    var last := Packed(block, off + (n - 1) * strides[0], shape[1..], strides[1..], item);
    RowsSize(block, off, shape, strides, item, n - 1);
    PackedSize(block, off + (n - 1) * strides[0], shape[1..], strides[1..], item);
    if i == n - 1 {
      assert (front + last)[|front|..|front| + row] == last;
    } else {
      RowAt(block, off, shape, strides, item, n - 1, i);
      assert (front + last)[i * row..i * row + row] == front[i * row..i * row + row];
    }
  }

  lemma BytesOfSlice(block: seq<Byte>, from: nat, to: nat, at: nat, item: nat)
    requires from <= to <= |block| && at + item <= to - from
    ensures Bytes(block[from..to], at, item) == Bytes(block, from + at, item)
  {
    var slice := block[from..to];
    forall j | 0 <= j < item ensures Bytes(slice, at, item)[j] == Bytes(block, from + at, item)[j] {
      assert slice[at + j] == block[from + at + j];
    }
  }

  // The copy holds every element of the view, at its C-order place, inside.
  lemma {:induction false} PackedReads(block: seq<Byte>, off: int, shape: seq<nat>, strides: seq<int>, item: nat, idx: Index)
    requires |shape| == |strides| && Inside(idx, shape)
    ensures var d := Distance(PackedStrides(shape, item), idx);
            && 0 <= d && d + item <= Size(shape, item)
            && Bytes(Packed(block, off, shape, strides, item), d, item) == Bytes(block, off + Distance(strides, idx), item)
    decreases |shape|
  {
    hide Bytes, Packed;
    if shape == [] {
      PackedScalar(block, off, item);
      BytesAgain(block, off, item);
      hide Size;
    } else {
      PackedReads(block, off + idx[0] * strides[0], shape[1..], strides[1..], item, idx[1..]);
      var d := Distance(PackedStrides(shape[1..], item), idx[1..]);
      PackedDistance(shape, item, idx);
      assert off + Distance(strides, idx) == off + idx[0] * strides[0] + Distance(strides[1..], idx[1..]);
      hide Distance, Size, PackedStrides;
      RowReads(block, off, shape, strides, item, idx[0], d);
    }
  }

  lemma PackedDistance(shape: seq<nat>, item: nat, idx: Index)
    requires shape != [] && Inside(idx, shape)
    ensures |PackedStrides(shape, item)| == |idx| && |PackedStrides(shape[1..], item)| == |idx[1..]|
    ensures Distance(PackedStrides(shape, item), idx)
         == idx[0] * Size(shape[1..], item) + Distance(PackedStrides(shape[1..], item), idx[1..])
  {
    assert PackedStrides(shape, item)[1..] == PackedStrides(shape[1..], item);
  }

  lemma RowReads(block: seq<Byte>, off: int, shape: seq<nat>, strides: seq<int>, item: nat, i: nat, d: nat)
    requires |shape| == |strides| && shape != [] && i < shape[0] && d + item <= Size(shape[1..], item)
    ensures var at := i * Size(shape[1..], item) + d;
            && 0 <= at && at + item <= Size(shape, item)
            && Bytes(Packed(block, off, shape, strides, item), at, item)
               == Bytes(Packed(block, off + i * strides[0], shape[1..], strides[1..], item), d, item)
  {
    hide Bytes, Size, Rows;
    var row := Size(shape[1..], item);
    var all := Packed(block, off, shape, strides, item);
    PackedSize(block, off, shape, strides, item);
    RowAt(block, off, shape, strides, item, shape[0], i);
    BytesOfSlice(all, i * row, i * row + row, d, item);
  }

  lemma PackedScalar(block: seq<Byte>, off: int, item: nat)
    ensures Packed(block, off, [], [], item) == Bytes(block, off, item)
  {
  }

  lemma BytesAgain(block: seq<Byte>, off: int, item: nat)
    ensures Bytes(Bytes(block, off, item), 0, item) == Bytes(block, off, item)
  {
  }

  // ---------- a hop to another process ----------

  // The receiver has the block mapped at `there`; a copy is mapped there too.
  function Hop(a: Array, item: nat, sameStore: bool, there: int): Array
    requires |a.shape| == |a.strides|
  {
    var off := a.data - a.addr;
    if sameStore && MapsBack(off, a.shape, a.strides, item, |a.block|) then
      Array(there, a.block, there + off, a.shape, a.strides)
    else
      Array(there, Packed(a.block, off, a.shape, a.strides, item), there, a.shape, PackedStrides(a.shape, item))
  }

  // By handle or by copy, every element arrives.
  lemma HopReads(a: Array, item: nat, sameStore: bool, there: int, idx: Index)
    requires |a.shape| == |a.strides| && Inside(idx, a.shape)
    ensures Read(Hop(a, item, sameStore, there), item, idx) == Read(a, item, idx)
  {
    hide Bytes, Packed;
    PackedReads(a.block, a.data - a.addr, a.shape, a.strides, item, idx);
  }

  // ---------- sub-views ----------

  // a[start:..:step] on one axis, taking `count` elements; a[i] on one axis;
  // and swapping an axis with the next one.
  datatype Cut = Slice(axis: nat, start: int, step: int, count: nat) | Pick(axis: nat, i: nat) | Swap(axis: nat)

  predicate Legal(c: Cut, shape: seq<nat>) {
    match c
    case Slice(axis, start, step, count) =>
      axis < |shape| && forall i {:trigger i * step} :: 0 <= i < count ==> 0 <= start + i * step < shape[axis]
    case Pick(axis, i) => axis < |shape| && i < shape[axis]
    case Swap(axis) => axis + 1 < |shape|
  }

  function Without<T>(s: seq<T>, k: nat): seq<T>
    requires k < |s|
  {
    s[..k] + s[k + 1..]
  }

  function SwapAt<T>(s: seq<T>, k: nat): seq<T>
    requires k + 1 < |s|
  {
    s[k := s[k + 1]][k + 1 := s[k]]
  }

  function Apply(a: Array, c: Cut): Array
    requires |a.shape| == |a.strides| && Legal(c, a.shape)
  {
    match c
    case Slice(k, start, step, count) =>
      a.(data := a.data + start * a.strides[k], shape := a.shape[k := count], strides := a.strides[k := a.strides[k] * step])
    case Pick(k, i) =>
      a.(data := a.data + i * a.strides[k], shape := Without(a.shape, k), strides := Without(a.strides, k))
    case Swap(k) => a.(shape := SwapAt(a.shape, k), strides := SwapAt(a.strides, k))
  }

  // Which element of the whole array the sub-view shows at idx.
  function Source(c: Cut, shape: seq<nat>, idx: Index): Index
    requires Legal(c, shape)
  {
    match c
    case Slice(k, start, step, count) =>
      if k < |idx| && 0 <= start + idx[k] * step then idx[k := start + idx[k] * step] else idx
    case Pick(k, i) => if k <= |idx| then idx[..k] + [i] + idx[k..] else idx
    case Swap(k) => if k + 1 < |idx| then SwapAt(idx, k) else idx
  }

  lemma {:induction false} DistanceSplit(strides: seq<int>, idx: Index, k: nat)
    requires |strides| == |idx| && k <= |idx|
    ensures Distance(strides, idx) == Distance(strides[..k], idx[..k]) + Distance(strides[k..], idx[k..])
  {
    if k > 0 {
      DistanceSplit(strides[1..], idx[1..], k - 1);
      assert strides[..k][1..] == strides[1..][..k - 1] && idx[..k][1..] == idx[1..][..k - 1];
      assert strides[1..][k - 1..] == strides[k..] && idx[1..][k - 1..] == idx[k..];
    } else {
      assert strides[0..] == strides && idx[0..] == idx;
    }
  }

  lemma SliceReads(a: Array, item: nat, c: Cut, idx: Index)
    requires |a.shape| == |a.strides| && Legal(c, a.shape) && c.Slice? && Inside(idx, Apply(a, c).shape)
    ensures Inside(Source(c, a.shape, idx), a.shape)
    ensures Read(Apply(a, c), item, idx) == Read(a, item, Source(c, a.shape, idx))
  {
    hide Bytes;
    var k, start, step := c.axis, c.start, c.step;
    var b, from := Apply(a, c), Source(c, a.shape, idx);
    var s, i := a.strides[k], idx[k];
    assert 0 <= start + i * step < a.shape[k];
    Regroup(start, i, step, s);
    DistanceSplit(b.strides, idx, k);
    DistanceSplit(a.strides, from, k);
    assert b.strides[..k] == a.strides[..k] && from[..k] == idx[..k];
    assert b.strides[k..][1..] == a.strides[k..][1..] && from[k..][1..] == idx[k..][1..];
  }

  lemma Regroup(start: int, i: int, step: int, s: int)
    ensures start * s + i * (s * step) == (start + i * step) * s
  {
  }

  lemma PickReads(a: Array, item: nat, c: Cut, idx: Index)
    requires |a.shape| == |a.strides| && Legal(c, a.shape) && c.Pick? && Inside(idx, Apply(a, c).shape)
    ensures Inside(Source(c, a.shape, idx), a.shape)
    ensures Read(Apply(a, c), item, idx) == Read(a, item, Source(c, a.shape, idx))
  {
    hide Bytes;
    var k := c.axis;
    var b, from := Apply(a, c), Source(c, a.shape, idx);
    DistanceSplit(b.strides, idx, k);
    DistanceSplit(a.strides, from, k);
    assert b.strides[..k] == a.strides[..k] && from[..k] == idx[..k];
    assert a.strides[k..][1..] == b.strides[k..] && from[k..][1..] == idx[k..];
  }

  lemma SwapReads(a: Array, item: nat, c: Cut, idx: Index)
    requires |a.shape| == |a.strides| && Legal(c, a.shape) && c.Swap? && Inside(idx, Apply(a, c).shape)
    ensures Inside(Source(c, a.shape, idx), a.shape)
    ensures Read(Apply(a, c), item, idx) == Read(a, item, Source(c, a.shape, idx))
  {
    hide Bytes;
    var k := c.axis;
    var b, from := Apply(a, c), Source(c, a.shape, idx);
    DistanceSplit(b.strides, idx, k);
    DistanceSplit(a.strides, from, k);
    assert b.strides[..k] == a.strides[..k] && from[..k] == idx[..k];
    assert b.strides[k..][1..][1..] == a.strides[k..][1..][1..] && from[k..][1..][1..] == idx[k..][1..][1..];
  }

  lemma CutReads(a: Array, item: nat, c: Cut, idx: Index)
    requires |a.shape| == |a.strides| && Legal(c, a.shape) && Inside(idx, Apply(a, c).shape)
    ensures Inside(Source(c, a.shape, idx), a.shape)
    ensures Read(Apply(a, c), item, idx) == Read(a, item, Source(c, a.shape, idx))
  {
    hide Read, Inside, Apply, Source;
    match c {
      case Slice(_, _, _, _) => SliceReads(a, item, c, idx);
      case Pick(_, _) => PickReads(a, item, c, idx);
      case Swap(_) => SwapReads(a, item, c, idx);
    }
  }

  // ---------- any chain of hops and sub-views ----------

  datatype Move = Send(sameStore: bool, there: int) | View(cut: Cut)

  function Step(a: Array, item: nat, m: Move): (b: Array)
    requires |a.shape| == |a.strides| && (m.View? ==> Legal(m.cut, a.shape))
    ensures |b.shape| == |b.strides|
  {
    match m
    case Send(same, there) => Hop(a, item, same, there)
    case View(c) => Apply(a, c)
  }

  ghost predicate Possible(a: Array, item: nat, moves: seq<Move>)
    requires |a.shape| == |a.strides|
    decreases |moves|
  {
    moves == []
    || ((moves[0].View? ==> Legal(moves[0].cut, a.shape)) && Possible(Step(a, item, moves[0]), item, moves[1..]))
  }

  function After(a: Array, item: nat, moves: seq<Move>): (b: Array)
    requires |a.shape| == |a.strides| && Possible(a, item, moves)
    ensures |b.shape| == |b.strides|
    decreases |moves|
  {
    if moves == [] then a else After(Step(a, item, moves[0]), item, moves[1..])
  }

  // Which element of the first sender's array a chain's receiver sees at idx.
  function Origin(a: Array, item: nat, moves: seq<Move>, idx: Index): Index
    requires |a.shape| == |a.strides| && Possible(a, item, moves)
    decreases |moves|
  {
    if moves == [] then idx
    else
      var up := Origin(Step(a, item, moves[0]), item, moves[1..], idx);
      if moves[0].View? then Source(moves[0].cut, a.shape, up) else up
  }

  lemma {:induction false} OneMoreMove(a: Array, item: nat, moves: seq<Move>, m: Move)
    requires |a.shape| == |a.strides| && Possible(a, item, moves)
    requires m.View? ==> Legal(m.cut, After(a, item, moves).shape)
    ensures Possible(a, item, moves + [m]) && After(a, item, moves + [m]) == Step(After(a, item, moves), item, m)
    decreases |moves|
  {
    if moves == [] {
      assert [] + [m] == [m] && [m][1..] == [];
    } else {
      assert (moves + [m])[1..] == moves[1..] + [m];
      OneMoreMove(Step(a, item, moves[0]), item, moves[1..], m);
    }
  }

  // Whoever is at the end of a chain reads what the first sender's array holds,
  // whichever hops went by handle and wherever each process maps the block.
  lemma {:induction false} ChainReads(a: Array, item: nat, moves: seq<Move>, idx: Index)
    requires |a.shape| == |a.strides| && Possible(a, item, moves) && Inside(idx, After(a, item, moves).shape)
    ensures Inside(Origin(a, item, moves, idx), a.shape)
    ensures Read(After(a, item, moves), item, idx) == Read(a, item, Origin(a, item, moves, idx))
    decreases |moves|
  {
    hide Read, Inside, Source, Legal;
    if moves != [] {
      var b := Step(a, item, moves[0]);
      ChainReads(b, item, moves[1..], idx);
      var up := Origin(b, item, moves[1..], idx);
      if moves[0].View? {
        CutReads(a, item, moves[0].cut, up);
      } else {
        HopReads(a, item, moves[0].sameStore, moves[0].there, up);
      }
    }
  }

  // Handle or copy, no receiver can tell: two chains that differ only in which
  // hops had the store's block read the same.
  function ByCopy(moves: seq<Move>): seq<Move> {
    if moves == [] then []
    else [if moves[0].Send? then moves[0].(sameStore := false) else moves[0]] + ByCopy(moves[1..])
  }

  lemma {:induction false} SameAsCopying(a: Array, b: Array, item: nat, moves: seq<Move>)
    requires |a.shape| == |a.strides| == |b.strides| && b.shape == a.shape && Possible(a, item, moves)
    ensures Possible(b, item, ByCopy(moves))
    ensures After(b, item, ByCopy(moves)).shape == After(a, item, moves).shape
    ensures forall idx :: Origin(b, item, ByCopy(moves), idx) == Origin(a, item, moves, idx)
    decreases |moves|
  {
    if moves != [] {
      var copied := ByCopy(moves);
      assert copied[1..] == ByCopy(moves[1..]);
      SameAsCopying(Step(a, item, moves[0]), Step(b, item, copied[0]), item, moves[1..]);
    }
  }

  lemma HandlesRefineCopies(a: Array, item: nat, moves: seq<Move>, idx: Index)
    requires |a.shape| == |a.strides| && Possible(a, item, moves) && Inside(idx, After(a, item, moves).shape)
    ensures Possible(a, item, ByCopy(moves)) && Inside(idx, After(a, item, ByCopy(moves)).shape)
    ensures Read(After(a, item, moves), item, idx) == Read(After(a, item, ByCopy(moves)), item, idx)
  {
    hide Read, Inside, Possible, After, Origin;
    SameAsCopying(a, a, item, moves);
    ChainReads(a, item, moves, idx);
    ChainReads(a, item, ByCopy(moves), idx);
  }
}
