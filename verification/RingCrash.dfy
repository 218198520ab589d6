/** The ring's operations as the individual shared stores they perform, with a
    process allowed to die after any of them (rust/src/ring.rs: put, pop_locked,
    get, get_many). A waiter then takes the lock over and carries on from the
    memory the dead process left. */
module RingCrash {
  import opened Wrappers
  import opened RingLayout

  datatype Mem = Mem(data: seq<Byte>, head: nat, tail: nat, count: nat)

  // One store to shared memory. Record bytes are stored one at a time, which
  // covers a copy torn at any byte.
  datatype Store =
    | SetByte(at: nat, value: Byte)
    | SetHead(head: nat)
    | SetTail(tail: nat)
    | SetCount(count: nat)

  function Apply(m: Mem, s: Store): Mem {
    match s
    case SetByte(at, v) => if at < |m.data| then m.(data := m.data[at := v]) else m
    case SetHead(h) => m.(head := h)
    case SetTail(t) => m.(tail := t)
    case SetCount(c) => m.(count := c)
  }

  function ApplyAll(m: Mem, ss: seq<Store>): Mem {
    if ss == [] then m else Apply(ApplyAll(m, ss[..|ss| - 1]), ss[|ss| - 1])
  }

  // Every memory an operation, finished or not, may leave behind. `count` is
  // deliberately not part of it: only offsets say what the ring holds.
  ghost predicate Readable(m: Mem) {
    && IsRing(m.data) && Aligned(m.head) && Aligned(m.tail)
    && m.head <= m.tail <= m.head + |m.data|
    && Decode(m.data, m.head, m.tail).Some?
  }

  function Queue(m: Mem): seq<Record>
    requires Readable(m)
  {
    Decode(m.data, m.head, m.tail).value
  }

  // ---------- put ----------

  function ByteStores(at: nat, b: seq<Byte>): (ss: seq<Store>)
    ensures |ss| == |b|
  {
    seq(|b|, i requires 0 <= i < |b| => SetByte(at + i, b[i]))
  }

  predicate HasSlot(m: Mem, maxsize: nat) {
    maxsize == 0 || m.count < maxsize
  }

  predicate RoomFor(m: Mem, r: Record)
    requires Readable(m)
  {
    Fits(|m.data|, m.head, m.tail, SizeOf(r))
  }

  // The bytes a record takes at `tail`: its header and payload rounded up to 8,
  // and what is left of the lap if it does not fit there.
  function Need(cap: nat, tail: nat, len: nat): nat
    requires cap > 0
  {
    var rec, pos := 8 + (len + 7) / 8 * 8, tail % cap;
    if pos + rec <= cap then rec else cap - pos + rec
  }

  lemma NeedIs(cap: nat, tail: nat, r: Record)
    requires cap > 0
    ensures PadFor(cap, tail, SizeOf(r)) + SizeOf(r) == Need(cap, tail, |r.payload|)
  {
    Align8IsMasking(|r.payload|);
    PosIsRemainder(tail, cap);
    hide Align8, Pos;
  }

  /** A record has a slot and room if and only if fewer than maxsize items are
      counted (or there is no bound) and the live bytes and what it takes are no
      more than the ring has: one that fills the ring to the last byte goes in. */
  lemma RoomExactly(m: Mem, maxsize: nat, r: Record)
    requires Readable(m)
    ensures HasSlot(m, maxsize) && RoomFor(m, r)
       <==> (maxsize == 0 || m.count < maxsize)
            && var cap, rec, pos := |m.data|, 8 + (|r.payload| + 7) / 8 * 8, m.tail % |m.data|;
               if pos + rec <= cap then m.tail - m.head + rec <= cap else m.tail - m.head + (cap - pos) + rec <= cap
  {
    NeedIs(|m.data|, m.tail, r);
    hide PadFor, SizeOf, Decode, Aligned;
  }

  function PadStores(m: Mem, r: Record): seq<Store>
    requires IsRing(m.data)
  {
    if PadFor(|m.data|, m.tail, SizeOf(r)) > 0 then ByteStores(Pos(m.tail, |m.data|), Header(0, KIND_PAD)) else []
  }

  // The stores of a put that places `r`, in program order. The record comes
  // before the offset that publishes it, and the count after.
  function PutStores(m: Mem, r: Record): (ss: seq<Store>)
    requires IsRing(m.data)
    ensures |ss| == DataStores(m, r) + 2
  {
    PadStores(m, r)
    + ByteStores(Slot(|m.data|, m.tail, SizeOf(r)), Encode(r))
    + [SetTail(m.tail + PadFor(|m.data|, m.tail, SizeOf(r)) + SizeOf(r)), SetCount(m.count + 1)]
  }

  function DataStores(m: Mem, r: Record): nat
    requires IsRing(m.data)
  {
    |PadStores(m, r)| + |Encode(r)|
  }

  lemma {:induction false} ApplyPrefix(m: Mem, a: seq<Store>, b: seq<Store>)
    ensures ApplyAll(m, a + b) == ApplyAll(ApplyAll(m, a), b)
    decreases |b|
  {
    if b == [] {
      assert a + b == a;
    } else {
      ApplyPrefix(m, a, b[..|b| - 1]);
      assert (a + b)[..|a + b| - 1] == a + b[..|b| - 1];
    }
  }

  lemma {:induction false} ApplyBytes(m: Mem, at: nat, b: seq<Byte>, k: nat)
    requires at + |b| <= |m.data| && k <= |b|
    ensures ApplyAll(m, ByteStores(at, b)[..k]) == m.(data := Overwrite(m.data, at, b[..k]))
    decreases k
  {
    if k == 0 {
      assert Overwrite(m.data, at, b[..0]) == m.data;
    } else {
      ApplyBytes(m, at, b, k - 1);
      var ss := ByteStores(at, b)[..k];
      assert ss[..k - 1] == ByteStores(at, b)[..k - 1];
      assert Overwrite(m.data, at, b[..k - 1])[at + (k - 1) := b[k - 1]] == Overwrite(m.data, at, b[..k]);
    }
  }

  lemma ApplyNone(m: Mem)
    ensures ApplyAll(m, []) == m
  {
  }

  lemma ApplyOne(m: Mem, a: Store)
    ensures ApplyAll(m, [a]) == Apply(m, a)
  {
    assert [a][..0] == [];
  }

  lemma ApplyTwo(m: Mem, a: Store, b: Store)
    ensures ApplyAll(m, [a, b]) == Apply(Apply(m, a), b)
  {
    ApplyPrefix(m, [a], [b]);
    assert [a, b] == [a] + [b];
    ApplyOne(m, a);
    ApplyOne(Apply(m, a), b);
  }

  // Byte stores into free cells: the live ones keep their values.
  lemma TornBytes(m: Mem, b: seq<Byte>, i: nat, k: nat)
    requires Readable(m) && k <= |b| && m.tail - m.head + i + |b| <= |m.data|
    requires Pos(m.tail + i, |m.data|) + |b| <= |m.data|
    ensures var at := Pos(m.tail + i, |m.data|);
      var n := ApplyAll(m, ByteStores(at, b)[..k]);
      n == m.(data := Overwrite(m.data, at, b[..k])) && Agree(m.data, n.data, m.head, m.tail)
  {
    hide ApplyAll, ByteStores, Decode, Overwrite;
    ApplyBytes(m, Pos(m.tail + i, |m.data|), b, k);
    OverwriteAgrees(m.data, b[..k], m.head, m.tail, i);
  }

  // The memory once the pad, if any, is written.
  function Padded(m: Mem, r: Record): (n: Mem)
    requires Readable(m) && RoomFor(m, r)
    ensures n == m.(data := n.data) && |n.data| == |m.data|
  {
    AlignedPos(m.tail, |m.data|);
    if PadFor(|m.data|, m.tail, SizeOf(r)) > 0
    then m.(data := Overwrite(m.data, Pos(m.tail, |m.data|), Header(0, KIND_PAD))) else m
  }

  lemma TornPad(m: Mem, r: Record, k: nat)
    requires Readable(m) && RoomFor(m, r) && k <= |PadStores(m, r)|
    ensures var n := ApplyAll(m, PadStores(m, r)[..k]);
      n == m.(data := n.data) && Agree(m.data, n.data, m.head, m.tail)
      && (k == |PadStores(m, r)| ==> n == Padded(m, r))
  {
    if PadStores(m, r) == [] {
      NoPad(m, r);
      AgreesWithItself(m);
      ApplyNone(m);
    } else {
      TornSomePad(m, r, k);
    }
  }

  lemma TornSomePad(m: Mem, r: Record, k: nat)
    requires Readable(m) && RoomFor(m, r) && PadStores(m, r) != [] && k <= |PadStores(m, r)|
    ensures var n := ApplyAll(m, PadStores(m, r)[..k]);
      n == m.(data := n.data) && Agree(m.data, n.data, m.head, m.tail)
      && (k == |PadStores(m, r)| ==> n == Padded(m, r))
  {
    var h, at := PadBytes(m, r);
    TornPadBytes(m, r, k, h, at);
  }

  lemma TornPadBytes(m: Mem, r: Record, k: nat, h: seq<Byte>, at: nat)
    requires Readable(m) && RoomFor(m, r) && k <= |h|
    requires at == Pos(m.tail + 0, |m.data|) && at + |h| <= |m.data| && m.tail - m.head + |h| <= |m.data|
    requires Padded(m, r) == m.(data := Overwrite(m.data, at, h))
    ensures var n := ApplyAll(m, ByteStores(at, h)[..k]);
      n == m.(data := n.data) && Agree(m.data, n.data, m.head, m.tail)
      && (k == |h| ==> n == Padded(m, r))
  {
    hide ApplyAll, Agree, Padded, PadStores, Decode, Pos, Overwrite, ByteStores, Header, PadFor, RoomFor;
    TornBytes(m, h, 0, k);
    WholeSlice(h, k);
  }

  lemma WholeSlice(h: seq<Byte>, k: nat)
    requires k <= |h|
    ensures k == |h| ==> h[..k] == h
  {
  }

  lemma NoPad(m: Mem, r: Record)
    requires Readable(m) && RoomFor(m, r) && PadStores(m, r) == []
    ensures Padded(m, r) == m
  {
    hide Readable, Pos, Overwrite;
  }

  lemma PadBytes(m: Mem, r: Record) returns (h: seq<Byte>, at: nat)
    requires Readable(m) && RoomFor(m, r) && PadStores(m, r) != []
    ensures at == Pos(m.tail + 0, |m.data|) && at + |h| <= |m.data| && m.tail - m.head + |h| <= |m.data|
    ensures PadStores(m, r) == ByteStores(at, h) && Padded(m, r) == m.(data := Overwrite(m.data, at, h))
  {
    hide Pos, Overwrite, ByteStores, Decode;
    AlignedPos(m.tail, |m.data|);
    h, at := Header(0, KIND_PAD), Pos(m.tail, |m.data|);
  }

  lemma AgreesWithItself(m: Mem)
    requires Readable(m)
    ensures Agree(m.data, m.data, m.head, m.tail)
  {
  }

  // After any number of a put's record stores, the memory differs from before
  // only in cells that were free.
  lemma TornWrite(m: Mem, r: Record, k: nat)
    requires Readable(m) && RoomFor(m, r) && k <= DataStores(m, r)
    ensures var n := ApplyAll(m, PutStores(m, r)[..k]);
      n == m.(data := n.data) && Agree(m.data, n.data, m.head, m.tail)
      && (k == DataStores(m, r) ==> n.data == Place(m.data, m.tail, r))
  {
    hide ApplyAll, ByteStores, Decode, Overwrite, Encode;
    var cap, pads := |m.data|, PadStores(m, r);
    var pad, slot := PadFor(cap, m.tail, SizeOf(r)), Slot(cap, m.tail, SizeOf(r));
    var recs := ByteStores(slot, Encode(r));
    if k < |pads| {
      assert PutStores(m, r)[..k] == pads[..k];
      TornPad(m, r, k);
    } else {
      var j := k - |pads|;
      assert PutStores(m, r)[..k] == pads[..|pads|] + recs[..j];
      ApplyPrefix(m, pads[..|pads|], recs[..j]);
      TornPad(m, r, |pads|);
      var n := Padded(m, r);
      DecodeFrame(m.data, n.data, m.head, m.tail);
      SlotOffset(cap, m.tail, SizeOf(r));
      TornBytes(n, Encode(r), pad, j);
      hide Readable;
      AgreeTrans(m.data, n.data, ApplyAll(n, recs[..j]).data, m.head, m.tail);
      if k == DataStores(m, r) {
        assert Encode(r)[..j] == Encode(r);
      }
    }
  }

  /** A producer killed after any number of its stores leaves the queue exactly
      as before its put or exactly as after it, never anything else. */
  lemma PutDeath(m: Mem, r: Record, k: nat)
    requires Readable(m) && RoomFor(m, r) && Storable(r) && k <= |PutStores(m, r)|
    ensures var n := ApplyAll(m, PutStores(m, r)[..k]);
      && Readable(n) && |n.data| == |m.data| && n.head == m.head
      && Queue(n) == (if k <= DataStores(m, r) then Queue(m) else Queue(m) + [r])
      && n.count == (if k == |PutStores(m, r)| then m.count + 1 else m.count)
  {
    hide ApplyAll;
    hide ParseAt;
    hide Place;
    hide PutStores;
    if k <= DataStores(m, r) {
      TornWrite(m, r, k);
      DecodeFrame(m.data, ApplyAll(m, PutStores(m, r)[..k]).data, m.head, m.tail);
    } else {
      PublishedPrefix(m, r, k);
      PublishedQueue(m, r, ApplyAll(m, PutStores(m, r)[..k]).count);
    }
  }

  lemma PublishedQueue(m: Mem, r: Record, count: nat)
    requires Readable(m) && RoomFor(m, r) && Storable(r)
    ensures var n := Mem(Place(m.data, m.tail, r), m.head,
                         m.tail + PadFor(|m.data|, m.tail, SizeOf(r)) + SizeOf(r), count);
      Readable(n) && Queue(n) == Queue(m) + [r]
  {
    hide Decode;
    hide Place;
    PadAligned(|m.data|, m.tail, SizeOf(r));
    hide PadFor;
    PlaceAppends(m.data, m.head, m.tail, r);
  }

  // The memory once put has moved the tail.
  lemma PublishedPrefix(m: Mem, r: Record, k: nat)
    requires Readable(m) && RoomFor(m, r) && DataStores(m, r) < k <= |PutStores(m, r)|
    ensures ApplyAll(m, PutStores(m, r)[..k])
         == Mem(Place(m.data, m.tail, r), m.head,
                m.tail + PadFor(|m.data|, m.tail, SizeOf(r)) + SizeOf(r),
                if k == |PutStores(m, r)| then m.count + 1 else m.count)
  {
    hide ApplyAll, Place, PadFor, SizeOf;
    PublishedTail(m, r, k - DataStores(m, r));
  }

  lemma PublishedTail(m: Mem, r: Record, j: nat)
    requires Readable(m) && RoomFor(m, r) && 0 < j <= 2
    ensures ApplyAll(m, PutStores(m, r)[..DataStores(m, r) + j])
         == Mem(Place(m.data, m.tail, r), m.head,
                m.tail + PadFor(|m.data|, m.tail, SizeOf(r)) + SizeOf(r), if j == 2 then m.count + 1 else m.count)
  {
    hide ApplyAll, Place, PutStores, PadFor, SizeOf;
    var left := Mem(Place(m.data, m.tail, r), m.head, m.tail, m.count);
    var tail := m.tail + PadFor(|m.data|, m.tail, SizeOf(r)) + SizeOf(r);
    AllWritten(m, r);
    TailStores(m, r, DataStores(m, r) + j);
    hide Readable, DataStores;
    TailApplied(left, tail, m.count + 1, j);
  }

  lemma AllWritten(m: Mem, r: Record)
    requires Readable(m) && RoomFor(m, r)
    ensures ApplyAll(m, PutStores(m, r)[..DataStores(m, r)]) == Mem(Place(m.data, m.tail, r), m.head, m.tail, m.count)
  {
    hide ApplyAll, Place, PutStores, PadFor, SizeOf, Agree;
    TornWrite(m, r, DataStores(m, r));
  }

  lemma TailApplied(m: Mem, tail: nat, count: nat, j: nat)
    requires 0 < j <= 2
    ensures ApplyAll(m, [SetTail(tail), SetCount(count)][..j])
         == Mem(m.data, m.head, tail, if j == 2 then count else m.count)
  {
    var a, b := SetTail(tail), SetCount(count);
    if j == 1 {
      assert [a, b][..1] == [a];
      ApplyOne(m, a);
    } else {
      assert [a, b][..2] == [a, b];
      ApplyTwo(m, a, b);
    }
  }

  lemma TailStores(m: Mem, r: Record, k: nat)
    requires IsRing(m.data) && DataStores(m, r) <= k <= |PutStores(m, r)|
    ensures var d := DataStores(m, r);
      var last := [SetTail(m.tail + PadFor(|m.data|, m.tail, SizeOf(r)) + SizeOf(r)), SetCount(m.count + 1)];
      ApplyAll(m, PutStores(m, r)[..k]) == ApplyAll(ApplyAll(m, PutStores(m, r)[..d]), last[..k - d])
  {
    var d := DataStores(m, r);
    var last := [SetTail(m.tail + PadFor(|m.data|, m.tail, SizeOf(r)) + SizeOf(r)), SetCount(m.count + 1)];
    assert PutStores(m, r)[..k] == PutStores(m, r)[..d] + last[..k - d];
    ApplyPrefix(m, PutStores(m, r)[..d], last[..k - d]);
  }

  // ---------- pop_locked ----------

  function NextHead(m: Mem): nat
    requires Readable(m) && m.head != m.tail
  {
    ParseAt(m.data, m.head).next
  }

  function Saturating(c: nat): nat {
    if c == 0 then 0 else c - 1
  }

  function PopStores(m: Mem): (ss: seq<Store>)
    requires Readable(m)
    ensures |ss| == if m.head == m.tail then 0 else 2
  {
    if m.head == m.tail then [] else [SetHead(NextHead(m)), SetCount(Saturating(m.count))]
  }

  lemma PopUnfolds(m: Mem)
    requires Readable(m) && m.head != m.tail
    ensures ParseAt(m.data, m.head).Parsed? && Queue(m) != [] && Queue(m)[0] == ParseAt(m.data, m.head).rec
    ensures Readable(m.(head := NextHead(m))) && Queue(m.(head := NextHead(m))) == Queue(m)[1..]
  {
    hide ParseAt;
    var q := Decode(m.data, NextHead(m), m.tail).value;
    assert Queue(m) == [ParseAt(m.data, m.head).rec] + q;
    assert ([ParseAt(m.data, m.head).rec] + q)[1..] == q;
    DecodeOrder(m.data, NextHead(m), m.tail);
  }

  /** A consumer killed between its two stores has removed exactly the oldest
      record; killed before them, nothing. */
  lemma PopDeath(m: Mem, k: nat)
    requires Readable(m) && k <= |PopStores(m)|
    ensures var n := ApplyAll(m, PopStores(m)[..k]);
      && Readable(n) && |n.data| == |m.data|
      && Queue(n) == (if k == 0 then Queue(m) else Queue(m)[1..])
      && n.count == (if k == 2 then Saturating(m.count) else m.count)
      && (k > 0 ==> Queue(m) != [])
  {
    if k > 0 {
      PopUnfolds(m);
      hide Readable;
      var a, b := SetHead(NextHead(m)), SetCount(Saturating(m.count));
      if k == 1 {
        assert PopStores(m)[..1] == [a];
        ApplyOne(m, a);
      } else {
        assert PopStores(m)[..2] == [a, b];
        ApplyTwo(m, a, b);
      }
      SameQueue(m.(head := NextHead(m)), ApplyAll(m, PopStores(m)[..k]));
    }
  }

  // The count is no part of the queue.
  lemma SameQueue(m: Mem, n: Mem)
    requires Readable(m) && n == m.(count := n.count)
    ensures Readable(n) && Queue(n) == Queue(m)
  {
  }

  lemma EmptyByOffsets(m: Mem)
    requires Readable(m)
    ensures Queue(m) == [] <==> m.head == m.tail
  {
    if m.head != m.tail {
      PopUnfolds(m);
    }
  }

  // How far the count is off the queue the offsets describe.
  function Lag(m: Mem): int
    requires Readable(m)
  {
    m.count - |Queue(m)|
  }

  function Abs(x: int): nat {
    if x < 0 then -x else x
  }

  // ---------- get_many ----------

  // The memory after one whole pop.
  function Popped(m: Mem): (n: Mem)
    requires Readable(m) && m.head != m.tail
    ensures Readable(n) && Queue(m) != [] && Queue(n) == Queue(m)[1..] && |n.data| == |m.data|
  {
    PopUnfolds(m);
    SameQueue(m.(head := NextHead(m)), Mem(m.data, NextHead(m), m.tail, Saturating(m.count)));
    Mem(m.data, NextHead(m), m.tail, Saturating(m.count))
  }

  lemma PopApplies(m: Mem)
    requires Readable(m) && m.head != m.tail
    ensures ApplyAll(m, PopStores(m)) == Popped(m)
  {
    hide Readable;
    ApplyTwo(m, SetHead(NextHead(m)), SetCount(Saturating(m.count)));
  }

  // The memory after `n` pops under one lock acquisition.
  function PopMany(m: Mem, n: nat): Mem
    requires Readable(m)
    decreases n
  {
    if n == 0 || m.head == m.tail then m else PopMany(Popped(m), n - 1)
  }

  function PopManyStores(m: Mem, n: nat): seq<Store>
    requires Readable(m)
    decreases n
  {
    if n == 0 || m.head == m.tail then [] else PopStores(m) + PopManyStores(Popped(m), n - 1)
  }

  lemma {:induction false} PopManySize(m: Mem, n: nat)
    requires Readable(m)
    ensures |PopManyStores(m, n)| == 2 * if n <= |Queue(m)| then n else |Queue(m)|
    decreases n
  {
    hide Readable, Queue, Popped;
    EmptyByOffsets(m);
    if n > 0 && m.head != m.tail {
      PopManySize(Popped(m), n - 1);
    }
  }

  /** get_many killed after any number of its pops' stores loses exactly the
      records it had popped, which are the oldest ones, and puts the count off by
      one more at most: its whole pops never widen the lag. */
  lemma {:induction false} GetManyDeath(m: Mem, n: nat, k: nat)
    requires Readable(m) && k <= |PopManyStores(m, n)|
    ensures var left := ApplyAll(m, PopManyStores(m, n)[..k]);
      && Readable(left) && |left.data| == |m.data|
      && (k + 1) / 2 <= n && (k + 1) / 2 <= |Queue(m)|
      && Queue(left) == Queue(m)[(k + 1) / 2..]
      && Abs(Lag(left)) <= Abs(Lag(m)) + k % 2
    decreases n
  {
    ApplyNone(m);
    hide Readable, Queue, ApplyAll, Popped, PopStores;
    if n == 0 || m.head == m.tail {
      assert PopManyStores(m, n)[..k] == [];
    } else {
      var m' := Popped(m);
      var rest := PopManyStores(m', n - 1);
      var all := PopStores(m) + rest;
      if k <= 2 {
        assert all[..k] == PopStores(m)[..k];
        PopDeath(m, k);
      } else {
        GetManyDeath(m', n - 1, k - 2);
        assert all[..k] == PopStores(m) + rest[..k - 2];
        ApplyPrefix(m, PopStores(m), rest[..k - 2]);
        PopApplies(m);
        PopKeepsLag(m);
        assert Queue(m)[1..][(k - 1) / 2..] == Queue(m)[(k + 1) / 2..];
      }
    }
  }

  lemma PopKeepsLag(m: Mem)
    requires Readable(m) && m.head != m.tail
    ensures Abs(Lag(Popped(m))) <= Abs(Lag(m))
  {
    hide Readable, Queue;
  }

  // The stores of a get_many of up to n: none on an empty ring (it does not get
  // past wait_for_items), else its pops and, if it runs past the end, the resync.
  function GetManyStores(m: Mem, n: nat): seq<Store>
    requires Readable(m)
  {
    if m.head == m.tail then []
    else PopManyStores(m, n) + if n > |Queue(m)| then [SetCount(0)] else []
  }

  // A get_many that gets through all its stores.
  lemma GetManyDone(m: Mem, n: nat)
    requires Readable(m)
    ensures var left := ApplyAll(m, GetManyStores(m, n));
      && Readable(left) && |left.data| == |m.data|
      && Queue(left) == (if n <= |Queue(m)| then Queue(m)[n..] else [])
      && Abs(Lag(left)) <= Abs(Lag(m))
      && (m.head != m.tail && n > |Queue(m)| ==> Lag(left) == 0)
  {
    ApplyNone(m);
    EmptyByOffsets(m);
    hide Queue, PopManyStores, Readable, ApplyAll;
    if m.head != m.tail {
      PopsDone(m, n);
      if n > |Queue(m)| {
        Resynced(m, PopManyStores(m, n));
      } else {
        assert GetManyStores(m, n) == PopManyStores(m, n);
      }
    }
  }

  lemma PopsDone(m: Mem, n: nat)
    requires Readable(m)
    ensures var left := ApplyAll(m, PopManyStores(m, n));
      && Readable(left) && |left.data| == |m.data|
      && Queue(left) == (if n <= |Queue(m)| then Queue(m)[n..] else [])
      && Abs(Lag(left)) <= Abs(Lag(m))
  {
    hide Queue, PopManyStores, Readable, ApplyAll, Lag;
    var pops := PopManyStores(m, n);
    PopManySize(m, n);
    GetManyDeath(m, n, |pops|);
    assert pops[..|pops|] == pops;
  }

  lemma Resynced(m: Mem, pops: seq<Store>)
    requires Readable(ApplyAll(m, pops)) && Queue(ApplyAll(m, pops)) == []
    ensures var left := ApplyAll(m, pops + [SetCount(0)]);
      Readable(left) && left == ApplyAll(m, pops).(count := 0) && Queue(left) == [] && Lag(left) == 0
  {
    hide Queue, Readable, ApplyAll;
    var left := ApplyAll(m, pops);
    ApplyPrefix(m, pops, [SetCount(0)]);
    ApplyOne(left, SetCount(0));
    SameQueue(left, left.(count := 0));
  }

  lemma PoppedCount(m: Mem)
    requires Readable(m) && m.head != m.tail
    ensures Popped(m).count == Saturating(m.count)
  {
    hide ParseAt, Queue;
  }

  lemma {:induction false} CountAfter(m: Mem, n: nat)
    requires Readable(m) && n <= m.count && n <= |Queue(m)|
    ensures PopMany(m, n).count == m.count - n
    decreases n
  {
    hide Readable, Queue, Popped;
    EmptyByOffsets(m);
    if n > 0 && m.head != m.tail {
      PoppedCount(m);
      CountAfter(Popped(m), n - 1);
    }
  }

  lemma {:induction false} PopManyApplies(m: Mem, n: nat)
    requires Readable(m)
    ensures ApplyAll(m, PopManyStores(m, n)) == PopMany(m, n)
    decreases n
  {
    ApplyNone(m);
    hide ApplyAll;
    hide Popped;
    hide PopStores;
    if n > 0 && m.head != m.tail {
      PopManyApplies(Popped(m), n - 1);
      ApplyPrefix(m, PopStores(m), PopManyStores(Popped(m), n - 1));
      PopApplies(m);
    }
  }

  /** Unkilled, get_many(n) takes the n oldest records, or all there are. */
  lemma {:induction false} GetManyTakes(m: Mem, n: nat)
    requires Readable(m)
    ensures Readable(PopMany(m, n))
    ensures Queue(PopMany(m, n)) == (if n <= |Queue(m)| then Queue(m)[n..] else [])
    decreases n
  {
    hide Readable;
    hide Queue;
    hide Popped;
    EmptyByOffsets(m);
    if n > 0 && m.head != m.tail {
      GetManyTakes(Popped(m), n - 1);
      if n <= |Queue(m)| {
        assert Queue(m)[1..][n - 1..] == Queue(m)[n..];
      }
    }
  }

  // ---------- Whole runs ----------

  // One lock-holding operation of some process.
  datatype Op =
    | Put(rec: Record)      // place the record if it has a slot and room
    | Get                   // `get`: pop the oldest record if there is one
    | GetMany(n: nat)       // `get_many` of up to n (the code asks for at least 1)

  // `died` is how many stores a killed process got through; None if it lived.
  datatype Event = Event(op: Op, died: Option<nat>)

  function Stores(m: Mem, maxsize: nat, op: Op): seq<Store>
    requires Readable(m)
  {
    match op
    case Put(r) => if Storable(r) && HasSlot(m, maxsize) && RoomFor(m, r) then PutStores(m, r) else []
    case Get => PopStores(m)
    case GetMany(n) => GetManyStores(m, n)
  }

  // How many of the operation's stores reached memory.
  function Reached(ss: seq<Store>, died: Option<nat>): (k: nat)
    ensures k <= |ss|
  {
    if died.Some? && died.value < |ss| then died.value else |ss|
  }

  function Exec(m: Mem, maxsize: nat, e: Event): (n: Mem)
    requires Readable(m)
    ensures Readable(n) && |n.data| == |m.data|
  {
    var ss := Stores(m, maxsize, e.op);
    OpDeath(m, maxsize, e.op, Reached(ss, e.died));
    ApplyAll(m, ss[..Reached(ss, e.died)])
  }

  // What an operation does to the queue when it takes effect.
  function Effect(m: Mem, maxsize: nat, op: Op): seq<Record>
    requires Readable(m)
  {
    match op
    case Put(r) => if Storable(r) && HasSlot(m, maxsize) && RoomFor(m, r) then Queue(m) + [r] else Queue(m)
    case Get => if Queue(m) == [] then [] else Queue(m)[1..]
    case GetMany(n) => if n <= |Queue(m)| then Queue(m)[n..] else []
  }

  // What an operation cut off anywhere may have done: all or nothing, and a
  // get_many may have popped any number of records it was to pop.
  ghost predicate PartOf(m: Mem, maxsize: nat, op: Op, q: seq<Record>)
    requires Readable(m)
  {
    match op
    case GetMany(n) => exists j :: 0 <= j <= n && j <= |Queue(m)| && q == Queue(m)[j..]
    case _ => q == Queue(m) || q == Effect(m, maxsize, op)
  }

  // An operation cut off after `k` of its stores.
  lemma OpDeath(m: Mem, maxsize: nat, op: Op, k: nat)
    requires Readable(m) && k <= |Stores(m, maxsize, op)|
    ensures var ss := Stores(m, maxsize, op);
      var n := ApplyAll(m, ss[..k]);
      && Readable(n) && |n.data| == |m.data|
      && PartOf(m, maxsize, op, Queue(n))
      && (k == |ss| ==> Queue(n) == Effect(m, maxsize, op))
      && Abs(Lag(n)) <= Abs(Lag(m)) + (if k < |ss| then 1 else 0)
  {
    EmptyByOffsets(m);
    match op {
      case Put(r) =>
        if Stores(m, maxsize, op) != [] { PutDeath(m, r, k); }
      case Get =>
        if m.head != m.tail { PopDeath(m, k); }
      case GetMany(n) => GetManyOpDeath(m, n, k);
    }
  }

  lemma GetManyOpDeath(m: Mem, n: nat, k: nat)
    requires Readable(m) && k <= |GetManyStores(m, n)|
    ensures var left := ApplyAll(m, GetManyStores(m, n)[..k]);
      && Readable(left) && |left.data| == |m.data|
      && (exists j :: 0 <= j <= n && j <= |Queue(m)| && Queue(left) == Queue(m)[j..])
      && (k == |GetManyStores(m, n)| ==> Queue(left) == if n <= |Queue(m)| then Queue(m)[n..] else [])
      && Abs(Lag(left)) <= Abs(Lag(m)) + (if k < |GetManyStores(m, n)| then 1 else 0)
  {
    var all := GetManyStores(m, n);
    hide ApplyAll, Queue;
    if k == |all| {
      GetManyDone(m, n);
      assert all[..k] == all;
      var j := if n <= |Queue(m)| then n else |Queue(m)|;
      assert Queue(m)[j..] == if n <= |Queue(m)| then Queue(m)[n..] else [];
    } else {
      assert all[..k] == PopManyStores(m, n)[..k];
      GetManyDeath(m, n, k);
    }
  }

  /** One operation, killed or not: the ring stays readable, the queue is the
      operation's result or, if its process died, what part of it may leave, and
      only a death can put the count further off, by one. */
  lemma ExecStep(m: Mem, maxsize: nat, e: Event)
    requires Readable(m)
    ensures var n := Exec(m, maxsize, e);
      && PartOf(m, maxsize, e.op, Queue(n))
      && (e.died.None? ==> Queue(n) == Effect(m, maxsize, e.op))
      && Abs(Lag(n)) <= Abs(Lag(m)) + (if e.died.Some? then 1 else 0)
  {
    OpDeath(m, maxsize, e.op, Reached(Stores(m, maxsize, e.op), e.died));
  }

  function ExecAll(m: Mem, maxsize: nat, es: seq<Event>): (n: Mem)
    requires Readable(m)
    ensures Readable(n)
    decreases |es|
  {
    if es == [] then m else ExecAll(Exec(m, maxsize, es[0]), maxsize, es[1..])
  }

  function Deaths(es: seq<Event>): nat {
    if es == [] then 0 else (if es[0].died.Some? then 1 else 0) + Deaths(es[1..])
  }

  // A run of the specification: each operation takes effect in full or, if its
  // process died, in part.
  ghost predicate Atomic(m: Mem, maxsize: nat, es: seq<Event>, n: Mem)
    requires Readable(m) && Readable(n)
    decreases |es|
  {
    if es == [] then Queue(n) == Queue(m)
    else
      exists mid: Mem ::
        && Readable(mid)
        && (Queue(mid) == Effect(m, maxsize, es[0].op) || (es[0].died.Some? && PartOf(m, maxsize, es[0].op, Queue(mid))))
        && Atomic(mid, maxsize, es[1..], n)
  }

  /** Crash atomicity over whole runs: for every sequence of operations with
      deaths anywhere, the ring decodes to a queue in which each operation
      happened entirely or, if it was killed, not at all (a get_many: up to where
      it was), and the count is off by at most the number of deaths. */
  lemma {:induction false} CrashSafety(m: Mem, maxsize: nat, es: seq<Event>)
    requires Readable(m)
    ensures Atomic(m, maxsize, es, ExecAll(m, maxsize, es))
    ensures Abs(Lag(ExecAll(m, maxsize, es))) <= Abs(Lag(m)) + Deaths(es)
    decreases |es|
  {
    if es != [] {
      ExecStep(m, maxsize, es[0]);
      hide Exec;
      CrashSafety(Exec(m, maxsize, es[0]), maxsize, es[1..]);
    }
  }

  /** Without deaths the count is exact, so capacity is exactly `maxsize`. */
  lemma CountIsExact(m: Mem, maxsize: nat, es: seq<Event>)
    requires Readable(m) && Lag(m) == 0 && Deaths(es) == 0
    ensures Lag(ExecAll(m, maxsize, es)) == 0
  {
    CrashSafety(m, maxsize, es);
  }

  // ---------- The count of an empty ring ----------

  // Nothing queued, yet the count claims every slot is taken.
  ghost predicate Wedged(m: Mem, maxsize: nat) {
    Readable(m) && Queue(m) == [] && maxsize > 0 && m.count >= maxsize
  }

  /** Both `get` and `get_many` check the offsets before they pop, so neither
      reaches the resync on an empty ring: one that deaths have wedged refuses
      every put and stays as it is under every operation. */
  lemma {:induction false} WedgedForGood(m: Mem, maxsize: nat, es: seq<Event>)
    requires Wedged(m, maxsize)
    ensures ExecAll(m, maxsize, es) == m
    decreases |es|
  {
    if es != [] {
      EmptyByOffsets(m);
      assert Stores(m, maxsize, es[0].op) == [];
      assert Exec(m, maxsize, es[0]) == m;
      WedgedForGood(m, maxsize, es[1..]);
    }
  }

  lemma EmptyRingAccepts(m: Mem, maxsize: nat, r: Record)
    requires Readable(m) && Queue(m) == [] && Storable(r) && SizeOf(r) <= |m.data| / 2
    ensures Queue(Exec(m, maxsize, Event(Put(r), None))) == [r] <==> !Wedged(m, maxsize)
    ensures Wedged(m, maxsize) ==> Exec(m, maxsize, Event(Put(r), None)) == m
  {
    EmptyByOffsets(m);
    assert RoomFor(m, r);
    ExecStep(m, maxsize, Event(Put(r), None));
    if Wedged(m, maxsize) {
      assert Stores(m, maxsize, Put(r)) == [];
    } else {
      assert [] + [r] == [r];
    }
  }

  /** get_many puts the count right when it runs past the end of a ring that had
      records; otherwise it leaves the count as far off as it was, as long as the
      count does not reach 0. */
  lemma ResyncRepairs(m: Mem, maxsize: nat, n: nat)
    requires Readable(m) && Queue(m) != []
    ensures var left := Exec(m, maxsize, Event(GetMany(n), None));
      && (n > |Queue(m)| ==> Lag(left) == 0)
      && (n <= |Queue(m)| && n <= m.count ==> Lag(left) == Lag(m))
  {
    EmptyByOffsets(m);
    hide Queue, Readable, PopManyStores, ApplyAll;
    var ss := GetManyStores(m, n);
    assert ss[..|ss|] == ss;
    GetManyDone(m, n);
    if n <= |Queue(m)| && n <= m.count {
      assert ss == PopManyStores(m, n);
      PopManyApplies(m, n);
      GetManyTakes(m, n);
      CountAfter(m, n);
    }
  }

  // `n` producers in turn put a record; each is followed by a consumer killed
  // between its two stores.
  function KilledConsumers(r: Record, n: nat): (es: seq<Event>)
  {
    if n == 0 then [] else [Event(Put(r), None), Event(Get, Some(1))] + KilledConsumers(r, n - 1)
  }

  /** `maxsize` consumers killed between their stores do wedge a fresh queue. */
  lemma {:induction false} KilledConsumersWedge(m: Mem, maxsize: nat, r: Record, n: nat)
    requires Readable(m) && Queue(m) == [] && Storable(r) && SizeOf(r) <= |m.data| / 2
    requires m.count + n == maxsize > 0
    ensures Wedged(ExecAll(m, maxsize, KilledConsumers(r, n)), maxsize)
    decreases n
  {
    if n > 0 {
      var es := KilledConsumers(r, n);
      var a := Exec(m, maxsize, es[0]);
      var b := Exec(a, maxsize, es[1]);
      OneKilledConsumer(m, maxsize, r);
      assert es[0] == Event(Put(r), None) && es[1..][0] == Event(Get, Some(1));
      assert es[1..][1..] == KilledConsumers(r, n - 1);
      hide Exec;
      hide Readable;
      hide Queue;
      hide SizeOf;
      hide KilledConsumers;
      hide Storable;
      KilledConsumersWedge(b, maxsize, r, n - 1);
      assert ExecAll(m, maxsize, es) == ExecAll(a, maxsize, es[1..]);
      assert ExecAll(a, maxsize, es[1..]) == ExecAll(b, maxsize, es[1..][1..]);
    }
  }

  lemma OneKilledConsumer(m: Mem, maxsize: nat, r: Record)
    requires Readable(m) && Queue(m) == [] && Storable(r) && SizeOf(r) <= |m.data| / 2
    requires m.count < maxsize
    ensures var b := Exec(Exec(m, maxsize, Event(Put(r), None)), maxsize, Event(Get, Some(1)));
      Queue(b) == [] && b.count == m.count + 1
  {
    EmptyByOffsets(m);
    assert RoomFor(m, r);
    var a := Exec(m, maxsize, Event(Put(r), None));
    PutDeath(m, r, |PutStores(m, r)|);
    assert Queue(a) == [r] by { assert [] + [r] == [r]; }
    EmptyByOffsets(a);
    PopDeath(a, 1);
  }
}
