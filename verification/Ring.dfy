/** The ring queue's operations (rust/src/ring.rs) on the shared bytes themselves.
    Each method is what one process does while it holds the ring's lock; its
    contract says what happens to the queue the bytes hold, and that the memory
    it leaves is the one its individual stores produce (module RingCrash). */
module Ring {
  import opened Wrappers
  import opened RingLayout
  import opened RingCrash

  const MIN_RING: nat := 65536

  // How one attempt to place a record ends.
  datatype Outcome =
    | Placed(wake: bool)  // queued; `wake` when a consumer may be asleep
    | OutOfBytes          // a free slot, but not enough free ring bytes
    | Full                // every slot taken

  class RingQueue {
    const cap: nat
    const maxsize: nat
    const spillAt: nat
    const data: array<Byte>
    var head: nat
    var tail: nat
    var count: nat
    var itemsSeq: nat
    var spaceSeq: nat
    var waitingConsumers: nat
    var waitingProducers: nat

    ghost function Memory(): Mem
      reads this, data
    {
      Mem(data[..], head, tail, count)
    }

    // Holds in every memory a process may find, one left by a killed process
    // included: nothing here ties `count` to the queue.
    ghost predicate Valid()
      reads this, data
    {
      data.Length == cap && MIN_RING <= cap && spillAt <= cap / 4 && Readable(Memory())
    }

    ghost function Contents(): seq<Record>
      requires Valid()
      reads this, data
    {
      Queue(Memory())
    }

    constructor (maxsize: nat, ringBytes: nat, spillAt: Option<nat>)
      ensures Valid() && Contents() == [] && count == 0 && fresh(data)
      ensures this.maxsize == maxsize && cap == Align8(if ringBytes < MIN_RING then MIN_RING else ringBytes)
      ensures this.spillAt == if spillAt.Some? && spillAt.value < cap / 4 then spillAt.value else cap / 4
    {
      var c := Align8(if ringBytes < MIN_RING then MIN_RING else ringBytes);
      AlignedIsMultiple(c);
      cap := c;
      this.maxsize := maxsize;
      this.spillAt := if spillAt.Some? && spillAt.value < c / 4 then spillAt.value else c / 4;
      data := new Byte[c](i => 0);
      head, tail, count := 0, 0, 0;
      itemsSeq, spaceSeq, waitingConsumers, waitingProducers := 0, 0, 0, 0;
    }

    // ---------- bytes ----------

    method WriteBytes(at: nat, b: seq<Byte>)
      requires at + |b| <= data.Length
      modifies data
      ensures data[..] == Overwrite(old(data[..]), at, b)
    {
      var i := 0;
      while i < |b|
        invariant 0 <= i <= |b|
        invariant data[..] == Overwrite(old(data[..]), at, b[..i])
      {
        data[at + i] := b[i];
        i := i + 1;
      }
      assert b[..i] == b;
    }

    // write_record: length, kind, payload.
    method WriteRecord(at: nat, kind: nat, payload: seq<Byte>)
      requires at + REC_HDR + |payload| <= data.Length
      modifies data
      ensures data[..] == Overwrite(old(data[..]), at, Header(|payload|, kind) + payload)
      ensures var n := |payload|;
        && data[at..at + 4] == [n % 256, n / 256 % 256, n / 65536 % 256, n / 16777216 % 256]
        && data[at + 4..at + 8] == [kind % 256, kind / 256 % 256, kind / 65536 % 256, kind / 16777216 % 256]
        && data[at + 8..at + 8 + n] == payload
    {
      WriteBytes(at, Header(|payload|, kind) + payload);
      WrittenBytes(old(data[..]), at, kind, payload);
      assert data[at..at + 4] == data[..][at..at + 4] && data[at + 4..at + 8] == data[..][at + 4..at + 8];
      assert data[at + 8..at + 8 + |payload|] == data[..][at + 8..at + 8 + |payload|];
    }

    // read_header
    method ReadHeader(at: nat) returns (len: nat, kind: nat)
      requires at + REC_HDR <= data.Length
      ensures len == ReadLen(data[..], at) && kind == ReadKind(data[..], at)
    {
      len := FromLe32(data[at..at + 4]);
      kind := FromLe32(data[at + 4..at + 8]);
      assert data[..][at..at + 4] == data[at..at + 4];
      assert data[..][at + 4..at + 8] == data[at + 4..at + 8];
    }

    // ---------- put ----------

    // The record stores of put: a pad up to the ring's end if the record would
    // wrap, then the record.
    method WriteAtTail(r: Record, pos: nat, pad: nat)
      requires Valid() && RoomFor(Memory(), r)
      requires pos == Pos(tail, cap) && pad == PadFor(cap, tail, SizeOf(r))
      modifies data
      ensures data[..] == Place(old(data[..]), tail, r)
    {
      var at := pos;
      SlotFacts(Memory(), r);
      if pad > 0 {
        WriteRecord(pos, KIND_PAD, []);
        assert Header(0, KIND_PAD) + [] == Header(0, KIND_PAD);
        at := 0;
      }
      WriteRecord(at, r.kind, r.payload);
    }

    // The part of put under the lock: append `r` if it has a slot and room.
    method TryPut(r: Record) returns (o: Outcome)
      requires Valid() && Storable(r)
      modifies this, data
      ensures Valid()
      // In numbers: the record's bytes, and the rest of the lap if it does not fit
      // there, next to the live ones.
      ensures var rec, pos := 8 + (|r.payload| + 7) / 8 * 8, old(tail) % cap;
        var need := if pos + rec <= cap then rec else cap - pos + rec;
        && (o.Full? <==> 0 < maxsize <= old(count))
        && (o.Placed? <==> (maxsize == 0 || old(count) < maxsize) && old(tail) - old(head) + need <= cap)
        && (o.Placed? ==> head == old(head) && tail == old(tail) + need && count == old(count) + 1)
      ensures o.Placed? <==> HasSlot(old(Memory()), maxsize) && RoomFor(old(Memory()), r)
      ensures o.Full? <==> !HasSlot(old(Memory()), maxsize)
      ensures o.Placed? ==> Contents() == old(Contents()) + [r]
      ensures o.Placed? ==> Memory() == ApplyAll(old(Memory()), PutStores(old(Memory()), r))
      ensures o.Placed? ==> itemsSeq == (old(itemsSeq) + 1) % TWO32 && o.wake == (waitingConsumers > 0)
      ensures !o.Placed? ==> Memory() == old(Memory()) && itemsSeq == old(itemsSeq)
      ensures spaceSeq == old(spaceSeq)
      ensures waitingConsumers == old(waitingConsumers) && waitingProducers == old(waitingProducers)
    {
      hide Decode;
      hide ParseAt;
      hide Place;
      hide PutStores;
      hide ApplyAll;
      hide Aligned;
      hide Pos;
      ghost var m := Memory();
      NeedIs(cap, tail, r);
      var rec := SizeOf(r);
      var pos := Pos(tail, cap);
      var pad := if cap - pos < rec then cap - pos else 0;
      var hasSlot := maxsize == 0 || count < maxsize;
      if hasSlot && tail - head + pad + rec <= cap {
        WriteAtTail(r, pos, pad);
        tail := tail + pad + rec;
        count := count + 1;
        itemsSeq := (itemsSeq + 1) % TWO32;
        PutDone(m, r);
        return Placed(waitingConsumers > 0);
      }
      return if hasSlot then OutOfBytes else Full;
    }

    // ---------- pop ----------

    // pop_locked, including its count resync on an empty ring.
    method PopLocked() returns (r: Option<Record>)
      requires Valid()
      modifies this`head, this`count
      ensures Valid()
      ensures r.None? <==> old(Contents()) == []
      ensures r.None? ==> Memory() == old(Memory()).(count := 0) && Contents() == []
      ensures r.Some? ==> r.value == old(Contents())[0] && Contents() == old(Contents())[1..]
      ensures r.Some? ==> old(Memory().head != Memory().tail) && Memory() == Popped(old(Memory()))
    {
      hide Readable, Queue, Popped, NextHead, Aligned, Pos, Align8, ReadLen, ReadKind;
      ghost var m := Memory();
      EmptyByOffsets(m);
      if head == tail {
        count := 0;
        SameQueue(m, Memory());
        return None;
      }
      PopFacts(m);
      PoppedIs(m);
      var h := head;
      var pos := Pos(h, cap);
      var len, kind := ReadHeader(pos);
      if kind == KIND_PAD {
        h := h + (cap - pos);
        pos := 0;
        len, kind := ReadHeader(pos);
      }
      var payload := data[pos + REC_HDR..pos + REC_HDR + len];
      assert payload == data[..][pos + REC_HDR..pos + REC_HDR + len];
      head := h + REC_HDR + Align8(len);
      count := if count > 0 then count - 1 else 0;
      assert Memory() == Popped(m);
      return Some(Record(kind, payload));
    }

    // finish_pops: how many producers to wake for `n` freed slots.
    method FinishPops(n: nat) returns (wake: nat)
      modifies this`spaceSeq
      ensures spaceSeq == (old(spaceSeq) + n) % TWO32
      ensures wake == if waitingProducers > 0 then n else 0
    {
      spaceSeq := (spaceSeq + n) % TWO32;
      wake := if waitingProducers > 0 then n else 0;
    }

    // get, not blocking: wait_for_items' check, then one pop.
    method Get() returns (r: Option<Record>, wake: nat)
      requires Valid()
      modifies this`head, this`count, this`spaceSeq
      ensures Valid()
      ensures old(Contents()) == [] ==> r == None && wake == 0 && Memory() == old(Memory()) && spaceSeq == old(spaceSeq)
      ensures old(Contents()) != [] ==>
        && r == Some(old(Contents())[0]) && Contents() == old(Contents())[1..]
        && spaceSeq == (old(spaceSeq) + 1) % TWO32 && wake == if waitingProducers > 0 then 1 else 0
    {
      hide Readable;
      hide Queue;
      hide Popped;
      EmptyByOffsets(Memory());
      if head == tail {
        return None, 0;
      }
      r := PopLocked();
      wake := FinishPops(1);
    }

    // get_many, not blocking.
    method GetMany(maxItems: nat) returns (out: seq<Record>, wake: nat)
      requires Valid()
      modifies this`head, this`count, this`spaceSeq
      ensures Valid()
      ensures var n := if maxItems == 0 then 1 else maxItems;
        var old_ := old(Contents());
        && out == (if n <= |old_| then old_[..n] else old_)
        && Contents() == (if n <= |old_| then old_[n..] else [])
        && (0 < |old_| < n ==> count == 0)
      ensures old(Contents()) == [] ==> Memory() == old(Memory()) && spaceSeq == old(spaceSeq) && wake == 0
      ensures old(Contents()) != [] ==>
        spaceSeq == (old(spaceSeq) + |out|) % TWO32 && wake == if waitingProducers > 0 then |out| else 0
    {
      hide Readable;
      hide Queue;
      hide Popped;
      out := [];
      wake := 0;
      EmptyByOffsets(Memory());
      if head == tail {
        return;
      }
      ghost var q := Contents();
      var n := if maxItems == 0 then 1 else maxItems;
      var more := true;
      while more && |out| < n
        invariant Valid()
        invariant |out| <= n && |out| <= |q|
        invariant out == q[..|out|] && Contents() == q[|out|..]
        invariant !more ==> |out| == |q| < n && count == 0
        invariant spaceSeq == old(spaceSeq)
        decreases more, n - |out|
      {
        var r := PopLocked();
        match r {
          case Some(rec) => out := out + [rec];
          case None => more := false;
        }
      }
      wake := FinishPops(|out|);
    }

    // ---------- teardown ----------

    // unlink's walk: the spill records still queued, by name, and how many
    // messages are spilled to files; the ring is left empty.
    method UnlinkWalk() returns (names: seq<seq<Byte>>, files: nat)
      requires Valid()
      modifies this`head, this`count
      ensures Valid() && Contents() == [] && count == 0
      ensures names == SpillNames(old(Contents()))
      ensures files == FileCount(old(Contents()))
    {
      names, files := Walk();
      hide Decode;
      head := tail;
      count := 0;
      NothingQueued(Memory());
    }

    method Walk() returns (names: seq<seq<Byte>>, files: nat)
      requires Valid()
      ensures names == SpillNames(Contents()) && files == FileCount(Contents())
    {
      hide ParseAt, PadAt, Aligned, Pos, SpillNames, FileCount, Decode, ReadLen, ReadKind, NameIn;
      ghost var d, q := data[..], Contents();
      names, files := [], 0;
      var h: nat := head;
      WalkStarts(Memory());
      hide Readable, Queue;
      // `h` is the walk's position; `r` where its current record was published
      // (they differ between a pad and the record after it).
      ghost var r: nat := h;
      while h < tail
        invariant Walking(d, r, h, tail)
        invariant SpillNames(q) == names + SpillNames(Decode(d, r, tail).value)
        invariant FileCount(q) == files + FileCount(Decode(d, r, tail).value)
        decreases tail - h
      {
        WalkStep(d, r, h, tail);
        var pos := Pos(h, cap);
        var len, kind := ReadHeader(pos);
        if kind == KIND_PAD {
          h := h + (cap - pos);
          continue;
        }
        ghost var rec := Record(kind, d[pos + REC_HDR..pos + REC_HDR + len]);
        if kind == KIND_SPILL {
          var payload := data[pos + REC_HDR..pos + REC_HDR + len];
          assert payload == rec.payload;
          names := names + [NameIn(payload)];
        } else if kind == KIND_FILE {
          files := files + 1;
        }
        h := h + REC_HDR + Align8(len);
        NamesUnfold(rec, Decode(d, h, tail).value);
        r := h;
      }
      WalkEnds(d, r, h, tail);
    }
  }

  // ---------- what the methods rest on ----------

  lemma SlotFacts(m: Mem, r: Record)
    requires Readable(m) && RoomFor(m, r)
    ensures Pos(m.tail, |m.data|) + REC_HDR <= |m.data|
    ensures Slot(|m.data|, m.tail, SizeOf(r)) + REC_HDR + |r.payload| <= |m.data|
  {
    AlignedPos(m.tail, |m.data|);
    SlotOffset(|m.data|, m.tail, SizeOf(r));
  }

  lemma PutDone(m: Mem, r: Record)
    requires Readable(m) && RoomFor(m, r) && Storable(r)
    ensures var n := Mem(Place(m.data, m.tail, r), m.head,
                         m.tail + PadFor(|m.data|, m.tail, SizeOf(r)) + SizeOf(r), m.count + 1);
      n == ApplyAll(m, PutStores(m, r)) && Readable(n) && Queue(n) == Queue(m) + [r]
  {
    var k := |PutStores(m, r)|;
    assert PutStores(m, r)[..k] == PutStores(m, r);
    PublishedPrefix(m, r, k);
    PublishedQueue(m, r, m.count + 1);
  }

  lemma WrittenBytes(d: seq<Byte>, at: nat, kind: nat, payload: seq<Byte>)
    requires at + REC_HDR + |payload| <= |d|
    ensures var e := Overwrite(d, at, Header(|payload|, kind) + payload);
      && e[at..at + 4] == Le32(|payload|) && e[at + 4..at + 8] == Le32(kind)
      && e[at + 8..at + 8 + |payload|] == payload
  {
    hide Le32;
  }

  // Where the record at `h` lies in the ring, behind the pad if there is one.
  function RecordPos(d: seq<Byte>, h: nat): (at: nat)
    requires IsRing(d) && Aligned(h)
    ensures at + REC_HDR <= |d|
  {
    AlignedPos(h, |d|);
    if PadAt(d, h) then 0 else Pos(h, |d|)
  }

  // The pad skip.
  lemma PadFacts(d: seq<Byte>, h: nat)
    requires IsRing(d) && Aligned(h)
    ensures Pos(h, |d|) + REC_HDR <= |d| && (PadAt(d, h) <==> ReadKind(d, Pos(h, |d|)) == KIND_PAD)
    ensures RecordPos(d, h) == if PadAt(d, h) then 0 else Pos(h, |d|)
    ensures SkipPad(d, h) == if PadAt(d, h) then h + (|d| - Pos(h, |d|)) else h
    ensures ParseAt(d, h) == Body(d, RecordPos(d, h), SkipPad(d, h))
  {
    hide Body, Pos, Aligned, ReadKind;
    AlignedPos(h, |d|);
  }

  // The header fields.
  lemma FieldFacts(d: seq<Byte>, h: nat)
    requires IsRing(d) && Aligned(h) && ParseAt(d, h).Parsed?
    ensures var at := RecordPos(d, h);
      var len, kind := ReadLen(d, at), ReadKind(d, at);
      && at + REC_HDR + len <= |d|
      && ParseAt(d, h) == Parsed(Record(kind, d[at + REC_HDR..at + REC_HDR + len]), SkipPad(d, h) + REC_HDR + Align8(len))
  {
    hide Body, ParseAt, SkipPad, RecordPos, ReadLen, ReadKind, Aligned, Align8;
    PadFacts(d, h);
    BodyFields(d, RecordPos(d, h), SkipPad(d, h));
  }

  lemma ReadableIs(m: Mem)
    requires Readable(m)
    ensures IsRing(m.data) && Aligned(m.head)
  {
  }

  lemma PoppedIs(m: Mem)
    requires Readable(m) && m.head != m.tail
    ensures Popped(m) == Mem(m.data, NextHead(m), m.tail, if m.count > 0 then m.count - 1 else 0)
  {
    hide Readable, NextHead;
  }

  // The record a pop reads, in terms of the header fields it looks at.
  lemma PopFacts(m: Mem)
    requires Readable(m) && m.head != m.tail
    ensures Pos(m.head, |m.data|) + REC_HDR <= |m.data|
    ensures var pos := Pos(m.head, |m.data|);
      var pad := ReadKind(m.data, pos) == KIND_PAD;
      var at := if pad then 0 else pos;
      var off := if pad then m.head + (|m.data| - pos) else m.head;
      var len := ReadLen(m.data, at);
      && at + REC_HDR + len <= |m.data|
      && Queue(m) != [] && Queue(m)[0] == Record(ReadKind(m.data, at), m.data[at + REC_HDR..at + REC_HDR + len])
      && NextHead(m) == off + REC_HDR + Align8(len)
  {
    hide Readable, Queue, ParseAt, PadAt, SkipPad, RecordPos, ReadLen, ReadKind, Aligned, Align8, Pos;
    ReadableIs(m);
    PopUnfolds(m);
    PadFacts(m.data, m.head);
    FieldFacts(m.data, m.head);
  }

  // ---------- what unlink looks for ----------

  function NameIn(payload: seq<Byte>): seq<Byte> {
    if |payload| < 8 then [] else payload[8..]
  }

  function SpillNames(q: seq<Record>): seq<seq<Byte>> {
    if q == [] then []
    else (if q[0].kind == KIND_SPILL then [NameIn(q[0].payload)] else []) + SpillNames(q[1..])
  }

  function FileCount(q: seq<Record>): nat {
    if q == [] then 0 else (if q[0].kind == KIND_FILE then 1 else 0) + FileCount(q[1..])
  }

  lemma NamesUnfold(r: Record, rest: seq<Record>)
    ensures SpillNames([r] + rest) == (if r.kind == KIND_SPILL then [NameIn(r.payload)] else []) + SpillNames(rest)
    ensures FileCount([r] + rest) == (if r.kind == KIND_FILE then 1 else 0) + FileCount(rest)
  {
    assert ([r] + rest)[1..] == rest;
  }

  // A walk at `h`, in the middle of the record published at `r` if that one is
  // preceded by a pad.
  ghost predicate Walking(d: seq<Byte>, r: nat, h: nat, tail: nat) {
    && IsRing(d) && Aligned(h) && Aligned(r) && r <= h <= tail && Decode(d, r, tail).Some?
    && (h == r || (r < tail && PadAt(d, r) && h == SkipPad(d, r) < tail))
  }

  lemma WalkStarts(m: Mem)
    requires Readable(m)
    ensures Walking(m.data, m.head, m.head, m.tail) && Queue(m) == Decode(m.data, m.head, m.tail).value
    ensures SpillNames(Queue(m)) == [] + SpillNames(Queue(m))
  {
  }

  lemma WalkEnds(d: seq<Byte>, r: nat, h: nat, tail: nat)
    requires Walking(d, r, h, tail) && h >= tail
    ensures Decode(d, r, tail) == Some([]) && SpillNames([]) == [] && FileCount([]) == 0
  {
  }

  lemma NothingQueued(m: Mem)
    requires IsRing(m.data) && Aligned(m.tail) && m.head == m.tail
    ensures Readable(m) && Queue(m) == []
  {
  }

  // One turn of the walk: past a pad, or over one record.
  lemma WalkStep(d: seq<Byte>, r: nat, h: nat, tail: nat)
    requires Walking(d, r, h, tail) && h < tail
    ensures Pos(h, |d|) + REC_HDR <= |d|
    ensures var pos := Pos(h, |d|);
      var len, kind := ReadLen(d, pos), ReadKind(d, pos);
      if kind == KIND_PAD then
        h + (|d| - pos) > h && Walking(d, r, h + (|d| - pos), tail)
      else
        var next := h + REC_HDR + Align8(len);
        && pos + REC_HDR + len <= |d|
        && Walking(d, next, next, tail)
        && Decode(d, r, tail).value
           == [Record(kind, d[pos + REC_HDR..pos + REC_HDR + len])] + Decode(d, next, tail).value
  {
    AlignedPos(h, |d|);
    if h == r && PadAt(d, r) {
      PadEndsRing(d, r, tail);
    } else {
      WalkRecord(d, r, h, tail);
    }
  }

  lemma WalkRecord(d: seq<Byte>, r: nat, h: nat, tail: nat)
    requires Walking(d, r, h, tail) && h < tail && (h == r ==> !PadAt(d, r))
    ensures Pos(h, |d|) + REC_HDR <= |d|
    ensures var pos := Pos(h, |d|);
      var len, kind := ReadLen(d, pos), ReadKind(d, pos);
      var next := h + REC_HDR + Align8(len);
      && kind != KIND_PAD
      && pos + REC_HDR + len <= |d|
      && Walking(d, next, next, tail)
      && Decode(d, r, tail).value
         == [Record(kind, d[pos + REC_HDR..pos + REC_HDR + len])] + Decode(d, next, tail).value
  {
    hide Aligned;
    hide Pos;
    hide PadAt;
    hide SkipPad;
    hide ReadLen;
    hide ReadKind;
    hide ParseAt;
    hide Decode;
    var pos := Pos(h, |d|);
    WalkParse(d, r, h, tail);
    DecodeHead(d, r, tail);
    BodyFields(d, pos, h);
    hide Body;
  }

  lemma WalkParse(d: seq<Byte>, r: nat, h: nat, tail: nat)
    requires Walking(d, r, h, tail) && h < tail && (h == r ==> !PadAt(d, r))
    ensures Pos(h, |d|) + REC_HDR <= |d| && ParseAt(d, r) == Body(d, Pos(h, |d|), h)
  {
    hide Decode;
    AlignedPos(h, |d|);
    if h != r {
      PadEndsRing(d, r, tail);
    }
    hide Aligned;
    hide Body;
  }
}
