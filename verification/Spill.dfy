/** Spilled messages (rust/src/ring.rs): a payload the ring cannot take travels
    in a shared-memory object or a file of its own, and its record holds its
    length and the object's name. One process' non-blocking put and get. */
module Spill {
  import opened Wrappers
  import opened RingLayout
  import opened RingCrash
  import opened Ring

  type Bytes = seq<Byte>

  const LETTER_S: Byte := 115
  const UNDERSCORE: Byte := 95
  const TWO64: nat := 0x1_0000_0000_0000_0000

  // ---------- names ----------

  // Lower-case hexadecimal, without leading zeros.
  function HexDigit(d: nat): Byte
    requires d < 16
  {
    if d < 10 then 48 + d else 87 + d
  }

  function Hex(n: nat): (s: Bytes)
    ensures s != []
  {
    if n < 16 then [HexDigit(n)] else Hex(n / 16) + [HexDigit(n % 16)]
  }

  function Value(s: Bytes): int {
    if s == [] then 0
    else 16 * Value(s[..|s| - 1]) + (var c: int := s[|s| - 1]; if c < 58 then c - 48 else c - 87)
  }

  lemma {:induction false} HexRoundTrip(n: nat)
    ensures Value(Hex(n)) == n
  {
    if n < 16 {
      assert Hex(n)[..0] == [];
    } else {
      HexRoundTrip(n / 16);
      assert Hex(n)[..|Hex(n)| - 1] == Hex(n / 16);
    }
  }

  lemma {:induction false} HexChars(n: nat)
    ensures UNDERSCORE !in Hex(n) && LETTER_S !in Hex(n)
  {
    if n >= 16 {
      HexChars(n / 16);
    }
  }

  function Power16(k: nat): nat {
    if k == 0 then 1 else 16 * Power16(k - 1)
  }

  lemma {:induction false} HexLength(n: nat, k: nat)
    requires k > 0 && n < Power16(k)
    ensures |Hex(n)| <= k
  {
    if n >= 16 {
      HexLength(n / 16, k - 1);
    }
  }

  // This process' number in a name, then its counter: spill_object_name after
  // the ring's name and an 's', and a file's name in the ring's spill directory.
  function Numbered(pid: nat, k: nat): Bytes {
    Hex(pid) + [UNDERSCORE] + Hex(k)
  }

  function ObjectName(ring: Bytes, pid: nat, k: nat): Bytes {
    ring + [LETTER_S] + Numbered(pid, k)
  }

  function FirstOf(s: Bytes, c: Byte): nat {
    if s == [] || s[0] == c then 0 else 1 + FirstOf(s[1..], c)
  }

  lemma {:induction false} FirstAfter(a: Bytes, c: Byte, b: Bytes)
    requires c !in a
    ensures FirstOf(a + [c] + b, c) == |a|
  {
    if a != [] {
      FirstAfter(a[1..], c, b);
      assert (a + [c] + b)[1..] == a[1..] + [c] + b;
    }
  }

  // Two splits at a first c are the same.
  lemma SplitAtFirst(a: Bytes, b: Bytes, x: Bytes, y: Bytes, c: Byte)
    requires c !in a && c !in x && a + [c] + b == x + [c] + y
    ensures a == x && b == y
  {
    var l, r := a + [c] + b, x + [c] + y;
    FirstAfter(a, c, b);
    FirstAfter(x, c, y);
    assert l[..|a|] == a && r[..|x|] == x;
    assert l[|a| + 1..] == b && r[|x| + 1..] == y;
  }

  lemma NumberedUnique(pid: nat, k: nat, pid': nat, k': nat)
    requires Numbered(pid, k) == Numbered(pid', k')
    ensures pid == pid' && k == k'
  {
    HexChars(pid);
    HexChars(pid');
    SplitAtFirst(Hex(pid), Hex(k), Hex(pid'), Hex(k'), UNDERSCORE);
    HexRoundTrip(pid);
    HexRoundTrip(pid');
    HexRoundTrip(k);
    HexRoundTrip(k');
  }

  // No two spills of any rings and processes share a name: ring names have no
  // 's' (they are "/gpq" and numbers).
  lemma ObjectNamesUnique(ring: Bytes, pid: nat, k: nat, ring': Bytes, pid': nat, k': nat)
    requires LETTER_S !in ring && LETTER_S !in ring'
    requires ObjectName(ring, pid, k) == ObjectName(ring', pid', k')
    ensures ring == ring' && pid == pid' && k == k'
  {
    SplitAtFirst(ring, Numbered(pid, k), ring', Numbered(pid', k'), LETTER_S);
    NumberedUnique(pid, k, pid', k');
  }

  // The teardown sweep by the prefix ring + 's' finds exactly that ring's spills.
  lemma SweepIsExact(ring: Bytes, other: Bytes, pid: nat, k: nat)
    requires LETTER_S !in ring && LETTER_S !in other
    ensures ring + [LETTER_S] <= ObjectName(other, pid, k) <==> ring == other
  {
    var name, prefix := ObjectName(other, pid, k), ring + [LETTER_S];
    if ring == other {
      assert name == prefix + Numbered(pid, k);
    } else if prefix <= name {
      var rest := name[|prefix|..];
      assert name == ring + [LETTER_S] + rest;
      SplitAtFirst(ring, rest, other, Numbered(pid, k), LETTER_S);
    }
  }

  // ---------- records of spilled messages ----------

  function Le64(n: nat): (b: Bytes)
    ensures |b| == 8
  {
    Le32(n % TWO32) + Le32(n / TWO32)
  }

  function FromLe64(b: Bytes): nat
    requires |b| == 8
  {
    FromLe32(b[..4]) + TWO32 * FromLe32(b[4..])
  }

  lemma Le64RoundTrip(n: nat)
    requires n < TWO64
    ensures FromLe64(Le64(n)) == n
  {
    HeaderLengthSurvives(n % TWO32);
    HeaderLengthSurvives(n / TWO32);
    assert Le64(n)[..4] == Le32(n % TWO32) && Le64(n)[4..] == Le32(n / TWO32);
  }

  function SpillRecord(kind: nat, len: nat, name: Bytes): Record {
    Record(kind, Le64(len) + name)
  }

  // The objects and files that exist.
  datatype Outside = Outside(shm: map<Bytes, Bytes>, files: map<Bytes, Bytes>)

  function Object(n: Bytes, objects: map<Bytes, Bytes>, len: nat): Option<Bytes> {
    if n in objects && len <= |objects[n]| then Some(objects[n][..len]) else None
  }

  // What a reader makes of a record: materialize, None for an error.
  function Load(r: Record, o: Outside): Option<Bytes> {
    if r.kind == KIND_SPILL || r.kind == KIND_FILE then
      if |r.payload| < 8 then None
      else Object(r.payload[8..], if r.kind == KIND_SPILL then o.shm else o.files, FromLe64(r.payload[..8]))
    else Some(r.payload)
  }

  function Messages(q: seq<Record>, o: Outside): seq<Option<Bytes>> {
    if q == [] then [] else [Load(q[0], o)] + Messages(q[1..], o)
  }

  // The objects the records of one kind name.
  function Named(q: seq<Record>, kind: nat): seq<Bytes> {
    if q == [] then []
    else if q[0].kind == kind then [NameIn(q[0].payload)] + Named(q[1..], kind)
    else Named(q[1..], kind)
  }

  predicate Distinct(names: seq<Bytes>) {
    forall i, j :: 0 <= i < j < |names| ==> names[i] != names[j]
  }

  // What is left over from writes and reads that failed.
  datatype Left = Left(shm: set<Bytes>, files: set<Bytes>)

  // Every record can be read, and the objects are exactly those of the records,
  // one each, and what is left over.
  ghost predicate Owned(q: seq<Record>, o: Outside, leftover: Left) {
    && (forall i :: 0 <= i < |q| ==> Load(q[i], o).Some?)
    && Distinct(Named(q, KIND_SPILL)) && Distinct(Named(q, KIND_FILE))
    && (forall n :: n in o.shm <==> n in Named(q, KIND_SPILL) || n in leftover.shm)
    && (forall n :: n in o.files <==> n in Named(q, KIND_FILE) || n in leftover.files)
    && (forall n :: n in leftover.shm ==> n !in Named(q, KIND_SPILL))
    && (forall n :: n in leftover.files ==> n !in Named(q, KIND_FILE))
  }

  lemma {:induction false} NamedAppend(q: seq<Record>, r: Record, kind: nat)
    ensures Named(q + [r], kind) == Named(q, kind) + if r.kind == kind then [NameIn(r.payload)] else []
  {
    if q == [] {
      assert (q + [r])[1..] == [];
    } else {
      NamedAppend(q[1..], r, kind);
      assert (q + [r])[1..] == q[1..] + [r];
    }
  }

  lemma {:induction false} NamedHas(q: seq<Record>, i: nat)
    requires i < |q|
    ensures NameIn(q[i].payload) in Named(q, q[i].kind)
  {
    if i > 0 {
      NamedHas(q[1..], i - 1);
    }
  }

  lemma {:induction false} MessagesFrame(q: seq<Record>, o: Outside, p: Outside)
    requires forall i :: 0 <= i < |q| ==> Load(q[i], o) == Load(q[i], p)
    ensures Messages(q, o) == Messages(q, p)
  {
    if q != [] {
      assert forall i :: 0 <= i < |q[1..]| ==> q[1..][i] == q[i + 1];
      MessagesFrame(q[1..], o, p);
    }
  }

  lemma {:induction false} MessagesAppend(q: seq<Record>, r: Record, o: Outside)
    ensures Messages(q + [r], o) == Messages(q, o) + [Load(r, o)]
  {
    if q == [] {
      assert (q + [r])[1..] == [];
    } else {
      MessagesAppend(q[1..], r, o);
      assert (q + [r])[1..] == q[1..] + [r];
    }
  }

  // ---------- put ----------

  // What the system says to a request for shared memory; one that fails leaves
  // no object.
  datatype Room = Given | NoSpace | Failed

  // How writing a file ends. One that was created stays when writing it fails,
  // with what got written.
  datatype FileWrite = Written | DiskFull(left: Option<Bytes>) | WriteFailed(left: Option<Bytes>)

  // The object a spill of this kind adds; a zero-length one holds a byte.
  function Add(o: Outside, kind: nat, name: Bytes, data: Bytes): Outside {
    if kind == KIND_SPILL then o.(shm := o.shm[name := if data == [] then [0] else data])
    else o.(files := o.files[name := data])
  }

  function Remove(o: Outside, r: Record): Outside {
    if r.kind == KIND_SPILL then o.(shm := o.shm - {NameIn(r.payload)})
    else if r.kind == KIND_FILE then o.(files := o.files - {NameIn(r.payload)})
    else o
  }

  predicate Fresh(o: Outside, kind: nat, name: Bytes) {
    name !in if kind == KIND_SPILL then o.shm else o.files
  }

  lemma SpillLoads(o: Outside, kind: nat, name: Bytes, data: Bytes)
    requires (kind == KIND_SPILL || kind == KIND_FILE) && |data| < TWO64
    ensures Load(SpillRecord(kind, |data|, name), Add(o, kind, name, data)) == Some(data)
  {
    Le64RoundTrip(|data|);
    var p := Le64(|data|) + name;
    assert p[..8] == Le64(|data|) && p[8..] == name;
    assert data[..|data|] == data;
  }

  // Publishing a spill's record hands the object over to it.
  lemma SpillOwned(q: seq<Record>, o: Outside, leftover: Left, kind: nat, name: Bytes, data: Bytes)
    requires Owned(q, o, leftover) && (kind == KIND_SPILL || kind == KIND_FILE) && |data| < TWO64 && Fresh(o, kind, name)
    ensures var r, p := SpillRecord(kind, |data|, name), Add(o, kind, name, data);
            Owned(q + [r], p, leftover) && Messages(q + [r], p) == Messages(q, o) + [Some(data)]
  {
    var r, p := SpillRecord(kind, |data|, name), Add(o, kind, name, data);
    SpillLoads(o, kind, name, data);
    RecordNames(kind, |data|, name);
    hide SpillRecord, Le64;
    OthersLoad(q, o, leftover, kind, name, data);
    MessagesFrame(q, o, p);
    MessagesAppend(q, r, p);
    NamedAppend(q, r, KIND_SPILL);
    NamedAppend(q, r, KIND_FILE);
    hide Load, Named, Messages, Distinct;
    DistinctAppend(Named(q, kind), name);
    SameNames(Named(q, KIND_SPILL));
    SameNames(Named(q, KIND_FILE));
  }

  lemma OthersLoad(q: seq<Record>, o: Outside, leftover: Left, kind: nat, name: Bytes, data: Bytes)
    requires Owned(q, o, leftover) && (kind == KIND_SPILL || kind == KIND_FILE) && Fresh(o, kind, name)
    ensures forall i :: 0 <= i < |q| ==> Load(q[i], Add(o, kind, name, data)) == Load(q[i], o)
  {
    forall i | 0 <= i < |q| ensures Load(q[i], Add(o, kind, name, data)) == Load(q[i], o) {
      assert Load(q[i], o).Some?;
      LoadUndisturbed(q, i, o, Add(o, kind, name, data), kind, name);
    }
  }

  lemma DistinctAppend(names: seq<Bytes>, n: Bytes)
    requires Distinct(names) && n !in names
    ensures Distinct(names + [n])
  {
  }

  lemma SameNames(names: seq<Bytes>)
    ensures names + [] == names
  {
  }

  lemma LoadUndisturbed(q: seq<Record>, i: nat, o: Outside, p: Outside, kind: nat, name: Bytes)
    requires i < |q| && Load(q[i], o).Some?
    requires kind == KIND_SPILL ==> p.files == o.files && forall n :: n != name ==> Same(o.shm, p.shm, n)
    requires kind != KIND_SPILL ==> p.shm == o.shm && forall n :: n != name ==> Same(o.files, p.files, n)
    requires q[i].kind == kind ==> NameIn(q[i].payload) != name
    requires kind == KIND_SPILL || kind == KIND_FILE
    ensures Load(q[i], p) == Load(q[i], o)
  {
    var n := NameIn(q[i].payload);
    assert n != name ==> Same(o.shm, p.shm, n) && Same(o.files, p.files, n);
  }

  predicate Same(a: map<Bytes, Bytes>, b: map<Bytes, Bytes>, n: Bytes) {
    (n in a <==> n in b) && (n in a ==> a[n] == b[n])
  }

  lemma InlineOwned(q: seq<Record>, o: Outside, leftover: Left, data: Bytes)
    requires Owned(q, o, leftover)
    ensures var r := Record(KIND_DATA, data);
            Owned(q + [r], o, leftover) && Messages(q + [r], o) == Messages(q, o) + [Some(data)]
  {
    var r := Record(KIND_DATA, data);
    MessagesAppend(q, r, o);
    NamedAppend(q, r, KIND_SPILL);
    NamedAppend(q, r, KIND_FILE);
    assert Named(q, KIND_SPILL) + [] == Named(q, KIND_SPILL) && Named(q, KIND_FILE) + [] == Named(q, KIND_FILE);
  }

  // Taking the oldest record and its object leaves the others readable.
  lemma GetOwned(q: seq<Record>, o: Outside, leftover: Left)
    requires Owned(q, o, leftover) && q != []
    ensures Owned(q[1..], Remove(o, q[0]), leftover) && Messages(q[1..], Remove(o, q[0])) == Messages(q, o)[1..]
  {
    var rest, p := q[1..], Remove(o, q[0]);
    forall i | 0 <= i < |rest| ensures Load(rest[i], p) == Load(rest[i], o) && Load(rest[i], o).Some? {
      assert rest[i] == q[i + 1];
      if q[0].kind == KIND_SPILL || q[0].kind == KIND_FILE {
        NamedHas(rest, i);
        FirstIsDistinct(q);
        LoadUndisturbed(rest, i, o, p, q[0].kind, NameIn(q[0].payload));
      }
    }
    MessagesFrame(rest, o, p);
    RestNamed(q, KIND_SPILL);
    RestNamed(q, KIND_FILE);
    hide Load, Named, Messages;
  }

  lemma FirstIsDistinct(q: seq<Record>)
    requires q != [] && Distinct(Named(q, q[0].kind))
    ensures NameIn(q[0].payload) !in Named(q[1..], q[0].kind)
  {
    var names := Named(q, q[0].kind);
    forall j | 0 <= j < |Named(q[1..], q[0].kind)| ensures Named(q[1..], q[0].kind)[j] != names[0] {
      assert names[j + 1] == Named(q[1..], q[0].kind)[j];
    }
  }

  lemma RestNamed(q: seq<Record>, kind: nat)
    requires q != [] && Distinct(Named(q, kind))
    ensures Distinct(Named(q[1..], kind))
    ensures forall n :: n in Named(q[1..], kind) <==> n in Named(q, kind) && !(q[0].kind == kind && n == NameIn(q[0].payload))
  {
    if q[0].kind == kind {
      FirstIsDistinct(q);
      var names, rest := Named(q, kind), Named(q[1..], kind);
      assert names == [NameIn(q[0].payload)] + rest;
      assert forall j :: 0 <= j < |rest| ==> rest[j] == names[j + 1];
    }
  }

  // How a put ends: queued, not (False), or an error.
  datatype Outcome = Queued | NotQueued | Error

  function NameOf(kind: nat, ring: Bytes, pid: nat, k: nat): Bytes {
    if kind == KIND_SPILL then ObjectName(ring, pid, k) else Numbered(pid, k)
  }

  // No object has a name this process is still to use.
  ghost predicate Unmade(o: Outside, ring: Bytes, pid: nat, made: nat) {
    forall k :: made <= k ==>
      && Fresh(o, KIND_SPILL, NameOf(KIND_SPILL, ring, pid, k))
      && Fresh(o, KIND_FILE, NameOf(KIND_FILE, ring, pid, k))
  }

  lemma NameFits(kind: nat, ring: Bytes, pid: nat, k: nat)
    requires |ring| <= 64 && pid < TWO32 && k < TWO64
    ensures |NameOf(kind, ring, pid, k)| <= 90
  {
    assert TWO32 == Power16(8) by { assert Power16(8) == 16 * (16 * (16 * (16 * Power16(4)))); }
    assert TWO64 == Power16(16) by { PowerOfSum(); }
    HexLength(pid, 8);
    HexLength(k, 16);
  }

  lemma PowerOfSum()
    ensures Power16(8) == 0x1_0000_0000 && Power16(16) == 0x1_0000_0000_0000_0000
  {
    assert Power16(4) == 0x1_0000;
    assert Power16(8) == 0x1_0000_0000;
    assert Power16(12) == 0x1_0000_0000_0000;
  }

  lemma OthersStayFresh(o: Outside, kind: nat, ring: Bytes, pid: nat, made: nat, data: Bytes)
    requires LETTER_S !in ring && Unmade(o, ring, pid, made) && (kind == KIND_SPILL || kind == KIND_FILE)
    ensures Unmade(Add(o, kind, NameOf(kind, ring, pid, made), data), ring, pid, made + 1)
  {
    var p := Add(o, kind, NameOf(kind, ring, pid, made), data);
    forall k | made + 1 <= k
      ensures Fresh(p, KIND_SPILL, NameOf(KIND_SPILL, ring, pid, k)) && Fresh(p, KIND_FILE, NameOf(KIND_FILE, ring, pid, k))
    {
      if NameOf(kind, ring, pid, k) == NameOf(kind, ring, pid, made) {
        if kind == KIND_SPILL {
          ObjectNamesUnique(ring, pid, k, ring, pid, made);
        } else {
          NumberedUnique(pid, k, pid, made);
        }
      }
      assert Fresh(o, KIND_SPILL, NameOf(KIND_SPILL, ring, pid, k)) && Fresh(o, KIND_FILE, NameOf(KIND_FILE, ring, pid, k));
    }
  }

  // Shared memory is not to be used, or full.
  predicate TriesFile(disk: bool, shmRoom: Room) {
    disk || shmRoom == NoSpace
  }

  // The part of a file a put that spills leaves behind.
  function Leaves(disk: bool, shmRoom: Room, file: FileWrite): Option<Bytes> {
    if TriesFile(disk, shmRoom) && !file.Written? then file.left else None
  }

  lemma RecordNames(kind: nat, len: nat, name: Bytes)
    ensures NameIn(SpillRecord(kind, len, name).payload) == name
  {
    assert (Le64(len) + name)[8..] == name;
  }

  lemma SpillStorable(kind: nat, len: nat, name: Bytes)
    requires (kind == KIND_SPILL || kind == KIND_FILE) && |name| <= 90
    ensures Storable(SpillRecord(kind, len, name))
  {
  }

  lemma DiscardUndoes(o: Outside, kind: nat, name: Bytes, data: Bytes)
    requires Fresh(o, kind, name) && (kind == KIND_SPILL || kind == KIND_FILE)
    ensures Remove(Add(o, kind, name, data), SpillRecord(kind, |data|, name)) == o
  {
    assert (Le64(|data|) + name)[8..] == name;
  }

  function WithPart(leftover: Left, name: Bytes): Left {
    leftover.(files := leftover.files + {name})
  }

  // A file left half-written disturbs nothing else.
  lemma LeftoverOwned(q: seq<Record>, o: Outside, leftover: Left, name: Bytes, part: Bytes)
    requires Owned(q, o, leftover) && Fresh(o, KIND_FILE, name)
    ensures var p := Add(o, KIND_FILE, name, part);
            Owned(q, p, WithPart(leftover, name)) && Messages(q, p) == Messages(q, o) && p != o
  {
    var p := Add(o, KIND_FILE, name, part);
    assert name in p.files;
    forall i | 0 <= i < |q| ensures Load(q[i], p) == Load(q[i], o) {
      NamedHas(q, i);
      assert Load(q[i], o).Some?;
    }
    MessagesFrame(q, o, p);
  }

  // ---------- get ----------

  // What a get returns.
  datatype Got = Nothing | Message(data: Bytes) | ReadError

  predicate IsSpill(r: Record) {
    r.kind == KIND_SPILL || r.kind == KIND_FILE
  }

  // What a record leaves over when it goes without its object.
  function Abandon(leftover: Left, r: Record): Left {
    if r.kind == KIND_SPILL then leftover.(shm := leftover.shm + {NameIn(r.payload)})
    else if r.kind == KIND_FILE then leftover.(files := leftover.files + {NameIn(r.payload)})
    else leftover
  }

  function AbandonAll(leftover: Left, q: seq<Record>): Left
    decreases |q|
  {
    if q == [] then leftover else AbandonAll(Abandon(leftover, q[0]), q[1..])
  }

  // What a get of these records leaves over when reading the i-th fails: that
  // object if it is in shared memory, and all behind it.
  function LeftBy(leftover: Left, q: seq<Record>, i: nat): Left
    requires i < |q|
  {
    AbandonAll(if q[i].kind == KIND_SPILL then Abandon(leftover, q[i]) else leftover, q[i + 1..])
  }

  // How many records a get_many takes.
  function HowMany(maxItems: nat, queued: nat): nat {
    var n := if maxItems == 0 then 1 else maxItems;
    if n <= queued then n else queued
  }

  // The first spill that cannot be read.
  function FirstBad(q: seq<Record>, readable: nat -> bool): (i: nat)
    ensures i <= |q|
  {
    BadFrom(q, readable, 0)
  }

  function BadFrom(q: seq<Record>, readable: nat -> bool, i: nat): (k: nat)
    requires i <= |q|
    ensures i <= k <= |q|
    decreases |q| - i
  {
    if i == |q| || (!readable(i) && IsSpill(q[i])) then i else BadFrom(q, readable, i + 1)
  }

  lemma {:induction false} BadFromIs(q: seq<Record>, readable: nat -> bool, k: nat, i: nat)
    requires i <= k <= |q| && (forall j :: i <= j < k ==> readable(j) || !IsSpill(q[j]))
    requires k == |q| || (!readable(k) && IsSpill(q[k]))
    ensures BadFrom(q, readable, i) == k
    decreases k - i
  {
    if i < k {
      BadFromIs(q, readable, k, i + 1);
    }
  }

  lemma FirstBadIs(q: seq<Record>, readable: nat -> bool, k: nat)
    requires k <= |q| && (forall j :: 0 <= j < k ==> readable(j) || !IsSpill(q[j]))
    requires k == |q| || (!readable(k) && IsSpill(q[k]))
    ensures FirstBad(q, readable) == k
  {
    BadFromIs(q, readable, k, 0);
  }

  function Somes(data: seq<Bytes>): (r: seq<Option<Bytes>>)
    ensures |r| == |data| && forall i :: 0 <= i < |r| ==> r[i] == Some(data[i])
  {
    if data == [] then [] else Somes(data[..|data| - 1]) + [Some(data[|data| - 1])]
  }

  lemma MessagesFirst(q: seq<Record>, o: Outside)
    requires q != []
    ensures Messages(q, o) == [Load(q[0], o)] + Messages(q[1..], o)
  {
  }

  lemma {:induction false} MessagesLength(q: seq<Record>, o: Outside)
    ensures |Messages(q, o)| == |q|
  {
    if q != [] {
      MessagesLength(q[1..], o);
    }
  }

  // A record that goes without its object leaves the others readable.
  lemma Abandoned(q: seq<Record>, o: Outside, leftover: Left)
    requires Owned(q, o, leftover) && q != []
    ensures Owned(q[1..], o, Abandon(leftover, q[0])) && Messages(q[1..], o) == Messages(q, o)[1..]
  {
    var rest := q[1..];
    assert forall i :: 0 <= i < |rest| ==> rest[i] == q[i + 1];
    hide Load, NameIn;
    MessagesFirst(q, o);
    RestNamed(q, KIND_SPILL);
    RestNamed(q, KIND_FILE);
    hide Named;
    FirstNamed(q);
  }

  lemma FirstNamed(q: seq<Record>)
    requires q != []
    ensures NameIn(q[0].payload) in Named(q, q[0].kind)
  {
  }

  lemma {:induction false} DroppedAll(q: seq<Record>, rest: seq<Record>, o: Outside, leftover: Left)
    requires Owned(q + rest, o, leftover)
    ensures Owned(rest, o, AbandonAll(leftover, q)) && |Messages(q + rest, o)| >= |q|
    ensures Messages(rest, o) == Messages(q + rest, o)[|q|..]
    decreases |q|
  {
    hide Owned, Messages;
    if q == [] {
      assert q + rest == rest;
    } else {
      assert (q + rest)[1..] == q[1..] + rest && (q + rest)[0] == q[0];
      Abandoned(q + rest, o, leftover);
      DroppedAll(q[1..], rest, o, Abandon(leftover, q[0]));
      MessagesLength(q + rest, o);
    }
  }

  lemma RemovedStaysUnmade(o: Outside, r: Record, ring: Bytes, pid: nat, made: nat)
    requires Unmade(o, ring, pid, made)
    ensures Unmade(Remove(o, r), ring, pid, made)
  {
    var p := Remove(o, r);
    forall k | made <= k
      ensures Fresh(p, KIND_SPILL, NameOf(KIND_SPILL, ring, pid, k)) && Fresh(p, KIND_FILE, NameOf(KIND_FILE, ring, pid, k))
    {
      assert Fresh(o, KIND_SPILL, NameOf(KIND_SPILL, ring, pid, k)) && Fresh(o, KIND_FILE, NameOf(KIND_FILE, ring, pid, k));
    }
  }

  // A record's file is there, so removing it changes something.
  lemma RemovedWasThere(q: seq<Record>, o: Outside, leftover: Left)
    requires Owned(q, o, leftover) && q != [] && IsSpill(q[0])
    ensures Remove(o, q[0]) != o
  {
    FirstNamed(q);
    var n := NameIn(q[0].payload);
    assert n in (if q[0].kind == KIND_SPILL then o.shm else o.files);
  }

  lemma TakeOne(recs: seq<Record>, rest: seq<Record>, i: nat, o: Outside, all: seq<Option<Bytes>>)
    requires i < |recs| && i < |all| && Messages(recs[i..] + rest, o) == all[i..]
    ensures recs[i..] + rest == [recs[i]] + (recs[i + 1..] + rest)
    ensures all[i] == Load(recs[i], o)
  {
    hide Load;
    assert recs[i..] + rest == [recs[i]] + (recs[i + 1..] + rest);
    MessagesFirst([recs[i]] + (recs[i + 1..] + rest), o);
  }

  lemma OneMoreRead(all: seq<Option<Bytes>>, out: seq<Bytes>, data: Bytes)
    requires |out| < |all| && all[..|out|] == Somes(out) && all[|out|] == Some(data)
    ensures all[..|out| + 1] == Somes(out + [data])
  {
    hide Somes;
    forall i | 0 <= i <= |out| ensures all[..|out| + 1][i] == Somes(out + [data])[i] {
      if i < |out| {
        assert all[..|out|][i] == Somes(out)[i];
      }
    }
  }

  class SpillQueue {
    const ring: RingQueue
    const name: Bytes   // of the ring
    const pid: nat
    var outside: Outside
    var made: nat       // spills made so far, for their names
    ghost var leftover: Left

    constructor (maxsize: nat, ringBytes: nat, spillAt: Option<nat>, name: Bytes, pid: nat)
      requires LETTER_S !in name && |name| <= 64 && pid < TWO32
      ensures Valid() && Contents() == [] && fresh(ring) && fresh(ring.data) && ring.maxsize == maxsize
      ensures leftover == Left({}, {})
    {
      ring := new RingQueue(maxsize, ringBytes, spillAt);
      this.name, this.pid := name, pid;
      outside := Outside(map[], map[]);
      made := 0;
      leftover := Left({}, {});
    }

    ghost predicate Valid()
      reads this, ring, ring.data
    {
      && ring.Valid() && Owned(ring.Contents(), outside, leftover)
      && LETTER_S !in name && |name| <= 64 && pid < TWO32 && made < TWO64
      && Unmade(outside, name, pid, made)
    }

    ghost function Contents(): seq<Option<Bytes>>
      requires Valid()
      reads this, ring, ring.data
    {
      Messages(ring.Contents(), outside)
    }

    // What a put would need: the record, and a slot and room for it.
    ghost predicate Takes(r: Record)
      requires ring.Valid()
      reads this, ring, ring.data
    {
      HasSlot(ring.Memory(), ring.maxsize) && RoomFor(ring.Memory(), r)
    }

    function SpillKind(disk: bool, shmRoom: Room): nat {
      if !disk && shmRoom == Given then KIND_SPILL else KIND_FILE
    }

    function NextName(kind: nat): Bytes
      reads this
    {
      NameOf(kind, name, pid, made)
    }

    // spill_write, and file_spill_write when it succeeds: a new object that the
    // record returned reads back, with at least a byte in shared memory.
    method WriteSpill(kind: nat, data: Bytes) returns (r: Record)
      requires kind == KIND_SPILL || kind == KIND_FILE
      requires Unmade(outside, name, pid, made) && |data| < TWO64
      modifies this`outside, this`made
      ensures r == SpillRecord(kind, |data|, old(NextName(kind))) && made == old(made) + 1
      ensures Fresh(old(outside), kind, NameIn(r.payload)) && Load(r, outside) == Some(data)
      ensures outside == Add(old(outside), kind, NameIn(r.payload), data)
      ensures kind == KIND_SPILL ==> NameIn(r.payload) in outside.shm && outside.shm[NameIn(r.payload)] != []
    {
      var n := NextName(kind);
      SpillLoads(outside, kind, n, data);
      RecordNames(kind, |data|, n);
      outside := Add(outside, kind, n, data);
      made := made + 1;
      r := SpillRecord(kind, |data|, n);
    }

    // file_spill_write when it fails.
    method LeavePart(left: Option<Bytes>)
      requires Valid() && made + 1 < TWO64
      modifies this`outside, this`made, this`leftover
      ensures Valid() && Contents() == old(Contents()) && ring.Contents() == old(ring.Contents())
      ensures outside.shm == old(outside).shm
      ensures left.None? ==> outside == old(outside) && leftover == old(leftover)
      ensures left.Some? ==> outside == Add(old(outside), KIND_FILE, old(NextName(KIND_FILE)), left.value) != old(outside)
      ensures left.Some? ==> leftover == WithPart(old(leftover), old(NextName(KIND_FILE)))
    {
      if left.Some? {
        var n := NextName(KIND_FILE);
        LeftoverOwned(ring.Contents(), outside, leftover, n, left.value);
        OthersStayFresh(outside, KIND_FILE, name, pid, made, left.value);
        outside := Add(outside, KIND_FILE, n, left.value);
        leftover := WithPart(leftover, n);
        made := made + 1;
      }
    }

    // discard
    method Discard(r: Record)
      modifies this`outside
      ensures outside == Remove(old(outside), r)
    {
      outside := Remove(outside, r);
    }

    // The payload cannot, or at this moment does not, go into the ring.
    ghost predicate MustSpill(data: Bytes)
      requires ring.Valid()
      reads this, ring, ring.data
    {
      |data| > ring.spillAt
      || (HasSlot(ring.Memory(), ring.maxsize) && !RoomFor(ring.Memory(), Record(KIND_DATA, data)))
    }

    // put, not blocking. `shmRoom` and `file` are what the system answers to a
    // request for shared memory and to writing a file; `disk` asks for a file.
    // An inline payload is one whose length a record header can hold.
    method Put(data: Bytes, disk: bool, shmRoom: Room, file: FileWrite) returns (o: Outcome)
      requires Valid() && |data| < TWO64 && made + 1 < TWO64 && (|data| < TWO32 || |data| > ring.spillAt)
      modifies this`outside, this`made, this`leftover, ring, ring.data
      ensures Valid()
      ensures o.Queued? ==> Contents() == old(Contents()) + [Some(data)] && leftover == old(leftover)
      ensures !o.Queued? ==> ring.Contents() == old(ring.Contents()) && outside.shm == old(outside).shm
      ensures !o.Queued? ==> Contents() == old(Contents())
      ensures !o.Queued? ==>
        (outside == old(outside) <==> !(old(MustSpill(data)) && Leaves(disk, shmRoom, file).Some?))
      ensures !o.Queued? && outside != old(outside) ==> leftover == WithPart(old(leftover), old(NextName(KIND_FILE)))
      // Inline: with a slot and room, else, for want of a slot, not at all.
      ensures |data| <= ring.spillAt && old(Takes(Record(KIND_DATA, data))) ==>
        o == Queued && outside == old(outside) && ring.Contents() == old(ring.Contents()) + [Record(KIND_DATA, data)]
      ensures |data| <= ring.spillAt && !HasSlot(old(ring.Memory()), ring.maxsize) ==>
        o == NotQueued && outside == old(outside)
      ensures !HasSlot(old(ring.Memory()), ring.maxsize) ==> !o.Queued?
      // Else by way of shared memory, a file, or an error, as the system answers.
      ensures (|data| > ring.spillAt || HasSlot(old(ring.Memory()), ring.maxsize))
              && !(|data| <= ring.spillAt && old(Takes(Record(KIND_DATA, data)))) ==>
        && (!disk && shmRoom == Given ==>
              && o == (if old(Takes(SpillRecord(KIND_SPILL, |data|, NextName(KIND_SPILL)))) then Queued else NotQueued)
              && (o.Queued? ==>
                    && outside.files == old(outside).files
                    && ring.Contents() == old(ring.Contents()) + [SpillRecord(KIND_SPILL, |data|, old(NextName(KIND_SPILL)))]
                    && outside.shm == old(outside).shm[old(NextName(KIND_SPILL)) := if data == [] then [0] else data]))
        && (!disk && shmRoom == Failed ==> o == Error)
        && (disk || shmRoom == NoSpace ==>
              && (file.Written? ==>
                    o == if old(Takes(SpillRecord(KIND_FILE, |data|, NextName(KIND_FILE)))) then Queued else NotQueued)
              && (o.Queued? ==>
                    && outside.shm == old(outside).shm
                    && ring.Contents() == old(ring.Contents()) + [SpillRecord(KIND_FILE, |data|, old(NextName(KIND_FILE)))]
                    && outside.files == old(outside).files[old(NextName(KIND_FILE)) := data])
              && (file.DiskFull? ==> o == NotQueued) && (file.WriteFailed? ==> o == Error))
    {
      var mustSpill := |data| > ring.spillAt;
      if mustSpill {
        o := SpillAndPut(data, disk, shmRoom, file);
        return;
      }
      ghost var q := ring.Contents();
      var placed := ring.TryPut(Record(KIND_DATA, data));
      if placed.Placed? {
        InlineOwned(q, outside, leftover, data);
        return Queued;
      }
      if placed.OutOfBytes? {
        o := SpillAndPut(data, disk, shmRoom, file);
        return;
      }
      return NotQueued;
    }

    // A put whose payload has to spill: the object first, then its record.
    method SpillAndPut(data: Bytes, disk: bool, shmRoom: Room, file: FileWrite) returns (o: Outcome)
      requires Valid() && |data| < TWO64 && made + 1 < TWO64
      modifies this`outside, this`made, this`leftover, ring, ring.data
      ensures Valid()
      ensures o.Queued? ==> Contents() == old(Contents()) + [Some(data)] && leftover == old(leftover)
      ensures !o.Queued? ==> ring.Contents() == old(ring.Contents()) && outside.shm == old(outside).shm
      ensures !o.Queued? ==> Contents() == old(Contents())
      ensures !o.Queued? ==> (outside == old(outside) <==> Leaves(disk, shmRoom, file).None?)
      ensures !o.Queued? && outside != old(outside) ==> leftover == WithPart(old(leftover), old(NextName(KIND_FILE)))
      // By the system's answers: shared memory if it is given, a file if it is full or
      // not wanted, and an error on any other failure.
      ensures !disk && shmRoom == Given ==>
        var r := SpillRecord(KIND_SPILL, |data|, old(NextName(KIND_SPILL)));
        && o == (if old(Takes(SpillRecord(KIND_SPILL, |data|, NextName(KIND_SPILL)))) then Queued else NotQueued)
        && (o.Queued? ==>
              && ring.Contents() == old(ring.Contents()) + [r] && outside.files == old(outside).files
              && outside.shm == old(outside).shm[old(NextName(KIND_SPILL)) := if data == [] then [0] else data])
      ensures !disk && shmRoom == Failed ==> o == Error && outside == old(outside)
      ensures disk || shmRoom == NoSpace ==>
        && (file.Written? ==>
              && o == (if old(Takes(SpillRecord(KIND_FILE, |data|, NextName(KIND_FILE)))) then Queued else NotQueued)
              && (o.NotQueued? ==> outside == old(outside)))
        && (o.Queued? ==>
              && ring.Contents() == old(ring.Contents()) + [SpillRecord(KIND_FILE, |data|, old(NextName(KIND_FILE)))]
              && outside.files == old(outside).files[old(NextName(KIND_FILE)) := data] && outside.shm == old(outside).shm)
        && (file.DiskFull? ==> o == NotQueued) && (file.WriteFailed? ==> o == Error)
        && (!file.Written? ==> outside == if file.left.None? then old(outside)
              else old(outside).(files := old(outside).files[old(NextName(KIND_FILE)) := file.left.value]))
    {
      hide Owned, Messages, Unmade, SpillRecord;
      var kind := SpillKind(disk, shmRoom);
      if kind == KIND_FILE {
        if !TriesFile(disk, shmRoom) {
          return Error;
        }
        if !file.Written? {
          LeavePart(file.left);
          return if file.DiskFull? then NotQueued else Error;
        }
      }
      o := WriteAndPut(kind, data);
    }

    // The object and then its record, or neither.
    method WriteAndPut(kind: nat, data: Bytes) returns (o: Outcome)
      requires Valid() && |data| < TWO64 && made + 1 < TWO64 && (kind == KIND_SPILL || kind == KIND_FILE)
      modifies this`outside, this`made, ring, ring.data
      ensures Valid() && !o.Error?
      ensures o.Queued? <==> old(Takes(SpillRecord(kind, |data|, NextName(kind))))
      ensures o.Queued? ==> Contents() == old(Contents()) + [Some(data)]
      ensures o.Queued? ==> ring.Contents() == old(ring.Contents()) + [SpillRecord(kind, |data|, old(NextName(kind)))]
      ensures o.Queued? ==> outside == Add(old(outside), kind, old(NextName(kind)), data)
      ensures !o.Queued? ==> ring.Contents() == old(ring.Contents()) && outside == old(outside)
    {
      hide Owned, Messages, SpillRecord, Load, Add;
      ghost var q, before, n := ring.Contents(), outside, NextName(kind);
      OthersStayFresh(before, kind, name, pid, made, data);
      NameFits(kind, name, pid, made);
      RecordNames(kind, |data|, n);
      SpillStorable(kind, |data|, n);
      SpillOwned(q, before, leftover, kind, n, data);
      DiscardUndoes(before, kind, n, data);
      var rec := WriteSpill(kind, data);
      hide Unmade, NameIn, Fresh;
      var placed := ring.TryPut(rec);
      if placed.Placed? {
        return Queued;
      }
      Discard(rec);
      return NotQueued;
    }

    // materialize: a spill is read, if the system lets it be, and its object goes.
    // One in shared memory that cannot be mapped stays; a file goes in any case.
    // `rest` are the records that are still to be read.
    method Materialize(rec: Record, readable: bool, ghost rest: seq<Record>) returns (r: Option<Bytes>)
      requires Owned([rec] + rest, outside, leftover) && Unmade(outside, name, pid, made)
      modifies this`outside, this`leftover
      ensures Owned(rest, outside, leftover) && Unmade(outside, name, pid, made)
      ensures Messages(rest, outside) == old(Messages([rec] + rest, outside))[1..]
      ensures r.None? <==> !readable && (rec.kind == KIND_SPILL || rec.kind == KIND_FILE)
      ensures r.Some? ==> Load(rec, old(outside)) == r && outside == Remove(old(outside), rec) && leftover == old(leftover)
      ensures r.None? ==> outside == (if rec.kind == KIND_SPILL then old(outside) else Remove(old(outside), rec))
      ensures r.None? ==> leftover == (if rec.kind == KIND_SPILL then Abandon(old(leftover), rec) else old(leftover))
    {
      ghost var q := [rec] + rest;
      assert q[1..] == rest && q[0] == rec;
      assert Load(q[0], outside).Some?;
      hide Owned, Messages, Load, Unmade;
      if !readable && rec.kind == KIND_SPILL {
        Abandoned(q, outside, leftover);
        leftover := Abandon(leftover, rec);
        return None;
      }
      GetOwned(q, outside, leftover);
      RemovedStaysUnmade(outside, rec, name, pid, made);
      r := if !readable && rec.kind == KIND_FILE then None else Load(rec, outside);
      outside := Remove(outside, rec);
    }

    // get, not blocking: the oldest message, whatever carried it; its object goes.
    method Get(readable: bool) returns (r: Got)
      requires Valid()
      modifies this`outside, this`leftover, ring`head, ring`count, ring`spaceSeq
      ensures Valid()
      ensures r.Nothing? <==> old(Contents()) == []
      ensures r.Nothing? ==> Contents() == old(Contents()) && outside == old(outside) && leftover == old(leftover)
      ensures r.Message? ==> old(Contents()) == [Some(r.data)] + Contents() && leftover == old(leftover)
      ensures r.Message? ==> outside == Remove(old(outside), old(ring.Contents())[0])
      ensures r.ReadError? <==> old(ring.Contents()) != [] && !readable
                                && old(ring.Contents())[0].kind in {KIND_SPILL, KIND_FILE}
      ensures r.ReadError? ==> Contents() == old(Contents())[1..]
      ensures r.ReadError? ==> (outside == old(outside) <==> old(ring.Contents())[0].kind == KIND_SPILL)
      ensures r.ReadError? ==> leftover == LeftBy(old(leftover), old(ring.Contents())[..1], 0)
    {
      hide Owned, Unmade, Load;
      ghost var q := ring.Contents();
      var rec, wake := ring.Get();
      if rec.None? {
        return Nothing;
      }
      assert q == [rec.value] + ring.Contents() && q[..1] == [rec.value];
      MessagesFirst(q, outside);
      if IsSpill(rec.value) {
        RemovedWasThere(q, outside, leftover);
      }
      var data := Materialize(rec.value, readable, ring.Contents());
      if data.None? {
        return ReadError;
      }
      return Message(data.value);
    }

    // get_many's loop over the records it popped; an error drops the rest.
    method MaterializeAll(recs: seq<Record>, readable: nat -> bool, ghost rest: seq<Record>) returns (r: Option<seq<Bytes>>)
      requires Owned(recs + rest, outside, leftover) && Unmade(outside, name, pid, made)
      modifies this`outside, this`leftover
      ensures Owned(rest, outside, leftover) && Unmade(outside, name, pid, made)
      ensures |old(Messages(recs + rest, outside))| == |recs| + |rest|
      ensures Messages(rest, outside) == old(Messages(recs + rest, outside))[|recs|..]
      ensures r.Some? <==> FirstBad(recs, readable) == |recs|
      ensures r.Some? ==> leftover == old(leftover) && old(Messages(recs + rest, outside))[..|recs|] == Somes(r.value)
      ensures r.None? ==> leftover == LeftBy(old(leftover), recs, FirstBad(recs, readable))
    {
      hide Owned, Unmade, Load, Messages, Abandon, AbandonAll, Remove;
      ghost var all, left := Messages(recs + rest, outside), leftover;
      MessagesLength(recs + rest, outside);
      var out, i := [], 0;
      assert recs[0..] + rest == recs + rest;
      while i < |recs|
        invariant 0 <= i <= |recs| && |out| == i && leftover == left
        invariant Owned(recs[i..] + rest, outside, leftover) && Unmade(outside, name, pid, made)
        invariant Messages(recs[i..] + rest, outside) == all[i..] && all[..i] == Somes(out)
        invariant forall j :: 0 <= j < i ==> readable(j) || !IsSpill(recs[j])
      {
        ghost var later := recs[i + 1..] + rest;
        TakeOne(recs, rest, i, outside, all);
        var data := Materialize(recs[i], readable(i), later);
        assert all[i..][1..] == all[i + 1..];
        if data.None? {
          FirstBadIs(recs, readable, i);
          DroppedAll(recs[i + 1..], rest, outside, leftover);
          assert all[i + 1..][|recs| - i - 1..] == all[|recs|..];
          leftover := AbandonAll(leftover, recs[i + 1..]);
          return None;
        }
        OneMoreRead(all, out, data.value);
        out := out + [data.value];
        i := i + 1;
      }
      assert recs[i..] + rest == rest;
      FirstBadIs(recs, readable, i);
      return Some(out);
    }

    // get_many, not blocking: its records are popped first and then read one by
    // one; `readable(i)` is the system's answer to the i-th.
    method GetMany(maxItems: nat, readable: nat -> bool) returns (r: Option<seq<Bytes>>)
      requires Valid()
      modifies this`outside, this`leftover, ring`head, ring`count, ring`spaceSeq
      ensures Valid()
      ensures var k := HowMany(maxItems, |old(ring.Contents())|);
        var taken := old(ring.Contents())[..k];
        && |old(Contents())| == |old(ring.Contents())| && Contents() == old(Contents())[k..]
        && (r.Some? <==> FirstBad(taken, readable) == k)
        && (r.Some? ==> leftover == old(leftover) && old(Contents())[..k] == Somes(r.value))
        && (r.None? ==> leftover == LeftBy(old(leftover), taken, FirstBad(taken, readable)))
    {
      hide Owned, Unmade, Load, Messages, FirstBad, LeftBy, Somes;
      ghost var q, k := ring.Contents(), HowMany(maxItems, |ring.Contents()|);
      assert q[..k] + q[k..] == q;
      var recs, wake := ring.GetMany(maxItems);
      assert recs == q[..k] && ring.Contents() == q[k..];
      hide HowMany, Readable, Queue;
      r := MaterializeAll(recs, readable, q[k..]);
    }
  }
}
