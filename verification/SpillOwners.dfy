/** Who owns a ring's spill objects (rust/src/ring.rs: put, get, get_many, the
    pending table, unlink), over any number of producers and consumers that may be
    killed between any two of their steps. A name is a number: no two objects ever share
    one (Spill.ObjectNamesUnique). */
module SpillOwners {
  import opened Wrappers
  import Spill

  const PENDING_SLOTS: nat := 48

  datatype Rec = Inline | Spilled(name: nat)

  datatype Pc =
    | Idle
    | Holding(name: nat, slot: Option<nat>)    // put: object made, no record yet
    | Published(name: nat, slot: Option<nat>)  // put: record queued, table entry still there
    | Dropping(name: nat)                      // put that gave up: entry cleared, object not yet removed
    | Taking(names: seq<nat>)                  // get, get_many: records popped, more may be
    | Reading(names: seq<nat>)                 // then: their objects, not yet read and removed
    | Dead

  // `objects` exist, of which `disk` are files. `parts` are files left by writes
  // that failed, `unread` what gets that failed had popped and left. Of killed
  // processes, `waiting` were producers with a table entry; `leaked` is what the
  // others held.
  datatype State = State(
    procs: seq<Pc>, ring: seq<Rec>, objects: set<nat>, disk: set<nat>, pending: seq<Option<nat>>,
    next: nat, parts: set<nat>, unread: set<nat>, waiting: set<nat>, leaked: set<nat>)

  datatype Action =
    | Spill(t: nat, file: bool) | FailWrite(t: nat) | PutInline(t: nat) | PutSpill(t: nat) | ClearSlot(t: nat)
    | Note(t: nat, i: nat) | GiveUp(t: nat) | Drop(t: nat)
    | Pop(t: nat) | PopsDone(t: nat) | ReadDone(t: nat) | ReadFails(t: nat) | Kill(t: nat)

  predicate Enabled(s: State, a: Action) {
    a.t < |s.procs| &&
    var p := s.procs[a.t];
    match a
    case Spill(_, _) => p.Idle?
    // The file is created and writing it fails; the put goes on waiting or ends.
    case FailWrite(_) => p.Idle?
    case PutInline(_) => p.Idle?
    case PutSpill(_) => p.Holding?
    case ClearSlot(_) => p.Published?
    case Note(_, i) => p.Holding? && p.slot.None? && p.name !in s.disk && i < |s.pending| && s.pending[i].None?
    case GiveUp(_) => p.Holding?
    case Drop(_) => p.Dropping?
    case Pop(_) => (p.Idle? || p.Taking?) && s.ring != []
    case PopsDone(_) => p.Taking?
    case ReadDone(_) => p.Reading? && p.names != []
    case ReadFails(_) => p.Reading? && p.names != []
    case Kill(_) => !p.Dead?
  }

  // What a process has of its own: an object without a record.
  function Names(p: Pc): seq<nat> {
    match p
    case Holding(n, _) => [n]
    case Dropping(n) => [n]
    case Taking(names) => names
    case Reading(names) => names
    case _ => []
  }

  // What a get leaves when reading its first object fails: that one, if it could
  // not be mapped (a file is removed in any case), and the ones behind it.
  function Unread(s: State, t: nat): set<nat>
    requires Enabled(s, ReadFails(t))
  {
    var names := s.procs[t].names;
    (set y | y in names[1..]) + if names[0] in s.disk then {} else {names[0]}
  }

  function Cleared(pending: seq<Option<nat>>, slot: Option<nat>): (r: seq<Option<nat>>)
    ensures |r| == |pending|
  {
    if slot.Some? && slot.value < |pending| then pending[slot.value := None] else pending
  }

  function NextPc(s: State, a: Action): Pc
    requires Enabled(s, a)
  {
    var p := s.procs[a.t];
    match a
    case Spill(_, _) => Holding(s.next, None)
    case FailWrite(_) => Idle
    case PutInline(_) => Idle
    case PutSpill(_) => Published(p.name, p.slot)
    case ClearSlot(_) => Idle
    case Note(_, i) => Holding(p.name, Some(i))
    case GiveUp(_) => Dropping(p.name)
    case Drop(_) => Idle
    case Pop(_) => Taking(Names(p) + if s.ring[0].Spilled? then [s.ring[0].name] else [])
    case PopsDone(_) => if p.names == [] then Idle else Reading(p.names)
    case ReadDone(_) => if |p.names| == 1 then Idle else Reading(p.names[1..])
    case ReadFails(_) => Idle
    case Kill(_) => Dead
  }

  function NextRing(s: State, a: Action): seq<Rec>
    requires Enabled(s, a)
  {
    match a
    case PutInline(_) => s.ring + [Inline]
    case PutSpill(_) => s.ring + [Spilled(s.procs[a.t].name)]
    case Pop(_) => s.ring[1..]
    case _ => s.ring
  }

  function NextPending(s: State, a: Action): (r: seq<Option<nat>>)
    requires Enabled(s, a)
    ensures |r| == |s.pending|
  {
    match a
    case ClearSlot(_) => Cleared(s.pending, s.procs[a.t].slot)
    case GiveUp(_) => Cleared(s.pending, s.procs[a.t].slot)
    case Note(_, i) => s.pending[i := Some(s.procs[a.t].name)]
    case _ => s.pending
  }

  function Exec(s: State, a: Action): State
    requires Enabled(s, a)
  {
    var p := s.procs[a.t];
    var n := s.(procs := s.procs[a.t := NextPc(s, a)], ring := NextRing(s, a), pending := NextPending(s, a));
    match a
    case Spill(_, file) =>
      n.(objects := s.objects + {s.next}, disk := if file then s.disk + {s.next} else s.disk, next := s.next + 1)
    case FailWrite(_) =>
      n.(objects := s.objects + {s.next}, disk := s.disk + {s.next}, parts := s.parts + {s.next}, next := s.next + 1)
    case Drop(_) => n.(objects := s.objects - {p.name})
    case ReadDone(_) => n.(objects := s.objects - {p.names[0]})
    case ReadFails(t) =>
      n.(objects := if p.names[0] in s.disk then s.objects - {p.names[0]} else s.objects, unread := s.unread + Unread(s, t))
    case Kill(_) =>
      if p.Holding? && p.slot.Some? then n.(waiting := s.waiting + {p.name})
      else n.(leaked := s.leaked + set y | y in Names(p))
    case _ => n
  }

  ghost predicate Enabling(s: State, run: seq<Action>)
    decreases |run|
  {
    run == [] || (Enabled(s, run[0]) && Enabling(Exec(s, run[0]), run[1..]))
  }

  function ExecAll(s: State, run: seq<Action>): State
    requires Enabling(s, run)
    decreases |run|
  {
    if run == [] then s else ExecAll(Exec(s, run[0]), run[1..])
  }

  ghost predicate Initial(s: State) {
    && (forall t :: 0 <= t < |s.procs| ==> s.procs[t].Idle?)
    && s.ring == [] && s.objects == {} && s.disk == {} && s.parts == {} && s.unread == {}
    && s.waiting == {} && s.leaked == {}
    && |s.pending| == PENDING_SLOTS && forall i :: 0 <= i < |s.pending| ==> s.pending[i].None?
  }

  // ---------- one owner each ----------

  function One(b: bool): nat {
    if b then 1 else 0
  }

  function InRing(q: seq<Rec>, y: nat): nat {
    if q == [] then 0 else One(q[0] == Spilled(y)) + InRing(q[1..], y)
  }

  function Times(names: seq<nat>, y: nat): nat {
    if names == [] then 0 else One(names[0] == y) + Times(names[1..], y)
  }

  function HeldBy(ps: seq<Pc>, y: nat): nat {
    if ps == [] then 0 else Times(Names(ps[0]), y) + HeldBy(ps[1..], y)
  }

  // An object exists exactly if someone owns it, and then it has one owner: one
  // record, one put or get in progress, a failed write or read, or a killed
  // process.
  predicate OneOwner(s: State, y: nat) {
    One(y in s.objects)
    == InRing(s.ring, y) + HeldBy(s.procs, y)
       + One(y in s.parts) + One(y in s.unread) + One(y in s.waiting) + One(y in s.leaked)
  }

  function SlotOf(p: Pc): Option<nat> {
    if p.Holding? || p.Published? then p.slot else None
  }

  // A producer's table entry names its object, and is nobody else's.
  predicate SlotOk(s: State, t: nat)
    requires t < |s.procs|
  {
    var p := s.procs[t];
    SlotOf(p).Some? ==>
      && SlotOf(p).value < |s.pending| && s.pending[SlotOf(p).value] == Some(p.name)
      && forall u :: 0 <= u < |s.procs| && u != t ==> SlotOf(s.procs[u]) != SlotOf(p)
  }

  // The entry of a producer killed while it waited stays in the table.
  ghost predicate EntryStays(s: State, y: nat) {
    exists i :: 0 <= i < |s.pending| && s.pending[i] == Some(y) && NobodysSlot(s, i)
  }

  predicate NobodysSlot(s: State, i: nat) {
    forall t :: 0 <= t < |s.procs| ==> SlotOf(s.procs[t]) != Some(i)
  }

  ghost predicate Inv(s: State) {
    && (forall y :: OneOwner(s, y))
    && (forall y :: y in s.objects ==> y < s.next)
    && (forall t :: 0 <= t < |s.procs| ==> SlotOk(s, t))
    && (forall y :: y in s.waiting ==> EntryStays(s, y))
  }

  lemma {:induction false} InRingAppend(q: seq<Rec>, r: Rec, y: nat)
    ensures InRing(q + [r], y) == InRing(q, y) + One(r == Spilled(y))
  {
    if q == [] {
      assert (q + [r])[1..] == [];
    } else {
      InRingAppend(q[1..], r, y);
      assert (q + [r])[1..] == q[1..] + [r];
    }
  }

  lemma {:induction false} TimesAppend(q: seq<nat>, x: nat, y: nat)
    ensures Times(q + [x], y) == Times(q, y) + One(x == y)
  {
    if q == [] {
      assert (q + [x])[1..] == [];
    } else {
      TimesAppend(q[1..], x, y);
      assert (q + [x])[1..] == q[1..] + [x];
    }
  }

  lemma {:induction false} TimesIn(q: seq<nat>, y: nat)
    ensures Times(q, y) > 0 <==> y in q
  {
    if q != [] {
      TimesIn(q[1..], y);
    }
  }

  lemma {:induction false} HeldByUpdate(ps: seq<Pc>, t: nat, p: Pc, y: nat)
    requires t < |ps|
    ensures HeldBy(ps[t := p], y) + Times(Names(ps[t]), y) == HeldBy(ps, y) + Times(Names(p), y)
    ensures Times(Names(ps[t]), y) <= HeldBy(ps, y)
  {
    hide Times, Names;
    if t == 0 {
      assert ps[t := p][1..] == ps[1..];
    } else {
      HeldByUpdate(ps[1..], t - 1, p, y);
      assert ps[t := p][1..] == ps[1..][t - 1 := p];
    }
  }

  // What a step does to the names its process holds.
  lemma NamesMove(s: State, a: Action, y: nat)
    requires Enabled(s, a)
    ensures var p := s.procs[a.t];
      && (a.Pop? ==> Times(Names(NextPc(s, a)), y) == Times(Names(p), y) + One(s.ring[0] == Spilled(y)))
      && (a.PopsDone? || a.Note? || a.GiveUp? || a.PutInline? || a.FailWrite? || a.ClearSlot? ==>
            Names(NextPc(s, a)) == Names(p))
      && (a.Spill? ==> Names(p) == [] && Times(Names(NextPc(s, a)), y) == One(s.next == y))
      && (p.Holding? || p.Dropping? ==> Names(p) == [p.name] && Times(Names(p), y) == One(p.name == y))
      && (a.ReadDone? || a.ReadFails? ==>
            Names(p) == p.names && p.names != [] && Times(p.names, y) == One(p.names[0] == y) + Times(p.names[1..], y))
      && (a.ReadDone? ==> Names(NextPc(s, a)) == p.names[1..])
      && (a.ReadFails? || a.Kill? || a.PutSpill? || a.Drop? ==> Names(NextPc(s, a)) == [])
  {
    if a.Pop? && s.ring[0].Spilled? {
      TimesAppend(Names(s.procs[a.t]), s.ring[0].name, y);
    } else if a.Pop? {
      assert Names(s.procs[a.t]) + [] == Names(s.procs[a.t]);
    }
  }

  lemma StepOwner(s: State, a: Action, y: nat)
    requires Inv(s) && Enabled(s, a)
    ensures OneOwner(Exec(s, a), y)
  {
    hide HeldBy, SlotOk, EntryStays, NextPending, NextPc, Names, NextRing, InRing;
    assert OneOwner(s, y) && s.next !in s.objects;
    var p := s.procs[a.t];
    HeldByUpdate(s.procs, a.t, NextPc(s, a), y);
    NamesMove(s, a, y);
    RingMoves(s, a, y);
    TimesIn(Names(p), y);
    if a.ReadFails? {
      TimesIn(p.names[1..], y);
    }
  }

  lemma RingMoves(s: State, a: Action, y: nat)
    requires Enabled(s, a)
    ensures InRing(NextRing(s, a), y) + One(a.Pop? && s.ring[0] == Spilled(y))
         == InRing(s.ring, y) + One(a.PutSpill? && s.procs[a.t].name == y)
  {
    match a {
      case PutInline(_) => InRingAppend(s.ring, Inline, y);
      case PutSpill(_) => InRingAppend(s.ring, Spilled(s.procs[a.t].name), y);
      case Pop(_) => InRingFirst(s.ring, y);
      case _ =>
    }
  }

  lemma InRingFirst(q: seq<Rec>, y: nat)
    requires q != []
    ensures InRing(q, y) == One(q[0] == Spilled(y)) + InRing(q[1..], y)
  {
  }

  lemma StepSlot(s: State, a: Action, t: nat)
    requires Inv(s) && Enabled(s, a) && t < |s.procs|
    ensures SlotOk(Exec(s, a), t)
  {
    hide OneOwner, EntryStays, NextRing;
    assert SlotOk(s, t) && SlotOk(s, a.t);
    var n := Exec(s, a);
    forall u | 0 <= u < |s.procs| && u != t && SlotOf(n.procs[t]).Some?
      ensures SlotOf(n.procs[u]) != SlotOf(n.procs[t])
    {
      assert SlotOk(s, u);
    }
  }

  lemma StepEntry(s: State, a: Action, y: nat)
    requires Inv(s) && Enabled(s, a) && y in Exec(s, a).waiting
    ensures EntryStays(Exec(s, a), y)
  {
    hide OneOwner, NextRing;
    var n := Exec(s, a);
    assert SlotOk(s, a.t);
    if y in s.waiting {
      assert EntryStays(s, y);
      var i :| 0 <= i < |s.pending| && s.pending[i] == Some(y) && NobodysSlot(s, i);
      assert n.pending[i] == Some(y) && NobodysSlot(n, i);
    } else {
      var i := s.procs[a.t].slot.value;
      assert n.pending[i] == Some(y) && NobodysSlot(n, i);
    }
  }

  lemma StepKeepsInv(s: State, a: Action)
    requires Inv(s) && Enabled(s, a)
    ensures Inv(Exec(s, a))
  {
    hide OneOwner, SlotOk, EntryStays, NextRing, NextPending, NextPc;
    var n := Exec(s, a);
    forall y ensures OneOwner(n, y) { StepOwner(s, a, y); }
    forall t | 0 <= t < |n.procs| ensures SlotOk(n, t) { StepSlot(s, a, t); }
    forall y | y in n.waiting ensures EntryStays(n, y) { StepEntry(s, a, y); }
  }

  lemma {:induction false} NothingHeld(ps: seq<Pc>, y: nat)
    requires forall t :: 0 <= t < |ps| ==> Names(ps[t]) == []
    ensures HeldBy(ps, y) == 0
  {
    if ps != [] {
      NothingHeld(ps[1..], y);
    }
  }

  lemma InitialInv(s: State)
    requires Initial(s)
    ensures Inv(s)
  {
    forall y ensures OneOwner(s, y) { NothingHeld(s.procs, y); }
  }

  lemma {:induction false} RunKeepsInv(s: State, run: seq<Action>)
    requires Inv(s) && Enabling(s, run)
    ensures Inv(ExecAll(s, run))
    decreases |run|
  {
    hide Inv, Enabled, Exec;
    if run != [] {
      StepKeepsInv(s, run[0]);
      RunKeepsInv(Exec(s, run[0]), run[1..]);
    }
  }

  // In every reachable state an object has exactly one owner, and everything
  // owned exists.
  lemma SpillsHaveOneOwner(s: State, run: seq<Action>, y: nat)
    requires Initial(s) && Enabling(s, run)
    ensures OneOwner(ExecAll(s, run), y)
  {
    hide Initial, OneOwner, Exec, Enabled, SlotOk, EntryStays;
    InitialInv(s);
    RunKeepsInv(s, run);
  }

  // ---------- deaths, failures and teardown ----------

  ghost predicate Quiet(s: State) {
    forall t :: 0 <= t < |s.procs| ==> s.procs[t].Idle? || s.procs[t].Dead?
  }

  // What exists, or existed, without a record or a process at work on it.
  function Ownerless(s: State): set<nat> {
    s.parts + s.unread + s.waiting + s.leaked
  }

  // A step that leaves an object so: a write that fails once its file is there, a
  // read that fails on an object in shared memory or before more spills, a death
  // of a process that has an object.
  predicate Orphans(s: State, a: Action)
    requires Enabled(s, a)
  {
    match a
    case FailWrite(_) => true
    case ReadFails(t) => |s.procs[t].names| > 1 || s.procs[t].names[0] !in s.disk
    case Kill(t) => Names(s.procs[t]) != []
    case _ => false
  }

  ghost predicate SomeOrphan(s: State, run: seq<Action>)
    requires Enabling(s, run)
    decreases |run|
  {
    run != [] && (Orphans(s, run[0]) || SomeOrphan(Exec(s, run[0]), run[1..]))
  }

  lemma OrphanStep(s: State, a: Action)
    requires Enabled(s, a)
    ensures Ownerless(s) <= Ownerless(Exec(s, a))
    ensures if Orphans(s, a) then Ownerless(Exec(s, a)) != {} else Ownerless(Exec(s, a)) == Ownerless(s)
  {
    hide NextPc, NextRing, NextPending;
    var n, p := Exec(s, a), s.procs[a.t];
    if a.ReadFails? {
      assert |p.names| > 1 ==> p.names[1..][0] in n.unread;
      assert p.names[0] !in s.disk ==> p.names[0] in n.unread;
      assert !Orphans(s, a) ==> Unread(s, a.t) == {};
    } else if a.Kill? {
      assert Names(p) != [] ==> Names(p)[0] in n.waiting + n.leaked;
    } else if a.FailWrite? {
      assert s.next in n.parts;
    }
  }

  lemma {:induction false} OrphanRun(s: State, run: seq<Action>)
    requires Enabling(s, run)
    ensures Ownerless(s) <= Ownerless(ExecAll(s, run))
    ensures Ownerless(ExecAll(s, run)) == {} <==> Ownerless(s) == {} && !SomeOrphan(s, run)
    decreases |run|
  {
    if run != [] {
      var n := Exec(s, run[0]);
      hide Exec, Enabled, Ownerless, Orphans;
      OrphanStep(s, run[0]);
      OrphanRun(n, run[1..]);
    }
  }

  // With no put or get under way, the objects are those the queued records name,
  // one record each, and the ownerless ones.
  lemma QuietObjects(s: State, run: seq<Action>, y: nat)
    requires Initial(s) && Enabling(s, run) && Quiet(ExecAll(s, run))
    ensures var n := ExecAll(s, run);
            One(y in n.objects) == InRing(n.ring, y) + One(y in Ownerless(n))
  {
    hide Exec, Enabled, InRing, HeldBy, Enabling, ExecAll, Initial;
    SpillsHaveOneOwner(s, run, y);
    NothingHeld(ExecAll(s, run).procs, y);
  }

  // So nothing but the records' objects is there if and only if no step left one
  // ownerless.
  lemma LeftoversExactly(s: State, run: seq<Action>)
    requires Initial(s) && Enabling(s, run) && Quiet(ExecAll(s, run))
    ensures var n := ExecAll(s, run);
            (forall y :: One(y in n.objects) == InRing(n.ring, y)) <==> !SomeOrphan(s, run)
  {
    hide Exec, Enabled, InRing, Enabling, ExecAll, Quiet, SomeOrphan;
    var n := ExecAll(s, run);
    forall y ensures One(y in n.objects) == InRing(n.ring, y) + One(y in Ownerless(n)) {
      QuietObjects(s, run, y);
    }
    OrphanRun(s, run);
    hide Initial, Ownerless;
    if Ownerless(n) != {} {
      var y :| y in Ownerless(n);
      assert One(y in n.objects) != InRing(n.ring, y);
    }
  }

  // A put that waits on a full disk leaves a file with every try, under a new
  // name each.
  function Retries(t: nat, k: nat): seq<Action> {
    if k == 0 then [] else [FailWrite(t)] + Retries(t, k - 1)
  }

  lemma {:induction false} EveryRetryLeavesAFile(s: State, t: nat, k: nat)
    requires Inv(s) && t < |s.procs| && s.procs[t].Idle? && s.parts <= s.objects
    ensures Enabling(s, Retries(t, k))
    ensures var n := ExecAll(s, Retries(t, k));
            n.ring == s.ring && |n.parts| == |s.parts| + k && n.parts <= n.objects && n.procs == s.procs
    decreases k
  {
    if k > 0 {
      var n := Exec(s, FailWrite(t));
      StepKeepsInv(s, FailWrite(t));
      hide Inv;
      assert Retries(t, k)[1..] == Retries(t, k - 1);
      assert n.procs == s.procs;
      assert s.next !in s.parts by { Unused(s); }
      EveryRetryLeavesAFile(n, t, k - 1);
    }
  }

  lemma Unused(s: State)
    requires Inv(s)
    ensures s.next !in s.objects
  {
  }

  // ---------- a failed read ----------

  lemma {:induction false} Append(s: State, run: seq<Action>, a: Action)
    requires Enabling(s, run) && Enabled(ExecAll(s, run), a)
    ensures Enabling(s, run + [a]) && ExecAll(s, run + [a]) == Exec(ExecAll(s, run), a)
    decreases |run|
  {
    hide Exec, Enabled;
    assert (run + [a])[0] == if run == [] then a else run[0];
    if run == [] {
      assert (run + [a])[1..] == [];
    } else {
      assert (run + [a])[1..] == run[1..] + [a];
      Append(Exec(s, run[0]), run[1..], a);
    }
  }

  // k messages put by way of shared memory, and then taken by one get_many.
  function Puts(t: nat, k: nat): seq<Action> {
    if k == 0 then [] else Puts(t, k - 1) + [Spill(t, false)] + [PutSpill(t)] + [ClearSlot(t)]
  }

  function Pops(t: nat, k: nat): seq<Action> {
    if k == 0 then [] else Pops(t, k - 1) + [Pop(t)]
  }

  function Numbers(first: nat, k: nat): (q: seq<nat>)
    ensures |q| == k && forall i :: 0 <= i < k ==> q[i] == first + i
  {
    if k == 0 then [] else Numbers(first, k - 1) + [first + k - 1]
  }

  function Records(names: seq<nat>): (q: seq<Rec>)
    ensures |q| == |names| && forall i :: 0 <= i < |q| ==> q[i] == Spilled(names[i])
  {
    if names == [] then [] else Records(names[..|names| - 1]) + [Spilled(names[|names| - 1])]
  }

  // The state with k messages queued, and with the first k of them taken.
  function Full(s: State, k: nat): State {
    s.(ring := Records(Numbers(s.next, k)), next := s.next + k, objects := s.objects + set y | y in Numbers(s.next, k))
  }

  function Taken(s: State, t: nat, all: nat, k: nat): State
    requires t < |s.procs| && k <= all
  {
    var f := Full(s, all);
    if k == 0 then f else f.(procs := s.procs[t := Taking(Numbers(s.next, k))], ring := f.ring[k..])
  }

  // One more message queued.
  function Queued(s: State): State {
    s.(ring := s.ring + [Spilled(s.next)], next := s.next + 1, objects := s.objects + {s.next})
  }

  lemma PutDoes(s: State, t: nat)
    requires t < |s.procs| && s.procs[t].Idle?
    ensures var s1 := s.(procs := s.procs[t := Holding(s.next, None)], objects := s.objects + {s.next}, next := s.next + 1);
      var s2 := s1.(procs := s.procs[t := Published(s.next, None)], ring := s.ring + [Spilled(s.next)]);
      && Enabled(s, Spill(t, false)) && Exec(s, Spill(t, false)) == s1
      && Enabled(s1, PutSpill(t)) && Exec(s1, PutSpill(t)) == s2
      && Enabled(s2, ClearSlot(t)) && Exec(s2, ClearSlot(t)) == Queued(s)
  {
    assert s.procs[t := Idle] == s.procs;
  }

  lemma PutRun(s: State, run: seq<Action>, m: State, t: nat)
    requires Enabling(s, run) && ExecAll(s, run) == m && t < |m.procs| && m.procs[t].Idle?
    ensures var more := run + [Spill(t, false)] + [PutSpill(t)] + [ClearSlot(t)];
      Enabling(s, more) && ExecAll(s, more) == Queued(m)
  {
    hide Exec, Enabled, Enabling, ExecAll, Queued;
    PutDoes(m, t);
    Append(s, run, Spill(t, false));
    Append(s, run + [Spill(t, false)], PutSpill(t));
    Append(s, run + [Spill(t, false)] + [PutSpill(t)], ClearSlot(t));
  }

  lemma {:induction false} PutsRun(s: State, t: nat, k: nat)
    requires t < |s.procs| && s.procs[t].Idle? && s.ring == []
    ensures Enabling(s, Puts(t, k)) && ExecAll(s, Puts(t, k)) == Full(s, k)
  {
    if k == 0 {
      assert s.objects == Full(s, 0).objects;
    } else {
      hide Exec, Enabled, Enabling, ExecAll, Queued, Full;
      PutsRun(s, t, k - 1);
      OneMore(s, k);
      PutRun(s, Puts(t, k - 1), Full(s, k - 1), t);
    }
  }

  lemma OneMore(s: State, k: nat)
    requires k > 0
    ensures Full(s, k) == Queued(Full(s, k - 1)) && Full(s, k - 1).procs == s.procs
  {
    hide Numbers, Records;
    MoreRecords(s.next, k);
    OneMoreIn(s.objects, Numbers(s.next, k - 1), s.next + k - 1);
  }

  lemma OneMoreIn(objects: set<nat>, q: seq<nat>, y: nat)
    ensures objects + (set z | z in q + [y]) == (objects + set z | z in q) + {y}
  {
  }

  lemma MoreRecords(first: nat, k: nat)
    requires k > 0
    ensures Numbers(first, k) == Numbers(first, k - 1) + [first + k - 1]
    ensures Records(Numbers(first, k)) == Records(Numbers(first, k - 1)) + [Spilled(first + k - 1)]
  {
    var names := Numbers(first, k);
    assert names[..k - 1] == Numbers(first, k - 1) && names[k - 1] == first + k - 1;
  }

  lemma TakenIs(s: State, t: nat, all: nat, k: nat)
    requires t < |s.procs| && s.procs[t].Idle? && k < all
    ensures var m, n := Taken(s, t, all, k), Taken(s, t, all, k + 1);
      && m.ring != [] && m.ring[0] == Spilled(s.next + k) && (m.procs[t].Idle? || m.procs[t].Taking?)
      && Names(m.procs[t]) == Numbers(s.next, k) && |m.procs| == |s.procs|
      && n == m.(procs := m.procs[t := Taking(Numbers(s.next, k) + [s.next + k])], ring := m.ring[1..])
  {
    var q := Full(s, all).ring;
    assert Taken(s, t, all, k).ring == q[k..] && q[k..][1..] == q[k + 1..] && q[k] == Spilled(s.next + k);
    assert Numbers(s.next, k + 1) == Numbers(s.next, k) + [s.next + k];
    hide Records;
  }

  lemma PopDoes(s: State, t: nat, all: nat, k: nat)
    requires t < |s.procs| && s.procs[t].Idle? && k < all
    ensures Enabled(Taken(s, t, all, k), Pop(t)) && Exec(Taken(s, t, all, k), Pop(t)) == Taken(s, t, all, k + 1)
  {
    hide Taken, Numbers, Names;
    TakenIs(s, t, all, k);
  }

  lemma {:induction false} PopsRun(s: State, t: nat, all: nat, k: nat)
    requires t < |s.procs| && s.procs[t].Idle? && s.ring == [] && k <= all
    ensures Enabling(s, Puts(t, all) + Pops(t, k)) && ExecAll(s, Puts(t, all) + Pops(t, k)) == Taken(s, t, all, k)
    decreases k
  {
    hide Exec, Enabled, Enabling, ExecAll, Full;
    if k == 0 {
      PutsRun(s, t, all);
      assert Puts(t, all) + Pops(t, 0) == Puts(t, all);
    } else {
      PopsRun(s, t, all, k - 1);
      PopDoes(s, t, all, k - 1);
      Append(s, Puts(t, all) + Pops(t, k - 1), Pop(t));
      assert Puts(t, all) + Pops(t, k) == Puts(t, all) + Pops(t, k - 1) + [Pop(t)];
    }
  }

  // The get_many cannot map the first of its objects: all k messages are gone, and
  // all k objects stay, with nobody killed and no write failed.
  lemma FailedReadLeavesAll(s: State, t: nat, k: nat)
    requires Initial(s) && t < |s.procs| && k > 0
    ensures var run := Puts(t, k) + Pops(t, k) + [PopsDone(t)] + [ReadFails(t)];
      && Enabling(s, run) && Quiet(ExecAll(s, run)) && ExecAll(s, run).ring == []
      && forall y :: y in ExecAll(s, run).objects <==> s.next <= y < s.next + k
  {
    hide Enabling, ExecAll, Puts, Pops;
    PopsRun(s, t, k, k);
    FailDoes(s, t, k);
    var n := Taken(s, t, k, k);
    var n1 := n.(procs := n.procs[t := Reading(Numbers(s.next, k))]);
    hide Taken, Exec, Enabled, Initial, Quiet;
    Append(s, Puts(t, k) + Pops(t, k), PopsDone(t));
    Append(s, Puts(t, k) + Pops(t, k) + [PopsDone(t)], ReadFails(t));
  }

  lemma FailDoes(s: State, t: nat, k: nat)
    requires Initial(s) && t < |s.procs| && k > 0
    ensures var n := Taken(s, t, k, k);
      var n1 := n.(procs := n.procs[t := Reading(Numbers(s.next, k))]);
      && Enabled(n, PopsDone(t)) && Exec(n, PopsDone(t)) == n1
      && Enabled(n1, ReadFails(t)) && Quiet(Exec(n1, ReadFails(t))) && Exec(n1, ReadFails(t)).ring == []
      && forall y :: y in Exec(n1, ReadFails(t)).objects <==> s.next <= y < s.next + k
  {
    hide Numbers, Records;
    var names := Numbers(s.next, k);
    forall y | s.next <= y < s.next + k ensures y in names {
      assert names[y - s.next] == y;
    }
    var n := Taken(s, t, k, k);
    assert n.ring == [] && n.disk == {} && n.procs == s.procs[t := Taking(names)];
    assert n.objects == set y | y in names;
    var n1 := n.(procs := n.procs[t := Reading(names)]);
    assert Enabled(n, PopsDone(t)) && Exec(n, PopsDone(t)) == n1;
    var n2 := Exec(n1, ReadFails(t));
    assert n2.procs == n1.procs[t := Idle] && n2.objects == n.objects && n2.ring == n.ring;
    hide Taken, Exec;
  }

  function RingNames(q: seq<Rec>): set<nat> {
    if q == [] then {} else (if q[0].Spilled? then {q[0].name} else {}) + RingNames(q[1..])
  }

  // The ring's name, and which process made which object.
  datatype Naming = Naming(ring: Spill.Bytes, pid: nat -> nat)

  function NameOf(g: Naming, y: nat): Spill.Bytes {
    Spill.ObjectName(g.ring, g.pid(y), y)
  }

  // unlink's sweep of /dev/shm takes every name that starts so.
  predicate Swept(ring: Spill.Bytes, name: Spill.Bytes) {
    ring + [Spill.LETTER_S] <= name
  }

  // What unlink leaves: it removes the objects of queued records and of table
  // entries, the spill directory and, on Linux, what the sweep takes.
  ghost function AfterUnlink(s: State, g: Naming, linux: bool): set<nat> {
    set y | y in s.objects && y !in RingNames(s.ring) && Some(y) !in s.pending && y !in s.disk
            && !(linux && Swept(g.ring, NameOf(g, y)))
  }

  // The sweep takes no spill of another ring, nor any ring.
  lemma SweepSparesOthers(g: Naming, other: Spill.Bytes, pid: nat, k: nat)
    requires Spill.LETTER_S !in g.ring && Spill.LETTER_S !in other && other != g.ring
    ensures !Swept(g.ring, Spill.ObjectName(other, pid, k)) && !Swept(g.ring, other)
  {
    Spill.SweepIsExact(g.ring, other, pid, k);
    var prefix := g.ring + [Spill.LETTER_S];
    assert Spill.LETTER_S in prefix;
    if prefix <= other {
      PrefixMembers(prefix, other);
    }
  }

  lemma PrefixMembers(prefix: Spill.Bytes, s: Spill.Bytes)
    requires prefix <= s
    ensures forall c :: c in prefix ==> c in s
  {
  }

  lemma {:induction false} RingNamesCounted(q: seq<Rec>, y: nat)
    ensures y in RingNames(q) <==> InRing(q, y) > 0
  {
    if q != [] {
      RingNamesCounted(q[1..], y);
    }
  }

  // Teardown with nobody at work leaves at most the shared-memory objects of
  // failed gets and of processes killed at other points than a producer's wait; on
  // Linux it leaves nothing.
  lemma TeardownLeavesOnlyLeaks(s: State, run: seq<Action>, g: Naming, linux: bool)
    requires Initial(s) && Enabling(s, run) && Quiet(ExecAll(s, run)) && Spill.LETTER_S !in g.ring
    ensures var n := ExecAll(s, run);
            && AfterUnlink(n, g, linux) <= (n.leaked + n.unread) - n.disk
            && (linux || !SomeOrphan(s, run) ==> AfterUnlink(n, g, linux) == {})
  {
    hide Exec, Enabled, InRing, HeldBy, RingNames, SlotOk, OneOwner, Swept, EntryStays, SomeOrphan, ExecAll, Enabling;
    var n := ExecAll(s, run);
    InitialInv(s);
    RunKeepsInv(s, run);
    PartsOnDisk(s, run);
    OrphanRun(s, run);
    forall y | y in AfterUnlink(n, g, linux) ensures y in n.leaked + n.unread && y !in n.disk && !linux {
      LeftIsLeaked(n, y);
      OwnIsSwept(g, y);
    }
  }

  lemma OwnIsSwept(g: Naming, y: nat)
    requires Spill.LETTER_S !in g.ring
    ensures Swept(g.ring, NameOf(g, y))
  {
    Spill.SweepIsExact(g.ring, g.ring, g.pid(y), y);
  }

  lemma {:induction false} PartsStayOnDisk(s: State, run: seq<Action>)
    requires Enabling(s, run) && s.parts <= s.disk
    ensures ExecAll(s, run).parts <= ExecAll(s, run).disk
    decreases |run|
  {
    hide NextPc, NextRing, NextPending;
    if run != [] {
      PartsStayOnDisk(Exec(s, run[0]), run[1..]);
    }
  }

  lemma PartsOnDisk(s: State, run: seq<Action>)
    requires Initial(s) && Enabling(s, run)
    ensures ExecAll(s, run).parts <= ExecAll(s, run).disk
  {
    PartsStayOnDisk(s, run);
  }

  lemma LeftIsLeaked(s: State, y: nat)
    requires Inv(s) && Quiet(s) && y in s.objects && y !in RingNames(s.ring) && Some(y) !in s.pending
    requires y !in s.parts
    ensures y in s.leaked + s.unread
  {
    hide InRing, HeldBy, RingNames, SlotOk;
    assert OneOwner(s, y);
    NothingHeld(s.procs, y);
    RingNamesCounted(s.ring, y);
    assert y in s.waiting ==> EntryStays(s, y);
  }

  // ---------- what the calls come to, undisturbed ----------

  lemma Ends(s: State)
    ensures Enabling(s, []) && ExecAll(s, []) == s
  {
  }

  lemma Then(s: State, a: Action, n: State, run: seq<Action>)
    requires Enabled(s, a) && Exec(s, a) == n && Enabling(n, run)
    ensures Enabling(s, [a] + run) && ExecAll(s, [a] + run) == ExecAll(n, run)
  {
    hide Enabled, Exec;
    assert ([a] + run)[1..] == run;
  }

  // With thread t at p, its new object y, and the table as given.
  function With(s: State, t: nat, p: Pc, y: nat, file: bool, pending: seq<Option<nat>>): State
    requires t < |s.procs|
  {
    s.(procs := s.procs[t := p], objects := s.objects + {y}, disk := if file then s.disk + {y} else s.disk,
       pending := pending, next := y + 1)
  }

  lemma NotedSteps(s: State, t: nat, i: nat)
    requires t < |s.procs| && s.procs[t].Idle? && i < |s.pending| && s.pending[i].None? && s.next !in s.disk
    ensures var y := s.next;
      var s1 := With(s, t, Holding(y, None), y, false, s.pending);
      var s2 := With(s, t, Holding(y, Some(i)), y, false, s.pending[i := Some(y)]);
      && Enabled(s, Spill(t, false)) && Exec(s, Spill(t, false)) == s1
      && Enabled(s1, Note(t, i)) && Exec(s1, Note(t, i)) == s2
  {
  }

  lemma NotedEnds(s: State, t: nat, i: nat)
    requires t < |s.procs| && s.procs[t].Idle? && i < |s.pending| && s.pending[i].None? && s.next !in s.objects
    ensures var y := s.next;
      var s2 := With(s, t, Holding(y, Some(i)), y, false, s.pending[i := Some(y)]);
      var p3 := s2.(procs := s.procs[t := Published(y, Some(i))], ring := s.ring + [Spilled(y)]);
      var g3 := With(s, t, Dropping(y), y, false, s.pending);
      && Enabled(s2, PutSpill(t)) && Exec(s2, PutSpill(t)) == p3
      && Enabled(p3, ClearSlot(t))
      && Exec(p3, ClearSlot(t)) == s.(ring := s.ring + [Spilled(y)], objects := s.objects + {y}, next := y + 1)
      && Enabled(s2, GiveUp(t)) && Exec(s2, GiveUp(t)) == g3
      && Enabled(g3, Drop(t)) && Exec(g3, Drop(t)) == s.(next := y + 1)
  {
    assert s.procs[t := Idle] == s.procs;
    assert s.pending[i := Some(s.next)][i := None] == s.pending;
    assert s.objects + {s.next} - {s.next} == s.objects;
  }

  // A put that has to wait notes its object; queued in the end, its record owns the
  // object and the entry is gone; given up, nothing is left of it.
  lemma WaitingPut(s: State, t: nat, i: nat)
    requires t < |s.procs| && s.procs[t].Idle? && i < |s.pending| && s.pending[i].None?
    requires s.next !in s.objects && s.next !in s.disk
    ensures var queued := [Spill(t, false)] + ([Note(t, i)] + ([PutSpill(t)] + ([ClearSlot(t)] + [])));
      && Enabling(s, queued)
      && ExecAll(s, queued) == s.(ring := s.ring + [Spilled(s.next)], objects := s.objects + {s.next}, next := s.next + 1)
    ensures var givenUp := [Spill(t, false)] + ([Note(t, i)] + ([GiveUp(t)] + ([Drop(t)] + [])));
      Enabling(s, givenUp) && ExecAll(s, givenUp) == s.(next := s.next + 1)
  {
    hide Enabling, ExecAll, Enabled, Exec, With;
    NotedSteps(s, t, i);
    NotedEnds(s, t, i);
    var y := s.next;
    var s1 := With(s, t, Holding(y, None), y, false, s.pending);
    var s2 := With(s, t, Holding(y, Some(i)), y, false, s.pending[i := Some(y)]);
    var p3 := s2.(procs := s.procs[t := Published(y, Some(i))], ring := s.ring + [Spilled(y)]);
    var queued := s.(ring := s.ring + [Spilled(y)], objects := s.objects + {y}, next := y + 1);
    Ends(queued);
    Then(p3, ClearSlot(t), queued, []);
    Then(s2, PutSpill(t), p3, [ClearSlot(t)] + []);
    Then(s1, Note(t, i), s2, [PutSpill(t)] + ([ClearSlot(t)] + []));
    Then(s, Spill(t, false), s1, [Note(t, i)] + ([PutSpill(t)] + ([ClearSlot(t)] + [])));
    var g3, over := With(s, t, Dropping(y), y, false, s.pending), s.(next := y + 1);
    Ends(over);
    Then(g3, Drop(t), over, []);
    Then(s2, GiveUp(t), g3, [Drop(t)] + []);
    Then(s1, Note(t, i), s2, [GiveUp(t)] + ([Drop(t)] + []));
    Then(s, Spill(t, false), s1, [Note(t, i)] + ([GiveUp(t)] + ([Drop(t)] + [])));
  }

  lemma QueuedSteps(s: State, t: nat, file: bool)
    requires t < |s.procs| && s.procs[t].Idle?
    ensures var y := s.next;
      var s1 := With(s, t, Holding(y, None), y, file, s.pending);
      var s2 := s1.(procs := s.procs[t := Published(y, None)], ring := s.ring + [Spilled(y)]);
      && Enabled(s, Spill(t, file)) && Exec(s, Spill(t, file)) == s1
      && Enabled(s1, PutSpill(t)) && Exec(s1, PutSpill(t)) == s2
      && Enabled(s2, ClearSlot(t)) && Exec(s2, ClearSlot(t)) == s2.(procs := s.procs)
    ensures Enabled(s, PutInline(t)) && Exec(s, PutInline(t)) == s.(ring := s.ring + [Inline])
  {
    assert s.procs[t := Idle] == s.procs;
  }

  lemma TakenSteps(s: State, u: nat, rest: seq<Rec>, y: nat)
    requires u < |s.procs| && s.procs[u].Idle?
    ensures var q := s.(ring := [Spilled(y)] + rest);
      var q1 := s.(ring := rest, procs := s.procs[u := Taking([y])]);
      var q2 := s.(ring := rest, procs := s.procs[u := Reading([y])]);
      && Enabled(q, Pop(u)) && Exec(q, Pop(u)) == q1 && Enabled(q1, PopsDone(u)) && Exec(q1, PopsDone(u)) == q2
      && Enabled(q2, ReadDone(u)) && Exec(q2, ReadDone(u)) == s.(ring := rest, objects := s.objects - {y})
    ensures var q := s.(ring := [Inline] + rest);
      var q1 := s.(ring := rest, procs := s.procs[u := Taking([])]);
      && Enabled(q, Pop(u)) && Exec(q, Pop(u)) == q1 && Enabled(q1, PopsDone(u)) && Exec(q1, PopsDone(u)) == s.(ring := rest)
  {
    var ps := s.procs;
    assert ps[u := Taking([y])][u := Reading([y])] == ps[u := Reading([y])];
    assert ps[u := Reading([y])][u := Idle] == ps && ps[u := Taking([])][u := Idle] == ps;
    var none: seq<nat> := [];
    assert none + [y] == [y] && none + none == none;
    assert ([Spilled(y)] + rest)[1..] == rest && ([Inline] + rest)[1..] == rest;
  }

  // What one process puts into an empty queue and another takes out leaves nothing
  // behind, whichever way it went.
  lemma PutAndTaken(s: State, t: nat, u: nat, file: bool)
    requires t < |s.procs| && u < |s.procs| && s.procs[t].Idle? && s.procs[u].Idle?
    requires s.ring == [] && s.next !in s.objects
    ensures var spilled :=
        [Spill(t, file)] + ([PutSpill(t)] + ([ClearSlot(t)] + ([Pop(u)] + ([PopsDone(u)] + ([ReadDone(u)] + [])))));
      && Enabling(s, spilled)
      && ExecAll(s, spilled) == s.(next := s.next + 1, disk := if file then s.disk + {s.next} else s.disk)
    ensures var inline := [PutInline(t)] + ([Pop(u)] + ([PopsDone(u)] + []));
      Enabling(s, inline) && ExecAll(s, inline) == s
  {
    hide Enabling, ExecAll, Enabled, Exec;
    QueuedSteps(s, t, file);
    var y := s.next;
    var s1 := With(s, t, Holding(y, None), y, file, s.pending);
    var s2 := s1.(procs := s.procs[t := Published(y, None)], ring := s.ring + [Spilled(y)]);
    var s3 := s2.(procs := s.procs);
    TakenSteps(s3, u, [], y);
    assert s.ring + [Spilled(y)] == [Spilled(y)] + [];
    var s4, s5 := s3.(ring := [], procs := s.procs[u := Taking([y])]), s3.(ring := [], procs := s.procs[u := Reading([y])]);
    var n := s3.(ring := [], objects := s3.objects - {y});
    assert n.objects == s.objects;
    Ends(n);
    Then(s5, ReadDone(u), n, []);
    Then(s4, PopsDone(u), s5, [ReadDone(u)] + []);
    Then(s3, Pop(u), s4, [PopsDone(u)] + ([ReadDone(u)] + []));
    Then(s2, ClearSlot(t), s3, [Pop(u)] + ([PopsDone(u)] + ([ReadDone(u)] + [])));
    Then(s1, PutSpill(t), s2, [ClearSlot(t)] + ([Pop(u)] + ([PopsDone(u)] + ([ReadDone(u)] + []))));
    Then(s, Spill(t, file), s1, [PutSpill(t)] + ([ClearSlot(t)] + ([Pop(u)] + ([PopsDone(u)] + ([ReadDone(u)] + [])))));
    InlineTaken(s, t, u);
  }

  lemma InlineTaken(s: State, t: nat, u: nat)
    requires t < |s.procs| && u < |s.procs| && s.procs[t].Idle? && s.procs[u].Idle? && s.ring == []
    ensures var inline := [PutInline(t)] + ([Pop(u)] + ([PopsDone(u)] + []));
      Enabling(s, inline) && ExecAll(s, inline) == s
  {
    hide Enabling, ExecAll, Enabled, Exec;
    QueuedSteps(s, t, false);
    TakenSteps(s, u, [], 0);
    assert s.ring + [Inline] == [Inline] + [] == [Inline];
    assert s.(ring := []) == s;
    var q, q1 := s.(ring := [Inline]), s.(procs := s.procs[u := Taking([])]);
    Ends(s);
    Then(q1, PopsDone(u), s, []);
    Then(q, Pop(u), q1, [PopsDone(u)] + []);
    Then(s, PutInline(t), q, [Pop(u)] + ([PopsDone(u)] + []));
  }

  function Reads(t: nat, k: nat): seq<Action> {
    if k == 0 then [] else [ReadDone(t)] + Reads(t, k - 1)
  }

  // A get that can read all it has taken removes exactly those objects.
  lemma {:induction false} ReadsAll(s: State, t: nat)
    requires t < |s.procs| && s.procs[t].Reading? && s.procs[t].names != []
    ensures var names := s.procs[t].names;
      && Enabling(s, Reads(t, |names|))
      && ExecAll(s, Reads(t, |names|)) == s.(procs := s.procs[t := Idle], objects := s.objects - set y | y in names)
    decreases |s.procs[t].names|
  {
    var names := s.procs[t].names;
    var n := Exec(s, ReadDone(t));
    var more := Reads(t, |names| - 1);
    assert names == [names[0]] + names[1..];
    if |names| == 1 {
      Ends(n);
      assert n.objects == s.objects - set y | y in names;
    } else {
      assert n == s.(procs := s.procs[t := Reading(names[1..])], objects := s.objects - {names[0]});
      ReadsAll(n, t);
      assert n.objects - (set y | y in names[1..]) == s.objects - set y | y in names;
    }
    hide Enabling, ExecAll, Exec;
    Then(s, ReadDone(t), n, more);
  }
}
