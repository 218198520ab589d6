/** Producers waiting for room in the ring (rust/src/ring.rs: put, finish_pops).
    Room is slots and bytes, a pop may make much of it, and it wakes one producer.
    What runs under the ring's lock is one step here (module WakeProtocol has the
    steps in between); no process is killed. */
module SpaceWaits {
  import opened RingLayout
  import RingCrash

  // `size` is that of a spill record: an inline payload without room spills.
  datatype Producer =
    | Out
    | Armed(size: nat, seen: nat)   // counted as waiting, about to sleep
    | Asleep(size: nat)
    | Awake(size: nat)              // about to try again
    // Waiting for disk space, which is not counted as waiting.
    | DiskArmed(seen: nat)
    | DiskAsleep
    | DiskAwake

  // `live` holds how far each live record reaches, a pad before it included;
  // `owed` wakes are still to be delivered.
  datatype State = State(
    cap: nat, maxsize: nat, head: nat, live: seq<nat>, sequence: nat, owed: nat, procs: seq<Producer>)

  datatype Action =
    | PutInline(t: nat, size: nat) | Try(t: nat, size: nat) | Sleep(t: nat) | TimeOut(t: nat)
    | Retry(t: nat) | GiveUp(t: nat)
    | Pop | Wake(t: nat) | NobodyToWake
    | DiskWait(t: nat) | DiskSleep(t: nat) | DiskTimeOut(t: nat) | DiskRetry(t: nat)

  function Sum(xs: seq<nat>): nat {
    if xs == [] then 0 else xs[0] + Sum(xs[1..])
  }

  function Tail(s: State): nat {
    s.head + Sum(s.live)
  }

  // Where a record placed at `tail` ends.
  function End(cap: nat, tail: nat, size: nat): (e: nat)
    requires cap > 0
    ensures e >= tail + size
  {
    tail + PadFor(cap, tail, size) + size
  }

  predicate RoomAt(cap: nat, maxsize: nat, head: nat, tail: nat, count: nat, size: nat)
    requires cap > 0
  {
    (maxsize == 0 || count < maxsize) && End(cap, tail, size) <= head + cap
  }

  // It is the room the ring itself asks for, and what a record is said to reach is
  // what the ring's tail moves by: the bytes as they are counted there.
  lemma RoomIsTheRings(m: RingCrash.Mem, maxsize: nat, r: Record)
    requires RingCrash.Readable(m)
    ensures RoomAt(|m.data|, maxsize, m.head, m.tail, m.count, SizeOf(r))
       <==> RingCrash.HasSlot(m, maxsize) && RingCrash.RoomFor(m, r)
    ensures SizeOf(r) == 8 + (|r.payload| + 7) / 8 * 8
    ensures End(|m.data|, m.tail, SizeOf(r)) == m.tail + RingCrash.Need(|m.data|, m.tail, |r.payload|)
  {
    RingCrash.NeedIs(|m.data|, m.tail, r);
    Align8IsMasking(|r.payload|);
    RingCrash.RoomExactly(m, maxsize, r);
    hide PadFor, Decode, Aligned;
  }

  predicate WellFormed(s: State) {
    s.cap > 0
  }

  predicate Room(s: State, size: nat)
    requires WellFormed(s)
  {
    RoomAt(s.cap, s.maxsize, s.head, Tail(s), |s.live|, size)
  }

  function Placed(s: State, size: nat): State
    requires WellFormed(s)
  {
    s.(live := s.live + [End(s.cap, Tail(s), size) - Tail(s)])
  }

  predicate OnFutex(p: Producer) {
    p.Asleep? || p.DiskAsleep?
  }

  predicate Counted(p: Producer) {
    p.Armed? || p.Asleep?
  }

  predicate Enabled(s: State, a: Action)
    requires WellFormed(s)
  {
    match a
    case Pop => s.live != []
    case NobodyToWake => s.owed > 0 && forall t :: 0 <= t < |s.procs| ==> !OnFutex(s.procs[t])
    case _ =>
      a.t < |s.procs| &&
      var p := s.procs[a.t];
      match a
      case PutInline(_, size) => p.Out? && size > 0 && Room(s, size)
      case Try(_, size) => p.Out? && size > 0
      case Sleep(_) => p.Armed?
      case TimeOut(_) => p.Asleep?
      case Retry(_) => p.Awake?
      case GiveUp(_) => p.Awake? && !Room(s, p.size)
      case Wake(_) => s.owed > 0 && OnFutex(p)
      case DiskWait(_) => p.Out?
      case DiskSleep(_) => p.DiskArmed?
      case DiskTimeOut(_) => p.DiskAsleep?
      case DiskRetry(_) => p.DiskAwake?
      case Pop => true
      case NobodyToWake => true
  }

  function Goto(s: State, t: nat, p: Producer): State
    requires t < |s.procs|
  {
    s.(procs := s.procs[t := p])
  }

  // One attempt under the lock: placed, or counted as waiting.
  function Attempt(s: State, t: nat, size: nat): State
    requires WellFormed(s) && t < |s.procs|
  {
    if Room(s, size) then Goto(Placed(s, size), t, Out) else Goto(s, t, Armed(size, s.sequence))
  }

  function Exec(s: State, a: Action): (n: State)
    requires WellFormed(s) && Enabled(s, a)
    ensures WellFormed(n) && |n.procs| == |s.procs|
  {
    match a
    case PutInline(_, size) => Placed(s, size)
    case Try(t, size) => Attempt(s, t, size)
    case Sleep(t) =>
      Goto(s, t, if s.procs[t].seen == s.sequence then Asleep(s.procs[t].size) else Awake(s.procs[t].size))
    case TimeOut(t) => Goto(s, t, Awake(s.procs[t].size))
    case Retry(t) => Attempt(s, t, s.procs[t].size)
    case GiveUp(t) => Goto(s, t, Out)
    case Pop =>
      s.(head := s.head + s.live[0], live := s.live[1..], sequence := s.sequence + 1,
         owed := s.owed + if exists t :: 0 <= t < |s.procs| && Counted(s.procs[t]) then 1 else 0)
    case Wake(t) => Goto(s, t, if s.procs[t].Asleep? then Awake(s.procs[t].size) else DiskAwake).(owed := s.owed - 1)
    case NobodyToWake => s.(owed := s.owed - 1)
    case DiskWait(t) => Goto(s, t, DiskArmed(s.sequence))
    case DiskSleep(t) => Goto(s, t, if s.procs[t].seen == s.sequence then DiskAsleep else DiskAwake)
    case DiskTimeOut(t) => Goto(s, t, DiskAwake)
    case DiskRetry(t) => Goto(s, t, Out)
  }

  ghost predicate Enabling(s: State, run: seq<Action>)
    requires WellFormed(s)
    decreases |run|
  {
    run == [] || (Enabled(s, run[0]) && Enabling(Exec(s, run[0]), run[1..]))
  }

  function ExecAll(s: State, run: seq<Action>): (n: State)
    requires WellFormed(s) && Enabling(s, run)
    ensures WellFormed(n)
    decreases |run|
  {
    if run == [] then s else ExecAll(Exec(s, run[0]), run[1..])
  }

  ghost predicate Initial(s: State) {
    && WellFormed(s) && s.head == 0 && s.live == [] && s.owed == 0
    && forall t :: 0 <= t < |s.procs| ==> s.procs[t].Out?
  }

  // Someone is on the way: a wake to be delivered, or a producer that tries again.
  predicate Going(p: Producer, sequence: nat) {
    p.Awake? || (p.Armed? && p.seen != sequence)
  }

  function AllGoing(ps: seq<Producer>, sequence: nat): nat {
    if ps == [] then 0 else (if Going(ps[0], sequence) then 1 else 0) + AllGoing(ps[1..], sequence)
  }

  // u sleeps, its record has room, and nobody is on the way.
  predicate LeftAsleep(s: State, u: nat)
    requires WellFormed(s)
  {
    u < |s.procs| && s.procs[u].Asleep? && Room(s, s.procs[u].size) && s.owed == 0 && AllGoing(s.procs, s.sequence) == 0
  }

  // ---------- how many records of one size have room ----------

  function Places(cap: nat, maxsize: nat, head: nat, tail: nat, count: nat, size: nat): nat
    requires cap > 0 && size > 0
    decreases head + cap + 1 - tail
  {
    if RoomAt(cap, maxsize, head, tail, count, size) then
      1 + Places(cap, maxsize, head, End(cap, tail, size), count + 1, size)
    else 0
  }

  function Placeable(s: State, size: nat): nat
    requires WellFormed(s) && size > 0
  {
    Places(s.cap, s.maxsize, s.head, Tail(s), |s.live|, size)
  }

  lemma EndMonotone(cap: nat, a: nat, b: nat, size: nat)
    requires cap > 0 && a <= b && size <= cap
    ensures End(cap, a, size) <= End(cap, b, size)
  {
    LapMonotone(a, b, cap);
    PosIsRemainder(a, cap);
    PosIsRemainder(b, cap);
    if Lap(a, cap) < Lap(b, cap) {
      LapsApart(Lap(a, cap), Lap(b, cap), cap);
    }
  }

  lemma LapsApart(k: nat, l: nat, cap: nat)
    requires k < l
    ensures k * cap + cap <= l * cap
  {
    var d: nat := l - k - 1;
    assert l * cap == k * cap + cap + d * cap;
  }

  // A fuller ring has room for no more.
  lemma {:induction false} FullerHoldsLess(cap: nat, maxsize: nat, head: nat, tail: nat, count: nat,
                                           tail': nat, count': nat, size: nat)
    requires cap > 0 && size > 0 && head <= tail <= tail' && count <= count'
    ensures Places(cap, maxsize, head, tail', count', size) <= Places(cap, maxsize, head, tail, count, size)
    decreases head + cap + 1 - tail'
  {
    hide End;
    if RoomAt(cap, maxsize, head, tail', count', size) {
      EndMonotone(cap, tail, tail', size);
      FullerHoldsLess(cap, maxsize, head, End(cap, tail, size), count + 1, End(cap, tail', size), count' + 1, size);
    }
  }

  // A pop of no more bytes than a record of this size makes room for at most one.
  lemma {:induction false} SmallPopFreesOne(cap: nat, maxsize: nat, head: nat, extent: nat, tail: nat, count: nat, size: nat)
    requires cap > 0 && size > 0 && head + extent <= tail && extent <= size && count > 0
    ensures Places(cap, maxsize, head + extent, tail, count - 1, size) <= Places(cap, maxsize, head, tail, count, size) + 1
    decreases head + cap + 1 - tail
  {
    hide End;
    var one := End(cap, tail, size);
    if RoomAt(cap, maxsize, head + extent, tail, count - 1, size)
       && RoomAt(cap, maxsize, head + extent, one, count, size) {
      assert End(cap, one, size) >= one + size;
      SmallPopFreesOne(cap, maxsize, head, extent, one, count + 1, size);
    }
  }

  // There is never room for more records than there are slots.
  lemma {:induction false} SlotsBound(cap: nat, maxsize: nat, head: nat, tail: nat, count: nat, size: nat)
    requires cap > 0 && size > 0 && 0 < maxsize
    ensures Places(cap, maxsize, head, tail, count, size) <= if count < maxsize then maxsize - count else 0
    decreases head + cap + 1 - tail
  {
    hide End;
    if RoomAt(cap, maxsize, head, tail, count, size) {
      SlotsBound(cap, maxsize, head, End(cap, tail, size), count + 1, size);
    }
  }

  lemma {:induction false} SumConcat(xs: seq<nat>, x: nat)
    ensures Sum(xs + [x]) == Sum(xs) + x
  {
    if xs == [] {
      assert ([] + [x])[1..] == [];
    } else {
      assert (xs + [x])[1..] == xs[1..] + [x];
      SumConcat(xs[1..], x);
    }
  }

  lemma PlacedTail(s: State, size: nat)
    requires WellFormed(s)
    ensures Tail(Placed(s, size)) == End(s.cap, Tail(s), size) && |Placed(s, size).live| == |s.live| + 1
  {
    hide End;
    SumConcat(s.live, End(s.cap, Tail(s), size) - Tail(s));
  }

  // ---------- when one wake per pop is enough ----------

  // The pop makes room for at most one more record of this size.
  predicate Gentle(s: State, size: nat)
    requires WellFormed(s) && Enabled(s, Pop) && size > 0
  {
    Placeable(Exec(s, Pop), size) <= Placeable(s, size) + 1
  }

  /** A pop does so if it frees no more bytes than such a record takes, or if free
      slots were what limited the ring. */
  lemma GentlePops(s: State, size: nat)
    requires WellFormed(s) && Enabled(s, Pop) && size > 0
    requires s.live[0] <= size || (0 < s.maxsize == |s.live| + Placeable(s, size))
    ensures Gentle(s, size)
  {
    var n := Exec(s, Pop);
    assert Tail(n) == Tail(s);
    hide Places;
    if s.live[0] <= size {
      SmallPopFreesOne(s.cap, s.maxsize, s.head, s.live[0], Tail(s), |s.live|, size);
    } else {
      SlotsBound(n.cap, n.maxsize, n.head, Tail(n), |n.live|, size);
    }
  }

  // All who wait do so with records of one size, none of them for the disk, and
  // no pop makes room for more than one.
  ghost predicate Orderly(s: State, run: seq<Action>, size: nat)
    requires WellFormed(s) && Enabling(s, run) && size > 0
    decreases |run|
  {
    run == [] ||
      (&& (run[0].Try? ==> run[0].size == size) && !run[0].DiskWait? && (run[0].Pop? ==> Gentle(s, size))
       && Orderly(Exec(s, run[0]), run[1..], size))
  }

  predicate ProducerOk(s: State, p: Producer, size: nat)
    requires WellFormed(s) && size > 0
  {
    match p
    case Out => true
    case Armed(x, seen) => x == size && seen <= s.sequence && (seen == s.sequence ==> Placeable(s, size) == 0)
    case Asleep(x) => x == size
    case Awake(x) => x == size
    case _ => false
  }

  ghost predicate Inv(s: State, size: nat)
    requires WellFormed(s) && size > 0
  {
    && (forall t :: 0 <= t < |s.procs| ==> ProducerOk(s, s.procs[t], size))
    && ((exists t :: 0 <= t < |s.procs| && s.procs[t].Asleep?) ==>
          Placeable(s, size) <= s.owed + AllGoing(s.procs, s.sequence))
  }

  lemma {:induction false} GoingUpdate(ps: seq<Producer>, t: nat, p: Producer, sequence: nat)
    requires t < |ps|
    ensures AllGoing(ps[t := p], sequence) + (if Going(ps[t], sequence) then 1 else 0)
         == AllGoing(ps, sequence) + if Going(p, sequence) then 1 else 0
  {
    if t == 0 {
      assert ps[t := p][1..] == ps[1..];
    } else {
      GoingUpdate(ps[1..], t - 1, p, sequence);
      assert ps[t := p][1..] == ps[1..][t - 1 := p];
    }
  }

  lemma {:induction false} GoingGrows(ps: seq<Producer>, sequence: nat)
    requires forall t :: 0 <= t < |ps| && ps[t].Armed? ==> ps[t].seen <= sequence
    ensures AllGoing(ps, sequence) <= AllGoing(ps, sequence + 1)
  {
    if ps != [] {
      GoingGrows(ps[1..], sequence);
    }
  }

  // A record placed takes one place of its size, and never makes one.
  lemma PlacedTakesOne(s: State, size: nat, other: nat)
    requires WellFormed(s) && size > 0 && Room(s, other)
    ensures Placeable(Placed(s, other), size) <= Placeable(s, size)
    ensures other == size ==> Placeable(Placed(s, other), size) + 1 == Placeable(s, size)
  {
    hide End;
    PlacedTail(s, other);
    FullerHoldsLess(s.cap, s.maxsize, s.head, Tail(s), |s.live|, End(s.cap, Tail(s), other), |s.live| + 1, size);
  }

  lemma PopKeepsInv(s: State, size: nat)
    requires WellFormed(s) && size > 0 && Inv(s, size) && Enabled(s, Pop) && Gentle(s, size)
    ensures Inv(Exec(s, Pop), size)
  {
    hide Placeable, AllGoing;
    assert forall t :: 0 <= t < |s.procs| ==> ProducerOk(s, s.procs[t], size);
    GoingGrows(s.procs, s.sequence);
  }

  lemma PutKeepsInv(s: State, size: nat, a: Action)
    requires WellFormed(s) && size > 0 && Inv(s, size) && a.PutInline? && Enabled(s, a)
    ensures Inv(Exec(s, a), size)
  {
    hide Placeable, AllGoing;
    assert forall t :: 0 <= t < |s.procs| ==> ProducerOk(s, s.procs[t], size);
    PlacedTakesOne(s, size, a.size);
  }

  lemma AttemptKeepsInv(s: State, size: nat, t: nat)
    requires WellFormed(s) && size > 0 && Inv(s, size) && t < |s.procs|
    requires s.procs[t].Out? || s.procs[t].Awake?
    ensures Inv(Attempt(s, t, size), size)
  {
    assert Room(s, size) <==> Placeable(s, size) > 0;
    hide Placeable, AllGoing, Room;
    assert forall t :: 0 <= t < |s.procs| ==> ProducerOk(s, s.procs[t], size);
    if Room(s, size) {
      PlacedTakesOne(s, size, size);
      GoingUpdate(s.procs, t, Out, s.sequence);
    } else {
      GoingUpdate(s.procs, t, Armed(size, s.sequence), s.sequence);
    }
  }

  lemma OthersKeepInv(s: State, size: nat, a: Action)
    requires WellFormed(s) && size > 0 && Inv(s, size) && Enabled(s, a) && !a.DiskWait?
    requires !(a.Pop? || a.PutInline? || a.Try? || a.Retry? || a.NobodyToWake?)
    ensures Inv(Exec(s, a), size)
  {
    assert Room(s, size) <==> Placeable(s, size) > 0;
    hide Placeable, AllGoing, Room;
    assert forall t :: 0 <= t < |s.procs| ==> ProducerOk(s, s.procs[t], size);
    assert Placeable(Exec(s, a), size) == Placeable(s, size) by { SameRing(s, Exec(s, a), size); }
    GoingUpdate(s.procs, a.t, Exec(s, a).procs[a.t], s.sequence);
  }

  lemma SameRing(s: State, n: State, size: nat)
    requires WellFormed(s) && size > 0 && n == s.(owed := n.owed, procs := n.procs)
    ensures Placeable(n, size) == Placeable(s, size)
  {
  }

  lemma StepKeepsInv(s: State, size: nat, a: Action)
    requires WellFormed(s) && size > 0 && Inv(s, size) && Enabled(s, a)
    requires (a.Try? ==> a.size == size) && !a.DiskWait? && (a.Pop? ==> Gentle(s, size))
    ensures Inv(Exec(s, a), size)
  {
    if a.Pop? { PopKeepsInv(s, size); }
    else if a.PutInline? { PutKeepsInv(s, size, a); }
    else if a.Try? { AttemptKeepsInv(s, size, a.t); }
    else if a.Retry? {
      assert ProducerOk(s, s.procs[a.t], size);
      AttemptKeepsInv(s, size, a.t);
    }
    else if a.NobodyToWake? { SameRing(s, Exec(s, a), size); }
    else { OthersKeepInv(s, size, a); }
  }

  lemma {:induction false} RunKeepsInv(s: State, size: nat, run: seq<Action>)
    requires WellFormed(s) && size > 0 && Inv(s, size) && Enabling(s, run) && Orderly(s, run, size)
    ensures Inv(ExecAll(s, run), size)
    decreases |run|
  {
    hide Inv, Enabled, Exec, Gentle;
    if run != [] {
      StepKeepsInv(s, size, run[0]);
      RunKeepsInv(Exec(s, run[0]), size, run[1..]);
    }
  }

  /** If all who wait have records of one size and no pop makes room for more than
      one of them, one wake a pop is enough: nobody is left asleep with room for
      its record and nobody on the way. */
  lemma NobodyLeftAsleep(s: State, size: nat, run: seq<Action>, u: nat)
    requires Initial(s) && size > 0 && Enabling(s, run) && Orderly(s, run, size)
    ensures !LeftAsleep(ExecAll(s, run), u)
  {
    RunKeepsInv(s, size, run);
    var n := ExecAll(s, run);
    if u < |n.procs| && n.procs[u].Asleep? {
      assert ProducerOk(n, n.procs[u], size);
    }
  }

  // ---------- when it is not ----------

  // A producer whose slice ended tries again: its record goes in, behind all the
  // others and as far as its end, or there is no room, and then it sleeps on as if
  // nothing had been, or leaves and is no longer counted.
  lemma SliceEnds(s: State, t: nat)
    requires WellFormed(s) && t < |s.procs| && s.procs[t].Asleep?
    ensures Enabled(s, TimeOut(t)) && Enabled(Exec(s, TimeOut(t)), Retry(t))
    ensures var size, w := s.procs[t].size, Exec(s, TimeOut(t));
      var r := Exec(w, Retry(t));
      && (Enabled(w, GiveUp(t)) <==> !Room(s, size))
      && (Room(s, size) ==> s.live <= r.live && Tail(r) == End(s.cap, Tail(s), size) && r.procs == s.procs[t := Out])
      && (!Room(s, size) ==> Enabled(r, Sleep(t)) && Exec(r, Sleep(t)) == s)
      && (!Room(s, size) ==> Exec(w, GiveUp(t)) == s.(procs := s.procs[t := Out]))
  {
    var size, w := s.procs[t].size, Exec(s, TimeOut(t));
    assert w.procs[t := Out] == s.procs[t := Out];
    assert s.procs[t := Asleep(size)] == s.procs;
    PlacedTail(s, size);
    hide End, Sum;
  }

  // A pop owes a wake if and only if a producer is counted as waiting. One that
  // waits for disk space is not, and sleeps if and only if nothing was popped since
  // it looked; when its slice ends it tries again.
  lemma DiskWaits(s: State, t: nat)
    requires WellFormed(s) && s.live != [] && t < |s.procs| && s.procs[t].Out?
    ensures var w := Exec(s, DiskWait(t));
      && (Exec(w, Pop).owed > w.owed <==> exists u :: 0 <= u < |s.procs| && Counted(s.procs[u]))
      && Exec(Exec(w, Pop), DiskSleep(t)).procs[t] == DiskAwake
      && Exec(Exec(Exec(w, DiskSleep(t)), DiskTimeOut(t)), DiskRetry(t)) == s
  {
    var w := Exec(s, DiskWait(t));
    assert forall u :: 0 <= u < |s.procs| ==> (Counted(w.procs[u]) <==> Counted(s.procs[u]));
    assert s.procs[t := Out] == s.procs;
  }

  // A producer that is counted but not asleep yet when something is popped does not
  // need the wake that finds nobody: it does not go to sleep.
  lemma WakeNotNeeded(s: State, t: nat)
    requires WellFormed(s) && s.live != [] && s.owed == 0 && t < |s.procs|
    requires s.procs[t].Armed? && s.procs[t].seen == s.sequence
    requires forall u :: 0 <= u < |s.procs| ==> !OnFutex(s.procs[u])
    ensures var n := Exec(s, Pop);
      && n.owed == 1 && Enabled(n, NobodyToWake) && Enabled(Exec(n, NobodyToWake), Sleep(t))
      && Exec(Exec(n, NobodyToWake), Sleep(t))
         == n.(owed := 0, procs := s.procs[t := Awake(s.procs[t].size)])
  {
    assert Counted(s.procs[t]);
  }

  // What a pop with two asleep, of whom it wakes t, comes to once t has tried.
  function PopAndWake(t: nat): seq<Action> {
    [Pop, Wake(t), Retry(t)]
  }

  // There is room after the pop for u's record too, or for u's and not for t's.
  predicate LeavesRoom(s: State, t: nat, u: nat)
    requires WellFormed(s) && s.live != [] && t < |s.procs| && u < |s.procs|
    requires s.procs[t].Asleep? && s.procs[u].Asleep?
  {
    var a, b, head, count := s.procs[t].size, s.procs[u].size, s.head + s.live[0], |s.live| - 1;
    if RoomAt(s.cap, s.maxsize, head, Tail(s), count, a) then
      RoomAt(s.cap, s.maxsize, head, End(s.cap, Tail(s), a), count + 1, b)
    else
      RoomAt(s.cap, s.maxsize, head, Tail(s), count, b)
  }

  /** Exactly when one wake is not enough, for records of any sizes: with t and u
      asleep and nobody on the way, a pop that wakes t leaves u asleep with room
      for its record and nobody on the way if and only if it made room for both,
      or for u's only. */
  lemma PopLeavesOneAsleep(s: State, t: nat, u: nat)
    requires WellFormed(s) && s.live != [] && t < |s.procs| && u < |s.procs| && t != u
    requires s.procs[t].Asleep? && s.procs[u].Asleep? && s.owed == 0
    requires AllGoing(s.procs, s.sequence) == 0
    requires forall v :: 0 <= v < |s.procs| ==> !s.procs[v].Armed?
    ensures Enabling(s, PopAndWake(t))
    ensures LeftAsleep(ExecAll(s, PopAndWake(t)), u) <==> LeavesRoom(s, t, u)
  {
    Unroll(s, t);
    hide Enabling, ExecAll;
    var s2 := Woken(s, t);
    assert Exec(Exec(s, Pop), Wake(t)) == s2 by { assert Counted(s.procs[t]); }
    hide Exec;
    TriedAgain(s, t, u);
  }

  // The state once the woken producer is back.
  function Woken(s: State, t: nat): State
    requires s.live != [] && t < |s.procs| && s.procs[t].Asleep?
  {
    s.(head := s.head + s.live[0], live := s.live[1..], sequence := s.sequence + 1,
       procs := s.procs[t := Awake(s.procs[t].size)])
  }

  lemma TriedAgain(s: State, t: nat, u: nat)
    requires WellFormed(s) && s.live != [] && t < |s.procs| && u < |s.procs| && t != u
    requires s.procs[t].Asleep? && s.procs[u].Asleep? && s.owed == 0
    requires AllGoing(s.procs, s.sequence) == 0
    requires forall v :: 0 <= v < |s.procs| ==> !s.procs[v].Armed?
    ensures LeftAsleep(Exec(Woken(s, t), Retry(t)), u) <==> LeavesRoom(s, t, u)
  {
    var a, s2 := s.procs[t].size, Woken(s, t);
    assert Tail(s2) == Tail(s);
    NotArmed(s.procs, s.sequence, s.sequence + 1);
    GoingUpdate(s.procs, t, Awake(a), s2.sequence);
    GoingUpdate(s2.procs, t, Exec(s2, Retry(t)).procs[t], s2.sequence);
    hide AllGoing, End, Sum;
    PlacedTail(s2, a);
  }

  lemma Prepend(s: State, a: Action, n: State, run: seq<Action>)
    requires WellFormed(s) && Enabled(s, a) && Exec(s, a) == n && Enabling(n, run)
    ensures Enabling(s, [a] + run) && ExecAll(s, [a] + run) == ExecAll(n, run)
  {
    hide Enabled, Exec;
    assert ([a] + run)[1..] == run;
  }

  lemma NoSteps(s: State)
    requires WellFormed(s)
    ensures Enabling(s, []) && ExecAll(s, []) == s
  {
  }

  lemma Unroll(s: State, t: nat)
    requires WellFormed(s) && s.live != [] && t < |s.procs| && s.procs[t].Asleep?
    ensures var s1 := Exec(s, Pop);
      && Enabled(s1, Wake(t)) && Enabled(Exec(s1, Wake(t)), Retry(t)) && Enabling(s, PopAndWake(t))
      && ExecAll(s, PopAndWake(t)) == Exec(Exec(s1, Wake(t)), Retry(t))
  {
    hide RoomAt, Placed, Enabling, ExecAll, Attempt;
    assert Counted(s.procs[t]);
    var s1 := Exec(s, Pop);
    var s2 := Exec(s1, Wake(t));
    var s3 := Exec(s2, Retry(t));
    NoSteps(s3);
    Prepend(s2, Retry(t), s3, []);
    Prepend(s1, Wake(t), s2, [Retry(t)] + []);
    Prepend(s, Pop, s1, [Wake(t)] + ([Retry(t)] + []));
    assert PopAndWake(t) == [Pop] + ([Wake(t)] + ([Retry(t)] + []));
  }

  lemma {:induction false} NotArmed(ps: seq<Producer>, a: nat, b: nat)
    requires forall v :: 0 <= v < |ps| ==> !ps[v].Armed?
    ensures AllGoing(ps, a) == AllGoing(ps, b)
  {
    if ps != [] {
      NotArmed(ps[1..], a, b);
    }
  }

  /** A pop of no more bytes than u's record takes never makes room for both. */
  lemma SmallPopLeavesNone(s: State, t: nat, u: nat)
    requires WellFormed(s) && s.live != [] && t < |s.procs| && u < |s.procs|
    requires s.procs[t].Asleep? && s.procs[u].Asleep? && (s.maxsize == 0 || |s.live| < s.maxsize)
    requires !Room(s, s.procs[t].size) && s.live[0] <= s.procs[u].size
    ensures LeavesRoom(s, t, u) ==>
      !RoomAt(s.cap, s.maxsize, s.head + s.live[0], Tail(s), |s.live| - 1, s.procs[t].size)
  {
    var a, b := s.procs[t].size, s.procs[u].size;
    assert End(s.cap, End(s.cap, Tail(s), a), b) >= End(s.cap, Tail(s), a) + b;
    hide End;
  }

  // ---------- two runs from an empty ring ----------

  function Ring(maxsize: nat, head: nat, live: seq<nat>, sequence: nat, owed: nat, p: Producer, q: Producer): State {
    State(65536, maxsize, head, live, sequence, owed, [p, q])
  }

  const QUARTER: nat := 16384

  // Four records of a quarter of the ring fill it.
  function Filled(k: nat): State {
    Ring(0, 0, if k == 0 then [] else if k == 1 then [QUARTER] else if k == 2 then [QUARTER, QUARTER]
               else if k == 3 then [QUARTER, QUARTER, QUARTER] else FULL, 0, 0, Out, Out)
  }

  const FULL: seq<nat> := [QUARTER, QUARTER, QUARTER, QUARTER]

  lemma Filling(k: nat)
    requires k < 4
    ensures Enabled(Filled(k), PutInline(0, QUARTER)) && Exec(Filled(k), PutInline(0, QUARTER)) == Filled(k + 1)
  {
    var s := Filled(k);
    SumOfQuarters(k);
    assert Pos(k * QUARTER, 65536) == k * QUARTER;
    assert Exec(s, PutInline(0, QUARTER)).live == Filled(k + 1).live;
  }

  lemma {:induction false} SumOfQuarters(k: nat)
    requires k <= 4
    ensures Sum(Filled(k).live) == k * QUARTER
  {
    if k > 0 {
      SumOfQuarters(k - 1);
      SumConcat(Filled(k - 1).live, QUARTER);
      assert Filled(k).live == Filled(k - 1).live + [QUARTER];
    }
  }

  // Both producers of two spill records of 56 bytes (names of 33 to 40 bytes) go to
  // sleep on a full ring.
  function Sleepy(k: nat): State {
    if k == 0 then Filled(4)
    else if k == 1 then Ring(0, 0, FULL, 0, 0, Armed(56, 0), Out)
    else if k == 2 then Ring(0, 0, FULL, 0, 0, Asleep(56), Out)
    else if k == 3 then Ring(0, 0, FULL, 0, 0, Asleep(56), Armed(56, 0))
    else Ring(0, 0, FULL, 0, 0, Asleep(56), Asleep(56))
  }

  const SLEEPS: seq<Action> := [Try(0, 56), Sleep(0), Try(1, 56), Sleep(1)]

  lemma Sleeping(k: nat)
    requires k < 4
    ensures Enabled(Sleepy(k), SLEEPS[k]) && Exec(Sleepy(k), SLEEPS[k]) == Sleepy(k + 1)
  {
    SumOfQuarters(4);
    assert Pos(65536, 65536) == 0;
    assert Exec(Sleepy(k), SLEEPS[k]).procs == Sleepy(k + 1).procs;
  }

  lemma {:induction false} SleepyRuns(k: nat, rest: seq<Action>)
    requires k <= 4 && Enabling(Sleepy(4), rest)
    ensures Enabling(Sleepy(k), SLEEPS[k..] + rest)
    ensures ExecAll(Sleepy(k), SLEEPS[k..] + rest) == ExecAll(Sleepy(4), rest)
    decreases 4 - k
  {
    hide Enabling, ExecAll, Enabled, Exec;
    if k == 4 {
      assert SLEEPS[k..] + rest == rest;
    } else {
      SleepyRuns(k + 1, rest);
      Sleeping(k);
      Prepend(Sleepy(k), SLEEPS[k], Sleepy(k + 1), SLEEPS[k + 1..] + rest);
      assert SLEEPS[k..] + rest == [SLEEPS[k]] + (SLEEPS[k + 1..] + rest);
    }
  }

  lemma {:induction false} FilledRuns(k: nat, rest: seq<Action>) returns (run: seq<Action>)
    requires k <= 4 && Enabling(Filled(4), rest)
    ensures Enabling(Filled(k), run) && ExecAll(Filled(k), run) == ExecAll(Filled(4), rest)
    decreases 4 - k
  {
    hide Enabling, ExecAll, Enabled, Exec;
    if k == 4 {
      run := rest;
    } else {
      var later := FilledRuns(k + 1, rest);
      Filling(k);
      Prepend(Filled(k), PutInline(0, QUARTER), Filled(k + 1), later);
      run := [PutInline(0, QUARTER)] + later;
    }
  }

  lemma SecondHasRoom()
    ensures LeavesRoom(Sleepy(4), 0, 1) && AllGoing(Sleepy(4).procs, 0) == 0
  {
    SumOfQuarters(4);
    assert Pos(65536, 65536) == 0 && Pos(56, 65536) == 56;
    assert Pos(65536 + 56, 65536) == Pos(56, 65536);
    var ps := Sleepy(4).procs;
    assert ps[1..] == [Asleep(56)] && [Asleep(56)][1..] == [];
  }

  /** Two producers sleep on bytes, one pop makes room for both and wakes one; it
      goes, and the other sleeps on beside its room with nobody on the way. */
  lemma OnePopForTwo() returns (run: seq<Action>)
    ensures Initial(Filled(0)) && Enabling(Filled(0), run) && LeftAsleep(ExecAll(Filled(0), run), 1)
  {
    hide Enabling, ExecAll, LeavesRoom, LeftAsleep;
    SecondHasRoom();
    PopLeavesOneAsleep(Sleepy(4), 0, 1);
    SleepyRuns(0, PopAndWake(0));
    run := FilledRuns(0, SLEEPS[0..] + PopAndWake(0));
  }

  // ---------- waiting for the disk ----------

  // A queue of one slot; one producer waits for the slot, the other for the disk.
  function Full1(k: nat): State {
    if k == 0 then Ring(1, 0, [], 0, 0, Out, Out)
    else if k == 1 then Ring(1, 0, [16], 0, 0, Out, Out)
    else if k == 2 then Ring(1, 0, [16], 0, 0, Armed(56, 0), Out)
    else if k == 3 then Ring(1, 0, [16], 0, 0, Asleep(56), Out)
    else if k == 4 then Ring(1, 0, [16], 0, 0, Asleep(56), DiskArmed(0))
    else if k == 5 then Ring(1, 0, [16], 0, 0, Asleep(56), DiskAsleep)
    else if k == 6 then Ring(1, 16, [], 1, 1, Asleep(56), DiskAsleep)
    else Ring(1, 16, [], 1, 0, Asleep(56), DiskAwake)
  }

  const STEAL: seq<Action> := [PutInline(1, 16), Try(0, 56), Sleep(0), DiskWait(1), DiskSleep(1), Pop, Wake(1)]

  lemma Stealing(k: nat)
    requires k < 7
    ensures Enabled(Full1(k), STEAL[k]) && Exec(Full1(k), STEAL[k]) == Full1(k + 1)
  {
    hide Enabled, Exec, Full1;
    if k == 0 {
      StealPut();
    } else if k == 1 {
      StealTry();
    } else if k < 5 {
      StealGoesOn(k);
    } else {
      StealEnds(k);
    }
  }

  lemma StealPut()
    ensures Enabled(Full1(0), PutInline(1, 16)) && Exec(Full1(0), PutInline(1, 16)) == Full1(1)
  {
    hide Enabled, Exec;
    FirstPut(Full1(0), 1, 16);
  }

  // Into an empty ring a record goes without a pad.
  lemma FirstPut(s: State, t: nat, size: nat)
    requires s.head == 0 && s.live == [] && 0 < size <= s.cap && t < |s.procs| && s.procs[t].Out?
    ensures Enabled(s, PutInline(t, size)) && Exec(s, PutInline(t, size)) == s.(live := [size])
  {
    assert Tail(s) == 0 && Pos(0, s.cap) == 0;
  }

  lemma StealTry()
    ensures Enabled(Full1(1), Try(0, 56)) && Exec(Full1(1), Try(0, 56)) == Full1(2)
  {
    hide Sum, Pos;
    assert Exec(Full1(1), Try(0, 56)).procs == Full1(2).procs;
  }

  lemma StealGoesOn(k: nat)
    requires 2 <= k < 5
    ensures Enabled(Full1(k), STEAL[k]) && Exec(Full1(k), STEAL[k]) == Full1(k + 1)
  {
    hide Sum, Pos, Attempt, RoomAt, Placed;
    assert Exec(Full1(k), STEAL[k]).procs == Full1(k + 1).procs;
  }

  lemma StealEnds(k: nat)
    requires 5 <= k < 7
    ensures Enabled(Full1(k), STEAL[k]) && Exec(Full1(k), STEAL[k]) == Full1(k + 1)
  {
    hide Sum, Pos, Attempt, RoomAt, Placed;
    var s, n := Full1(k), Exec(Full1(k), STEAL[k]);
    assert [16][1..] == [] && Counted(s.procs[0]);
    assert n.procs == Full1(k + 1).procs && n.live == Full1(k + 1).live;
  }

  lemma {:induction false} StealRuns(k: nat)
    requires k <= 7
    ensures Enabling(Full1(k), STEAL[k..]) && ExecAll(Full1(k), STEAL[k..]) == Full1(7)
    decreases 7 - k
  {
    hide Enabled, Exec;
    if k < 7 {
      hide Enabling, ExecAll;
      StealRuns(k + 1);
      Stealing(k);
      Prepend(Full1(k), STEAL[k], Full1(k + 1), STEAL[k + 1..]);
      assert STEAL[k..] == [STEAL[k]] + STEAL[k + 1..];
    }
  }

  /** A producer that waits for disk space sleeps on the same word without being
      counted, and can take the one wake of a pop: the producer the slot was for
      sleeps on. */
  lemma DiskWaiterTakesTheWake()
    ensures Initial(Full1(0)) && Enabling(Full1(0), STEAL) && LeftAsleep(ExecAll(Full1(0), STEAL), 0)
  {
    hide Enabling, ExecAll, LeftAsleep;
    StealRuns(0);
    assert STEAL[0..] == STEAL;
    SlotIsFree();
  }

  lemma SlotIsFree()
    ensures LeftAsleep(Full1(7), 0)
  {
    var n := Full1(7);
    assert n.procs[1..] == [DiskAwake] && [DiskAwake][1..] == [];
    assert Sum([]) == 0 && Pos(16, 65536) == 16;
  }
}
