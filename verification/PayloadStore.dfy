/** The payload store's allocator and reference counts (rust/src/store.rs: alloc,
    alloc_dedicated, adopt, Block::share, Drop for Block) as interleaved steps of
    any number of threads. Every store made under the store's lock is a step of
    its own, and a thread may be killed between any two; whether a new segment can
    be had (the cap, /dev/shm; module StoreCap) and whether an existing one can be
    mapped is left to the environment. */
module PayloadStore {
  import opened Wrappers
  import opened SizeClass

  // A block: its segment, its offset there, and which kind of segment that is.
  datatype Ref = Ref(seg: nat, off: nat, dedicated: bool)

  type Content = seq<bv8>

  datatype Pc =
    | Idle
    | WantAlloc(cls: nat)
    | Choosing(cls: nat)             // lock held
    | Claimed(cls: nat, id: nat)     // lock held: nreg advanced
    | Created(cls: nat, id: nat)     // lock held: segment id exists
    | Current(cls: nat, id: nat)     // lock held: cur stored, bump still stale
    | Got(b: Ref, cls: nat, mapped: bool)   // lock held, block chosen
    | NoRoom                         // lock held, nothing to hand out
    | Fresh(b: Ref, cls: nat, mapped: bool) // lock released, header still old
    | Counted(b: Ref, cls: nat)      // rc stored
    | Filling(b: Ref)                // header complete, payload being written
    | WantFree(b: Ref)               // took the last reference away
    | Freeing(b: Ref)                // lock held
    | Linked(b: Ref)                 // lock held: b's next stored
    | Pushed                         // lock held: free-list head stored
    | Dead

  // History: what each block is being used for. Invariants tie each mark to the
  // state: whose hands hold the block, which list it is on, whether its segment
  // exists.
  datatype Status = Listed(cls: nat) | Owned(t: nat) | Shared | Leaked | Unlinked

  // The store's control segment.
  datatype Ctl = Ctl(nreg: nat, nded: nat, cur: Option<nat>, bump: nat, free: seq<Option<Ref>>)

  // The blocks' headers and payloads, and the dedicated segments there are.
  datatype Blocks = Blocks(
    next: map<Ref, Option<Ref>>, rc: map<Ref, nat>, cls: map<Ref, nat>, mem: map<Ref, Content>, segs: set<nat>)

  // References: the Block objects of each thread, handles in messages nobody has
  // adopted yet, and references that went with killed threads and lost messages.
  datatype Owners = Owners(objs: seq<multiset<Ref>>, handles: multiset<Ref>, gone: multiset<Ref>)

  // History variables: the class every block was carved for, the free lists as
  // sequences, and what each block is being used for.
  datatype History = History(carved: map<Ref, nat>, lists: seq<seq<Ref>>, status: map<Ref, Status>)

  datatype State = State(
    segBytes: nat, pcs: seq<Pc>, lock: Option<nat>, ctl: Ctl, blk: Blocks, own: Owners, hist: History)

  datatype Action =
    | AskAlloc(t: nat, cls: nat) | LockAlloc(t: nat)
    | PopFree(t: nat) | BumpCurrent(t: nat) | GiveUp(t: nat)
    | ClaimId(t: nat) | CreateSegment(t: nat) | CreateFails(t: nat) | SetCurrent(t: nat) | SetBump(t: nat)
    | PopFails(t: nat) | UnlockAlloc(t: nat) | UnlockEmpty(t: nat) | AttachFails(t: nat)
    | SetRc(t: nat) | SetClass(t: nat) | Fill(t: nat, v: Content) | Publish(t: nat)
    | AllocDedicated(t: nat) | DedicatedFails(t: nat)
    | Share(t: nat, b: Ref) | Adopt(t: nat, b: Ref) | LoseHandle(t: nat, b: Ref) | Pass(t: nat, u: nat, b: Ref)
    | Drop(t: nat, b: Ref)
    | LockFree(t: nat) | LinkFree(t: nat) | PushFree(t: nat) | UnlockFree(t: nat) | RemoveSegment(t: nat)
    | Kill(t: nat)

  // The size the owner of a block may use.
  function SizeOf(cls: nat): nat {
    SizeOfClass(cls)
  }

  function Holding(p: Pc): bool {
    match p
    case Choosing(_) | Claimed(_, _) | Created(_, _) | Current(_, _) | Got(_, _, _) | NoRoom
       | Freeing(_) | Linked(_) | Pushed => true
    case _ => false
  }

  // The block a thread has to itself.
  function OwnBlock(p: Pc): Option<Ref> {
    match p
    case Got(b, _, _) => Some(b)
    case Fresh(b, _, _) => Some(b)
    case Counted(b, _) => Some(b)
    case Filling(b) => Some(b)
    case WantFree(b) => Some(b)
    case Freeing(b) => Some(b)
    case Linked(b) => Some(b)
    case _ => None
  }

  predicate WellFormed(s: State) {
    |s.own.objs| == |s.pcs| && |s.ctl.free| == |s.hist.lists| == NCLASS
  }

  predicate RoomInCurrent(s: State, cls: nat) {
    s.ctl.cur.Some? && s.ctl.bump + SizeOf(cls) <= s.segBytes
  }

  predicate Enabled(s: State, a: Action)
    requires WellFormed(s)
  {
    a.t < |s.pcs| &&
    var p := s.pcs[a.t];
    match a
    case AskAlloc(_, cls) => p.Idle? && cls < NCLASS && SizeOf(cls) <= s.segBytes
    case LockAlloc(_) => p.WantAlloc? && s.lock.None?
    case PopFree(_) => p.Choosing? && p.cls < NCLASS && s.ctl.free[p.cls].Some? && s.ctl.free[p.cls].value in s.blk.next
    case BumpCurrent(_) => p.Choosing? && p.cls < NCLASS && s.ctl.free[p.cls].None? && RoomInCurrent(s, p.cls)
    case GiveUp(_) => p.Choosing? && p.cls < NCLASS && s.ctl.free[p.cls].None? && !RoomInCurrent(s, p.cls)
    case ClaimId(_) => p.Choosing? && p.cls < NCLASS && s.ctl.free[p.cls].None? && !RoomInCurrent(s, p.cls)
    case CreateSegment(_) => p.Claimed?
    case CreateFails(_) => p.Claimed?
    case SetCurrent(_) => p.Created?
    case SetBump(_) => p.Current?
    case PopFails(_) => p.Choosing? && p.cls < NCLASS && s.ctl.free[p.cls].Some?
    case UnlockAlloc(_) => p.Got?
    case UnlockEmpty(_) => p.NoRoom?
    case AttachFails(_) => p.Fresh? && !p.mapped
    case SetRc(_) => p.Fresh?
    case SetClass(_) => p.Counted?
    case Fill(_, _) => p.Filling?
    case Publish(_) => p.Filling?
    case AllocDedicated(_) => p.Idle?
    case DedicatedFails(_) => p.Idle?
    case Share(_, b) => p.Idle? && s.own.objs[a.t][b] > 0 && b in s.blk.rc
    case Adopt(_, b) => p.Idle? && s.own.handles[b] > 0
    case LoseHandle(_, b) => (p.Idle? || p.Dead?) && s.own.handles[b] > 0
    case Pass(_, u, b) => p.Idle? && u < |s.pcs| && s.pcs[u].Idle? && u != a.t && s.own.objs[a.t][b] > 0
    case Drop(_, b) => p.Idle? && s.own.objs[a.t][b] > 0 && b in s.blk.rc && s.blk.rc[b] > 0
    case LockFree(_) => p.WantFree? && !p.b.dedicated && s.lock.None?
    case LinkFree(_) => p.Freeing? && p.b in s.blk.cls && s.blk.cls[p.b] < NCLASS
    case PushFree(_) => p.Linked? && p.b in s.blk.cls && s.blk.cls[p.b] < NCLASS
    case UnlockFree(_) => p.Pushed?
    case RemoveSegment(_) => p.WantFree? && p.b.dedicated
    case Kill(_) => !p.Dead?
  }

  const DEDICATED_CLASS: nat := 0xFFFF_FFFF

  // The block a step carves: one that has never been handed out before.
  function NewBlock(s: State, a: Action): Option<Ref>
    requires WellFormed(s) && Enabled(s, a)
  {
    match a
    case BumpCurrent(_) => Some(Ref(s.ctl.cur.value, s.ctl.bump, false))
    case SetBump(_) => Some(Ref(s.pcs[a.t].id, 0, false))
    case AllocDedicated(_) => Some(Ref(s.ctl.nded, 0, true))
    case _ => None
  }

  // fetch_sub decides who frees a block: the thread that takes its count from 1
  // to 0.
  predicate LastDrop(s: State, a: Action)
    requires WellFormed(s) && Enabled(s, a)
  {
    a.Drop? && s.blk.rc[a.b] == 1
  }

  // Where the acting thread goes.
  function NextPc(s: State, a: Action): Pc
    requires WellFormed(s) && Enabled(s, a)
  {
    var p := s.pcs[a.t];
    match a
    case AskAlloc(_, cls) => WantAlloc(cls)
    case LockAlloc(_) => Choosing(p.cls)
    // A popped block's segment has just been mapped for its next word, a new one
    // by creating it; the current segment may be another process's.
    case PopFree(_) => Got(s.ctl.free[p.cls].value, p.cls, true)
    case BumpCurrent(_) => Got(NewBlock(s, a).value, p.cls, false)
    case GiveUp(_) => NoRoom
    case PopFails(_) => NoRoom
    case ClaimId(_) => Claimed(p.cls, s.ctl.nreg)
    case CreateSegment(_) => Created(p.cls, p.id)
    case CreateFails(_) => NoRoom
    case SetCurrent(_) => Current(p.cls, p.id)
    case SetBump(_) => Got(NewBlock(s, a).value, p.cls, true)
    case UnlockAlloc(_) => Fresh(p.b, p.cls, p.mapped)
    case UnlockEmpty(_) => Idle
    case AttachFails(_) => Idle
    case SetRc(_) => Counted(p.b, p.cls)
    case SetClass(_) => Filling(p.b)
    case Fill(_, _) => p
    case Publish(_) => Idle
    case AllocDedicated(_) => Fresh(NewBlock(s, a).value, DEDICATED_CLASS, true)
    case Drop(_, b) => if LastDrop(s, a) then WantFree(b) else Idle
    case LockFree(_) => Freeing(p.b)
    case LinkFree(_) => Linked(p.b)
    case PushFree(_) => Pushed
    case UnlockFree(_) => Idle
    case RemoveSegment(_) => Idle
    case Kill(_) => Dead
    case _ => p
  }

  // A dead holder's lock is taken over (module PidMutex).
  function NextLock(s: State, a: Action): Option<nat>
    requires WellFormed(s) && Enabled(s, a)
  {
    match a
    case LockAlloc(t) => Some(t)
    case LockFree(t) => Some(t)
    case UnlockAlloc(_) => None
    case UnlockEmpty(_) => None
    case UnlockFree(_) => None
    case Kill(t) => if Holding(s.pcs[t]) then None else s.lock
    case _ => s.lock
  }

  function NextCtl(s: State, a: Action): (c: Ctl)
    requires WellFormed(s) && Enabled(s, a)
    ensures |c.free| == |s.ctl.free|
  {
    var p := s.pcs[a.t];
    match a
    // A pop is one store: the head moves to the block's next.
    case PopFree(_) => s.ctl.(free := s.ctl.free[p.cls := s.blk.next[s.ctl.free[p.cls].value]])
    case BumpCurrent(_) => s.ctl.(bump := s.ctl.bump + SizeOf(p.cls))
    // The id is claimed before the segment exists, and given back if it fails.
    case ClaimId(_) => s.ctl.(nreg := s.ctl.nreg + 1)
    case CreateFails(_) => s.ctl.(nreg := p.id)
    case SetCurrent(_) => s.ctl.(cur := Some(p.id))
    case SetBump(_) => s.ctl.(bump := SizeOf(p.cls))
    case AllocDedicated(_) => s.ctl.(nded := s.ctl.nded + 1)
    case DedicatedFails(_) => s.ctl.(nded := s.ctl.nded + 1)
    case PushFree(_) => s.ctl.(free := s.ctl.free[s.blk.cls[p.b] := Some(p.b)])
    case _ => s.ctl
  }

  function NextBlocks(s: State, a: Action): Blocks
    requires WellFormed(s) && Enabled(s, a)
  {
    var p := s.pcs[a.t];
    match a
    case SetRc(_) => s.blk.(rc := s.blk.rc[p.b := 1])
    case SetClass(_) => s.blk.(cls := s.blk.cls[p.b := p.cls])
    case Fill(_, v) => s.blk.(mem := s.blk.mem[p.b := v])
    case Share(_, b) => s.blk.(rc := s.blk.rc[b := s.blk.rc[b] + 1])
    case Drop(_, b) => s.blk.(rc := s.blk.rc[b := s.blk.rc[b] - 1])
    case LinkFree(_) => s.blk.(next := s.blk.next[p.b := s.ctl.free[s.blk.cls[p.b]]])
    case AllocDedicated(_) => s.blk.(segs := s.blk.segs + {s.ctl.nded})
    case RemoveSegment(_) => s.blk.(segs := s.blk.segs - {p.b.seg})
    case _ => s.blk
  }

  function NextOwners(s: State, a: Action): (o: Owners)
    requires WellFormed(s) && Enabled(s, a)
    ensures |o.objs| == |s.own.objs|
  {
    var p, t, o := s.pcs[a.t], a.t, s.own;
    match a
    case Publish(_) => o.(objs := o.objs[t := o.objs[t] + multiset{p.b}])
    case Share(_, b) => o.(handles := o.handles + multiset{b})
    case Adopt(_, b) => o.(handles := o.handles - multiset{b}, objs := o.objs[t := o.objs[t] + multiset{b}])
    // Attaching fails, or the message is dropped by whoever had it, or goes with
    // a killed process.
    case LoseHandle(_, b) => o.(handles := o.handles - multiset{b}, gone := o.gone + multiset{b})
    case Pass(_, u, b) => o.(objs := o.objs[t := o.objs[t] - multiset{b}][u := o.objs[u] + multiset{b}])
    case Drop(_, b) => o.(objs := o.objs[t := o.objs[t] - multiset{b}])
    case Kill(_) => o.(objs := o.objs[t := multiset{}], gone := o.gone + o.objs[t])
    case _ => o
  }

  // The block whose use a step changes, and to what.
  function StatusChange(s: State, a: Action): Option<(Ref, Status)>
    requires WellFormed(s) && Enabled(s, a)
  {
    var p, t := s.pcs[a.t], a.t;
    match a
    case PopFree(_) => Some((s.ctl.free[p.cls].value, Owned(t)))
    case BumpCurrent(_) => Some((NewBlock(s, a).value, Owned(t)))
    case SetBump(_) => Some((NewBlock(s, a).value, Owned(t)))
    case AllocDedicated(_) => Some((NewBlock(s, a).value, Owned(t)))
    case Publish(_) => Some((p.b, Shared))
    case AttachFails(_) => Some((p.b, Leaked))
    case Drop(_, b) => if LastDrop(s, a) then Some((b, Owned(t))) else None
    case PushFree(_) => Some((p.b, Listed(s.blk.cls[p.b])))
    case RemoveSegment(_) => Some((p.b, Unlinked))
    case Kill(_) => if OwnBlock(p).Some? then Some((OwnBlock(p).value, Leaked)) else None
    case _ => None
  }

  function NextLists(s: State, a: Action): (ls: seq<seq<Ref>>)
    requires WellFormed(s) && Enabled(s, a)
    ensures |ls| == |s.hist.lists|
  {
    var p, ls := s.pcs[a.t], s.hist.lists;
    match a
    case PopFree(_) => ls[p.cls := if ls[p.cls] == [] then [] else ls[p.cls][1..]]
    case PushFree(_) => ls[s.blk.cls[p.b] := [p.b] + ls[s.blk.cls[p.b]]]
    case _ => ls
  }

  function NextCarved(s: State, a: Action): map<Ref, nat>
    requires WellFormed(s) && Enabled(s, a)
  {
    var b := NewBlock(s, a);
    if b.None? then s.hist.carved
    else s.hist.carved[b.value := if a.AllocDedicated? then DEDICATED_CLASS else s.pcs[a.t].cls]
  }

  function NextStatus(s: State, a: Action): map<Ref, Status>
    requires WellFormed(s) && Enabled(s, a)
  {
    var c := StatusChange(s, a);
    if c.None? then s.hist.status else s.hist.status[c.value.0 := c.value.1]
  }

  function Exec(s: State, a: Action): (n: State)
    requires WellFormed(s) && Enabled(s, a)
    ensures WellFormed(n) && |n.pcs| == |s.pcs|
  {
    State(s.segBytes, s.pcs[a.t := NextPc(s, a)], NextLock(s, a), NextCtl(s, a), NextBlocks(s, a), NextOwners(s, a),
          History(NextCarved(s, a), NextLists(s, a), NextStatus(s, a)))
  }

  ghost predicate Enabling(s: State, run: seq<Action>)
    requires WellFormed(s)
    decreases |run|
  {
    run == [] || (Enabled(s, run[0]) && Enabling(Exec(s, run[0]), run[1..]))
  }

  function ExecAll(s: State, run: seq<Action>): (n: State)
    requires WellFormed(s) && Enabling(s, run)
    ensures WellFormed(n)
    decreases |run|
  {
    if run == [] then s else ExecAll(Exec(s, run[0]), run[1..])
  }

  ghost predicate Initial(s: State) {
    && WellFormed(s) && s.lock.None? && s.ctl.cur.None? && s.ctl.nreg == 0 && s.ctl.nded == 0 && s.blk.segs == {}
    && s.hist.carved == map[] && s.hist.status == map[] && s.own.handles == multiset{} && s.own.gone == multiset{}
    && (forall t :: 0 <= t < |s.pcs| ==> s.pcs[t].Idle? && s.own.objs[t] == multiset{})
    && (forall c :: 0 <= c < NCLASS ==> s.ctl.free[c].None? && s.hist.lists[c] == [])
  }

  // ---------- references ----------

  function Held(objs: seq<multiset<Ref>>, b: Ref): nat {
    if objs == [] then 0 else objs[0][b] + Held(objs[1..], b)
  }

  // How many references to a block there are.
  function RefCount(o: Owners, b: Ref): nat {
    Held(o.objs, b) + o.handles[b] + o.gone[b]
  }

  lemma {:induction false} HeldUpdate(objs: seq<multiset<Ref>>, t: nat, m: multiset<Ref>, b: Ref)
    requires t < |objs|
    ensures Held(objs[t := m], b) == Held(objs, b) - objs[t][b] + m[b]
    ensures Held(objs, b) >= objs[t][b]
  {
    if t == 0 {
      assert objs[t := m][1..] == objs[1..];
    } else {
      HeldUpdate(objs[1..], t - 1, m, b);
      assert objs[t := m][1..] == objs[1..][t - 1 := m];
    }
  }

  // ---------- free lists ----------

  // `l` is the list reached from head `h` through the headers' next words.
  ghost predicate Chain(next: map<Ref, Option<Ref>>, h: Option<Ref>, l: seq<Ref>)
    decreases |l|
  {
    if l == [] then h.None? else h == Some(l[0]) && l[0] in next && Chain(next, next[l[0]], l[1..])
  }

  predicate Distinct(l: seq<Ref>) {
    forall i, j :: 0 <= i < j < |l| ==> l[i] != l[j]
  }

  lemma {:induction false} ChainFrame(next: map<Ref, Option<Ref>>, h: Option<Ref>, l: seq<Ref>, b: Ref, v: Option<Ref>)
    requires Chain(next, h, l) && b !in l
    ensures Chain(next[b := v], h, l)
    decreases |l|
  {
    if l != [] {
      ChainFrame(next, next[l[0]], l[1..], b, v);
    }
  }

  // ---------- the invariant ----------

  ghost predicate LockInv(s: State) {
    && (forall t :: 0 <= t < |s.pcs| && Holding(s.pcs[t]) ==> s.lock == Some(t))
    && (s.lock.Some? ==> s.lock.value < |s.pcs| && Holding(s.pcs[s.lock.value]))
  }

  ghost predicate ListOk(s: State, c: nat)
    requires WellFormed(s) && c < NCLASS
  {
    && Chain(s.blk.next, s.ctl.free[c], s.hist.lists[c])
    && Distinct(s.hist.lists[c])
    && forall b :: b in s.hist.lists[c] ==> b in s.hist.status && s.hist.status[b] == Listed(c)
  }

  ghost predicate ListInv(s: State)
    requires WellFormed(s)
  {
    && (forall c :: 0 <= c < NCLASS ==> ListOk(s, c))
    && (forall b :: b in s.hist.status && s.hist.status[b].Listed? ==>
          (s.hist.status[b].cls < NCLASS && b in s.hist.lists[s.hist.status[b].cls]))
  }

  predicate Apart(b: Ref, n: nat, c: Ref, m: nat) {
    b.seg != c.seg || b.off + n <= c.off || c.off + m <= b.off
  }

  // Where a block may have been carved.
  predicate InBounds(s: State, b: Ref)
    requires b in s.hist.carved
  {
    if b.dedicated then b.seg < s.ctl.nded && b.off == 0
    else b.seg < s.ctl.nreg && s.hist.carved[b] < NCLASS && b.off + SizeOf(s.hist.carved[b]) <= s.segBytes
  }

  ghost predicate Untouched(s: State, id: nat) {
    forall b :: b in s.hist.carved && !b.dedicated ==> b.seg != id
  }

  // A thread setting up a segment: nothing has been carved there yet.
  ghost predicate ClaimOk(s: State, p: Pc) {
    match p
    case WantAlloc(cls) => cls < NCLASS && SizeOf(cls) <= s.segBytes
    case Choosing(cls) => cls < NCLASS && SizeOf(cls) <= s.segBytes
    case Claimed(cls, id) =>
      cls < NCLASS && SizeOf(cls) <= s.segBytes && id + 1 == s.ctl.nreg && s.ctl.cur != Some(id) && Untouched(s, id)
    case Created(cls, id) =>
      cls < NCLASS && SizeOf(cls) <= s.segBytes && id + 1 == s.ctl.nreg && s.ctl.cur != Some(id) && Untouched(s, id)
    case Current(cls, id) =>
      cls < NCLASS && SizeOf(cls) <= s.segBytes && id + 1 == s.ctl.nreg && s.ctl.cur == Some(id) && Untouched(s, id)
    case _ => true
  }

  // Where blocks have been carved, and that they never overlap.
  ghost predicate CarveInv(s: State) {
    && s.hist.status.Keys == s.hist.carved.Keys
    && (forall b :: b in s.hist.carved ==> InBounds(s, b))
    && (forall b, c :: b in s.hist.carved && c in s.hist.carved && b != c && !b.dedicated && !c.dedicated ==>
          Apart(b, SizeOf(s.hist.carved[b]), c, SizeOf(s.hist.carved[c])))
    && (s.ctl.cur.Some? ==> s.ctl.cur.value < s.ctl.nreg)
    && (forall b :: b in s.hist.carved && !b.dedicated && s.ctl.cur == Some(b.seg) ==>
          b.off + SizeOf(s.hist.carved[b]) <= s.ctl.bump)
    && (forall t :: 0 <= t < |s.pcs| ==> ClaimOk(s, s.pcs[t]))
  }

  // A thread's own block really is its own, and its header says what the
  // thread's next steps rely on.
  ghost predicate OwnOk(s: State, t: nat)
    requires WellFormed(s) && t < |s.pcs|
  {
    OwnBlock(s.pcs[t]).Some? ==>
      var b := OwnBlock(s.pcs[t]).value;
      && b in s.hist.carved && b in s.hist.status && s.hist.status[b] == Owned(t)
      && match s.pcs[t]
         case Got(_, cls, _) => cls == s.hist.carved[b]
         case Fresh(_, cls, _) => cls == s.hist.carved[b]
         case Counted(_, cls) => cls == s.hist.carved[b] && b in s.blk.rc && s.blk.rc[b] == 1
         case Filling(_) => b in s.blk.rc && s.blk.rc[b] == 1 && b in s.blk.cls && s.blk.cls[b] == s.hist.carved[b]
         case Linked(_) =>
           && !b.dedicated && b in s.blk.cls && s.blk.cls[b] == s.hist.carved[b] < NCLASS
           && b in s.blk.next && s.blk.next[b] == s.ctl.free[s.hist.carved[b]]
         case WantFree(_) => b in s.blk.cls && s.blk.cls[b] == s.hist.carved[b]
         case _ => !b.dedicated && b in s.blk.cls && s.blk.cls[b] == s.hist.carved[b]
  }

  ghost predicate OwnInv(s: State)
    requires WellFormed(s)
  {
    forall t :: 0 <= t < |s.pcs| ==> OwnOk(s, t)
  }

  // The other way round: a block marked as a thread's is in that thread's hands,
  // and a dedicated one's segment exists exactly until it is removed.
  ghost predicate HandsOk(s: State, b: Ref)
    requires WellFormed(s) && b in s.hist.status
  {
    && (s.hist.status[b].Owned? ==> s.hist.status[b].t < |s.pcs| && OwnBlock(s.pcs[s.hist.status[b].t]) == Some(b))
    && (s.hist.status[b].Unlinked? ==> b.dedicated)
    && (b.dedicated ==> (b.seg in s.blk.segs <==> !s.hist.status[b].Unlinked?))
  }

  ghost predicate HandsInv(s: State)
    requires WellFormed(s)
  {
    forall b :: b in s.hist.status ==> HandsOk(s, b)
  }

  // A block has references exactly while it is shared, and then its count is
  // their number and its header is intact.
  ghost predicate CountOk(s: State, b: Ref) {
    && (RefCount(s.own, b) > 0 <==> b in s.hist.status && s.hist.status[b] == Shared)
    && (RefCount(s.own, b) > 0 ==>
          && b in s.blk.rc && s.blk.rc[b] == RefCount(s.own, b)
          && b in s.hist.carved && b in s.blk.cls && s.blk.cls[b] == s.hist.carved[b])
  }

  ghost predicate CountInv(s: State) {
    forall b :: CountOk(s, b)
  }

  // A listed block is on the list of the class it was carved for.
  ghost predicate ClassInv(s: State) {
    forall b :: b in s.hist.status && s.hist.status[b].Listed? ==>
      b in s.hist.carved && !b.dedicated && s.hist.carved[b] == s.hist.status[b].cls
  }

  ghost predicate Inv(s: State) {
    && WellFormed(s) && LockInv(s) && ListInv(s) && CarveInv(s) && OwnInv(s) && HandsInv(s) && CountInv(s)
    && ClassInv(s)
  }

  // ---------- every step keeps it ----------

  lemma StepLock(s: State, a: Action)
    requires WellFormed(s) && LockInv(s) && Enabled(s, a)
    ensures LockInv(Exec(s, a))
  {
    hide NextCtl;
    hide NextBlocks;
    hide NextOwners;
    hide NextCarved;
    hide NextLists;
    hide NextStatus;
    LockMoves(s, a);
    hide NextPc;
    hide NextLock;
    hide Holding;
  }

  lemma LockMoves(s: State, a: Action)
    requires WellFormed(s) && Enabled(s, a)
    ensures var p, q, l := s.pcs[a.t], NextPc(s, a), NextLock(s, a);
      || (Holding(q) == Holding(p) && l == s.lock)
      || (!Holding(p) && Holding(q) && s.lock.None? && l == Some(a.t))
      || (Holding(p) && !Holding(q) && l.None?)
  {
    hide NewBlock, LastDrop, RoomInCurrent, SizeOf;
  }

  // The block a step carves has no status yet.
  lemma NewBlockIsNew(s: State, a: Action)
    requires WellFormed(s) && CarveInv(s) && Enabled(s, a) && NewBlock(s, a).Some?
    ensures NewBlock(s, a).value !in s.hist.status && NewBlock(s, a).value !in s.hist.carved
  {
    if a.SetBump? {
      assert ClaimOk(s, s.pcs[a.t]);
    }
  }

  // What the block whose use a step changes was used for before.
  lemma WasUsedAs(s: State, a: Action)
    requires Inv(s) && Enabled(s, a) && StatusChange(s, a).Some?
    ensures var b, st := StatusChange(s, a).value.0, s.hist.status;
      if NewBlock(s, a).Some? then b !in st && b !in s.hist.carved
      else b in st && b in s.hist.carved &&
           st[b] == (if a.PopFree? then Listed(s.pcs[a.t].cls) else if a.Drop? then Shared else Owned(a.t))
  {
    if NewBlock(s, a).Some? {
      NewBlockIsNew(s, a);
    } else if a.Drop? {
      DroppedIsShared(s, a);
    } else if a.PopFree? {
      PoppedWasListed(s, a.t);
    } else {
      assert OwnOk(s, a.t);
    }
  }

  lemma PoppedWasListed(s: State, t: nat)
    requires WellFormed(s) && ListInv(s) && Enabled(s, PopFree(t))
    ensures var c := s.pcs[t].cls;
      && s.hist.lists[c] != [] && s.ctl.free[c] == Some(s.hist.lists[c][0])
      && s.ctl.free[c].value in s.hist.status && s.hist.status[s.ctl.free[c].value] == Listed(c)
  {
    assert ListOk(s, s.pcs[t].cls);
  }

  lemma DroppedIsShared(s: State, a: Action)
    requires WellFormed(s) && CountInv(s) && Enabled(s, a) && (a.Drop? || a.Share? || a.Pass?)
    ensures a.b in s.hist.status && s.hist.status[a.b] == Shared
    ensures a.b in s.blk.rc && s.blk.rc[a.b] == RefCount(s.own, a.b)
  {
    HeldUpdate(s.own.objs, a.t, multiset{}, a.b);
    assert CountOk(s, a.b);
  }

  lemma StepList(s: State, a: Action)
    requires Inv(s) && Enabled(s, a)
    ensures ListInv(Exec(s, a))
  {
    if a.PopFree? {
      PopKeepsLists(s, a.t);
    } else if a.PushFree? {
      PushKeepsLists(s, a.t);
    } else if a.LinkFree? {
      LinkKeepsLists(s, a.t);
    } else {
      OthersKeepLists(s, a);
    }
  }

  lemma OthersKeepLists(s: State, a: Action)
    requires Inv(s) && WellFormed(s) && ListInv(s) && Enabled(s, a) && !a.PopFree? && !a.PushFree? && !a.LinkFree?
    ensures ListInv(Exec(s, a))
  {
    hide Inv, ListInv, Enabled, Exec, StatusChange;
    ListsUntouched(s, a);
    ListedStay(s, a);
    ListsFrame(s, Exec(s, a));
  }

  lemma ListsUntouched(s: State, a: Action)
    requires WellFormed(s) && Enabled(s, a) && !a.PopFree? && !a.PushFree? && !a.LinkFree?
    ensures var n := Exec(s, a); n.ctl.free == s.ctl.free && n.blk.next == s.blk.next && n.hist.lists == s.hist.lists
    ensures StatusChange(s, a).Some? ==> !StatusChange(s, a).value.1.Listed?
  {
    hide NextPc, NextLock, NextCarved, NextStatus, NextOwners, LastDrop;
  }

  lemma ListedStay(s: State, a: Action)
    requires Inv(s) && WellFormed(s) && Enabled(s, a) && !a.PopFree?
    requires StatusChange(s, a).Some? ==> !StatusChange(s, a).value.1.Listed?
    ensures var was, now := s.hist.status, Exec(s, a).hist.status;
      && (forall b :: b in was && was[b].Listed? ==> b in now && now[b] == was[b])
      && (forall b :: b in now && now[b].Listed? ==> b in was && now[b] == was[b])
  {
    hide Inv, Enabled, StatusChange, NewBlock, NextPc, NextLock, NextCtl, NextBlocks, NextOwners, NextLists, NextCarved;
    if StatusChange(s, a).Some? {
      WasUsedAs(s, a);
    }
  }

  lemma ListsFrame(s: State, n: State)
    requires WellFormed(s) && WellFormed(n) && ListInv(s)
    requires n.ctl.free == s.ctl.free && n.blk.next == s.blk.next && n.hist.lists == s.hist.lists
    requires forall b :: b in s.hist.status && s.hist.status[b].Listed? ==>
      b in n.hist.status && n.hist.status[b] == s.hist.status[b]
    requires forall b :: b in n.hist.status && n.hist.status[b].Listed? ==>
      b in s.hist.status && n.hist.status[b] == s.hist.status[b]
    ensures ListInv(n)
  {
    hide Chain;
    hide Distinct;
    forall c | 0 <= c < NCLASS ensures ListOk(n, c) {
      assert ListOk(s, c);
    }
  }

  lemma PopKeepsLists(s: State, t: nat)
    requires Inv(s) && Enabled(s, PopFree(t))
    ensures ListInv(Exec(s, PopFree(t)))
    ensures var c := s.pcs[t].cls; s.hist.lists[c] != [] && s.ctl.free[c] == Some(s.hist.lists[c][0])
  {
    hide CarveInv;
    hide OwnInv;
    hide CountInv;
    hide ClassInv;
    hide LockInv;
    var n, k := Exec(s, PopFree(t)), s.pcs[t].cls;
    assert ListOk(s, k);
    var l := s.hist.lists[k];
    assert l != [] && l[0] == s.ctl.free[k].value;
    assert l[0] !in l[1..];
    forall c | 0 <= c < NCLASS ensures ListOk(n, c) {
      assert ListOk(s, c);
      if c != k {
        assert l[0] !in s.hist.lists[c];
      }
    }
  }

  lemma PushKeepsLists(s: State, t: nat)
    requires Inv(s) && Enabled(s, PushFree(t))
    ensures ListInv(Exec(s, PushFree(t)))
  {
    hide CarveInv;
    hide CountInv;
    hide ClassInv;
    hide LockInv;
    var n, b := Exec(s, PushFree(t)), s.pcs[t].b;
    var k := s.blk.cls[b];
    assert OwnOk(s, t);
    forall c | 0 <= c < NCLASS ensures ListOk(n, c) {
      assert ListOk(s, c) && b !in s.hist.lists[c];
      if c == k {
        assert n.hist.lists[c] == [b] + s.hist.lists[c];
        assert n.hist.lists[c][1..] == s.hist.lists[c];
      }
    }
  }

  lemma LinkKeepsLists(s: State, t: nat)
    requires Inv(s) && Enabled(s, LinkFree(t))
    ensures ListInv(Exec(s, LinkFree(t)))
  {
    hide CarveInv;
    hide CountInv;
    hide ClassInv;
    hide LockInv;
    hide Distinct;
    var n, b := Exec(s, LinkFree(t)), s.pcs[t].b;
    assert OwnOk(s, t);
    forall c | 0 <= c < NCLASS ensures ListOk(n, c) {
      assert ListOk(s, c) && b !in s.hist.lists[c];
      ChainFrame(s.blk.next, s.ctl.free[c], s.hist.lists[c], b, n.blk.next[b]);
    }
  }

  lemma ClassFrame(s: State, n: State, change: Option<(Ref, Status)>)
    requires ClassInv(s)
    requires n.hist.status == if change.None? then s.hist.status else s.hist.status[change.value.0 := change.value.1]
    requires forall b :: b in s.hist.status && b in s.hist.carved ==> b in n.hist.carved && n.hist.carved[b] == s.hist.carved[b]
    requires change.Some? && change.value.1.Listed? ==>
      var b := change.value.0;
      b in n.hist.carved && !b.dedicated && n.hist.carved[b] == change.value.1.cls
    ensures ClassInv(n)
  {
  }

  lemma StepClass(s: State, a: Action)
    requires Inv(s) && Enabled(s, a)
    ensures ClassInv(Exec(s, a))
  {
    var n := Exec(s, a);
    CarvedStays(s, a);
    if StatusChange(s, a).Some? && StatusChange(s, a).value.1.Listed? {
      PushedByClass(s, a);
    }
    hide Inv, ListInv, CarveInv, LockInv, CountInv, OwnInv, HandsInv, ClassInv, StatusChange;
    hide NextPc, NextLock, NextCtl, NextBlocks, NextOwners, NextLists, NextCarved, Enabled;
    assert ClassInv(s);
    ClassFrame(s, n, StatusChange(s, a));
  }

  lemma CarvedStays(s: State, a: Action)
    requires Inv(s) && WellFormed(s) && CarveInv(s) && Enabled(s, a)
    ensures forall b :: b in s.hist.carved ==> b in NextCarved(s, a) && NextCarved(s, a)[b] == s.hist.carved[b]
  {
    hide Inv, CarveInv, Enabled, NewBlock;
    if NewBlock(s, a).Some? {
      NewBlockIsNew(s, a);
    }
  }

  // What is put on a list is put on the one of its class.
  lemma PushedByClass(s: State, a: Action)
    requires Inv(s) && Enabled(s, a) && StatusChange(s, a).Some? && StatusChange(s, a).value.1.Listed?
    ensures var b := StatusChange(s, a).value.0;
      b in NextCarved(s, a) && !b.dedicated && NextCarved(s, a)[b] == StatusChange(s, a).value.1.cls
  {
    assert a.PushFree?;
    assert OwnOk(s, a.t);
    hide Inv;
  }

  lemma StepCarve(s: State, a: Action)
    requires Inv(s) && Enabled(s, a)
    ensures CarveInv(Exec(s, a))
  {
    StatusKeys(s, a);
    ClaimsKept(s, a);
    if NewBlock(s, a).Some? {
      NewBlockApart(s, a);
    } else {
      OldBlocksStay(s, a);
    }
  }

  lemma StatusKeys(s: State, a: Action)
    requires Inv(s) && Enabled(s, a)
    ensures NextStatus(s, a).Keys == NextCarved(s, a).Keys
  {
    if StatusChange(s, a).Some? {
      WasUsedAs(s, a);
    }
    hide ListInv;
    hide LockInv;
    hide CountInv;
    hide ClassInv;
    hide OwnInv;
  }

  lemma ListedIsCarved(s: State, c: nat, b: Ref)
    requires WellFormed(s) && ListInv(s) && c < NCLASS && b in s.hist.lists[c]
    ensures b in s.hist.status && s.hist.status[b] == Listed(c)
  {
    assert ListOk(s, c);
  }

  predicate SettingUp(p: Pc) {
    p.Claimed? || p.Created? || p.Current?
  }

  lemma ClaimsKept(s: State, a: Action)
    requires Inv(s) && Enabled(s, a)
    ensures forall u :: 0 <= u < |s.pcs| ==> ClaimOk(Exec(s, a), Exec(s, a).pcs[u])
  {
    var n := Exec(s, a);
    hide ListInv;
    hide OwnInv;
    hide CountInv;
    hide ClassInv;
    forall u | 0 <= u < |s.pcs| ensures ClaimOk(n, n.pcs[u]) {
      if u == a.t {
        OwnClaim(s, a);
      } else {
        OtherClaim(s, a, u);
      }
    }
  }

  lemma OwnClaim(s: State, a: Action)
    requires WellFormed(s) && CarveInv(s) && Enabled(s, a)
    ensures ClaimOk(Exec(s, a), NextPc(s, a))
  {
    assert ClaimOk(s, s.pcs[a.t]);
    if a.ClaimId? || a.CreateSegment? || a.SetCurrent? {
      ClaimGoesOn(s, a);
    } else {
      ClaimEnds(s, a);
      hide CarveInv, NextCarved, NextBlocks, NextOwners, NextLists, NextStatus, NextLock, NextPc, NextCtl;
    }
  }

  lemma ClaimGoesOn(s: State, a: Action)
    requires WellFormed(s) && CarveInv(s) && Enabled(s, a) && ClaimOk(s, s.pcs[a.t])
    requires a.ClaimId? || a.CreateSegment? || a.SetCurrent?
    ensures ClaimOk(Exec(s, a), NextPc(s, a))
  {
    assert NextCarved(s, a) == s.hist.carved;
    assert forall b :: b in s.hist.carved ==> InBounds(s, b);
    assert s.ctl.cur.Some? ==> s.ctl.cur.value < s.ctl.nreg;
    hide CarveInv, NextCarved, NextBlocks, NextOwners, NextLists, NextStatus, NextLock, SizeOf;
  }

  // What a claim's later steps rely on goes no further than its last step.
  lemma ClaimEnds(s: State, a: Action)
    requires WellFormed(s) && Enabled(s, a) && !a.ClaimId? && !a.CreateSegment? && !a.SetCurrent?
    ensures !SettingUp(NextPc(s, a))
    ensures NextPc(s, a).WantAlloc? ==> NextPc(s, a).cls < NCLASS && SizeOf(NextPc(s, a).cls) <= s.segBytes
    ensures NextPc(s, a).Choosing? ==> s.pcs[a.t] == WantAlloc(NextPc(s, a).cls)
  {
    hide SizeOf;
  }

  lemma OtherClaim(s: State, a: Action, u: nat)
    requires WellFormed(s) && LockInv(s) && CarveInv(s) && Enabled(s, a) && u < |s.pcs| && u != a.t
    ensures ClaimOk(Exec(s, a), s.pcs[u])
  {
    assert ClaimOk(s, s.pcs[u]);
    if SettingUp(s.pcs[u]) {
      OthersAreLockedOut(s, a, u);
      hide NextCtl;
      hide NextCarved;
      hide CarveInv;
    }
    hide NextBlocks;
    hide NextOwners;
    hide NextLists;
    hide NextStatus;
    hide NextLock;
    hide NextPc;
  }

  // While one thread sets up a segment, nobody else carves or moves `cur`.
  lemma OthersAreLockedOut(s: State, a: Action, u: nat)
    requires WellFormed(s) && LockInv(s) && Enabled(s, a) && u < |s.pcs| && u != a.t && SettingUp(s.pcs[u])
    ensures NextCtl(s, a).nreg == s.ctl.nreg && NextCtl(s, a).cur == s.ctl.cur
    ensures forall b :: b in NextCarved(s, a) && !b.dedicated ==> b in s.hist.carved
  {
    assert Holding(s.pcs[u]);
    assert !Holding(s.pcs[a.t]);
  }

  lemma OldBlocksStay(s: State, a: Action)
    requires Inv(s) && Enabled(s, a) && NewBlock(s, a).None?
    ensures var n := Exec(s, a);
      && (forall b :: b in n.hist.carved ==> InBounds(n, b))
      && (forall b, c :: b in n.hist.carved && c in n.hist.carved && b != c && !b.dedicated && !c.dedicated ==>
            Apart(b, SizeOf(n.hist.carved[b]), c, SizeOf(n.hist.carved[c])))
      && (n.ctl.cur.Some? ==> n.ctl.cur.value < n.ctl.nreg)
      && (forall b :: b in n.hist.carved && !b.dedicated && n.ctl.cur == Some(b.seg) ==>
            b.off + SizeOf(n.hist.carved[b]) <= n.ctl.bump)
  {
    var n := Exec(s, a);
    assert ClaimOk(s, s.pcs[a.t]);
    assert n.hist.carved == s.hist.carved;
    NoCarving(s, a);
    hide Inv, ListInv, OwnInv, HandsInv, CountInv, ClassInv, LockInv;
    hide NextBlocks, NextOwners, NextLists, NextStatus, NextLock, NextPc, SizeOf, NextCtl, NextCarved, Enabled;
    assert CarveInv(s) && n.ctl == NextCtl(s, a);
  }

  // A step that carves nothing only moves the ends of what may be carved.
  lemma NoCarving(s: State, a: Action)
    requires WellFormed(s) && Enabled(s, a) && NewBlock(s, a).None?
    ensures var c, n := s.ctl, NextCtl(s, a);
      && n.bump == c.bump && n.nded >= c.nded
      && (a.CreateFails? || n.nreg >= c.nreg) && (a.CreateFails? ==> n.nreg == s.pcs[a.t].id)
      && (a.SetCurrent? || n.cur == c.cur) && (a.SetCurrent? ==> n.cur == Some(s.pcs[a.t].id))
      && (a.CreateFails? ==> s.pcs[a.t].Claimed?) && (a.SetCurrent? ==> s.pcs[a.t].Created?)
  {
  }

  lemma NewBlockApart(s: State, a: Action)
    requires Inv(s) && Enabled(s, a) && NewBlock(s, a).Some?
    ensures var n := Exec(s, a);
      && (forall b :: b in n.hist.carved ==> InBounds(n, b))
      && (forall b, c :: b in n.hist.carved && c in n.hist.carved && b != c && !b.dedicated && !c.dedicated ==>
            Apart(b, SizeOf(n.hist.carved[b]), c, SizeOf(n.hist.carved[c])))
      && (n.ctl.cur.Some? ==> n.ctl.cur.value < n.ctl.nreg)
      && (forall b :: b in n.hist.carved && !b.dedicated && n.ctl.cur == Some(b.seg) ==>
            b.off + SizeOf(n.hist.carved[b]) <= n.ctl.bump)
  {
    hide ListInv;
    hide OwnInv;
    hide CountInv;
    hide ClassInv;
    hide LockInv;
    hide NextBlocks;
    hide NextOwners;
    hide NextLists;
    hide NextStatus;
    hide NextLock;
    hide NextPc;
    hide SizeOf;
    NewBlockIsNew(s, a);
    assert ClaimOk(s, s.pcs[a.t]);
    var n, x := Exec(s, a), NewBlock(s, a).value;
    assert n.hist.carved.Keys == s.hist.carved.Keys + {x};
    forall b | b in n.hist.carved && b != x && !b.dedicated && !x.dedicated
      ensures Apart(b, SizeOf(n.hist.carved[b]), x, SizeOf(n.hist.carved[x]))
    {
      assert b in s.hist.carved;
    }
  }

  lemma StepOwn(s: State, a: Action)
    requires Inv(s) && Enabled(s, a)
    ensures OwnInv(Exec(s, a))
  {
    var n := Exec(s, a);
    forall u | 0 <= u < |s.pcs| ensures OwnOk(n, u) {
      if u == a.t {
        OwnMoves(s, a);
      } else {
        OtherKeepsOwn(s, a, u);
      }
    }
  }

  lemma OwnMoves(s: State, a: Action)
    requires Inv(s) && Enabled(s, a)
    ensures OwnOk(Exec(s, a), a.t)
  {
    assert OwnOk(s, a.t);
    if NewBlock(s, a).Some? || a.PopFree? {
      OwnBegins(s, a);
    } else if a.Drop? || StatusChange(s, a).Some? {
      OwnEnds(s, a);
    } else if OwnBlock(NextPc(s, a)).Some? {
      OwnGoesOn(s, a);
    }
  }

  lemma OwnBegins(s: State, a: Action)
    requires Inv(s) && Enabled(s, a) && (NewBlock(s, a).Some? || a.PopFree?)
    ensures OwnOk(Exec(s, a), a.t)
  {
    if a.PopFree? {
      PoppedWasListed(s, a.t);
    }
    hide ListInv, LockInv, CountInv, OwnInv, HandsInv, CarveInv;
    hide NextLists, NextOwners, NextLock, NextBlocks, NextCtl;
  }

  lemma OwnEnds(s: State, a: Action)
    requires Inv(s) && Enabled(s, a) && NewBlock(s, a).None? && !a.PopFree? && (a.Drop? || StatusChange(s, a).Some?)
    ensures OwnOk(Exec(s, a), a.t)
  {
    if a.Drop? {
      DroppedIsShared(s, a);
      assert CountOk(s, a.b);
    }
    hide ListInv;
    hide LockInv;
    hide CarveInv;
    hide CountInv;
    hide ClassInv;
    hide OwnInv;
    hide NextLists;
    hide NextOwners;
    hide NextLock;
    hide NextCtl;
  }

  lemma OwnGoesOn(s: State, a: Action)
    requires Inv(s) && Enabled(s, a) && OwnOk(s, a.t) && OwnBlock(NextPc(s, a)).Some?
    requires NewBlock(s, a).None? && !a.Drop? && StatusChange(s, a).None?
    ensures OwnOk(Exec(s, a), a.t)
  {
    SameBlock(s, a);
    hide Inv, NextLists, NextOwners, NextLock, StatusChange, OwnBlock;
  }

  lemma SameBlock(s: State, a: Action)
    requires WellFormed(s) && Enabled(s, a) && OwnBlock(NextPc(s, a)).Some?
    requires NewBlock(s, a).None? && !a.Drop? && StatusChange(s, a).None?
    ensures OwnBlock(s.pcs[a.t]) == OwnBlock(NextPc(s, a))
    ensures NextStatus(s, a) == s.hist.status && NextCarved(s, a) == s.hist.carved
  {
  }

  lemma OtherKeepsOwn(s: State, a: Action, u: nat)
    requires Inv(s) && Enabled(s, a) && u < |s.pcs| && u != a.t
    ensures OwnOk(Exec(s, a), u)
  {
    assert OwnOk(s, u);
    if OwnBlock(s.pcs[u]).Some? {
      var b := OwnBlock(s.pcs[u]).value;
      HeaderIsKept(s, a, u);
      StatusIsKept(s, a, u);
      OwnFrame(s, Exec(s, a), u);
    }
  }

  lemma OwnFrame(s: State, n: State, u: nat)
    requires WellFormed(s) && WellFormed(n) && u < |s.pcs| && |n.pcs| == |s.pcs| && n.pcs[u] == s.pcs[u]
    requires OwnOk(s, u) && OwnBlock(s.pcs[u]).Some?
    requires var b := OwnBlock(s.pcs[u]).value;
      && b in n.hist.status && n.hist.status[b] == s.hist.status[b]
      && b in n.hist.carved && n.hist.carved[b] == s.hist.carved[b]
      && SameHeader(s.blk, n.blk, b) && (s.pcs[u].Linked? ==> n.ctl.free == s.ctl.free)
    ensures OwnOk(n, u)
  {
  }

  predicate SameHeader(m: Blocks, n: Blocks, b: Ref) {
    && (b in m.rc ==> b in n.rc && n.rc[b] == m.rc[b])
    && (b in m.cls ==> b in n.cls && n.cls[b] == m.cls[b])
    && (b in m.next ==> b in n.next && n.next[b] == m.next[b])
  }

  // The block whose header a step writes.
  function HeaderChange(s: State, a: Action): Option<Ref>
    requires WellFormed(s) && Enabled(s, a)
  {
    match a
    case SetRc(t) => Some(s.pcs[t].b)
    case SetClass(t) => Some(s.pcs[t].b)
    case Fill(t, _) => Some(s.pcs[t].b)
    case LinkFree(t) => Some(s.pcs[t].b)
    case Share(_, b) => Some(b)
    case Drop(_, b) => Some(b)
    case _ => None
  }

  lemma HeaderMoves(s: State, a: Action, b: Ref)
    requires WellFormed(s) && Enabled(s, a) && HeaderChange(s, a) != Some(b)
    ensures SameHeader(s.blk, NextBlocks(s, a), b)
  {
  }

  // A header is written only by the thread that owns the block, or for a block
  // that is referenced.
  lemma HeaderWriter(s: State, a: Action)
    requires Inv(s) && Enabled(s, a) && HeaderChange(s, a).Some?
    ensures var b := HeaderChange(s, a).value;
      b in s.hist.status && s.hist.status[b] == (if a.Share? || a.Drop? then Shared else Owned(a.t))
  {
    if a.Drop? || a.Share? {
      DroppedIsShared(s, a);
    } else {
      assert OwnOk(s, a.t);
    }
  }

  // A step leaves the header of another thread's own block alone.
  lemma HeaderIsKept(s: State, a: Action, u: nat)
    requires Inv(s) && Enabled(s, a) && u < |s.pcs| && u != a.t && OwnBlock(s.pcs[u]).Some?
    ensures SameHeader(s.blk, NextBlocks(s, a), OwnBlock(s.pcs[u]).value)
    ensures s.pcs[u].Linked? ==> NextCtl(s, a).free == s.ctl.free
  {
    if s.pcs[u].Linked? {
      FreeIsKept(s, a, u);
    }
    assert OwnOk(s, u);
    if HeaderChange(s, a).Some? {
      HeaderWriter(s, a);
    }
    hide Inv, NextBlocks, NextCtl;
    HeaderMoves(s, a, OwnBlock(s.pcs[u]).value);
  }

  lemma FreeIsKept(s: State, a: Action, u: nat)
    requires Inv(s) && Enabled(s, a) && u < |s.pcs| && u != a.t && s.pcs[u].Linked?
    ensures NextCtl(s, a).free == s.ctl.free
  {
    assert Holding(s.pcs[u]) && !Holding(s.pcs[a.t]);
    hide Inv;
  }

  // Nor does it change what that block is used for.
  lemma StatusIsKept(s: State, a: Action, u: nat)
    requires Inv(s) && Enabled(s, a) && u < |s.pcs| && u != a.t && OwnBlock(s.pcs[u]).Some?
    ensures var b := OwnBlock(s.pcs[u]).value;
      && b in s.hist.status && b in NextStatus(s, a) && NextStatus(s, a)[b] == s.hist.status[b]
      && b in s.hist.carved && b in NextCarved(s, a) && NextCarved(s, a)[b] == s.hist.carved[b]
  {
    assert OwnOk(s, u);
    if StatusChange(s, a).Some? {
      WasUsedAs(s, a);
    }
    hide ListInv;
    hide LockInv;
    hide CarveInv;
    hide CountInv;
    hide OwnInv;
    hide ClassInv;
    assert NewBlock(s, a).Some? ==> StatusChange(s, a).Some? && NewBlock(s, a).value == StatusChange(s, a).value.0;
    hide StatusChange;
    hide NewBlock;
  }

  lemma GiveMoves(o: seq<multiset<Ref>>, t: nat, x: Ref, b: Ref)
    requires t < |o|
    ensures Held(o[t := o[t] + multiset{x}], b) == Held(o, b) + if x == b then 1 else 0
  {
    hide Held;
    HeldUpdate(o, t, o[t] + multiset{x}, b);
  }

  lemma TakeMoves(o: seq<multiset<Ref>>, t: nat, x: Ref, b: Ref)
    requires t < |o| && o[t][x] > 0
    ensures Held(o[t := o[t] - multiset{x}], b) == Held(o, b) - if x == b then 1 else 0
  {
    hide Held;
    HeldUpdate(o, t, o[t] - multiset{x}, b);
  }

  lemma PassMoves(o: seq<multiset<Ref>>, t: nat, u: nat, x: Ref, b: Ref)
    requires t < |o| && u < |o| && t != u && o[t][x] > 0
    ensures Held(o[t := o[t] - multiset{x}][u := o[u] + multiset{x}], b) == Held(o, b)
  {
    hide Held;
    TakeMoves(o, t, x, b);
    GiveMoves(o[t := o[t] - multiset{x}], u, x, b);
  }

  // What a step does to the threads' Block objects.
  lemma NextObjs(s: State, a: Action)
    requires WellFormed(s) && Enabled(s, a)
    ensures var o, t := s.own.objs, a.t;
      && t < |o| && (a.Drop? ==> o[t][a.b] > 0) && (a.Pass? ==> o[t][a.b] > 0 && a.u < |o| && a.u != t)
      && NextOwners(s, a).objs ==
           if a.Publish? && s.pcs[t].Filling? then o[t := o[t] + multiset{s.pcs[t].b}]
           else if a.Adopt? then o[t := o[t] + multiset{a.b}]
           else if a.Drop? then o[t := o[t] - multiset{a.b}]
           else if a.Pass? then o[t := o[t] - multiset{a.b}][a.u := o[a.u] + multiset{a.b}]
           else if a.Kill? then o[t := multiset{}]
           else o
    ensures a.Publish? ==> s.pcs[a.t].Filling?
  {
    hide LastDrop, RoomInCurrent;
  }

  lemma ObjsMove(s: State, a: Action, b: Ref)
    requires WellFormed(s) && Enabled(s, a)
    ensures Held(NextOwners(s, a).objs, b) == Held(s.own.objs, b)
      + (if a.Publish? && s.pcs[a.t].b == b then 1 else 0) + (if a.Adopt? && a.b == b then 1 else 0)
      - (if a.Drop? && a.b == b then 1 else 0) - (if a.Kill? then s.own.objs[a.t][b] else 0)
  {
    hide Held, Enabled, NextOwners;
    NextObjs(s, a);
    var o, t := s.own.objs, a.t;
    if a.Publish? {
      GiveMoves(o, t, s.pcs[t].b, b);
    } else if a.Adopt? {
      GiveMoves(o, t, a.b, b);
    } else if a.Drop? {
      TakeMoves(o, t, a.b, b);
    } else if a.Pass? {
      PassMoves(o, t, a.u, a.b, b);
    } else if a.Kill? {
      HeldUpdate(o, t, multiset{}, b);
    }
  }

  lemma HandlesMove(s: State, a: Action, b: Ref)
    requires WellFormed(s) && Enabled(s, a)
    ensures NextOwners(s, a).handles[b] == s.own.handles[b] + (if a.Share? && a.b == b then 1 else 0)
      - (if (a.Adopt? || a.LoseHandle?) && a.b == b then 1 else 0)
    ensures NextOwners(s, a).gone[b] == s.own.gone[b] + (if a.LoseHandle? && a.b == b then 1 else 0)
      + (if a.Kill? then s.own.objs[a.t][b] else 0)
  {
  }

  // What a step does to the number of references to a block.
  lemma RefMoves(s: State, a: Action, b: Ref)
    requires WellFormed(s) && Enabled(s, a)
    ensures RefCount(NextOwners(s, a), b) == RefCount(s.own, b)
      + (if a.Publish? && s.pcs[a.t].b == b then 1 else 0)
      + (if a.Share? && a.b == b then 1 else 0)
      - (if a.Drop? && a.b == b then 1 else 0)
  {
    hide Held, NextOwners;
    ObjsMove(s, a, b);
    HandlesMove(s, a, b);
  }

  lemma StepCount(s: State, a: Action)
    requires Inv(s) && Enabled(s, a)
    ensures CountInv(Exec(s, a))
  {
    forall b ensures CountOk(Exec(s, a), b) {
      if StatusChange(s, a).Some? && b == StatusChange(s, a).value.0 {
        ChangedCount(s, a);
      } else {
        assert CountOk(s, b);
        SameUseCount(s, a, b);
      }
    }
  }

  lemma ChangedCount(s: State, a: Action)
    requires Inv(s) && Enabled(s, a) && StatusChange(s, a).Some?
    ensures CountOk(Exec(s, a), StatusChange(s, a).value.0)
  {
    if a.Publish? {
      PublishedCount(s, a);
    } else {
      NoReferenceLeft(s, a);
      hide Inv, RefCount, NextOwners, NextCtl, NextPc, NextLock, NextLists, NextBlocks, NextCarved, StatusChange;
    }
  }

  // A new block's first reference.
  lemma PublishedCount(s: State, a: Action)
    requires Inv(s) && Enabled(s, a) && a.Publish?
    ensures CountOk(Exec(s, a), s.pcs[a.t].b)
  {
    var b := s.pcs[a.t].b;
    RefMoves(s, a, b);
    assert CountOk(s, b) && OwnOk(s, a.t);
    assert NextBlocks(s, a) == s.blk && NextCarved(s, a) == s.hist.carved;
    hide Inv, RefCount, NextOwners, NextCtl, NextPc, NextLock, NextLists, NextBlocks, NextCarved;
  }

  // A block whose use changes otherwise is not referenced, or no longer.
  lemma NoReferenceLeft(s: State, a: Action)
    requires Inv(s) && Enabled(s, a) && StatusChange(s, a).Some? && !a.Publish?
    ensures RefCount(NextOwners(s, a), StatusChange(s, a).value.0) == 0 && !StatusChange(s, a).value.1.Shared?
  {
    var b := StatusChange(s, a).value.0;
    RefMoves(s, a, b);
    assert CountOk(s, b);
    WasUsedAs(s, a);
    assert a.Drop? ==> s.blk.rc[b] == 1;
    hide Inv, RefCount, NextOwners;
  }

  lemma SameUseCount(s: State, a: Action, b: Ref)
    requires Inv(s) && WellFormed(s) && Enabled(s, a) && CountOk(s, b)
    requires StatusChange(s, a).Some? ==> b != StatusChange(s, a).value.0
    ensures CountOk(Exec(s, a), b)
  {
    hide Inv, Enabled, CountOk, Exec, StatusChange, HeaderChange;
    if HeaderChange(s, a) == Some(b) {
      HeaderWriter(s, a);
      WrittenCount(s, a, b);
    } else {
      hide RefCount, NextOwners, NextBlocks, SameHeader;
      RefsStay(s, a, b);
      HeaderMoves(s, a, b);
      OtherMarksStay(s, a, b);
      CountFrame(s, Exec(s, a), b);
    }
  }

  lemma RefsStay(s: State, a: Action, b: Ref)
    requires WellFormed(s) && Enabled(s, a) && HeaderChange(s, a) != Some(b)
    requires StatusChange(s, a).Some? ==> b != StatusChange(s, a).value.0
    ensures RefCount(NextOwners(s, a), b) == RefCount(s.own, b)
  {
    hide RefCount, NextOwners;
    RefMoves(s, a, b);
  }

  lemma OtherMarksStay(s: State, a: Action, b: Ref)
    requires Inv(s) && WellFormed(s) && Enabled(s, a)
    requires StatusChange(s, a).Some? ==> b != StatusChange(s, a).value.0
    ensures var n := Exec(s, a);
      && (b in n.hist.status <==> b in s.hist.status) && (b in s.hist.status ==> n.hist.status[b] == s.hist.status[b])
      && (b in s.hist.carved ==> b in n.hist.carved && n.hist.carved[b] == s.hist.carved[b])
      && n.own == NextOwners(s, a) && n.blk == NextBlocks(s, a)
  {
    assert CarveInv(s);
    hide Inv, Enabled, NextCtl, NextOwners, NextLists, NextLock, NextCarved, NextBlocks, NextPc, StatusChange, CarveInv;
    CarvedStays(s, a);
  }

  lemma CountFrame(s: State, n: State, b: Ref)
    requires CountOk(s, b) && RefCount(n.own, b) == RefCount(s.own, b) && SameHeader(s.blk, n.blk, b)
    requires (b in n.hist.status <==> b in s.hist.status)
    requires b in s.hist.status ==> n.hist.status[b] == s.hist.status[b]
    requires b in s.hist.carved ==> b in n.hist.carved && n.hist.carved[b] == s.hist.carved[b]
    ensures CountOk(n, b)
  {
  }

  // Sharing and all drops but the last keep the count in step; a thread setting
  // its own block up changes no count.
  lemma WrittenCount(s: State, a: Action, b: Ref)
    requires Inv(s) && Enabled(s, a) && HeaderChange(s, a) == Some(b)
    requires StatusChange(s, a).Some? ==> b != StatusChange(s, a).value.0
    requires b in s.hist.status && s.hist.status[b] == (if a.Share? || a.Drop? then Shared else Owned(a.t))
    ensures CountOk(Exec(s, a), b)
  {
    RefMoves(s, a, b);
    assert CountOk(s, b);
    hide Inv;
    hide RefCount;
    hide NextOwners;
    hide NextCtl;
    hide NextPc;
    hide NextLock;
    hide NextLists;
  }

  lemma StepHands(s: State, a: Action)
    requires Inv(s) && Enabled(s, a)
    ensures HandsInv(Exec(s, a))
  {
    var n := Exec(s, a);
    forall b | b in n.hist.status ensures HandsOk(n, b) {
      if StatusChange(s, a).Some? && b == StatusChange(s, a).value.0 {
        ChangesHands(s, a);
      } else {
        assert HandsOk(s, b);
        StaysInHands(s, a, b);
      }
    }
  }

  // A block that comes into a thread's hands is where the thread goes on with it.
  lemma ChangesHands(s: State, a: Action)
    requires Inv(s) && WellFormed(s) && Enabled(s, a) && StatusChange(s, a).Some?
    ensures HandsOk(Exec(s, a), StatusChange(s, a).value.0)
  {
    hide Inv, Enabled, Exec, StatusChange, NextBlocks, NextPc, OwnBlock;
    NextHands(s, a);
    SegmentMoves(s, a);
    HandsAre(s, a);
  }

  lemma NextHands(s: State, a: Action)
    requires WellFormed(s) && Enabled(s, a) && StatusChange(s, a).Some?
    ensures var b, use := StatusChange(s, a).value.0, StatusChange(s, a).value.1;
      use.Owned? ==> use == Owned(a.t) && OwnBlock(NextPc(s, a)) == Some(b)
  {
  }

  lemma SegmentMoves(s: State, a: Action)
    requires Inv(s) && WellFormed(s) && Enabled(s, a) && StatusChange(s, a).Some?
    ensures var b, use := StatusChange(s, a).value.0, StatusChange(s, a).value.1;
      && (use.Unlinked? ==> b.dedicated)
      && (b.dedicated ==> (b.seg in NextBlocks(s, a).segs <==> !use.Unlinked?))
  {
    if NewBlock(s, a).None? {
      SegmentWas(s, a);
    }
    hide Inv;
  }

  lemma SegmentWas(s: State, a: Action)
    requires Inv(s) && WellFormed(s) && Enabled(s, a) && StatusChange(s, a).Some? && NewBlock(s, a).None?
    ensures var b := StatusChange(s, a).value.0; b.dedicated ==> b.seg in s.blk.segs
  {
    var b := StatusChange(s, a).value.0;
    WasUsedAs(s, a);
    assert HandsOk(s, b);
    hide Inv, StatusChange, NewBlock, Enabled;
  }

  lemma HandsAre(s: State, a: Action)
    requires WellFormed(s) && Enabled(s, a) && StatusChange(s, a).Some?
    requires var b, use := StatusChange(s, a).value.0, StatusChange(s, a).value.1;
      && (use.Owned? ==> use == Owned(a.t) && OwnBlock(NextPc(s, a)) == Some(b))
      && (use.Unlinked? ==> b.dedicated)
      && (b.dedicated ==> (b.seg in NextBlocks(s, a).segs <==> !use.Unlinked?))
    ensures HandsOk(Exec(s, a), StatusChange(s, a).value.0)
  {
    hide NextCtl, NextOwners, NextLists, NextLock, NextCarved, NextBlocks, NextPc, StatusChange, OwnBlock;
  }

  lemma StaysInHands(s: State, a: Action, b: Ref)
    requires Inv(s) && WellFormed(s) && Enabled(s, a) && b in s.hist.status && HandsOk(s, b)
    requires StatusChange(s, a).Some? ==> b != StatusChange(s, a).value.0
    ensures b in Exec(s, a).hist.status && HandsOk(Exec(s, a), b)
  {
    hide Inv, Exec, Enabled, StatusChange, OwnBlock, HandsOk, NextPc, NextBlocks;
    OtherUseStays(s, a, b);
    SegmentStays(s, a, b);
    KeepsHold(s, a);
    HandsFrame(s, Exec(s, a), a.t, b);
  }

  lemma OtherUseStays(s: State, a: Action, b: Ref)
    requires WellFormed(s) && Enabled(s, a) && b in s.hist.status
    requires StatusChange(s, a).Some? ==> b != StatusChange(s, a).value.0
    ensures var n := Exec(s, a);
      && b in n.hist.status && n.hist.status[b] == s.hist.status[b]
      && a.t < |s.pcs| && n.pcs == s.pcs[a.t := NextPc(s, a)] && n.blk == NextBlocks(s, a)
  {
    hide NextCtl, NextOwners, NextLists, NextLock, NextCarved, NextBlocks, NextPc, StatusChange;
  }

  lemma HandsFrame(s: State, n: State, t: nat, b: Ref)
    requires WellFormed(s) && WellFormed(n) && t < |s.pcs| == |n.pcs| && n.pcs == s.pcs[t := n.pcs[t]]
    requires b in s.hist.status && HandsOk(s, b) && b in n.hist.status && n.hist.status[b] == s.hist.status[b]
    requires OwnBlock(s.pcs[t]) == Some(b) ==> OwnBlock(n.pcs[t]) == Some(b)
    requires b.dedicated ==> (b.seg in n.blk.segs <==> b.seg in s.blk.segs)
    ensures HandsOk(n, b)
  {
  }

  // A thread lets go of its block only by putting it to another use.
  lemma KeepsHold(s: State, a: Action)
    requires WellFormed(s) && Enabled(s, a)
    ensures OwnBlock(s.pcs[a.t]).Some?
         && (StatusChange(s, a).Some? ==> OwnBlock(s.pcs[a.t]).value != StatusChange(s, a).value.0)
         ==> OwnBlock(NextPc(s, a)) == OwnBlock(s.pcs[a.t])
  {
  }

  lemma SegmentStays(s: State, a: Action, b: Ref)
    requires Inv(s) && Enabled(s, a) && b in s.hist.status
    requires StatusChange(s, a).Some? ==> b != StatusChange(s, a).value.0
    ensures b.dedicated ==> (b.seg in NextBlocks(s, a).segs <==> b.seg in s.blk.segs)
  {
    if a.RemoveSegment? || a.AllocDedicated? {
      if a.RemoveSegment? {
        WasUsedAs(s, a);
        assert InBounds(s, s.pcs[a.t].b);
      }
      assert b in s.hist.carved && InBounds(s, b);
    }
    hide Inv;
  }

  lemma StepKeepsInv(s: State, a: Action)
    requires Inv(s) && Enabled(s, a)
    ensures Inv(Exec(s, a))
  {
    StepLock(s, a);
    StepList(s, a);
    StepCarve(s, a);
    StepOwn(s, a);
    StepHands(s, a);
    StepCount(s, a);
    StepClass(s, a);
    hide Exec;
  }
}
