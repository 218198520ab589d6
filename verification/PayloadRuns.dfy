/** What holds over every run of the payload store's machine (module
    PayloadStore), with any threads killed anywhere. */
module PayloadRuns {
  import opened Wrappers
  import opened SizeClass
  import opened PayloadStore

  lemma {:induction false} RunKeepsInv(s: State, run: seq<Action>)
    requires Inv(s) && Enabling(s, run)
    ensures Inv(ExecAll(s, run))
    decreases |run|
  {
    if run != [] {
      StepKeepsInv(s, run[0]);
      hide Inv;
      hide Exec;
      RunKeepsInv(Exec(s, run[0]), run[1..]);
    }
  }

  lemma {:induction false} NobodyHolds(objs: seq<multiset<Ref>>, b: Ref)
    requires forall t :: 0 <= t < |objs| ==> objs[t] == multiset{}
    ensures Held(objs, b) == 0
  {
    if objs != [] {
      NobodyHolds(objs[1..], b);
    }
  }

  lemma InitialInv(s: State)
    requires Initial(s)
    ensures Inv(s)
  {
    forall b ensures CountOk(s, b) {
      NobodyHolds(s.own.objs, b);
    }
  }

  // ---------- the theorems ----------

  // The block a step hands to its thread, from a free list or newly carved.
  function HandedOut(s: State, a: Action): Option<Ref>
    requires WellFormed(s) && Enabled(s, a)
  {
    if a.PopFree? then s.ctl.free[s.pcs[a.t].cls] else NewBlock(s, a)
  }

  /** No block is handed out while anything refers to it or another thread is
      working on it: not after any interleaving, nor with threads killed
      anywhere. */
  lemma NeverHandedOutInUse(s: State, run: seq<Action>, a: Action)
    requires Initial(s) && Enabling(s, run) && Enabled(ExecAll(s, run), a)
    requires HandedOut(ExecAll(s, run), a).Some?
    ensures var n, b := ExecAll(s, run), HandedOut(ExecAll(s, run), a).value;
      && RefCount(n.own, b) == 0
      && (forall t :: 0 <= t < |n.pcs| ==> OwnBlock(n.pcs[t]) != Some(b))
      && (forall c :: 0 <= c < NCLASS ==> b !in NextLists(n, a)[c])
  {
    InitialInv(s);
    RunKeepsInv(s, run);
    var n := ExecAll(s, run);
    hide ExecAll;
    hide Enabling;
    HandoutIsSafe(n, a);
  }

  lemma HandoutIsSafe(n: State, a: Action)
    requires Inv(n) && Enabled(n, a) && HandedOut(n, a).Some?
    ensures var b := HandedOut(n, a).value;
      && RefCount(n.own, b) == 0
      && (forall t :: 0 <= t < |n.pcs| ==> OwnBlock(n.pcs[t]) != Some(b))
      && (forall c :: 0 <= c < NCLASS ==> b !in NextLists(n, a)[c])
  {
    var b, n' := HandedOut(n, a).value, Exec(n, a);
    WasUsedAs(n, a);
    assert StatusChange(n, a) == Some((b, Owned(a.t)));
    assert CountOk(n, b);
    StepList(n, a);
    assert n'.hist.status[b] == Owned(a.t) && n'.hist.lists == NextLists(n, a);
    hide Exec;
    hide NextLists;
    forall t | 0 <= t < |n.pcs| ensures OwnBlock(n.pcs[t]) != Some(b) {
      assert OwnOk(n, t);
    }
    hide Inv;
    forall c | 0 <= c < NCLASS ensures b !in n'.hist.lists[c] {
      assert ListOk(n', c);
    }
  }

  // In use: referenced, being set up or freed by a thread, or on a free list.
  ghost predicate InUse(s: State, b: Ref)
    requires WellFormed(s)
  {
    || RefCount(s.own, b) > 0
    || (exists t :: 0 <= t < |s.pcs| && OwnBlock(s.pcs[t]) == Some(b))
    || (exists c :: 0 <= c < NCLASS && b in s.hist.lists[c])
  }

  /** Distinct blocks never share a byte, and each lies inside its segment. */
  lemma BlocksNeverOverlap(s: State, run: seq<Action>, b: Ref, c: Ref)
    requires Initial(s) && Enabling(s, run) && b != c
    requires InUse(ExecAll(s, run), b) && InUse(ExecAll(s, run), c)
    ensures var n := ExecAll(s, run);
      && b in n.hist.carved && c in n.hist.carved
      && (b.dedicated && c.dedicated ==> b.seg != c.seg)
      && (!b.dedicated && !c.dedicated ==>
            && Apart(b, SizeOf(n.hist.carved[b]), c, SizeOf(n.hist.carved[c]))
            && b.off + SizeOf(n.hist.carved[b]) <= n.segBytes)
  {
    InitialInv(s);
    RunKeepsInv(s, run);
    var n := ExecAll(s, run);
    hide ExecAll;
    hide Enabling;
    UsedIsCarved(n, b);
    UsedIsCarved(n, c);
    assert InBounds(n, b) && InBounds(n, c);
  }

  lemma UsedIsCarved(n: State, b: Ref)
    requires Inv(n) && InUse(n, b)
    ensures b in n.hist.carved
  {
    assert CountOk(n, b);
    if t :| 0 <= t < |n.pcs| && OwnBlock(n.pcs[t]) == Some(b) {
      assert OwnOk(n, t);
    } else if c :| 0 <= c < NCLASS && b in n.hist.lists[c] {
      ListedIsCarved(n, c, b);
    }
  }

  /** The count in a block's header is the number of references there are, and
      says so exactly while there is one. */
  lemma CountsAreExact(s: State, run: seq<Action>, b: Ref)
    requires Initial(s) && Enabling(s, run) && RefCount(ExecAll(s, run).own, b) > 0
    ensures var n := ExecAll(s, run);
      b in n.blk.rc && n.blk.rc[b] == RefCount(n.own, b)
  {
    InitialInv(s);
    RunKeepsInv(s, run);
    hide ExecAll;
    hide Enabling;
    assert CountOk(ExecAll(s, run), b);
  }

  /** The free lists stay proper lists: reached through the headers' next words
      and acyclic. A listed block sits there once, on the list of the class it
      was carved for, with no reference left. */
  lemma FreeListsAreSound(s: State, run: seq<Action>, c: nat, i: nat)
    requires Initial(s) && Enabling(s, run) && c < NCLASS && i < |ExecAll(s, run).hist.lists[c]|
    ensures var n := ExecAll(s, run);
      var b := n.hist.lists[c][i];
      && Chain(n.blk.next, n.ctl.free[c], n.hist.lists[c])
      && RefCount(n.own, b) == 0 && b in n.hist.carved && n.hist.carved[b] == c
      && (forall d, j :: 0 <= d < NCLASS && 0 <= j < |n.hist.lists[d]| && n.hist.lists[d][j] == b ==> (d == c && j == i))
  {
    InitialInv(s);
    RunKeepsInv(s, run);
    var n := ExecAll(s, run);
    hide ExecAll;
    hide Enabling;
    ListedOnce(n, c, i);
  }

  lemma ListedOnce(n: State, c: nat, i: nat)
    requires Inv(n) && c < NCLASS && i < |n.hist.lists[c]|
    ensures var b := n.hist.lists[c][i];
      && Chain(n.blk.next, n.ctl.free[c], n.hist.lists[c])
      && RefCount(n.own, b) == 0 && b in n.hist.carved && n.hist.carved[b] == c
      && (forall d, j :: 0 <= d < NCLASS && 0 <= j < |n.hist.lists[d]| && n.hist.lists[d][j] == b ==> (d == c && j == i))
  {
    var b := n.hist.lists[c][i];
    assert ListOk(n, c) && CountOk(n, b);
    hide LockInv;
    hide CarveInv;
    hide CountInv;
    hide OwnInv;
    hide Chain;
    forall d, j | 0 <= d < NCLASS && 0 <= j < |n.hist.lists[d]| && n.hist.lists[d][j] == b
      ensures d == c && j == i
    {
      assert ListOk(n, d);
    }
  }

  /** What the code relies on when it acts is always there: a drop never takes a
      count below zero, a free list's head has a next word, and a freed block's
      class has a list. */
  lemma StepsAreAlwaysPossible(s: State, run: seq<Action>, t: nat)
    requires Initial(s) && Enabling(s, run) && t < |s.pcs| && |ExecAll(s, run).pcs| == |s.pcs|
    ensures var n := ExecAll(s, run);
      && (forall b :: n.pcs[t].Idle? && n.own.objs[t][b] > 0 ==> Enabled(n, Drop(t, b)) && Enabled(n, Share(t, b)))
      && (n.pcs[t].Choosing? ==> Enabled(n, PopFree(t)) || Enabled(n, BumpCurrent(t)) || Enabled(n, ClaimId(t)))
      && (n.pcs[t].Freeing? ==> Enabled(n, LinkFree(t)))
      && (n.pcs[t].Linked? ==> Enabled(n, PushFree(t)))
  {
    InitialInv(s);
    RunKeepsInv(s, run);
    var n := ExecAll(s, run);
    hide ExecAll;
    hide Enabling;
    StepsPossible(n, t);
  }

  lemma StepsPossible(n: State, t: nat)
    requires Inv(n) && t < |n.pcs|
    ensures forall b :: n.pcs[t].Idle? && n.own.objs[t][b] > 0 ==> Enabled(n, Drop(t, b)) && Enabled(n, Share(t, b))
    ensures n.pcs[t].Choosing? ==> Enabled(n, PopFree(t)) || Enabled(n, BumpCurrent(t)) || Enabled(n, ClaimId(t))
    ensures n.pcs[t].Freeing? ==> Enabled(n, LinkFree(t))
    ensures n.pcs[t].Linked? ==> Enabled(n, PushFree(t))
  {
    hide RoomInCurrent, SizeOf, LockInv, ListInv, CarveInv, OwnInv, HandsInv, CountInv, ClassInv;
    forall b | n.own.objs[t][b] > 0 ensures b in n.blk.rc && n.blk.rc[b] > 0 {
      HeldIsCounted(n, t, b);
    }
    if n.pcs[t].Choosing? {
      ChoiceExists(n, t);
    }
    if n.pcs[t].Freeing? || n.pcs[t].Linked? {
      FreeingFinds(n, t);
    }
    hide Inv;
  }

  lemma HeldIsCounted(n: State, t: nat, b: Ref)
    requires Inv(n) && t < |n.pcs| && n.own.objs[t][b] > 0
    ensures b in n.blk.rc && n.blk.rc[b] > 0
  {
    HolderIsReference(n, t, b);
    assert CountOk(n, b);
    hide Inv;
  }

  lemma ChoiceExists(n: State, t: nat)
    requires Inv(n) && t < |n.pcs| && n.pcs[t].Choosing?
    ensures Enabled(n, PopFree(t)) || Enabled(n, BumpCurrent(t)) || Enabled(n, ClaimId(t))
  {
    assert ClaimOk(n, n.pcs[t]);
    assert ListOk(n, n.pcs[t].cls);
  }

  lemma FreeingFinds(n: State, t: nat)
    requires Inv(n) && t < |n.pcs| && (n.pcs[t].Freeing? || n.pcs[t].Linked?)
    ensures n.pcs[t].b in n.blk.cls && n.blk.cls[n.pcs[t].b] < NCLASS
  {
    assert OwnOk(n, t);
    assert InBounds(n, n.pcs[t].b);
  }

  // ---------- where every block is ----------

  ghost predicate InHands(s: State, b: Ref) {
    exists t :: 0 <= t < |s.pcs| && OwnBlock(s.pcs[t]) == Some(b)
  }

  ghost predicate OnList(s: State, b: Ref)
    requires WellFormed(s)
  {
    exists c :: 0 <= c < NCLASS && b in s.hist.lists[c]
  }

  predicate Removed(s: State, b: Ref) {
    b.dedicated && b.seg !in s.blk.segs
  }

  // Nobody refers to it, no thread has it, no list leads to it, and its memory is
  // still there.
  ghost predicate OutOfReach(s: State, b: Ref)
    requires WellFormed(s)
  {
    b in s.hist.carved && RefCount(s.own, b) == 0 && !InHands(s, b) && !OnList(s, b) && !Removed(s, b)
  }

  // Never to be used again: out of reach, or counted for a reference that nobody
  // will drop.
  ghost predicate Lost(s: State, b: Ref)
    requires WellFormed(s)
  {
    OutOfReach(s, b) || s.own.gone[b] > 0
  }

  /** What a block is marked as is where it is: so each block ever carved is
      referenced, in a thread's hands, on a free list, removed or out of reach, and
      only one of these; and if it is on a list, then on that of its class. */
  lemma MarksArePlaces(s: State, b: Ref)
    requires Inv(s) && b in s.hist.carved
    ensures b in s.hist.status
    ensures RefCount(s.own, b) > 0 <==> s.hist.status[b].Shared?
    ensures InHands(s, b) <==> s.hist.status[b].Owned?
    ensures OnList(s, b) <==> s.hist.status[b].Listed?
    ensures Removed(s, b) <==> s.hist.status[b].Unlinked?
    ensures OutOfReach(s, b) <==> s.hist.status[b].Leaked?
    ensures OnList(s, b) ==> s.hist.carved[b] < NCLASS && b in s.hist.lists[s.hist.carved[b]]
  {
    assert CountOk(s, b) && HandsOk(s, b);
    HandsAreMarked(s, b);
    ListsAreMarked(s, b);
  }

  lemma HandsAreMarked(s: State, b: Ref)
    requires Inv(s) && b in s.hist.status
    ensures InHands(s, b) <==> s.hist.status[b].Owned?
  {
    assert HandsOk(s, b);
    if t :| 0 <= t < |s.pcs| && OwnBlock(s.pcs[t]) == Some(b) {
      assert OwnOk(s, t);
    }
  }

  lemma ListsAreMarked(s: State, b: Ref)
    requires Inv(s) && b in s.hist.carved && b in s.hist.status
    ensures OnList(s, b) <==> s.hist.status[b].Listed?
    ensures OnList(s, b) ==> s.hist.carved[b] < NCLASS && b in s.hist.lists[s.hist.carved[b]]
  {
    if c :| 0 <= c < NCLASS && b in s.hist.lists[c] {
      ListedIsCarved(s, c, b);
    }
  }

  // A step that puts something out of reach: a death of a thread that had a block
  // or a reference, a failed attach to the segment of a block just carved, a handle
  // that is lost.
  predicate Loses(s: State, a: Action)
    requires WellFormed(s) && Enabled(s, a)
  {
    match a
    case Kill(t) => OwnBlock(s.pcs[t]).Some? || s.own.objs[t] != multiset{}
    case AttachFails(_) => true
    case LoseHandle(_, _) => true
    case _ => false
  }

  ghost predicate SomeLoss(s: State, run: seq<Action>)
    requires WellFormed(s) && Enabling(s, run)
    decreases |run|
  {
    run != [] && (Loses(s, run[0]) || SomeLoss(Exec(s, run[0]), run[1..]))
  }

  ghost predicate NothingLost(s: State) {
    s.own.gone == multiset{} && forall b :: b in s.hist.status ==> !s.hist.status[b].Leaked?
  }

  lemma GoneGrows(s: State, a: Action)
    requires WellFormed(s) && Enabled(s, a)
    ensures a.t < |s.own.objs|
    ensures NextOwners(s, a).gone
         == if a.Kill? then s.own.gone + s.own.objs[a.t]
            else if a.LoseHandle? then s.own.gone + multiset{a.b} else s.own.gone
  {
  }

  lemma LossSeen(s: State, a: Action)
    requires WellFormed(s) && Enabled(s, a)
    ensures Loses(s, a) <==> a.LoseHandle? || (a.Kill? && s.own.objs[a.t] != multiset{})
                             || (StatusChange(s, a).Some? && StatusChange(s, a).value.1.Leaked?)
  {
    hide LastDrop, RoomInCurrent, NewBlock;
  }

  lemma LeakedStays(s: State, a: Action, b: Ref)
    requires Inv(s) && WellFormed(s) && Enabled(s, a) && b in s.hist.status && s.hist.status[b].Leaked?
    ensures var n := Exec(s, a); b in n.hist.status && n.hist.status[b].Leaked?
  {
    hide Inv, Enabled, StatusChange, NewBlock, NextCtl, NextOwners, NextLists, NextLock, NextCarved, NextBlocks, NextPc;
    if StatusChange(s, a).Some? {
      WasUsedAs(s, a);
    }
  }

  lemma LossStep(s: State, a: Action)
    requires Inv(s) && WellFormed(s) && Enabled(s, a)
    ensures NothingLost(Exec(s, a)) <==> NothingLost(s) && !Loses(s, a)
  {
    hide Inv, Enabled, Loses, StatusChange, NextCtl, NextOwners, NextLists, NextLock, NextCarved, NextBlocks, NextPc;
    var n := Exec(s, a);
    GoneGrows(s, a);
    LossSeen(s, a);
    GoneMeans(s, a);
    if b :| b in s.hist.status && s.hist.status[b].Leaked? {
      LeakedStays(s, a, b);
    }
    if StatusChange(s, a).Some? {
      var b := StatusChange(s, a).value.0;
      assert b in n.hist.status && n.hist.status[b] == StatusChange(s, a).value.1;
    }
  }

  lemma GoneMeans(s: State, a: Action)
    requires WellFormed(s) && Enabled(s, a) && a.t < |s.own.objs|
    ensures NextOwners(s, a).gone == multiset{}
       <==> s.own.gone == multiset{} && !a.LoseHandle? && !(a.Kill? && s.own.objs[a.t] != multiset{})
  {
    hide NextOwners, Enabled;
    GoneGrows(s, a);
    assert a.LoseHandle? ==> a.b in NextOwners(s, a).gone;
    assert a.Kill? ==> forall b :: b in s.own.objs[a.t] ==> b in NextOwners(s, a).gone;
    assert forall b :: b in s.own.gone ==> b in NextOwners(s, a).gone;
  }

  lemma {:induction false} LossRun(s: State, run: seq<Action>)
    requires Inv(s) && WellFormed(s) && Enabling(s, run)
    ensures NothingLost(ExecAll(s, run)) <==> NothingLost(s) && !SomeLoss(s, run)
    decreases |run|
  {
    if run != [] {
      var n := Exec(s, run[0]);
      hide Inv, NothingLost, Exec, Loses;
      LossStep(s, run[0]);
      StepKeepsInv(s, run[0]);
      LossRun(n, run[1..]);
    }
  }

  lemma NothingLostMeans(n: State)
    requires Inv(n) && WellFormed(n)
    ensures NothingLost(n) <==> forall b :: !Lost(n, b)
  {
    forall b ensures OutOfReach(n, b) <==> b in n.hist.status && n.hist.status[b].Leaked? {
      assert CarveInv(n);
      if b in n.hist.carved {
        MarksArePlaces(n, b);
      }
    }
    hide Inv, OutOfReach;
    if n.own.gone != multiset{} {
      var b :| b in n.own.gone;
      assert Lost(n, b);
    }
    if b :| b in n.hist.status && n.hist.status[b].Leaked? {
      assert Lost(n, b);
    }
  }

  /** Over every run: some block ends up lost if and only if a thread that had a
      block or a reference was killed, an attach failed or a handle was lost. */
  lemma LostExactly(s: State, run: seq<Action>)
    requires Initial(s) && Enabling(s, run)
    ensures (exists b :: Lost(ExecAll(s, run), b)) <==> SomeLoss(s, run)
  {
    InitialInv(s);
    RunKeepsInv(s, run);
    LossRun(s, run);
    hide ExecAll, Enabling, SomeLoss, Inv, Lost;
    NothingLostMeans(ExecAll(s, run));
  }

  /** Without such a step nothing leaks: a block nobody refers to is on the free
      list of its class, in a thread's hands, or a dedicated segment already
      removed. */
  lemma UnreferencedIsRecycled(s: State, run: seq<Action>, b: Ref)
    requires Initial(s) && Enabling(s, run) && !SomeLoss(s, run)
    requires b in ExecAll(s, run).hist.carved && RefCount(ExecAll(s, run).own, b) == 0
    ensures var n := ExecAll(s, run);
      || InHands(n, b) || Removed(n, b)
      || (n.hist.carved[b] < NCLASS && b in n.hist.lists[n.hist.carved[b]])
  {
    InitialInv(s);
    RunKeepsInv(s, run);
    LostExactly(s, run);
    hide ExecAll, Enabling, SomeLoss;
    assert !Lost(ExecAll(s, run), b);
    MarksArePlaces(ExecAll(s, run), b);
  }

  lemma GoneStays(s: State, a: Action, b: Ref)
    requires WellFormed(s) && Enabled(s, a) && s.own.gone[b] > 0
    ensures Exec(s, a).own.gone[b] > 0
  {
    hide Enabled, NextOwners, NextCtl, NextLists, NextLock, NextCarved, NextBlocks, NextPc, NextStatus;
    GoneGrows(s, a);
  }

  /** What is lost stays lost, whatever happens, and is never handed out again. */
  lemma {:induction false} LostForGood(s: State, run: seq<Action>, b: Ref)
    requires Inv(s) && WellFormed(s) && Enabling(s, run) && Lost(s, b)
    ensures Lost(ExecAll(s, run), b)
    ensures forall a :: Enabled(ExecAll(s, run), a) ==> HandedOut(ExecAll(s, run), a) != Some(b)
    decreases |run|
  {
    if run == [] {
      forall a | Enabled(s, a) && HandedOut(s, a).Some? ensures HandedOut(s, a) != Some(b) {
        HandedOutIsNotLost(s, a);
      }
    } else {
      var n := Exec(s, run[0]);
      StepKeepsInv(s, run[0]);
      StaysLost(s, run[0], b);
      hide Inv, Lost, Exec, Enabled, HandedOut;
      LostForGood(n, run[1..], b);
    }
  }

  lemma StaysLost(s: State, a: Action, b: Ref)
    requires Inv(s) && WellFormed(s) && Enabled(s, a) && Lost(s, b)
    ensures Lost(Exec(s, a), b)
  {
    if s.own.gone[b] > 0 {
      GoneStays(s, a, b);
    } else {
      MarksArePlaces(s, b);
      hide Inv, OutOfReach, Exec;
      LeakedStays(s, a, b);
      StepKeepsInv(s, a);
      CarvedWith(Exec(s, a), b);
      MarksArePlaces(Exec(s, a), b);
    }
  }

  lemma CarvedWith(s: State, b: Ref)
    requires Inv(s) && b in s.hist.status
    ensures b in s.hist.carved
  {
  }

  lemma HandedOutIsNotLost(s: State, a: Action)
    requires Inv(s) && WellFormed(s) && Enabled(s, a) && HandedOut(s, a).Some?
    ensures !Lost(s, HandedOut(s, a).value)
  {
    HandoutIsSafe(s, a);
    if a.PopFree? {
      PoppedWasListed(s, a.t);
      assert HandedOut(s, a).value in s.hist.lists[s.pcs[a.t].cls] && s.pcs[a.t].cls < NCLASS;
    } else {
      NewBlockIsNew(s, a);
    }
    hide Inv;
  }

  // ---------- a leak without a death ----------

  // One thread allocates and creates a segment, another carves its block from that
  // segment and cannot map it.
  const LEAK: seq<Action> := [
    AskAlloc(0, 0), LockAlloc(0), ClaimId(0), CreateSegment(0), SetCurrent(0), SetBump(0), AskAlloc(1, 0), UnlockAlloc(0),
    LockAlloc(1), BumpCurrent(1), UnlockAlloc(1), AttachFails(1)]

  // Where the two threads are after k steps of it, who holds the lock, and the
  // control segment.
  function FirstPc(k: nat): Pc {
    if k == 0 then Idle else if k == 1 then WantAlloc(0) else if k == 2 then Choosing(0)
    else if k == 3 then Claimed(0, 0) else if k == 4 then Created(0, 0) else if k == 5 then Current(0, 0)
    else if k <= 7 then Got(Ref(0, 0, false), 0, true) else Fresh(Ref(0, 0, false), 0, true)
  }

  function SecondPc(k: nat): Pc {
    if k <= 6 then Idle else if k <= 8 then WantAlloc(0) else if k == 9 then Choosing(0)
    else if k == 10 then Got(Ref(0, SizeOf(0), false), 0, false)
    else if k == 11 then Fresh(Ref(0, SizeOf(0), false), 0, false) else Idle
  }

  function LockAt(k: nat): Option<nat> {
    if 2 <= k <= 7 then Some(0) else if 9 <= k <= 10 then Some(1) else None
  }

  function CtlAt(c: Ctl, k: nat): Ctl {
    c.(nreg := if k <= 2 then 0 else 1, cur := if k <= 4 then None else Some(0),
       bump := if k <= 5 then c.bump else if k <= 9 then SizeOf(0) else 2 * SizeOf(0))
  }

  predicate At(n: State, segBytes: nat, c: Ctl, k: nat) {
    n.pcs == [FirstPc(k), SecondPc(k)] && n.lock == LockAt(k) && n.ctl == CtlAt(c, k) && n.segBytes == segBytes
  }

  lemma LeakStep(n: State, segBytes: nat, c: Ctl, k: nat)
    requires WellFormed(n) && k < 12 && At(n, segBytes, c, k)
    requires |c.free| == NCLASS && c.free[0].None? && 2 * SizeOf(0) <= segBytes
    ensures Enabled(n, LEAK[k]) && At(Exec(n, LEAK[k]), segBytes, c, k + 1)
  {
    hide SizeOf, NextBlocks, NextOwners, NextLists, NextCarved, NextStatus;
    if k < 4 {
      LeakStarts(n, segBytes, c, k);
    } else if k < 8 {
      LeakGoesOn(n, segBytes, c, k);
    } else {
      LeakEnds(n, segBytes, c, k);
    }
  }

  lemma LeakStarts(n: State, segBytes: nat, c: Ctl, k: nat)
    requires WellFormed(n) && k < 4 && At(n, segBytes, c, k)
    requires |c.free| == NCLASS && c.free[0].None? && 2 * SizeOf(0) <= segBytes
    ensures Enabled(n, LEAK[k]) && At(Exec(n, LEAK[k]), segBytes, c, k + 1)
  {
    hide SizeOf, NextBlocks, NextOwners, NextLists, NextCarved, NextStatus;
    assert LEAK[k] == [AskAlloc(0, 0), LockAlloc(0), ClaimId(0), CreateSegment(0)][k];
  }

  lemma LeakGoesOn(n: State, segBytes: nat, c: Ctl, k: nat)
    requires WellFormed(n) && 4 <= k < 8 && At(n, segBytes, c, k)
    requires |c.free| == NCLASS && c.free[0].None? && 2 * SizeOf(0) <= segBytes
    ensures Enabled(n, LEAK[k]) && At(Exec(n, LEAK[k]), segBytes, c, k + 1)
  {
    hide SizeOf, NextBlocks, NextOwners, NextLists, NextCarved, NextStatus;
    assert LEAK[k] == [SetCurrent(0), SetBump(0), AskAlloc(1, 0), UnlockAlloc(0)][k - 4];
  }

  lemma LeakEnds(n: State, segBytes: nat, c: Ctl, k: nat)
    requires WellFormed(n) && 8 <= k < 12 && At(n, segBytes, c, k)
    requires |c.free| == NCLASS && c.free[0].None? && 2 * SizeOf(0) <= segBytes
    ensures Enabled(n, LEAK[k]) && At(Exec(n, LEAK[k]), segBytes, c, k + 1)
  {
    hide SizeOf, NextBlocks, NextOwners, NextLists, NextCarved, NextStatus;
    assert LEAK[k] == [LockAlloc(1), BumpCurrent(1), UnlockAlloc(1), AttachFails(1)][k - 8];
  }

  lemma {:induction false} Append(s: State, run: seq<Action>, a: Action)
    requires WellFormed(s) && Enabling(s, run) && Enabled(ExecAll(s, run), a)
    ensures Enabling(s, run + [a]) && ExecAll(s, run + [a]) == Exec(ExecAll(s, run), a)
    decreases |run|
  {
    hide Exec, Enabled;
    assert (run + [a])[0] == if run == [] then a else run[0];
    if run == [] {
      assert (run + [a])[1..] == [];
    } else {
      assert (run + [a])[1..] == run[1..] + [a];
      Append(Exec(s, run[0]), run[1..], a);
    }
  }

  lemma {:induction false} LeakRuns(s: State, k: nat)
    requires Initial(s) && |s.pcs| == 2 && 2 * SizeOf(0) <= s.segBytes && k <= 12
    ensures Enabling(s, LEAK[..k]) && At(ExecAll(s, LEAK[..k]), s.segBytes, s.ctl, k)
  {
    hide SizeOf, Exec, Enabled;
    if k > 0 {
      LeakRuns(s, k - 1);
      LeakStep(ExecAll(s, LEAK[..k - 1]), s.segBytes, s.ctl, k - 1);
      assert LEAK[..k] == LEAK[..k - 1] + [LEAK[k - 1]];
      Append(s, LEAK[..k - 1], LEAK[k - 1]);
    }
  }

  /** Without any death: a thread that cannot map the segment its new block is in
      loses the block. */
  lemma AttachFailureLeaks(s: State)
    requires Initial(s) && |s.pcs| == 2 && 2 * SizeOf(0) <= s.segBytes
    ensures Enabling(s, LEAK) && (forall a :: a in LEAK ==> !a.Kill?)
    ensures exists b :: OutOfReach(ExecAll(s, LEAK), b)
  {
    hide Exec, Enabled, Inv, OutOfReach, SizeOf, ExecAll, Enabling;
    var most := LEAK[..11];
    assert LEAK == LEAK[..12] == most + [LEAK[11]];
    LeakRuns(s, 11);
    InitialInv(s);
    RunKeepsInv(s, most);
    var n := ExecAll(s, most);
    LeakStep(n, s.segBytes, s.ctl, 11);
    Append(s, most, LEAK[11]);
    AttachLoses(n, 1);
  }

  lemma AttachLoses(n: State, t: nat)
    requires Inv(n) && WellFormed(n) && Enabled(n, AttachFails(t))
    ensures OutOfReach(Exec(n, AttachFails(t)), n.pcs[t].b)
  {
    StepKeepsInv(n, AttachFails(t));
    var m := Exec(n, AttachFails(t));
    assert m.hist.status[n.pcs[t].b] == Leaked;
    hide Inv, Exec, OutOfReach, Enabled;
    CarvedWith(m, n.pcs[t].b);
    MarksArePlaces(m, n.pcs[t].b);
  }

  // ---------- readers ----------

  /** A live Block object or an un-adopted handle is a reference. */
  lemma HolderIsReference(s: State, t: nat, b: Ref)
    requires WellFormed(s) && t < |s.pcs| && (s.own.objs[t][b] > 0 || s.own.handles[b] > 0)
    ensures RefCount(s.own, b) > 0
  {
    HeldUpdate(s.own.objs, t, multiset{}, b);
  }

  /** While a block is referenced, no step changes its payload. */
  lemma ReferencedPayloadIsStable(s: State, a: Action, b: Ref)
    requires Inv(s) && Enabled(s, a) && RefCount(s.own, b) > 0
    ensures var n := Exec(s, a); (b in n.blk.mem <==> b in s.blk.mem) && (b in s.blk.mem ==> n.blk.mem[b] == s.blk.mem[b])
  {
    hide RefCount, LastDrop, RoomInCurrent, NewBlock, NextCtl, NextOwners, NextLists, NextLock, NextCarved, NextStatus, NextPc;
    if a.Fill? {
      FilledIsUnreferenced(s, a);
    }
    hide Inv;
  }

  lemma FilledIsUnreferenced(s: State, a: Action)
    requires Inv(s) && Enabled(s, a) && a.Fill?
    ensures RefCount(s.own, s.pcs[a.t].b) == 0
  {
    hide RefCount;
    assert OwnOk(s, a.t);
    assert CountOk(s, s.pcs[a.t].b);
    hide Inv;
  }

  // History: what each block held when it was last given its first reference.
  function NextSent(s: State, a: Action, sent: map<Ref, Content>): map<Ref, Content>
    requires WellFormed(s) && Enabled(s, a)
  {
    if a.Publish? && s.pcs[a.t].b in s.blk.mem then sent[s.pcs[a.t].b := s.blk.mem[s.pcs[a.t].b]] else sent
  }

  function SentAll(s: State, run: seq<Action>, sent: map<Ref, Content>): map<Ref, Content>
    requires WellFormed(s) && Enabling(s, run)
    decreases |run|
  {
    if run == [] then sent else SentAll(Exec(s, run[0]), run[1..], NextSent(s, run[0], sent))
  }

  // A referenced block holds what was sent in it.
  predicate AsSent(s: State, sent: map<Ref, Content>, b: Ref) {
    b in s.blk.mem && RefCount(s.own, b) > 0 ==> b in sent && sent[b] == s.blk.mem[b]
  }

  lemma StepKeepsSent(s: State, a: Action, sent: map<Ref, Content>, b: Ref)
    requires Inv(s) && WellFormed(s) && Enabled(s, a) && AsSent(s, sent, b)
    ensures AsSent(Exec(s, a), NextSent(s, a, sent), b)
  {
    hide Inv, RefCount, Exec;
    if a.Publish? && s.pcs[a.t].b == b {
      PublishLeavesBlocks(s, a);
    } else {
      var n := Exec(s, a);
      if RefCount(n.own, b) > 0 {
        StillReferenced(s, a, b);
        ReferencedPayloadIsStable(s, a, b);
      }
    }
  }

  lemma PublishLeavesBlocks(s: State, a: Action)
    requires WellFormed(s) && Enabled(s, a) && a.Publish?
    ensures Exec(s, a).blk == s.blk
  {
    hide NextOwners, NextCtl, NextLists, NextLock, NextCarved, NextStatus, NextPc;
  }

  // Only publishing gives a block its first reference.
  lemma StillReferenced(s: State, a: Action, b: Ref)
    requires WellFormed(s) && Enabled(s, a) && !(a.Publish? && s.pcs[a.t].b == b) && RefCount(Exec(s, a).own, b) > 0
    ensures RefCount(s.own, b) > 0
  {
    hide RefCount, NextOwners, NextBlocks, NextCtl, NextLists, NextLock, NextCarved, NextStatus, NextPc;
    RefMoves(s, a, b);
    if a.Share? && a.b == b {
      HolderIsReference(s, a.t, b);
    }
  }

  lemma {:induction false} RunKeepsSent(s: State, run: seq<Action>, sent: map<Ref, Content>, b: Ref)
    requires Inv(s) && WellFormed(s) && Enabling(s, run) && AsSent(s, sent, b)
    ensures AsSent(ExecAll(s, run), SentAll(s, run, sent), b)
    decreases |run|
  {
    if run != [] {
      var n, later := Exec(s, run[0]), NextSent(s, run[0], sent);
      hide Inv, AsSent, Enabled, Exec, NextSent;
      StepKeepsSent(s, run[0], sent, b);
      StepKeepsInv(s, run[0]);
      RunKeepsSent(n, run[1..], later, b);
    }
  }

  /** Whoever holds a block or a handle on one finds in it what was sent in it,
      whatever has been allocated, freed or killed in the meantime. */
  lemma ReadersSeeSentBytes(s: State, run: seq<Action>, t: nat, b: Ref)
    requires Initial(s) && Enabling(s, run) && t < |ExecAll(s, run).pcs|
    requires ExecAll(s, run).own.objs[t][b] > 0 || ExecAll(s, run).own.handles[b] > 0
    requires b in ExecAll(s, run).blk.mem
    ensures var sent := SentAll(s, run, map[]); b in sent && ExecAll(s, run).blk.mem[b] == sent[b]
  {
    InitialInv(s);
    assert AsSent(s, map[], b) by {
      NobodyHolds(s.own.objs, b);
    }
    RunKeepsSent(s, run, map[], b);
    hide Enabling, ExecAll, SentAll;
    HolderIsReference(ExecAll(s, run), t, b);
  }
}
