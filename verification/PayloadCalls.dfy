/** What the calls on the payload store come to when nobody interferes, step by
    step as module PayloadStore has them: what an allocation, a hand-over and a
    release leave behind, in every state they may start from. */
module PayloadCalls {
  import opened Wrappers
  import opened SizeClass
  import opened PayloadStore

  lemma Ends(s: State)
    requires WellFormed(s)
    ensures Enabling(s, []) && ExecAll(s, []) == s
  {
  }

  lemma Then(s: State, a: Action, n: State, run: seq<Action>)
    requires WellFormed(s) && Enabled(s, a) && Exec(s, a) == n && Enabling(n, run)
    ensures Enabling(s, [a] + run) && ExecAll(s, [a] + run) == ExecAll(n, run)
  {
    hide Enabled, Exec;
    assert ([a] + run)[1..] == run;
  }

  // The state with thread t at p and the lock as given.
  function Goes(s: State, t: nat, p: Pc, lock: Option<nat>): (n: State)
    requires WellFormed(s) && t < |s.pcs|
    ensures WellFormed(n)
  {
    s.(pcs := s.pcs[t := p], lock := lock)
  }

  function Marked(s: State, b: Ref, use: Status): State {
    s.(hist := s.hist.(status := s.hist.status[b := use]))
  }

  lemma FreshSteps(s: State, t: nat, v: Content)
    requires WellFormed(s) && t < |s.pcs| && s.pcs[t].Fresh?
    ensures var b, k := s.pcs[t].b, s.pcs[t].cls;
      var s1 := Goes(s, t, Counted(b, k), s.lock).(blk := s.blk.(rc := s.blk.rc[b := 1]));
      var s2 := Goes(s1, t, Filling(b), s.lock).(blk := s1.blk.(cls := s.blk.cls[b := k]));
      var s3 := s2.(blk := s2.blk.(mem := s.blk.mem[b := v]));
      && Enabled(s, SetRc(t)) && Exec(s, SetRc(t)) == s1 && Enabled(s1, SetClass(t)) && Exec(s1, SetClass(t)) == s2
      && Enabled(s2, Fill(t, v)) && Exec(s2, Fill(t, v)) == s3
      && Enabled(s3, Publish(t))
      && Exec(s3, Publish(t)) == Marked(Goes(s3, t, Idle, s.lock), b, Shared).(
           own := s.own.(objs := s.own.objs[t := s.own.objs[t] + multiset{b}]))
  {
  }

  /** A new block gets one reference, its class and its payload, and is its thread's. */
  lemma NewBlockIsPublished(s: State, t: nat, v: Content)
    requires WellFormed(s) && t < |s.pcs| && s.pcs[t].Fresh?
    ensures var run := [SetRc(t)] + ([SetClass(t)] + ([Fill(t, v)] + ([Publish(t)] + [])));
      var b := s.pcs[t].b;
      && Enabling(s, run)
      && ExecAll(s, run) == Marked(Goes(s, t, Idle, s.lock), b, Shared).(
           blk := s.blk.(rc := s.blk.rc[b := 1], cls := s.blk.cls[b := s.pcs[t].cls], mem := s.blk.mem[b := v]),
           own := s.own.(objs := s.own.objs[t := s.own.objs[t] + multiset{b}]))
  {
    hide Enabling, ExecAll, Exec, Enabled;
    FreshSteps(s, t, v);
    var b, k := s.pcs[t].b, s.pcs[t].cls;
    var s1 := Goes(s, t, Counted(b, k), s.lock).(blk := s.blk.(rc := s.blk.rc[b := 1]));
    var s2 := Goes(s1, t, Filling(b), s.lock).(blk := s1.blk.(cls := s.blk.cls[b := k]));
    var s3 := s2.(blk := s2.blk.(mem := s.blk.mem[b := v]));
    var n := Marked(Goes(s3, t, Idle, s.lock), b, Shared).(
      own := s.own.(objs := s.own.objs[t := s.own.objs[t] + multiset{b}]));
    Ends(n);
    Then(s3, Publish(t), n, []);
    Then(s2, Fill(t, v), s3, [Publish(t)] + []);
    Then(s1, SetClass(t), s2, [Fill(t, v)] + ([Publish(t)] + []));
    Then(s, SetRc(t), s1, [SetClass(t)] + ([Fill(t, v)] + ([Publish(t)] + [])));
    assert s.pcs[t := Counted(b, k)][t := Filling(b)][t := Idle] == s.pcs[t := Idle];
  }

  lemma ShareStep(s: State, t: nat, b: Ref)
    requires WellFormed(s) && t < |s.pcs| && s.pcs[t].Idle? && s.own.objs[t][b] > 0 && b in s.blk.rc
    ensures Enabled(s, Share(t, b))
    ensures Exec(s, Share(t, b))
         == s.(blk := s.blk.(rc := s.blk.rc[b := s.blk.rc[b] + 1]), own := s.own.(handles := s.own.handles + multiset{b}))
  {
  }

  lemma HandleSteps(s: State, u: nat, b: Ref)
    requires WellFormed(s) && u < |s.pcs| && s.pcs[u].Idle? && s.own.handles[b] > 0
    ensures Enabled(s, Adopt(u, b)) && Enabled(s, LoseHandle(u, b))
    ensures Exec(s, Adopt(u, b)) == s.(own := s.own.(handles := s.own.handles - multiset{b},
                                                     objs := s.own.objs[u := s.own.objs[u] + multiset{b}]))
    ensures Exec(s, LoseHandle(u, b))
         == s.(own := s.own.(handles := s.own.handles - multiset{b}, gone := s.own.gone + multiset{b}))
  {
  }

  lemma PassStep(s: State, t: nat, u: nat, b: Ref)
    requires WellFormed(s) && t < |s.pcs| && u < |s.pcs| && t != u && s.pcs[t].Idle? && s.pcs[u].Idle?
    requires s.own.objs[t][b] > 0
    ensures Enabled(s, Pass(t, u, b))
    ensures var o := s.own.objs;
      Exec(s, Pass(t, u, b)) == s.(own := s.own.(objs := o[t := o[t] - multiset{b}][u := o[u] + multiset{b}]))
  {
  }

  lemma DropStep(s: State, u: nat, b: Ref)
    requires WellFormed(s) && u < |s.pcs| && s.pcs[u].Idle? && s.own.objs[u][b] > 0 && b in s.blk.rc && s.blk.rc[b] > 1
    ensures Enabled(s, Drop(u, b))
    ensures Exec(s, Drop(u, b))
         == s.(blk := s.blk.(rc := s.blk.rc[b := s.blk.rc[b] - 1]),
               own := s.own.(objs := s.own.objs[u := s.own.objs[u] - multiset{b}]))
  {
  }

  /** Sharing a block, adopting it elsewhere and dropping it there leaves everything
      as it was; losing the handle instead leaves a reference nobody can drop. */
  lemma SharedAndBack(s: State, t: nat, u: nat, b: Ref)
    requires WellFormed(s) && t < |s.pcs| && u < |s.pcs| && s.pcs[t].Idle? && s.pcs[u].Idle?
    requires s.own.objs[t][b] > 0 && b in s.blk.rc && s.blk.rc[b] > 0
    ensures var back := [Share(t, b)] + ([Adopt(u, b)] + ([Drop(u, b)] + []));
      Enabling(s, back) && ExecAll(s, back) == s
    ensures var lost := [Share(t, b)] + ([LoseHandle(u, b)] + []);
      && Enabling(s, lost)
      && ExecAll(s, lost)
         == s.(blk := s.blk.(rc := s.blk.rc[b := s.blk.rc[b] + 1]), own := s.own.(gone := s.own.gone + multiset{b}))
  {
    hide Enabling, ExecAll, Exec, Enabled;
    var o, up := s.own.objs, s.blk.(rc := s.blk.rc[b := s.blk.rc[b] + 1]);
    var shared := s.(blk := up, own := s.own.(handles := s.own.handles + multiset{b}));
    var adopted := s.(blk := up, own := s.own.(objs := o[u := o[u] + multiset{b}]));
    var gone := s.(blk := up, own := s.own.(gone := s.own.gone + multiset{b}));
    assert s.own.handles + multiset{b} - multiset{b} == s.own.handles;
    assert o[u] + multiset{b} - multiset{b} == o[u];
    assert o[u := o[u] + multiset{b}][u := o[u]] == o;
    assert s.blk.rc[b := s.blk.rc[b] + 1][b := s.blk.rc[b]] == s.blk.rc;
    ShareStep(s, t, b);
    HandleSteps(shared, u, b);
    DropStep(adopted, u, b);
    Ends(s);
    Then(adopted, Drop(u, b), s, []);
    Then(shared, Adopt(u, b), adopted, [Drop(u, b)] + []);
    Then(s, Share(t, b), shared, [Adopt(u, b)] + ([Drop(u, b)] + []));
    Ends(gone);
    Then(shared, LoseHandle(u, b), gone, []);
    Then(s, Share(t, b), shared, [LoseHandle(u, b)] + []);
  }

  /** A block passed on within a process and dropped there is a block dropped. */
  lemma PassedAndDropped(s: State, t: nat, u: nat, b: Ref)
    requires WellFormed(s) && t < |s.pcs| && u < |s.pcs| && t != u && s.pcs[t].Idle? && s.pcs[u].Idle?
    requires s.own.objs[t][b] > 0 && b in s.blk.rc && s.blk.rc[b] > 1
    ensures Enabled(s, Drop(t, b))
    ensures var passed := [Pass(t, u, b)] + ([Drop(u, b)] + []);
      Enabling(s, passed) && ExecAll(s, passed) == Exec(s, Drop(t, b))
  {
    hide Enabling, ExecAll, Exec, Enabled;
    var o := s.own.objs;
    var passed := s.(own := s.own.(objs := o[t := o[t] - multiset{b}][u := o[u] + multiset{b}]));
    PassStep(s, t, u, b);
    DropStep(passed, u, b);
    DropStep(s, t, b);
    var n := Exec(s, Drop(t, b));
    assert o[u] + multiset{b} - multiset{b} == o[u];
    assert o[t := o[t] - multiset{b}][u := o[u] + multiset{b}][u := o[u]] == o[t := o[t] - multiset{b}];
    Ends(n);
    Then(passed, Drop(u, b), n, []);
    Then(s, Pass(t, u, b), passed, [Drop(u, b)] + []);
  }

  // The state once t has dropped the last reference to b, and once it is on top of
  // its list.
  function Dropped(s: State, t: nat, b: Ref): (n: State)
    requires WellFormed(s) && t < |s.pcs| && b in s.blk.rc && s.blk.rc[b] == 1
    ensures WellFormed(n) && |n.pcs| == |s.pcs|
  {
    Marked(s, b, Owned(t)).(
      pcs := s.pcs[t := WantFree(b)], blk := s.blk.(rc := s.blk.rc[b := 0]),
      own := s.own.(objs := s.own.objs[t := s.own.objs[t] - multiset{b}]))
  }

  lemma FreeLocks(s: State, t: nat)
    requires WellFormed(s) && t < |s.pcs| && s.pcs[t].WantFree? && !s.pcs[t].b.dedicated && s.lock.None?
    ensures Enabled(s, LockFree(t)) && Exec(s, LockFree(t)) == Goes(s, t, Freeing(s.pcs[t].b), Some(t))
  {
  }

  lemma FreeLinks(s: State, t: nat, k: nat)
    requires WellFormed(s) && t < |s.pcs| && s.pcs[t].Freeing? && s.lock == Some(t)
    requires s.pcs[t].b in s.blk.cls && s.blk.cls[s.pcs[t].b] == k < NCLASS
    ensures var b := s.pcs[t].b;
      && Enabled(s, LinkFree(t))
      && Exec(s, LinkFree(t)) == Goes(s, t, Linked(b), Some(t)).(blk := s.blk.(next := s.blk.next[b := s.ctl.free[k]]))
  {
  }

  lemma FreePushes(s: State, t: nat, k: nat)
    requires WellFormed(s) && t < |s.pcs| && s.pcs[t].Linked? && s.lock == Some(t)
    requires s.pcs[t].b in s.blk.cls && s.blk.cls[s.pcs[t].b] == k < NCLASS
    ensures var b := s.pcs[t].b;
      && Enabled(s, PushFree(t))
      && Exec(s, PushFree(t)) == Goes(s, t, Pushed, Some(t)).(
           ctl := s.ctl.(free := s.ctl.free[k := Some(b)]),
           hist := s.hist.(lists := s.hist.lists[k := [b] + s.hist.lists[k]], status := s.hist.status[b := Listed(k)]))
  {
  }

  lemma FreeUnlocks(s: State, t: nat)
    requires WellFormed(s) && t < |s.pcs| && s.pcs[t].Pushed?
    ensures Enabled(s, UnlockFree(t)) && Exec(s, UnlockFree(t)) == Goes(s, t, Idle, None)
  {
  }

  lemma FreeingSteps(s: State, t: nat, k: nat)
    requires WellFormed(s) && t < |s.pcs| && s.pcs[t].WantFree? && !s.pcs[t].b.dedicated && s.lock.None?
    requires s.pcs[t].b in s.blk.cls && s.blk.cls[s.pcs[t].b] == k < NCLASS
    ensures var b := s.pcs[t].b;
      var run := [LockFree(t)] + ([LinkFree(t)] + ([PushFree(t)] + ([UnlockFree(t)] + [])));
      && Enabling(s, run)
      && ExecAll(s, run) == Goes(s, t, Idle, None).(
           ctl := s.ctl.(free := s.ctl.free[k := Some(b)]), blk := s.blk.(next := s.blk.next[b := s.ctl.free[k]]),
           hist := s.hist.(lists := s.hist.lists[k := [b] + s.hist.lists[k]], status := s.hist.status[b := Listed(k)]))
  {
    hide Enabling, ExecAll, Exec, Enabled;
    var b := s.pcs[t].b;
    var s1 := Goes(s, t, Freeing(b), Some(t));
    var s2 := Goes(s1, t, Linked(b), Some(t)).(blk := s.blk.(next := s.blk.next[b := s.ctl.free[k]]));
    var s3 := Goes(s2, t, Pushed, Some(t)).(
      ctl := s.ctl.(free := s.ctl.free[k := Some(b)]),
      hist := s.hist.(lists := s.hist.lists[k := [b] + s.hist.lists[k]], status := s.hist.status[b := Listed(k)]));
    var n := Goes(s3, t, Idle, None);
    FreeLocks(s, t);
    FreeLinks(s1, t, k);
    FreePushes(s2, t, k);
    FreeUnlocks(s3, t);
    Ends(n);
    Then(s3, UnlockFree(t), n, []);
    Then(s2, PushFree(t), s3, [UnlockFree(t)] + []);
    Then(s1, LinkFree(t), s2, [PushFree(t)] + ([UnlockFree(t)] + []));
    Then(s, LockFree(t), s1, [LinkFree(t)] + ([PushFree(t)] + ([UnlockFree(t)] + [])));
    assert s.pcs[t := Freeing(b)][t := Linked(b)][t := Pushed][t := Idle] == s.pcs[t := Idle];
  }

  lemma LastDropSteps(s: State, t: nat, b: Ref)
    requires WellFormed(s) && t < |s.pcs| && s.pcs[t].Idle? && s.own.objs[t][b] > 0 && b in s.blk.rc && s.blk.rc[b] == 1
    ensures Enabled(s, Drop(t, b)) && Exec(s, Drop(t, b)) == Dropped(s, t, b)
  {
  }

  /** A block whose last reference is dropped goes on top of the list of its class,
      its next word leading to what was on top before, and nothing else changes. */
  lemma FreedGoesOnTop(s: State, t: nat, b: Ref, k: nat)
    requires WellFormed(s) && t < |s.pcs| && s.pcs[t].Idle? && s.lock.None?
    requires s.own.objs[t][b] > 0 && b in s.blk.rc && s.blk.rc[b] == 1
    requires !b.dedicated && b in s.blk.cls && s.blk.cls[b] == k < NCLASS
    ensures var run := [Drop(t, b)] + ([LockFree(t)] + ([LinkFree(t)] + ([PushFree(t)] + ([UnlockFree(t)] + []))));
      && Enabling(s, run)
      && ExecAll(s, run) == s.(
           ctl := s.ctl.(free := s.ctl.free[k := Some(b)]),
           blk := s.blk.(rc := s.blk.rc[b := 0], next := s.blk.next[b := s.ctl.free[k]]),
           own := s.own.(objs := s.own.objs[t := s.own.objs[t] - multiset{b}]),
           hist := s.hist.(lists := s.hist.lists[k := [b] + s.hist.lists[k]], status := s.hist.status[b := Listed(k)]))
  {
    hide Enabling, ExecAll, Exec, Enabled;
    var n := Dropped(s, t, b);
    LastDropSteps(s, t, b);
    FreeingSteps(n, t, k);
    Then(s, Drop(t, b), n, [LockFree(t)] + ([LinkFree(t)] + ([PushFree(t)] + ([UnlockFree(t)] + []))));
    assert s.pcs[t := WantFree(b)][t := Idle] == s.pcs;
    assert s.hist.status[b := Owned(t)][b := Listed(k)] == s.hist.status[b := Listed(k)];
  }

  lemma TakeSteps(s: State, t: nat, k: nat, b: Ref)
    requires WellFormed(s) && t < |s.pcs| && s.pcs[t].Idle? && s.lock.None? && k < NCLASS && SizeOf(k) <= s.segBytes
    requires s.ctl.free[k] == Some(b) && b in s.blk.next && s.hist.lists[k] != []
    ensures var s1, s2 := Goes(s, t, WantAlloc(k), None), Goes(s, t, Choosing(k), Some(t));
      var s3 := Marked(Goes(s, t, Got(b, k, true), Some(t)), b, Owned(t)).(
        ctl := s.ctl.(free := s.ctl.free[k := s.blk.next[b]]));
      var s4 := s3.(hist := s3.hist.(lists := s.hist.lists[k := s.hist.lists[k][1..]]));
      && Enabled(s, AskAlloc(t, k)) && Exec(s, AskAlloc(t, k)) == s1
      && Enabled(s1, LockAlloc(t)) && Exec(s1, LockAlloc(t)) == s2
      && Enabled(s2, PopFree(t)) && Exec(s2, PopFree(t)) == s4
      && Enabled(s4, UnlockAlloc(t)) && Exec(s4, UnlockAlloc(t)) == Goes(s4, t, Fresh(b, k, true), None)
  {
    hide SizeOf;
  }

  /** A request is served from the top of its class's list, if there is one: so what
      was freed last is handed out first. */
  lemma TopIsTaken(s: State, t: nat, k: nat, b: Ref)
    requires WellFormed(s) && t < |s.pcs| && s.pcs[t].Idle? && s.lock.None? && k < NCLASS && SizeOf(k) <= s.segBytes
    requires s.ctl.free[k] == Some(b) && b in s.blk.next && s.hist.lists[k] != []
    ensures var run := [AskAlloc(t, k)] + ([LockAlloc(t)] + ([PopFree(t)] + ([UnlockAlloc(t)] + [])));
      && Enabling(s, run)
      && ExecAll(s, run) == Goes(s, t, Fresh(b, k, true), None).(
           ctl := s.ctl.(free := s.ctl.free[k := s.blk.next[b]]),
           hist := s.hist.(lists := s.hist.lists[k := s.hist.lists[k][1..]], status := s.hist.status[b := Owned(t)]))
  {
    hide Enabling, ExecAll, Exec, Enabled, SizeOf;
    TakeSteps(s, t, k, b);
    var s1, s2 := Goes(s, t, WantAlloc(k), None), Goes(s, t, Choosing(k), Some(t));
    var s3 := Marked(Goes(s, t, Got(b, k, true), Some(t)), b, Owned(t)).(
      ctl := s.ctl.(free := s.ctl.free[k := s.blk.next[b]]));
    var s4 := s3.(hist := s3.hist.(lists := s.hist.lists[k := s.hist.lists[k][1..]]));
    var n := Goes(s4, t, Fresh(b, k, true), None);
    Ends(n);
    Then(s4, UnlockAlloc(t), n, []);
    Then(s2, PopFree(t), s4, [UnlockAlloc(t)] + []);
    Then(s1, LockAlloc(t), s2, [PopFree(t)] + ([UnlockAlloc(t)] + []));
    Then(s, AskAlloc(t, k), s1, [LockAlloc(t)] + ([PopFree(t)] + ([UnlockAlloc(t)] + [])));
    assert s.pcs[t := Got(b, k, true)][t := Fresh(b, k, true)] == s.pcs[t := Fresh(b, k, true)];
  }

  lemma AskSteps(s: State, t: nat, k: nat)
    requires WellFormed(s) && t < |s.pcs| && s.pcs[t].Idle? && s.lock.None? && k < NCLASS && SizeOf(k) <= s.segBytes
    ensures var s1, s2, s3 := Goes(s, t, WantAlloc(k), None), Goes(s, t, Choosing(k), Some(t)), Goes(s, t, NoRoom, Some(t));
      && Enabled(s, AskAlloc(t, k)) && Exec(s, AskAlloc(t, k)) == s1
      && Enabled(s1, LockAlloc(t)) && Exec(s1, LockAlloc(t)) == s2
      && Enabled(s3, UnlockEmpty(t)) && Exec(s3, UnlockEmpty(t)) == s
  {
    hide SizeOf;
    assert s.pcs[t := Idle] == s.pcs;
  }

  lemma FailSteps(s: State, t: nat, k: nat)
    requires WellFormed(s) && t < |s.pcs| && k < NCLASS
    ensures var s2, s3 := Goes(s, t, Choosing(k), Some(t)), Goes(s, t, NoRoom, Some(t));
      && (s.ctl.free[k].Some? ==> Enabled(s2, PopFails(t)) && Exec(s2, PopFails(t)) == s3)
      && (s.ctl.free[k].None? && !RoomInCurrent(s, k) ==> Enabled(s2, GiveUp(t)) && Exec(s2, GiveUp(t)) == s3)
  {
    hide SizeOf;
  }

  lemma ClaimSteps(s: State, t: nat, k: nat)
    requires WellFormed(s) && t < |s.pcs| && k < NCLASS && s.ctl.free[k].None? && !RoomInCurrent(s, k)
    ensures var s2, s3 := Goes(s, t, Choosing(k), Some(t)), Goes(s, t, NoRoom, Some(t));
      var s4 := Goes(s, t, Claimed(k, s.ctl.nreg), Some(t)).(ctl := s.ctl.(nreg := s.ctl.nreg + 1));
      && Enabled(s2, ClaimId(t)) && Exec(s2, ClaimId(t)) == s4
      && Enabled(s4, CreateFails(t)) && Exec(s4, CreateFails(t)) == s3
  {
    hide SizeOf;
    assert s.pcs[t := Claimed(k, s.ctl.nreg)][t := NoRoom] == s.pcs[t := NoRoom];
  }

  /** A request that fails, at whatever point under the lock, leaves the store as it
      was: its id is given back and nothing is taken. */
  lemma FailedRequestLeavesNothing(s: State, t: nat, k: nat)
    requires WellFormed(s) && t < |s.pcs| && s.pcs[t].Idle? && s.lock.None? && k < NCLASS && SizeOf(k) <= s.segBytes
    ensures s.ctl.free[k].Some? ==>
      var run := [AskAlloc(t, k)] + ([LockAlloc(t)] + ([PopFails(t)] + ([UnlockEmpty(t)] + [])));
      Enabling(s, run) && ExecAll(s, run) == s
    ensures s.ctl.free[k].None? && !RoomInCurrent(s, k) ==>
      var full := [AskAlloc(t, k)] + ([LockAlloc(t)] + ([GiveUp(t)] + ([UnlockEmpty(t)] + [])));
      var failed := [AskAlloc(t, k)] + ([LockAlloc(t)] + ([ClaimId(t)] + ([CreateFails(t)] + ([UnlockEmpty(t)] + []))));
      && Enabling(s, full) && ExecAll(s, full) == s && Enabling(s, failed) && ExecAll(s, failed) == s
  {
    hide Enabling, ExecAll, Exec, Enabled, SizeOf, RoomInCurrent;
    AskSteps(s, t, k);
    FailSteps(s, t, k);
    var s1, s2, s3 := Goes(s, t, WantAlloc(k), None), Goes(s, t, Choosing(k), Some(t)), Goes(s, t, NoRoom, Some(t));
    Ends(s);
    Then(s3, UnlockEmpty(t), s, []);
    if s.ctl.free[k].Some? {
      Then(s2, PopFails(t), s3, [UnlockEmpty(t)] + []);
      Then(s1, LockAlloc(t), s2, [PopFails(t)] + ([UnlockEmpty(t)] + []));
      Then(s, AskAlloc(t, k), s1, [LockAlloc(t)] + ([PopFails(t)] + ([UnlockEmpty(t)] + [])));
    } else if !RoomInCurrent(s, k) {
      var s4 := Goes(s, t, Claimed(k, s.ctl.nreg), Some(t)).(ctl := s.ctl.(nreg := s.ctl.nreg + 1));
      Then(s2, GiveUp(t), s3, [UnlockEmpty(t)] + []);
      Then(s1, LockAlloc(t), s2, [GiveUp(t)] + ([UnlockEmpty(t)] + []));
      Then(s, AskAlloc(t, k), s1, [LockAlloc(t)] + ([GiveUp(t)] + ([UnlockEmpty(t)] + [])));
      ClaimSteps(s, t, k);
      Then(s4, CreateFails(t), s3, [UnlockEmpty(t)] + []);
      Then(s2, ClaimId(t), s4, [CreateFails(t)] + ([UnlockEmpty(t)] + []));
      Then(s1, LockAlloc(t), s2, [ClaimId(t)] + ([CreateFails(t)] + ([UnlockEmpty(t)] + [])));
      Then(s, AskAlloc(t, k), s1, [LockAlloc(t)] + ([ClaimId(t)] + ([CreateFails(t)] + ([UnlockEmpty(t)] + []))));
    }
  }

  /** A dedicated segment is there once it is allocated, and gone once its last
      reference is. */
  lemma DedicatedComesAndGoes(s: State, t: nat)
    requires WellFormed(s) && t < |s.pcs|
    ensures s.pcs[t].Idle? ==>
      var n, b := Exec(s, AllocDedicated(t)), Ref(s.ctl.nded, 0, true);
      && Enabled(s, AllocDedicated(t)) && n.blk.segs == s.blk.segs + {s.ctl.nded} && n.ctl.nded == s.ctl.nded + 1
      && n.pcs == s.pcs[t := Fresh(b, DEDICATED_CLASS, true)] && n.lock == s.lock
      && Enabled(s, DedicatedFails(t)) && Exec(s, DedicatedFails(t)) == s.(ctl := s.ctl.(nded := s.ctl.nded + 1))
    ensures s.pcs[t].WantFree? && s.pcs[t].b.dedicated ==>
      && Enabled(s, RemoveSegment(t))
      && Exec(s, RemoveSegment(t)) == Marked(Goes(s, t, Idle, s.lock), s.pcs[t].b, Unlinked).(
           blk := s.blk.(segs := s.blk.segs - {s.pcs[t].b.seg}))
  {
  }
}
