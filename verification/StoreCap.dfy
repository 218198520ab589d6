/** The payload store's byte cap under races (rust/src/store.rs: alloc and
    alloc_dedicated). A regular allocation checks `used` and adds to it in two
    steps, holding the lock; a dedicated one adds first, without the lock, and
    takes back what did not fit. */
module StoreCap {
  import opened Wrappers

  // What a thread is doing about the cap.
  datatype Pc =
    | Idle
    | Regular                // lock held, about to check
    | Passed(id: nat)        // lock held: the check passed and id was claimed
    | Created(id: nat)       // lock held: the segment exists, `used` lags
    | Fits(size: nat)        // dedicated: added and under the cap, being created
    | Over(size: nat)        // dedicated: added and over the cap, to be taken back
    | Unlinked(size: nat)    // dedicated: freed and its name removed, still in `used`
    | Dead

  // `paid` regular segments exist and are in `used`; `unpaid` exist but their
  // creators died before adding them. `dedicated` is the size of all dedicated
  // segments. Killed threads also left `skipped` claimed ids without a segment
  // and `phantom` bytes of `used` without one.
  datatype State = State(
    pcs: seq<Pc>, lock: Option<nat>, limit: nat, segBytes: nat, used: nat, nreg: nat,
    paid: nat, unpaid: nat, dedicated: nat, skipped: nat, phantom: nat)

  datatype Action =
    | LockRegular(t: nat) | Refuse(t: nat) | Check(t: nat) | CreateFails(t: nat) | Create(t: nat) | Pay(t: nat)
    | Add(t: nat, size: nat) | TakeBack(t: nat) | CreateOwn(t: nat) | CreateOwnFails(t: nat)
    | Unlink(t: nat, size: nat) | Subtract(t: nat) | Kill(t: nat)

  predicate Holding(p: Pc) {
    p.Regular? || p.Passed? || p.Created?
  }

  predicate Enabled(s: State, a: Action) {
    a.t < |s.pcs| &&
    var p := s.pcs[a.t];
    match a
    case LockRegular(_) => p.Idle? && s.lock.None?
    case Refuse(_) => p.Regular? && s.used + s.segBytes > s.limit
    case Check(_) => p.Regular? && s.used + s.segBytes <= s.limit
    case CreateFails(_) => p.Passed?
    case Create(_) => p.Passed?
    case Pay(_) => p.Created?
    case Add(_, _) => p.Idle?
    case TakeBack(_) => p.Over?
    case CreateOwn(_) => p.Fits?
    case CreateOwnFails(_) => p.Fits?
    case Unlink(_, size) => p.Idle? && size <= s.dedicated
    case Subtract(_) => p.Unlinked?
    case Kill(_) => !p.Dead?
  }

  function Goto(s: State, t: nat, p: Pc): State
    requires t < |s.pcs|
  {
    s.(pcs := s.pcs[t := p])
  }

  // What an unsigned subtraction leaves here: it never goes below zero
  // (UsedCoversEverything).
  function Minus(a: nat, b: nat): nat {
    if b <= a then a - b else 0
  }

  function Exec(s: State, a: Action): State
    requires Enabled(s, a)
  {
    var t := a.t;
    var p := s.pcs[t];
    match a
    case LockRegular(_) => Goto(s, t, Regular).(lock := Some(t))
    case Refuse(_) => Goto(s, t, Idle).(lock := None)
    case Check(_) => Goto(s, t, Passed(s.nreg)).(nreg := s.nreg + 1)
    case CreateFails(_) => Goto(s, t, Idle).(nreg := p.id, lock := None)
    case Create(_) => Goto(s, t, Created(p.id))
    case Pay(_) => Goto(s, t, Idle).(used := s.used + s.segBytes, paid := s.paid + 1, lock := None)
    // fetch_add returns the sum it made, which settles the outcome.
    case Add(_, size) => Goto(s, t, if s.used + size <= s.limit then Fits(size) else Over(size)).(used := s.used + size)
    case TakeBack(_) => Goto(s, t, Idle).(used := Minus(s.used, p.size))
    case CreateOwn(_) => Goto(s, t, Idle).(dedicated := s.dedicated + p.size)
    case CreateOwnFails(_) => Goto(s, t, Idle).(used := Minus(s.used, p.size))
    case Unlink(_, size) => Goto(s, t, Unlinked(size)).(dedicated := s.dedicated - size)
    case Subtract(_) => Goto(s, t, Idle).(used := Minus(s.used, p.size))
    case Kill(_) =>
      Goto(s, t, Dead).(lock := if Holding(p) then None else s.lock,
                        skipped := s.skipped + (if p.Passed? then 1 else 0),
                        unpaid := s.unpaid + (if p.Created? then 1 else 0),
                        phantom := s.phantom + Transit(p))
  }

  ghost predicate Enabling(s: State, run: seq<Action>)
    decreases |run|
  {
    run == [] || (Enabled(s, run[0]) && Enabling(Exec(s, run[0]), run[1..]))
  }

  function ExecAll(s: State, run: seq<Action>): State
    requires Enabling(s, run)
    decreases |run|
  {
    if run == [] then s else ExecAll(Exec(s, run[0]), run[1..])
  }

  ghost predicate Initial(s: State) {
    && s.lock.None? && s.used == 0 && s.nreg == 0 && s.paid == 0 && s.unpaid == 0 && s.dedicated == 0
    && s.skipped == 0 && s.phantom == 0 && s.segBytes > 0
    && forall t :: 0 <= t < |s.pcs| ==> s.pcs[t].Idle?
  }

  // ---------- accounting ----------

  function Times(n: nat, size: nat): nat {
    if n == 0 then 0 else size + Times(n - 1, size)
  }

  lemma {:induction false} TimesIsProduct(n: nat, size: nat)
    ensures Times(n, size) == n * size
  {
    if n > 0 {
      TimesIsProduct(n - 1, size);
    }
  }

  // Dedicated bytes in `used` without a segment: one to come, or one removed, or
  // none.
  function Transit(p: Pc): nat {
    match p
    case Fits(size) => size
    case Over(size) => size
    case Unlinked(size) => size
    case _ => 0
  }

  function Coming(p: Pc): nat {
    if p.Fits? then p.size else 0
  }

  function InTransit(pcs: seq<Pc>): nat {
    if pcs == [] then 0 else Transit(pcs[0]) + InTransit(pcs[1..])
  }

  function AllComing(pcs: seq<Pc>): nat {
    if pcs == [] then 0 else Coming(pcs[0]) + AllComing(pcs[1..])
  }

  lemma {:induction false} SumsUpdate(pcs: seq<Pc>, t: nat, p: Pc)
    requires t < |pcs|
    ensures InTransit(pcs[t := p]) == InTransit(pcs) - Transit(pcs[t]) + Transit(p)
    ensures AllComing(pcs[t := p]) == AllComing(pcs) - Coming(pcs[t]) + Coming(p)
    ensures Transit(pcs[t]) <= InTransit(pcs)
  {
    if t == 0 {
      assert pcs[t := p][1..] == pcs[1..];
    } else {
      SumsUpdate(pcs[1..], t - 1, p);
      assert pcs[t := p][1..] == pcs[1..][t - 1 := p];
    }
  }

  lemma {:induction false} ComingIsInTransit(pcs: seq<Pc>)
    ensures AllComing(pcs) <= InTransit(pcs)
  {
    if pcs != [] {
      ComingIsInTransit(pcs[1..]);
    }
  }

  // A regular segment is between its check and its payment.
  function Midway(s: State): Pc {
    if s.lock.Some? && s.lock.value < |s.pcs| then s.pcs[s.lock.value] else Idle
  }

  // Bytes that exist or are settled to exist, except a segment midway.
  function Settled(s: State): nat {
    Times(s.paid, s.segBytes) + s.dedicated + AllComing(s.pcs)
  }

  // Segment bytes that exist.
  function Committed(s: State): nat {
    Times(s.paid + s.unpaid + (if Midway(s).Created? then 1 else 0), s.segBytes) + s.dedicated
  }

  ghost predicate LockInv(s: State) {
    && (forall t :: 0 <= t < |s.pcs| && Holding(s.pcs[t]) ==> s.lock == Some(t))
    && (s.lock.Some? ==> s.lock.value < |s.pcs| && Holding(s.pcs[s.lock.value]))
  }

  predicate Accounted(s: State) {
    s.used == Times(s.paid, s.segBytes) + s.dedicated + InTransit(s.pcs) + s.phantom
  }

  ghost predicate Inv(s: State) {
    && LockInv(s)
    && Accounted(s)
    && Settled(s) <= s.limit + s.segBytes
    && (Midway(s).Passed? || Midway(s).Created? ==> Settled(s) <= s.limit)
    && s.nreg == s.paid + s.unpaid + s.skipped + (if Midway(s).Passed? || Midway(s).Created? then 1 else 0)
    && (Midway(s).Passed? || Midway(s).Created? ==> Midway(s).id + 1 == s.nreg)
    && Times(s.paid, s.segBytes) + (if Midway(s).Passed? || Midway(s).Created? then s.segBytes else 0) <= s.limit
  }

  lemma StepKeepsInv(s: State, a: Action)
    requires Inv(s) && Enabled(s, a)
    ensures Inv(Exec(s, a))
  {
    StepUsed(s, a);
    StepLock(s, a);
    SumsUpdate(s.pcs, a.t, Exec(s, a).pcs[a.t]);
    ComingIsInTransit(s.pcs);
    assert Holding(s.pcs[a.t]) ==> s.lock == Some(a.t);
    hide LockInv, InTransit, AllComing, Accounted;
  }

  lemma StepUsed(s: State, a: Action)
    requires Inv(s) && Enabled(s, a)
    ensures Accounted(Exec(s, a))
  {
    SumsUpdate(s.pcs, a.t, Exec(s, a).pcs[a.t]);
    hide LockInv, InTransit, AllComing, Midway, Settled, Coming;
  }

  lemma StepLock(s: State, a: Action)
    requires LockInv(s) && Enabled(s, a)
    ensures LockInv(Exec(s, a))
  {
  }

  lemma {:induction false} RunKeepsInv(s: State, run: seq<Action>)
    requires Inv(s) && Enabling(s, run)
    ensures Inv(ExecAll(s, run)) && ExecAll(s, run).limit == s.limit && ExecAll(s, run).segBytes == s.segBytes
    decreases |run|
  {
    if run != [] {
      StepKeepsInv(s, run[0]);
      hide Inv;
      RunKeepsInv(Exec(s, run[0]), run[1..]);
    }
  }

  lemma {:induction false} NothingInTransit(pcs: seq<Pc>)
    requires forall t :: 0 <= t < |pcs| ==> pcs[t].Idle?
    ensures InTransit(pcs) == 0 && AllComing(pcs) == 0
  {
    if pcs != [] {
      NothingInTransit(pcs[1..]);
    }
  }

  lemma {:induction false} TimesAdds(m: nat, n: nat, size: nat)
    ensures Times(m + n, size) == Times(m, size) + Times(n, size)
  {
    if n > 0 {
      TimesAdds(m, n - 1, size);
      assert m + n - 1 == m + (n - 1);
    }
  }

  // ---------- the theorems ----------

  lemma CommittedParts(n: State)
    ensures Committed(n) == Times(n.paid, n.segBytes) + n.unpaid * n.segBytes
                            + (if Midway(n).Created? then n.segBytes else 0) + n.dedicated
  {
    hide Midway;
    TimesAdds(n.paid + n.unpaid, if Midway(n).Created? then 1 else 0, n.segBytes);
    TimesAdds(n.paid, n.unpaid, n.segBytes);
    TimesIsProduct(n.unpaid, n.segBytes);
    assert Times(1, n.segBytes) == n.segBytes + Times(0, n.segBytes);
  }

  /** Under any interleaving the segments that exist never exceed the cap by more
      than one regular segment, plus one for each thread killed between creating
      a segment and adding it to `used`. */
  lemma CapUnderRaces(s: State, run: seq<Action>)
    requires Initial(s) && Enabling(s, run)
    ensures var n := ExecAll(s, run);
      Committed(n) <= s.limit + s.segBytes + n.unpaid * s.segBytes
  {
    NothingInTransit(s.pcs);
    RunKeepsInv(s, run);
    var n := ExecAll(s, run);
    assert Times(0, s.segBytes) == 0;
    hide ExecAll, Enabling, Times, Committed, Midway, LockInv;
    CommittedParts(n);
  }

  // A regular segment was checked and is not paid for yet.
  predicate InWindow(s: State) {
    Midway(s).Passed? || Midway(s).Created?
  }

  // A dedicated allocation passes its own check in that window, though with the
  // segment that is under way it does not fit.
  predicate Overshoots(s: State, a: Action) {
    a.Add? && InWindow(s) && s.used + a.size <= s.limit < Settled(s) + s.segBytes + a.size
  }

  ghost predicate NoneOvershoots(s: State, run: seq<Action>)
    requires Enabling(s, run)
    decreases |run|
  {
    run == [] || (!Overshoots(s, run[0]) && NoneOvershoots(Exec(s, run[0]), run[1..]))
  }

  ghost predicate Capped(s: State) {
    Inv(s) && Settled(s) + (if Midway(s).Passed? || Midway(s).Created? then s.segBytes else 0) <= s.limit
  }

  // Exactly those steps break what keeps the cap.
  lemma StepKeepsCapped(s: State, a: Action)
    requires Capped(s) && Enabled(s, a)
    ensures Capped(Exec(s, a)) <==> !Overshoots(s, a)
  {
    StepKeepsInv(s, a);
    SumsUpdate(s.pcs, a.t, Exec(s, a).pcs[a.t]);
    ComingIsInTransit(s.pcs);
    hide InTransit;
    hide AllComing;
  }

  lemma {:induction false} RunKeepsCapped(s: State, run: seq<Action>)
    requires Capped(s) && Enabling(s, run) && NoneOvershoots(s, run)
    ensures Capped(ExecAll(s, run)) && ExecAll(s, run).limit == s.limit && ExecAll(s, run).segBytes == s.segBytes
    decreases |run|
  {
    if run != [] {
      StepKeepsCapped(s, run[0]);
      hide Capped;
      RunKeepsCapped(Exec(s, run[0]), run[1..]);
    }
  }

  /** Unless a dedicated allocation overshoots, the cap holds exactly (up to
      segments of killed threads). */
  lemma CapWithoutRaces(s: State, run: seq<Action>)
    requires Initial(s) && Enabling(s, run) && NoneOvershoots(s, run)
    ensures var n := ExecAll(s, run);
      Committed(n) <= s.limit + n.unpaid * s.segBytes
  {
    NothingInTransit(s.pcs);
    RunKeepsCapped(s, run);
    var n := ExecAll(s, run);
    assert Times(0, s.segBytes) == 0;
    hide ExecAll, Enabling, Times, Committed, Midway, LockInv;
    CommittedParts(n);
  }

  /** They are two steps, and then the cap does not hold: a dedicated segment
      that fits on its own and a regular one, together over the limit. */
  lemma CapCanBeExceeded(s: State, size: nat)
    requires Initial(s) && |s.pcs| == 2 && s.limit == s.segBytes && 0 < size <= s.limit
    ensures var run := [LockRegular(0), Check(0), Add(1, size), Create(0), Pay(0), CreateOwn(1)];
      Enabling(s, run) && Committed(ExecAll(s, run)) == s.limit + size
  {
    var run := [LockRegular(0), Check(0), Add(1, size), Create(0), Pay(0), CreateOwn(1)];
    var s3 := RaceBegins(s, size);
    RaceEnds(s, s3, size, run[3..]);
    Unfold(s, run, Exec(s, run[0]));
    var s1 := Exec(s, run[0]);
    Unfold(s1, run[1..], Exec(s1, run[1]));
    var s2 := Exec(s1, run[1]);
    Unfold(s2, run[2..], s3);
  }

  // Both allocations pass the cap before either is paid for.
  lemma RaceBegins(s: State, size: nat) returns (s3: State)
    requires Initial(s) && |s.pcs| == 2 && s.limit == s.segBytes && 0 < size <= s.limit
    ensures Enabled(s, LockRegular(0))
    ensures Enabled(Exec(s, LockRegular(0)), Check(0))
    ensures Enabled(Exec(Exec(s, LockRegular(0)), Check(0)), Add(1, size))
    ensures s3 == Exec(Exec(Exec(s, LockRegular(0)), Check(0)), Add(1, size))
    ensures s3 == s.(pcs := [Passed(0), Fits(size)], lock := Some(0), nreg := 1, used := size)
  {
    var s1 := Exec(s, LockRegular(0));
    assert s1 == s.(pcs := [Regular, Idle], lock := Some(0));
    var s2 := Exec(s1, Check(0));
    assert s2 == s1.(pcs := [Passed(0), Idle], nreg := 1);
    s3 := Exec(s2, Add(1, size));
    assert s3.pcs == [Passed(0), Fits(size)];
  }

  lemma RaceEnds(s: State, s3: State, size: nat, run: seq<Action>)
    requires Initial(s) && s.limit == s.segBytes && run == [Create(0), Pay(0), CreateOwn(1)]
    requires s3 == s.(pcs := [Passed(0), Fits(size)], lock := Some(0), nreg := 1, used := size)
    ensures Enabling(s3, run) && Committed(ExecAll(s3, run)) == s.limit + size
  {
    var s4 := s3.(pcs := [Created(0), Fits(size)]);
    assert Exec(s3, run[0]) == s4;
    var s5 := s4.(pcs := [Idle, Fits(size)], used := size + s.segBytes, paid := 1, lock := None);
    assert Exec(s4, run[1]) == s5;
    var s6 := s5.(pcs := [Idle, Idle], dedicated := size);
    assert Exec(s5, run[2]) == s6;
    Unfold(s5, run[2..], s6);
    Unfold(s4, run[1..], s5);
    Unfold(s3, run, s4);
    assert Times(1, s.segBytes) == s.segBytes + Times(0, s.segBytes);
    hide Exec;
  }

  lemma Unfold(s: State, run: seq<Action>, n: State)
    requires run != [] && Enabled(s, run[0]) && Exec(s, run[0]) == n && Enabling(n, run[1..])
    ensures Enabling(s, run) && ExecAll(s, run) == ExecAll(n, run[1..])
  {
  }

  /** Every id a regular segment is given is below limit / segBytes, so among the
      names its owner registered up front, unless threads were killed holding an
      id or an unpaid segment; each such death raises the bound by one. */
  lemma IdsAreRegistered(s: State, run: seq<Action>, t: nat)
    requires Initial(s) && Enabling(s, run)
    requires t < |ExecAll(s, run).pcs| && (ExecAll(s, run).pcs[t].Passed? || ExecAll(s, run).pcs[t].Created?)
    ensures var n := ExecAll(s, run);
      n.pcs[t].id < s.limit / s.segBytes + n.skipped + n.unpaid
  {
    NothingInTransit(s.pcs);
    RunKeepsInv(s, run);
    var n := ExecAll(s, run);
    hide ExecAll;
    hide Enabling;
    assert Midway(n) == n.pcs[t];
    assert n.pcs[t].id == n.paid + n.unpaid + n.skipped;
    assert Times(n.paid, n.segBytes) + n.segBytes <= n.limit;
    hide Inv;
    PaidBound(n.paid, n.segBytes, n.limit);
  }

  lemma PaidBound(paid: nat, size: nat, limit: nat)
    requires size > 0 && Times(paid, size) + size <= limit
    ensures paid + 1 <= limit / size
  {
    TimesIsProduct(paid + 1, size);
    QuotientBound(paid + 1, size, limit);
  }

  lemma QuotientBound(k: nat, size: nat, limit: nat)
    requires size > 0 && k * size <= limit
    ensures k <= limit / size
  {
    var q := limit / size;
    assert limit == q * size + limit % size;
    if k > q {
      NextMultiple(q, k, size);
    }
  }

  lemma NextMultiple(q: nat, k: nat, size: nat)
    requires q < k
    ensures k * size >= q * size + size
  {
    var d: nat := k - q - 1;
    assert k * size == q * size + size + d * size;
  }

  /** `used` never underflows: it always covers every dedicated segment and every
      byte some thread still has to take back. */
  lemma UsedCoversEverything(s: State, run: seq<Action>, t: nat)
    requires Initial(s) && Enabling(s, run) && t < |ExecAll(s, run).pcs|
    ensures var n := ExecAll(s, run);
      n.dedicated + Transit(n.pcs[t]) <= n.used
  {
    NothingInTransit(s.pcs);
    RunKeepsInv(s, run);
    SumsUpdate(ExecAll(s, run).pcs, t, Idle);
  }

  // ---------- what an allocation comes to, undisturbed ----------

  lemma Ends(s: State)
    ensures Enabling(s, []) && ExecAll(s, []) == s
  {
  }

  lemma Then(s: State, a: Action, n: State, run: seq<Action>)
    requires Enabled(s, a) && Exec(s, a) == n && Enabling(n, run)
    ensures Enabling(s, [a] + run) && ExecAll(s, [a] + run) == ExecAll(n, run)
  {
    hide Enabled, Exec;
    assert ([a] + run)[1..] == run;
  }

  /** A regular segment that fits is created and paid for, or leaves nothing if it
      cannot be created; one that does not fit leaves nothing. Which of the two it
      is, is decided by the cap. */
  lemma RegularAlone(s: State, t: nat)
    requires t < |s.pcs| && s.pcs[t].Idle? && s.lock.None?
    ensures var n := s.(pcs := s.pcs[t := Regular], lock := Some(t));
      && Enabled(s, LockRegular(t)) && Exec(s, LockRegular(t)) == n
      && (Enabled(n, Check(t)) <==> s.used + s.segBytes <= s.limit) && (Enabled(n, Refuse(t)) <==> !Enabled(n, Check(t)))
    ensures s.used + s.segBytes <= s.limit ==>
      var paid, failed := [LockRegular(t)] + ([Check(t)] + ([Create(t)] + ([Pay(t)] + []))),
                          [LockRegular(t)] + ([Check(t)] + ([CreateFails(t)] + []));
      && Enabling(s, paid)
      && ExecAll(s, paid) == s.(used := s.used + s.segBytes, nreg := s.nreg + 1, paid := s.paid + 1)
      && Enabling(s, failed) && ExecAll(s, failed) == s
    ensures s.used + s.segBytes > s.limit ==>
      var refused := [LockRegular(t)] + ([Refuse(t)] + []);
      Enabling(s, refused) && ExecAll(s, refused) == s
  {
    var s1 := s.(pcs := s.pcs[t := Regular], lock := Some(t));
    assert s.pcs[t := Idle] == s.pcs;
    assert Exec(s, LockRegular(t)) == s1;
    hide Enabling, ExecAll;
    if s.used + s.segBytes <= s.limit {
      RegularFits(s, t, s1);
    } else {
      assert Exec(s1, Refuse(t)) == s;
      hide Exec;
      Ends(s);
      Then(s1, Refuse(t), s, []);
      Then(s, LockRegular(t), s1, [Refuse(t)] + []);
    }
  }

  // The state with thread t at p.
  function With(s: State, t: nat, p: Pc, lock: Option<nat>, used: nat, nreg: nat, paid: nat, dedicated: nat): State
    requires t < |s.pcs|
  {
    s.(pcs := s.pcs[t := p], lock := lock, used := used, nreg := nreg, paid := paid, dedicated := dedicated)
  }

  lemma RegularSteps(s: State, t: nat)
    requires t < |s.pcs| && s.pcs[t].Idle? && s.lock.None? && s.used + s.segBytes <= s.limit
    ensures var s1 := With(s, t, Regular, Some(t), s.used, s.nreg, s.paid, s.dedicated);
      var s2 := With(s, t, Passed(s.nreg), Some(t), s.used, s.nreg + 1, s.paid, s.dedicated);
      var s3 := With(s, t, Created(s.nreg), Some(t), s.used, s.nreg + 1, s.paid, s.dedicated);
      && Enabled(s, LockRegular(t)) && Exec(s, LockRegular(t)) == s1
      && Enabled(s1, Check(t)) && Exec(s1, Check(t)) == s2
      && Enabled(s2, Create(t)) && Exec(s2, Create(t)) == s3
  {
  }

  lemma RegularLast(s: State, t: nat)
    requires t < |s.pcs| && s.pcs[t].Idle? && s.lock.None?
    ensures var s2 := With(s, t, Passed(s.nreg), Some(t), s.used, s.nreg + 1, s.paid, s.dedicated);
      var s3 := With(s, t, Created(s.nreg), Some(t), s.used, s.nreg + 1, s.paid, s.dedicated);
      && Enabled(s3, Pay(t))
      && Exec(s3, Pay(t)) == s.(used := s.used + s.segBytes, nreg := s.nreg + 1, paid := s.paid + 1)
      && Enabled(s2, CreateFails(t)) && Exec(s2, CreateFails(t)) == s
  {
    assert s.pcs[t := Idle] == s.pcs;
  }

  lemma RegularFits(s: State, t: nat, s1: State)
    requires t < |s.pcs| && s.pcs[t].Idle? && s.lock.None? && s.used + s.segBytes <= s.limit
    requires s1 == s.(pcs := s.pcs[t := Regular], lock := Some(t))
    ensures var paid, failed := [LockRegular(t)] + ([Check(t)] + ([Create(t)] + ([Pay(t)] + []))),
                                [LockRegular(t)] + ([Check(t)] + ([CreateFails(t)] + []));
      && Enabling(s, paid)
      && ExecAll(s, paid) == s.(used := s.used + s.segBytes, nreg := s.nreg + 1, paid := s.paid + 1)
      && Enabling(s, failed) && ExecAll(s, failed) == s
  {
    hide Enabling, ExecAll, Exec, Enabled;
    var s2 := With(s, t, Passed(s.nreg), Some(t), s.used, s.nreg + 1, s.paid, s.dedicated);
    var s3 := With(s, t, Created(s.nreg), Some(t), s.used, s.nreg + 1, s.paid, s.dedicated);
    var s4 := s.(used := s.used + s.segBytes, nreg := s.nreg + 1, paid := s.paid + 1);
    RegularSteps(s, t);
    RegularLast(s, t);
    Ends(s4);
    Then(s3, Pay(t), s4, []);
    Then(s2, Create(t), s3, [Pay(t)] + []);
    Then(s1, Check(t), s2, [Create(t)] + ([Pay(t)] + []));
    Then(s, LockRegular(t), s1, [Check(t)] + ([Create(t)] + ([Pay(t)] + [])));
    Ends(s);
    Then(s2, CreateFails(t), s, []);
    Then(s1, Check(t), s2, [CreateFails(t)] + []);
    Then(s, LockRegular(t), s1, [Check(t)] + ([CreateFails(t)] + []));
  }

  /** A dedicated segment that fits is there and paid for, or leaves nothing if it
      cannot be created; one that does not fit leaves nothing; and one that is
      freed is gone and given back. */
  lemma OwnAlone(s: State, t: nat, size: nat)
    requires t < |s.pcs| && s.pcs[t].Idle?
    ensures s.used + size <= s.limit ==>
      var kept, failed := [Add(t, size)] + ([CreateOwn(t)] + []), [Add(t, size)] + ([CreateOwnFails(t)] + []);
      && Enabling(s, kept) && ExecAll(s, kept) == s.(used := s.used + size, dedicated := s.dedicated + size)
      && Enabling(s, failed) && ExecAll(s, failed) == s
    ensures s.used + size > s.limit ==>
      var refused := [Add(t, size)] + ([TakeBack(t)] + []);
      Enabling(s, refused) && ExecAll(s, refused) == s
    ensures size <= s.dedicated && size <= s.used ==>
      var freed := [Unlink(t, size)] + ([Subtract(t)] + []);
      Enabling(s, freed) && ExecAll(s, freed) == s.(used := s.used - size, dedicated := s.dedicated - size)
  {
    hide Enabling, ExecAll, Exec, Enabled, With;
    OwnSteps(s, t, size);
    OwnGoes(s, t, size);
    Ends(s);
    if s.used + size <= s.limit {
      var s1 := With(s, t, Fits(size), s.lock, s.used + size, s.nreg, s.paid, s.dedicated);
      var s2 := s.(used := s.used + size, dedicated := s.dedicated + size);
      Ends(s2);
      Then(s1, CreateOwn(t), s2, []);
      Then(s, Add(t, size), s1, [CreateOwn(t)] + []);
      Then(s1, CreateOwnFails(t), s, []);
      Then(s, Add(t, size), s1, [CreateOwnFails(t)] + []);
    } else {
      var s1 := With(s, t, Over(size), s.lock, s.used + size, s.nreg, s.paid, s.dedicated);
      Then(s1, TakeBack(t), s, []);
      Then(s, Add(t, size), s1, [TakeBack(t)] + []);
    }
  }

  lemma OwnSteps(s: State, t: nat, size: nat)
    requires t < |s.pcs| && s.pcs[t].Idle?
    ensures var fits := With(s, t, Fits(size), s.lock, s.used + size, s.nreg, s.paid, s.dedicated);
      var over := With(s, t, Over(size), s.lock, s.used + size, s.nreg, s.paid, s.dedicated);
      && Enabled(s, Add(t, size)) && Exec(s, Add(t, size)) == (if s.used + size <= s.limit then fits else over)
      && Enabled(fits, CreateOwn(t))
      && Exec(fits, CreateOwn(t)) == s.(used := s.used + size, dedicated := s.dedicated + size)
      && Enabled(fits, CreateOwnFails(t)) && Exec(fits, CreateOwnFails(t)) == s
      && Enabled(over, TakeBack(t)) && Exec(over, TakeBack(t)) == s
  {
    assert s.pcs[t := Idle] == s.pcs;
  }

  lemma OwnGoes(s: State, t: nat, size: nat)
    requires t < |s.pcs| && s.pcs[t].Idle?
    ensures size <= s.dedicated && size <= s.used ==>
      var freed := [Unlink(t, size)] + ([Subtract(t)] + []);
      Enabling(s, freed) && ExecAll(s, freed) == s.(used := s.used - size, dedicated := s.dedicated - size)
  {
    if size <= s.dedicated && size <= s.used {
      assert s.pcs[t := Idle] == s.pcs;
      var s1 := s.(pcs := s.pcs[t := Unlinked(size)], dedicated := s.dedicated - size);
      var s2 := s.(used := s.used - size, dedicated := s.dedicated - size);
      assert Exec(s, Unlink(t, size)) == s1 && Exec(s1, Subtract(t)) == s2;
      Ends(s2);
      hide Enabling, ExecAll;
      Then(s1, Subtract(t), s2, []);
      Then(s, Unlink(t, size), s1, [Subtract(t)] + []);
    }
  }
}
