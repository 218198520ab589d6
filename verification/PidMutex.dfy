/** The process-shared mutex word of rust/src/sys.rs: 0 when free, otherwise the
    holder's pid with a WAITERS bit, with takeover from dead holders. Every load,
    compare-exchange, swap, futex call and liveness check is its own step, threads
    of one process share a pid, and pids are not reused. */
module PidMutex {
  import opened Wrappers

  // The shared word: 0, or a pid with or without the WAITERS bit.
  datatype Word = Free | Held(pid: nat, waiters: bool)

  datatype Pc =
    | Out
    | Spinning               // the first compare-exchange and the spin loop
    | Slow                   // top of the sleeping loop
    | Loaded(v: Word)        // the loop's load
    | Marked(v: Word)        // WAITERS seen or set; about to futex-wait on v
    | Asleep(v: Word)
    | Back(v: Word)          // wait returned; about to compare the word with v
    | Suspect(v: Word)       // same word for a whole slice; about to check the pid
    | Condemned(v: Word)     // that pid is gone; about to take the lock over
    | Inside                 // in the critical section
    | Leaving                // swapped to 0 with WAITERS set: a wake to deliver
    | Dead

  // pid[t] is the process of thread t.
  datatype State = State(pid: seq<nat>, pcs: seq<Pc>, word: Word)

  datatype Action =
    | Call(t: nat) | Grab(t: nat) | GoSlow(t: nat)
    | Load(t: nat) | Retry(t: nat) | GrabMarked(t: nat) | Mark(t: nat)
    | FutexWait(t: nat) | WaitReturns(t: nat) | Compare(t: nat, elapsed: bool)
    | CheckPid(t: nat) | TakeOver(t: nat)
    | Unlock(t: nat) | Wake(t: nat, u: nat) | WakeNobody(t: nat)
    | KillProcess(t: nat)    // SIGKILL to the process of thread t

  predicate MarkedWord(w: Word) {
    w.Held? && w.waiters
  }

  predicate WellFormed(s: State) {
    |s.pid| == |s.pcs|
  }

  predicate Alive(s: State, p: nat)
    requires WellFormed(s)
  {
    exists t :: 0 <= t < |s.pcs| && s.pid[t] == p && !s.pcs[t].Dead?
  }

  predicate SomeoneAsleep(pcs: seq<Pc>) {
    exists u :: 0 <= u < |pcs| && pcs[u].Asleep?
  }

  predicate Enabled(s: State, a: Action)
    requires WellFormed(s)
  {
    a.t < |s.pcs| &&
    var p := s.pcs[a.t];
    match a
    case Call(_) => p.Out?
    case Grab(_) => p.Spinning? && s.word.Free?
    case GoSlow(_) => p.Spinning?
    case Load(_) => p.Slow?
    // a compare-exchange that fails loops
    case Retry(_) => (p.Loaded? && !MarkedWord(p.v) && s.word != p.v) || (p.Condemned? && s.word != p.v)
    case GrabMarked(_) => p == Loaded(Free) && s.word.Free?
    case Mark(_) => p.Loaded? && p.v.Held? && (p.v.waiters || s.word == p.v)
    case FutexWait(_) => p.Marked?
    case WaitReturns(_) => p.Asleep?
    case Compare(_, _) => p.Back?
    case CheckPid(_) => p.Suspect?
    case TakeOver(_) => p.Condemned? && s.word == p.v
    case Unlock(_) => p.Inside?
    case Wake(_, u) => p.Leaving? && u < |s.pcs| && s.pcs[u].Asleep?
    case WakeNobody(_) => p.Leaving? && !SomeoneAsleep(s.pcs)
    case KillProcess(_) => !p.Dead?
  }

  function Goto(s: State, t: nat, p: Pc): State
    requires t < |s.pcs|
  {
    s.(pcs := s.pcs[t := p])
  }

  function Exec(s: State, a: Action): (n: State)
    requires WellFormed(s) && Enabled(s, a)
    ensures WellFormed(n) && n.pid == s.pid
  {
    match a
    case KillProcess(k) =>
      s.(pcs := seq(|s.pcs|, t requires 0 <= t < |s.pcs| => if s.pid[t] == s.pid[k] then Dead else s.pcs[t]))
    case Call(t) => Goto(s, t, Spinning)
    case Grab(t) => Goto(s, t, Inside).(word := Held(s.pid[t], false))
    case GoSlow(t) => Goto(s, t, Slow)
    case Load(t) => Goto(s, t, Loaded(s.word))
    case Retry(t) => Goto(s, t, Slow)
    // Taken with WAITERS set: others may still be asleep.
    case GrabMarked(t) => Goto(s, t, Inside).(word := Held(s.pid[t], true))
    case Mark(t) =>
      var v := s.pcs[t].v;
      if v.waiters then Goto(s, t, Marked(v))
      else Goto(s, t, Marked(Held(v.pid, true))).(word := Held(v.pid, true))
    // The kernel compares and sleeps in one step.
    case FutexWait(t) => var v := s.pcs[t].v; Goto(s, t, if s.word == v then Asleep(v) else Back(v))
    case WaitReturns(t) => Goto(s, t, Back(s.pcs[t].v))
    case Compare(t, elapsed) =>
      var v := s.pcs[t].v;
      if s.word != v || !elapsed || v.Free? || v.pid == s.pid[t] then Goto(s, t, Slow) else Goto(s, t, Suspect(v))
    case CheckPid(t) =>
      var v := s.pcs[t].v;
      Goto(s, t, if v.Held? && !Alive(s, v.pid) then Condemned(v) else Slow)
    case TakeOver(t) => Goto(s, t, Inside).(word := Held(s.pid[t], true))
    case Unlock(t) => Goto(s, t, if s.word.Held? && s.word.waiters then Leaving else Out).(word := Free)
    case Wake(t, u) => s.(pcs := s.pcs[t := Out][u := Back(s.pcs[u].v)])
    case WakeNobody(t) => Goto(s, t, Out)
  }

  ghost predicate Initial(s: State) {
    WellFormed(s) && s.word.Free? && forall t :: 0 <= t < |s.pcs| ==> s.pcs[t].Out?
  }

  ghost predicate Enabling(s: State, run: seq<Action>)
    requires WellFormed(s)
    decreases |run|
  {
    run == [] || (Enabled(s, run[0]) && Enabling(Exec(s, run[0]), run[1..]))
  }

  function ExecAll(s: State, run: seq<Action>): (n: State)
    requires WellFormed(s) && Enabling(s, run)
    ensures WellFormed(n) && n.pid == s.pid
    decreases |run|
  {
    if run == [] then s else ExecAll(Exec(s, run[0]), run[1..])
  }

  // ---------- mutual exclusion ----------

  // A live thread inside owns the word, and is alone there.
  ghost predicate InsideInv(s: State)
    requires WellFormed(s)
  {
    && (forall t :: 0 <= t < |s.pcs| && s.pcs[t].Inside? ==> s.word.Held? && s.word.pid == s.pid[t])
    && (forall t, u :: 0 <= t < |s.pcs| && 0 <= u < |s.pcs| && s.pcs[t].Inside? && s.pcs[u].Inside? ==> t == u)
  }

  // A process dies whole.
  ghost predicate WholeInv(s: State)
    requires WellFormed(s)
  {
    forall t, u :: 0 <= t < |s.pcs| && 0 <= u < |s.pcs| && s.pid[t] == s.pid[u] ==> (s.pcs[t].Dead? <==> s.pcs[u].Dead?)
  }

  // A condemned pid is gone for good.
  ghost predicate CondemnedInv(s: State)
    requires WellFormed(s)
  {
    forall t :: 0 <= t < |s.pcs| && s.pcs[t].Condemned? ==> s.pcs[t].v.Held? && !Alive(s, s.pcs[t].v.pid)
  }

  ghost predicate Inv(s: State) {
    WellFormed(s) && InsideInv(s) && WholeInv(s) && CondemnedInv(s)
  }

  lemma InsideIsAlive(s: State, u: nat)
    requires WellFormed(s) && u < |s.pcs| && s.pcs[u].Inside?
    ensures Alive(s, s.pid[u])
  {
  }

  lemma StepInside(s: State, a: Action)
    requires Inv(s) && Enabled(s, a)
    ensures InsideInv(Exec(s, a))
  {
    var n := Exec(s, a);
    if a.TakeOver? {
      forall u | 0 <= u < |s.pcs| ensures !s.pcs[u].Inside? {
        if s.pcs[u].Inside? {
          InsideIsAlive(s, u);
        }
      }
    }
    hide Alive;
    forall t | 0 <= t < |n.pcs| && n.pcs[t].Inside?
      ensures n.word.Held? && n.word.pid == n.pid[t]
    {
      if !(t == a.t && (a.Grab? || a.GrabMarked? || a.TakeOver?)) {
        assert s.pcs[t].Inside?;
      }
    }
    forall t, u | 0 <= t < |n.pcs| && 0 <= u < |n.pcs| && n.pcs[t].Inside? && n.pcs[u].Inside?
      ensures t == u
    {
      assert (t == a.t && (a.Grab? || a.GrabMarked? || a.TakeOver?)) || s.pcs[t].Inside?;
      assert (u == a.t && (a.Grab? || a.GrabMarked? || a.TakeOver?)) || s.pcs[u].Inside?;
    }
  }

  lemma StepWhole(s: State, a: Action)
    requires Inv(s) && Enabled(s, a)
    ensures WholeInv(Exec(s, a))
  {
    var n := Exec(s, a);
    hide Alive;
    forall t | 0 <= t < |n.pcs|
      ensures n.pcs[t].Dead? <==> s.pcs[t].Dead? || (a.KillProcess? && s.pid[t] == s.pid[a.t])
    {
    }
  }

  lemma StepCondemned(s: State, a: Action)
    requires Inv(s) && Enabled(s, a)
    ensures CondemnedInv(Exec(s, a))
  {
    var n := Exec(s, a);
    forall t | 0 <= t < |n.pcs| && n.pcs[t].Condemned?
      ensures n.pcs[t].v.Held? && !Alive(n, n.pcs[t].v.pid)
    {
      assert n.pcs[t] == s.pcs[t] || (a == CheckPid(t) && n.pcs[t].v.Held? && !Alive(s, n.pcs[t].v.pid));
      NoResurrection(s, a, n.pcs[t].v.pid);
    }
  }

  lemma StepKeepsInv(s: State, a: Action)
    requires Inv(s) && Enabled(s, a)
    ensures Inv(Exec(s, a))
  {
    StepInside(s, a);
    StepWhole(s, a);
    StepCondemned(s, a);
  }

  lemma NoResurrection(s: State, a: Action, p: nat)
    requires WellFormed(s) && Enabled(s, a) && !Alive(s, p)
    ensures !Alive(Exec(s, a), p)
  {
    var n := Exec(s, a);
    forall t | 0 <= t < |n.pcs| && n.pid[t] == p ensures n.pcs[t].Dead? {
      assert s.pcs[t].Dead?;
    }
  }

  lemma {:induction false} RunKeepsInv(s: State, run: seq<Action>)
    requires Inv(s) && Enabling(s, run)
    ensures Inv(ExecAll(s, run))
    decreases |run|
  {
    if run != [] {
      StepKeepsInv(s, run[0]);
      RunKeepsInv(Exec(s, run[0]), run[1..]);
    }
  }

  /** Mutual exclusion with takeover: whatever the interleaving, and whoever is
      killed where, at most one live thread is in the critical section, and the
      word names its process. */
  lemma MutualExclusion(s: State, run: seq<Action>, t: nat, u: nat)
    requires Initial(s) && Enabling(s, run)
    requires t < |s.pcs| && u < |s.pcs| && |ExecAll(s, run).pcs| == |s.pcs|
    requires ExecAll(s, run).pcs[t].Inside? && ExecAll(s, run).pcs[u].Inside?
    ensures t == u
    ensures ExecAll(s, run).word.Held? && ExecAll(s, run).word.pid == s.pid[t]
  {
    RunKeepsInv(s, run);
  }

  // ---------- nobody sleeps for nothing ----------

  // A waiter that will look at the word again, or a wake on its way.
  predicate Active(p: Pc) {
    p.Slow? || p.Loaded? || p.Marked? || p.Back? || p.Suspect? || p.Condemned? || p.Leaving?
  }

  // The kill takes the last thread that would see to a sleeper it leaves behind,
  // while the word says nothing of sleepers.
  predicate Fatal(s: State, a: Action)
    requires WellFormed(s)
  {
    && a.KillProcess? && a.t < |s.pcs| && !MarkedWord(s.word)
    && (exists u :: 0 <= u < |s.pcs| && s.pid[u] != s.pid[a.t] && s.pcs[u].Asleep?)
    && (forall t :: 0 <= t < |s.pcs| && s.pid[t] != s.pid[a.t] ==> !Active(s.pcs[t]))
  }

  ghost predicate AllHarmless(s: State, run: seq<Action>)
    requires WellFormed(s) && Enabling(s, run)
    decreases |run|
  {
    run == [] || (!Fatal(s, run[0]) && AllHarmless(Exec(s, run[0]), run[1..]))
  }

  ghost predicate Watched(s: State) {
    SomeoneAsleep(s.pcs) ==>
      (s.word.Held? && s.word.waiters) || exists t :: 0 <= t < |s.pcs| && Active(s.pcs[t])
  }

  // The word a waiter waits on carries WAITERS.
  predicate MarkedPc(p: Pc) {
    p.Marked? || p.Asleep? || p.Back? || p.Suspect? || p.Condemned? ==> MarkedWord(p.v)
  }

  ghost predicate SleepInv(s: State) {
    Watched(s) && forall t :: 0 <= t < |s.pcs| ==> MarkedPc(s.pcs[t])
  }

  lemma KillKeepsWatch(s: State, a: Action)
    requires WellFormed(s) && Enabled(s, a) && SleepInv(s) && a.KillProcess?
    ensures Watched(Exec(s, a)) <==> !Fatal(s, a)
  {
    var n := Exec(s, a);
    forall t | 0 <= t < |s.pcs|
      ensures n.pcs[t] == if s.pid[t] == s.pid[a.t] then Dead else s.pcs[t]
    {
    }
    if Fatal(s, a) {
      var u :| 0 <= u < |s.pcs| && s.pid[u] != s.pid[a.t] && s.pcs[u].Asleep?;
      assert n.pcs[u].Asleep?;
    } else if SomeoneAsleep(n.pcs) && !MarkedWord(s.word) {
      var u :| 0 <= u < |n.pcs| && n.pcs[u].Asleep?;
      assert s.pid[u] != s.pid[a.t] && s.pcs[u].Asleep?;
      var t :| 0 <= t < |s.pcs| && s.pid[t] != s.pid[a.t] && Active(s.pcs[t]);
      assert Active(n.pcs[t]);
    }
  }

  // Exactly the fatal kills end the watch over sleepers.
  lemma StepKeepsWatch(s: State, a: Action)
    requires WellFormed(s) && Enabled(s, a) && SleepInv(s)
    ensures Watched(Exec(s, a)) <==> !Fatal(s, a)
  {
    if a.KillProcess? {
      KillKeepsWatch(s, a);
    } else {
      LiveStepKeepsWatch(s, a);
    }
  }

  lemma LiveStepKeepsWatch(s: State, a: Action)
    requires WellFormed(s) && Enabled(s, a) && SleepInv(s) && !a.KillProcess?
    ensures Watched(Exec(s, a))
  {
    var n := Exec(s, a);
    if SomeoneAsleep(n.pcs) && !(n.word.Held? && n.word.waiters) {
      if SomeoneAsleep(s.pcs) && !(s.word.Held? && s.word.waiters) {
        var t :| 0 <= t < |s.pcs| && Active(s.pcs[t]);
        if a.Wake? {
          assert Active(n.pcs[a.u]);
        } else if !a.WakeNobody? {
          assert Active(n.pcs[t]);
        }
      } else {
        assert a.Unlock? || a.FutexWait?;
        assert Active(n.pcs[a.t]);
      }
    }
  }

  lemma StepKeepsSleepInv(s: State, a: Action)
    requires WellFormed(s) && Enabled(s, a) && SleepInv(s) && !Fatal(s, a)
    ensures SleepInv(Exec(s, a))
  {
    StepKeepsWatch(s, a);
    var n := Exec(s, a);
    forall t | 0 <= t < |n.pcs| ensures MarkedPc(n.pcs[t]) {
      assert MarkedPc(s.pcs[t]) && MarkedPc(s.pcs[a.t]);
    }
    hide Exec;
  }

  lemma {:induction false} RunKeepsSleepInv(s: State, run: seq<Action>)
    requires WellFormed(s) && Enabling(s, run) && SleepInv(s) && AllHarmless(s, run)
    ensures SleepInv(ExecAll(s, run))
    decreases |run|
  {
    if run != [] {
      StepKeepsSleepInv(s, run[0]);
      RunKeepsSleepInv(Exec(s, run[0]), run[1..]);
    }
  }

  /** While some thread sleeps on the lock, the word carries WAITERS (so the next
      unlock wakes one), or a wake is on its way, or another waiter is awake and
      will set WAITERS again. Only a fatal kill can change that (StepKeepsWatch):
      one of the last such thread, with the word unmarked. */
  lemma SleepersAreWatched(s: State, run: seq<Action>)
    requires Initial(s) && Enabling(s, run) && AllHarmless(s, run)
    ensures Watched(ExecAll(s, run))
  {
    RunKeepsSleepInv(s, run);
  }

  /** A dead holder never blocks the lock: a waiter that is back from a slice
      gets in by itself, in three steps. */
  lemma DeadHolderIsReplaced(s: State, t: nat)
    requires Inv(s) && SleepInv(s) && t < |s.pcs| && s.pcs[t] == Back(s.word)
    requires s.word.Held? && !Alive(s, s.word.pid) && s.word.pid != s.pid[t]
    ensures Enabling(s, [Compare(t, true), CheckPid(t), TakeOver(t)])
    ensures ExecAll(s, [Compare(t, true), CheckPid(t), TakeOver(t)]).pcs[t].Inside?
  {
    var run := [Compare(t, true), CheckPid(t), TakeOver(t)];
    var a := Goto(s, t, Suspect(s.word));
    assert Exec(s, run[0]) == a;
    NoResurrection(s, run[0], s.word.pid);
    var b := Goto(a, t, Condemned(s.word));
    assert Exec(a, run[1]) == b;
    hide Alive;
    assert Exec(b, run[2]).pcs[t] == Inside;
    assert run[1..][0] == run[1] && run[1..][1..] == [TakeOver(t)] && [TakeOver(t)][1..] == [];
    hide Enabled;
    assert Enabling(Exec(b, run[2]), []);
    assert Enabling(b, [TakeOver(t)]);
    assert Enabling(a, run[1..]);
    hide Exec;
    assert ExecAll(s, run) == ExecAll(a, run[1..]) == ExecAll(b, run[1..][1..]) == ExecAll(Exec(b, run[2]), []);
  }

  // ---------- what the calls come to ----------

  function Two(p: nat, q: nat, a: Pc, b: Pc, word: Word): State {
    State([p, q], [a, b], word)
  }

  // One process has the lock, another goes to sleep on it, is woken by the unlock
  // and gets it.
  const HANDED: seq<Action> := [
    Call(0), Grab(0), Call(1), GoSlow(1), Load(1), Mark(1), FutexWait(1),
    Unlock(0), Wake(0, 1), Compare(1, false), Load(1), GrabMarked(1), Unlock(1), WakeNobody(1)]

  function Handed(p: nat, q: nat, k: nat): State {
    var mine, marked := Held(p, false), Held(p, true);
    if k == 0 then Two(p, q, Out, Out, Free)
    else if k == 1 then Two(p, q, Spinning, Out, Free)
    else if k == 2 then Two(p, q, Inside, Out, mine)
    else if k == 3 then Two(p, q, Inside, Spinning, mine)
    else if k == 4 then Two(p, q, Inside, Slow, mine)
    else if k == 5 then Two(p, q, Inside, Loaded(mine), mine)
    else if k == 6 then Two(p, q, Inside, Marked(marked), marked)
    else if k == 7 then Two(p, q, Inside, Asleep(marked), marked)
    else if k == 8 then Two(p, q, Leaving, Asleep(marked), Free)
    else if k == 9 then Two(p, q, Out, Back(marked), Free)
    else if k == 10 then Two(p, q, Out, Slow, Free)
    else if k == 11 then Two(p, q, Out, Loaded(Free), Free)
    else if k == 12 then Two(p, q, Out, Inside, Held(q, true))
    else if k == 13 then Two(p, q, Out, Leaving, Free)
    else Two(p, q, Out, Out, Free)
  }

  /** From each point of that story the rest of it can happen, and ends with the
      lock free and both out; at its 12th the waiter has it. */
  lemma {:induction false} LockIsHandedOn(p: nat, q: nat, k: nat)
    requires k <= 14
    ensures Enabling(Handed(p, q, k), HANDED[k..]) && ExecAll(Handed(p, q, k), HANDED[k..]) == Handed(p, q, 14)
    decreases 14 - k
  {
    hide Exec, Enabled, Handed;
    if k < 14 {
      LockIsHandedOn(p, q, k + 1);
      HandedStep(p, q, k);
      assert HANDED[k..] == [HANDED[k]] + HANDED[k + 1..];
    }
  }

  lemma HandedStep(p: nat, q: nat, k: nat)
    requires k < 14
    ensures WellFormed(Handed(p, q, k)) && Enabled(Handed(p, q, k), HANDED[k])
    ensures Exec(Handed(p, q, k), HANDED[k]) == Handed(p, q, k + 1)
  {
    if k < 7 {
      GoesToSleep(p, q, k);
    } else {
      GetsIn(p, q, k);
    }
  }

  lemma GoesToSleep(p: nat, q: nat, k: nat)
    requires k < 7
    ensures WellFormed(Handed(p, q, k)) && Enabled(Handed(p, q, k), HANDED[k])
    ensures Exec(Handed(p, q, k), HANDED[k]) == Handed(p, q, k + 1)
  {
    assert HANDED[k] == [Call(0), Grab(0), Call(1), GoSlow(1), Load(1), Mark(1), FutexWait(1)][k];
    assert Exec(Handed(p, q, k), HANDED[k]).pcs == Handed(p, q, k + 1).pcs;
  }

  lemma GetsIn(p: nat, q: nat, k: nat)
    requires 7 <= k < 14
    ensures WellFormed(Handed(p, q, k)) && Enabled(Handed(p, q, k), HANDED[k])
    ensures Exec(Handed(p, q, k), HANDED[k]) == Handed(p, q, k + 1)
  {
    assert HANDED[k] == [Unlock(0), Wake(0, 1), Compare(1, false), Load(1), GrabMarked(1), Unlock(1), WakeNobody(1)][k - 7];
    assert Exec(Handed(p, q, k), HANDED[k]).pcs == Handed(p, q, k + 1).pcs;
  }

  /** A lock taken and released with nobody about leaves everything as it was. */
  lemma Uncontended(s: State, t: nat)
    requires WellFormed(s) && t < |s.pcs| && s.pcs[t].Out? && s.word.Free?
    ensures var run := [Call(t), Grab(t), Unlock(t)];
      Enabling(s, run) && ExecAll(s, run) == s
  {
    var run := [Call(t), Grab(t), Unlock(t)];
    var a, b := Goto(s, t, Spinning), Goto(s, t, Inside).(word := Held(s.pid[t], false));
    assert Exec(s, run[0]) == a;
    assert Exec(a, run[1]) == b by { assert a.pcs[t := Inside] == s.pcs[t := Inside]; }
    assert Exec(b, run[2]) == s by { assert b.pcs[t := Out] == s.pcs; }
    assert run[1..] == [Grab(t), Unlock(t)] && run[1..][1..] == [Unlock(t)] && [Unlock(t)][1..] == [];
    hide Exec, Enabled;
    assert Enabling(s, []) && ExecAll(s, []) == s;
    assert Enabling(b, [Unlock(t)]) && ExecAll(b, [Unlock(t)]) == s;
    assert Enabling(a, run[1..]) && ExecAll(a, run[1..]) == s;
  }

  // What a waiter does next when the word is free, and how many steps are left.
  function NextTry(s: State, t: nat): Action
    requires t < |s.pcs|
  {
    match s.pcs[t]
    case Out => Call(t)
    case Spinning => Grab(t)
    case Slow => Load(t)
    case Loaded(v) => if v.Free? then GrabMarked(t) else if v.waiters then Mark(t) else Retry(t)
    case Marked(_) => FutexWait(t)
    case Asleep(_) => WaitReturns(t)
    case Back(_) => Compare(t, true)
    case Suspect(_) => CheckPid(t)
    case _ => Retry(t)
  }

  function TriesLeft(p: Pc): nat {
    match p
    case Out => 2
    case Spinning => 1
    case Slow => 2
    case Loaded(v) => if v.Free? then 1 else if v.waiters then 5 else 3
    case Marked(_) => 4
    case Asleep(_) => 4
    case Back(_) => 3
    case Suspect(_) => 4
    case Condemned(_) => 3
    case _ => 0
  }

  lemma TryBrings(s: State, t: nat)
    requires WellFormed(s) && t < |s.pcs| && s.word.Free? && MarkedPc(s.pcs[t])
    requires !s.pcs[t].Dead? && !s.pcs[t].Inside? && !s.pcs[t].Leaving?
    ensures Enabled(s, NextTry(s, t)) && NextTry(s, t).t == t && !NextTry(s, t).KillProcess?
    ensures var n := Exec(s, NextTry(s, t));
      if n.pcs[t].Inside? then n.word.Held? && n.word.pid == s.pid[t]
      else
        && n.word.Free? && MarkedPc(n.pcs[t]) && !n.pcs[t].Dead? && !n.pcs[t].Leaving?
        && TriesLeft(n.pcs[t]) < TriesLeft(s.pcs[t])
  {
    hide Alive;
  }

  /** Whatever a waiter was doing, once the word is free it gets in by itself. */
  lemma {:induction false} FreeLockIsTaken(s: State, t: nat) returns (run: seq<Action>)
    requires WellFormed(s) && t < |s.pcs| && s.word.Free? && MarkedPc(s.pcs[t])
    requires !s.pcs[t].Dead? && !s.pcs[t].Inside? && !s.pcs[t].Leaving?
    ensures Enabling(s, run) && (forall a :: a in run ==> a.t == t && !a.KillProcess?)
    ensures ExecAll(s, run).pcs[t].Inside? && ExecAll(s, run).word.Held? && ExecAll(s, run).word.pid == s.pid[t]
    decreases TriesLeft(s.pcs[t])
  {
    hide Enabled, Exec, MarkedPc, TriesLeft, NextTry;
    TryBrings(s, t);
    var a := NextTry(s, t);
    var n, more := Exec(s, a), [];
    if !n.pcs[t].Inside? {
      more := FreeLockIsTaken(n, t);
    }
    run := [a] + more;
    assert run[1..] == more;
  }
}
