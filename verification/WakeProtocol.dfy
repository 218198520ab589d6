/** Sleeping and waking on the ring's sequence words (rust/src/ring.rs:
    wait_for_items, put, finish_pops), as interleaved steps of any number of
    threads. One protocol covers both sides of the queue: a token is a queued
    record that consumers wait for (posted by put, one at a time), or a free slot
    that producers wait for (posted by finish_pops, n at a time). Producers that
    wait for ring bytes or for disk space are in module SpaceWaits. */
module WakeProtocol {
  import opened Wrappers

  // Where a thread is. Sequence numbers are taken not to wrap.
  datatype Pc =
    | Out                             // not in a call
    // taking a token
    | WantTake                        // about to lock
    | Checking                        // lock held, about to look
    | Saw(seen: nat)                  // lock held: nothing there, sequence read
    | Registered(seen: nat)           // lock held: counted as waiting
    | Armed(seen: nat)                // lock released, about to futex-wait
    | Asleep(seen: nat)
    | Awake                           // back from the wait, still counted
    // posting tokens
    | WantPost
    | Posting(k: nat)                 // lock held: k tokens stored so far
    | Bumped(k: nat)                  // sequence advanced
    | Noted(k: nat, wake: bool)       // waiting count read
    | Waking(k: nat)                  // lock released, k wakes to deliver
    | Dead(counted: bool)             // killed; `counted` as waiting for ever

  // `lost` is a history variable: how much wake-up work left with threads that
  // were killed or returned a signal error.
  datatype State = State(pcs: seq<Pc>, lock: Option<nat>, tokens: nat, sequence: nat, waiting: nat, lost: nat)

  datatype Action =
    | CallTake(t: nat) | LockTake(t: nat) | Take(t: nat, n: nat) | Expire(t: nat)
    | Look(t: nat) | Register(t: nat) | Unlock(t: nat) | FutexWait(t: nat)
    | TimeOut(t: nat) | Unregister(t: nat) | SignalError(t: nat)
    | CallPost(t: nat) | LockPost(t: nat) | NoPost(t: nat) | StoreToken(t: nat)
    | Bump(t: nat) | Note(t: nat) | Release(t: nat) | Wake(t: nat, u: nat) | DoneWaking(t: nat)
    | Kill(t: nat)

  predicate Holding(p: Pc) {
    p.Checking? || p.Saw? || p.Registered? || p.Posting? || p.Bumped? || p.Noted?
  }

  predicate SomeoneAsleep(pcs: seq<Pc>) {
    exists u :: 0 <= u < |pcs| && pcs[u].Asleep?
  }

  predicate Enabled(s: State, a: Action) {
    a.t < |s.pcs| &&
    var p := s.pcs[a.t];
    match a
    case CallTake(_) => p.Out?
    case LockTake(_) => p.WantTake? && s.lock.None?
    case Take(_, n) => p.Checking? && 1 <= n <= s.tokens
    case Expire(_) => p.Checking? && s.tokens == 0
    case Look(_) => p.Checking? && s.tokens == 0
    case Register(_) => p.Saw?
    case Unlock(_) => p.Registered?
    case FutexWait(_) => p.Armed?
    case TimeOut(_) => p.Asleep?
    case Unregister(_) => p.Awake? && s.waiting > 0
    case SignalError(_) => p.Awake? && s.waiting > 0
    case CallPost(_) => p.Out?
    case LockPost(_) => p.WantPost? && s.lock.None?
    case NoPost(_) => p == Posting(0)
    case StoreToken(_) => p.Posting?
    case Bump(_) => p.Posting? && p.k > 0
    case Note(_) => p.Bumped?
    case Release(_) => p.Noted?
    case Wake(_, u) => p.Waking? && p.k > 0 && u < |s.pcs| && s.pcs[u].Asleep?
    case DoneWaking(_) => p.Waking? && (p.k == 0 || !SomeoneAsleep(s.pcs))
    case Kill(_) => !p.Dead?
  }

  function Exec(s: State, a: Action): State
    requires Enabled(s, a)
  {
    var t := a.t;
    var p := s.pcs[t];
    match a
    case CallTake(_) => s.(pcs := s.pcs[t := WantTake])
    case LockTake(_) => s.(pcs := s.pcs[t := Checking], lock := Some(t))
    case Take(_, n) => s.(pcs := s.pcs[t := Out], lock := None, tokens := s.tokens - n)
    case Expire(_) => s.(pcs := s.pcs[t := Out], lock := None)
    case Look(_) => s.(pcs := s.pcs[t := Saw(s.sequence)])
    case Register(_) => s.(pcs := s.pcs[t := Registered(p.seen)], waiting := s.waiting + 1)
    case Unlock(_) => s.(pcs := s.pcs[t := Armed(p.seen)], lock := None)
    // The kernel compares the word and sleeps in one step.
    case FutexWait(_) => s.(pcs := s.pcs[t := if p.seen == s.sequence then Asleep(p.seen) else Awake])
    case TimeOut(_) => s.(pcs := s.pcs[t := Awake])
    case Unregister(_) => s.(pcs := s.pcs[t := WantTake], waiting := s.waiting - 1)
    case SignalError(_) => s.(pcs := s.pcs[t := Out], waiting := s.waiting - 1, lost := s.lost + 1)
    case CallPost(_) => s.(pcs := s.pcs[t := WantPost])
    case LockPost(_) => s.(pcs := s.pcs[t := Posting(0)], lock := Some(t))
    case NoPost(_) => s.(pcs := s.pcs[t := Out], lock := None)
    case StoreToken(_) => s.(pcs := s.pcs[t := Posting(p.k + 1)], tokens := s.tokens + 1)
    case Bump(_) => s.(pcs := s.pcs[t := Bumped(p.k)], sequence := s.sequence + p.k)
    case Note(_) => s.(pcs := s.pcs[t := Noted(p.k, s.waiting > 0)])
    case Release(_) => s.(pcs := s.pcs[t := if p.wake then Waking(p.k) else Out], lock := None)
    case Wake(_, u) => s.(pcs := s.pcs[t := Waking(p.k - 1)][u := Awake])
    case DoneWaking(_) => s.(pcs := s.pcs[t := Out])
    // A dead holder's lock is taken over (module PidMutex): nothing it had
    // stored is undone, nothing it had left to do is done.
    case Kill(_) => s.(pcs := s.pcs[t := Dead(Counted(p) == 1)],
                       lock := if Holding(p) then None else s.lock,
                       lost := s.lost + Credit(p, s.sequence))
  }

  ghost predicate Initial(s: State) {
    s.lock.None? && s.tokens == 0 && s.waiting == 0 && s.lost == 0 && forall t :: 0 <= t < |s.pcs| ==> s.pcs[t].Out?
  }

  ghost predicate Enabling(s: State, run: seq<Action>)
    decreases |run|
  {
    run == [] || (Enabled(s, run[0]) && Enabling(Exec(s, run[0]), run[1..]))
  }

  function ExecAll(s: State, run: seq<Action>): State
    requires Enabling(s, run)
    decreases |run|
  {
    if run == [] then s else ExecAll(Exec(s, run[0]), run[1..])
  }

  // ---------- accounting ----------

  // 1 if the thread is included in the shared waiting count.
  function Counted(p: Pc): nat {
    match p
    case Registered(_) | Armed(_) | Asleep(_) | Awake => 1
    case Dead(c) => if c then 1 else 0
    case _ => 0
  }

  // How many tokens the thread can be relied on to see to: by taking one itself,
  // or by the sleepers it is going to wake.
  function Credit(p: Pc, sequence: nat): nat {
    match p
    case WantTake | Checking | Awake => 1
    case Armed(seen) => if seen == sequence then 0 else 1
    case Posting(k) => k
    case Bumped(k) => k
    case Noted(k, wake) => if wake then k else 0
    case Waking(k) => k
    case _ => 0
  }

  function Waiters(pcs: seq<Pc>): nat {
    if pcs == [] then 0 else Counted(pcs[0]) + Waiters(pcs[1..])
  }

  function Credits(pcs: seq<Pc>, sequence: nat): nat {
    if pcs == [] then 0 else Credit(pcs[0], sequence) + Credits(pcs[1..], sequence)
  }

  lemma {:induction false} WaitersUpdate(pcs: seq<Pc>, t: nat, p: Pc)
    requires t < |pcs|
    ensures Waiters(pcs[t := p]) == Waiters(pcs) - Counted(pcs[t]) + Counted(p)
    ensures Waiters(pcs) >= Counted(pcs[t])
  {
    if t == 0 {
      assert pcs[t := p][1..] == pcs[1..];
    } else {
      WaitersUpdate(pcs[1..], t - 1, p);
      assert pcs[t := p][1..] == pcs[1..][t - 1 := p];
    }
  }

  lemma {:induction false} CreditsUpdate(pcs: seq<Pc>, sequence: nat, t: nat, p: Pc)
    requires t < |pcs|
    ensures Credits(pcs[t := p], sequence) == Credits(pcs, sequence) - Credit(pcs[t], sequence) + Credit(p, sequence)
    ensures Credits(pcs, sequence) >= Credit(pcs[t], sequence)
  {
    if t == 0 {
      assert pcs[t := p][1..] == pcs[1..];
    } else {
      CreditsUpdate(pcs[1..], sequence, t - 1, p);
      assert pcs[t := p][1..] == pcs[1..][t - 1 := p];
    }
  }

  // Advancing the sequence only turns would-be sleepers into takers.
  lemma {:induction false} CreditsGrow(pcs: seq<Pc>, sequence: nat, later: nat)
    requires sequence < later
    requires forall t :: 0 <= t < |pcs| ==> SeenOf(pcs[t]) <= sequence
    ensures Credits(pcs, sequence) <= Credits(pcs, later)
  {
    if pcs != [] {
      assert SeenOf(pcs[0]) <= sequence;
      CreditsGrow(pcs[1..], sequence, later);
    }
  }

  lemma {:induction false} SomeCredit(pcs: seq<Pc>, sequence: nat)
    requires Credits(pcs, sequence) > 0
    ensures exists t :: 0 <= t < |pcs| && Credit(pcs[t], sequence) > 0
  {
    if Credit(pcs[0], sequence) == 0 {
      SomeCredit(pcs[1..], sequence);
      var t :| 0 <= t < |pcs[1..]| && Credit(pcs[1..][t], sequence) > 0;
      assert Credit(pcs[t + 1], sequence) > 0;
    }
  }

  // ---------- the invariant ----------

  function SeenOf(p: Pc): nat {
    match p
    case Saw(s) => s
    case Registered(s) => s
    case Armed(s) => s
    case Asleep(s) => s
    case _ => 0
  }

  predicate Seeing(p: Pc) {
    p.Saw? || p.Registered? || p.Armed? || p.Asleep?
  }

  // Tokens stored by the lock's holder whose sequence bump is still to come.
  function Unbumped(s: State): nat {
    if s.lock.Some? && s.lock.value < |s.pcs| && s.pcs[s.lock.value].Posting? then s.pcs[s.lock.value].k else 0
  }

  ghost predicate LockInv(s: State) {
    && (s.lock.Some? ==> s.lock.value < |s.pcs| && Holding(s.pcs[s.lock.value]))
    && (forall t :: 0 <= t < |s.pcs| && Holding(s.pcs[t]) ==> s.lock == Some(t))
  }

  ghost predicate SeenInv(s: State) {
    forall t :: 0 <= t < |s.pcs| && Seeing(s.pcs[t]) ==>
      && SeenOf(s.pcs[t]) <= s.sequence
      && (SeenOf(s.pcs[t]) == s.sequence ==> s.tokens <= Unbumped(s) + s.lost)
  }

  ghost predicate NotedInv(s: State) {
    forall t :: 0 <= t < |s.pcs| && s.pcs[t].Noted? && !s.pcs[t].wake ==> s.waiting == 0
  }

  ghost predicate SleepInv(s: State) {
    SomeoneAsleep(s.pcs) ==> s.tokens <= Credits(s.pcs, s.sequence) + s.lost
  }

  ghost predicate Inv(s: State) {
    LockInv(s) && SeenInv(s) && NotedInv(s) && SleepInv(s) && s.waiting == Waiters(s.pcs)
  }

  lemma NobodyAsleep(s: State)
    requires s.waiting == Waiters(s.pcs) == 0
    ensures !SomeoneAsleep(s.pcs)
  {
    if SomeoneAsleep(s.pcs) {
      var u :| 0 <= u < |s.pcs| && s.pcs[u].Asleep?;
      WaitersUpdate(s.pcs, u, Out);
    }
  }

  lemma StepLock(s: State, a: Action)
    requires Inv(s) && Enabled(s, a)
    ensures LockInv(Exec(s, a))
  {
    hide Waiters;
    hide Credits;
  }

  lemma StepWaiting(s: State, a: Action)
    requires Inv(s) && Enabled(s, a)
    ensures Exec(s, a).waiting == Waiters(Exec(s, a).pcs)
  {
    hide Credits;
    hide Waiters;
    hide SeenInv;
    hide SleepInv;
    hide LockInv;
    hide NotedInv;
    if a.Wake? {
      var q := Waking(s.pcs[a.t].k - 1);
      WaitersUpdate(s.pcs, a.t, q);
      WaitersUpdate(s.pcs[a.t := q], a.u, Awake);
    } else {
      WaitersUpdate(s.pcs, a.t, Exec(s, a).pcs[a.t]);
    }
  }

  lemma StepSeen(s: State, a: Action)
    requires Inv(s) && Enabled(s, a)
    ensures SeenInv(Exec(s, a))
  {
    hide Waiters;
    hide Credits;
    hide SleepInv;
    hide NotedInv;
    var n := Exec(s, a);
    forall t | 0 <= t < |n.pcs| && Seeing(n.pcs[t])
      ensures SeenOf(n.pcs[t]) <= n.sequence
      ensures SeenOf(n.pcs[t]) == n.sequence ==> n.tokens <= Unbumped(n) + n.lost
    {
      if t != a.t {
        assert n.pcs[t] == s.pcs[t];
      }
    }
  }

  lemma StepNoted(s: State, a: Action)
    requires Inv(s) && Enabled(s, a)
    ensures NotedInv(Exec(s, a))
  {
    hide Waiters;
    hide Credits;
    hide SleepInv;
    hide SeenInv;
    var n := Exec(s, a);
    forall t | 0 <= t < |n.pcs| && n.pcs[t].Noted? && !n.pcs[t].wake
      ensures n.waiting == 0
    {
      if t != a.t {
        assert n.pcs[t] == s.pcs[t] && Holding(s.pcs[t]);
      }
    }
  }

  lemma StepSleep(s: State, a: Action)
    requires Inv(s) && Enabled(s, a)
    ensures SleepInv(Exec(s, a))
  {
    var n := Exec(s, a);
    var t := a.t;
    StepWaiting(s, a);
    if n.waiting == 0 {
      NobodyAsleep(n);
    }
    if !SomeoneAsleep(n.pcs) {
      return;
    }
    if a.FutexWait? && n.pcs[t].Asleep? {
      FallingAsleep(s, t);
    } else {
      StillAsleep(s, a);
      CreditsStep(s, a);
    }
  }

  // Nobody but a thread that just fell asleep becomes a sleeper.
  lemma StillAsleep(s: State, a: Action)
    requires Enabled(s, a) && SomeoneAsleep(Exec(s, a).pcs)
    requires a.FutexWait? ==> !Exec(s, a).pcs[a.t].Asleep?
    ensures SomeoneAsleep(s.pcs)
  {
    var n := Exec(s, a);
    var u :| 0 <= u < |n.pcs| && n.pcs[u].Asleep?;
    assert s.pcs[u].Asleep?;
  }

  lemma FallingAsleep(s: State, t: nat)
    requires Inv(s) && Enabled(s, FutexWait(t)) && s.pcs[t].seen == s.sequence
    ensures SleepInv(Exec(s, FutexWait(t)))
  {
    var n := Exec(s, FutexWait(t));
    hide Waiters;
    hide Credits;
    assert Seeing(s.pcs[t]) && s.tokens <= Unbumped(s) + s.lost;
    CreditsUpdate(s.pcs, s.sequence, t, n.pcs[t]);
    if s.lock.Some? {
      CreditsUpdate(n.pcs, s.sequence, s.lock.value, Out);
    }
  }

  // With someone asleep before and after, the balance of tokens and credits
  // never tips.
  lemma CreditsStep(s: State, a: Action)
    requires Inv(s) && Enabled(s, a) && SomeoneAsleep(s.pcs)
    requires a.FutexWait? ==> !Exec(s, a).pcs[a.t].Asleep?
    ensures var n := Exec(s, a);
      n.tokens <= Credits(n.pcs, n.sequence) + n.lost
  {
    var n := Exec(s, a);
    var t := a.t;
    if s.waiting == 0 {
      NobodyAsleep(s);
    }
    hide Waiters;
    hide Credits;
    hide SeenInv;
    hide LockInv;
    if a.Wake? {
      CreditsWake(s, a);
    } else if a.Bump? {
      CreditsBump(s, a);
    } else {
      CreditsUpdate(s.pcs, s.sequence, t, n.pcs[t]);
    }
  }

  lemma CreditsWake(s: State, a: Action)
    requires a.Wake? && Enabled(s, a)
    ensures Credits(Exec(s, a).pcs, s.sequence) == Credits(s.pcs, s.sequence)
  {
    var q := Waking(s.pcs[a.t].k - 1);
    CreditsUpdate(s.pcs, s.sequence, a.t, q);
    CreditsUpdate(s.pcs[a.t := q], s.sequence, a.u, Awake);
  }

  lemma CreditsBump(s: State, a: Action)
    requires Inv(s) && a.Bump? && Enabled(s, a)
    ensures Credits(Exec(s, a).pcs, Exec(s, a).sequence) >= Credits(s.pcs, s.sequence)
  {
    var n := Exec(s, a);
    CreditsUpdate(s.pcs, s.sequence, a.t, n.pcs[a.t]);
    SeenBound(s);
    CreditsGrow(n.pcs, s.sequence, n.sequence);
  }

  lemma StepKeepsInv(s: State, a: Action)
    requires Inv(s) && Enabled(s, a)
    ensures Inv(Exec(s, a))
  {
    StepLock(s, a);
    StepWaiting(s, a);
    StepSeen(s, a);
    StepNoted(s, a);
    StepSleep(s, a);
  }

  lemma SeenBound(s: State)
    requires SeenInv(s)
    ensures forall t :: 0 <= t < |s.pcs| ==> SeenOf(s.pcs[t]) <= s.sequence
  {
  }

  lemma {:induction false} RunKeepsInv(s: State, run: seq<Action>)
    requires Inv(s) && Enabling(s, run)
    ensures Inv(ExecAll(s, run))
    decreases |run|
  {
    if run != [] {
      StepKeepsInv(s, run[0]);
      RunKeepsInv(Exec(s, run[0]), run[1..]);
    }
  }

  lemma {:induction false} InitialInv(s: State)
    requires Initial(s)
    ensures Inv(s)
  {
    NoWaiters(s.pcs);
  }

  lemma {:induction false} NoWaiters(pcs: seq<Pc>)
    requires forall t :: 0 <= t < |pcs| ==> pcs[t].Out?
    ensures Waiters(pcs) == 0
  {
    if pcs != [] {
      NoWaiters(pcs[1..]);
    }
  }

  // ---------- the theorem ----------

  /** In every reachable state with a sleeper, the tokens there are do not exceed
      what the awake threads will see to, plus what left with killed threads and
      signal errors. */
  lemma SleepersAreCovered(s: State, run: seq<Action>)
    requires Initial(s) && Enabling(s, run)
    ensures var n := ExecAll(s, run);
      SomeoneAsleep(n.pcs) ==> n.tokens <= Credits(n.pcs, n.sequence) + n.lost
  {
    InitialInv(s);
    RunKeepsInv(s, run);
  }

  predicate Faultless(run: seq<Action>) {
    forall a :: a in run ==> !a.Kill? && !a.SignalError?
  }

  lemma {:induction false} FaultlessLosesNothing(s: State, run: seq<Action>)
    requires Enabling(s, run) && Faultless(run)
    ensures ExecAll(s, run).lost == s.lost
    decreases |run|
  {
    if run != [] {
      assert run[0] in run;
      FaultlessLosesNothing(Exec(s, run[0]), run[1..]);
    }
  }

  /** No lost wakeup: without deaths and signals, whenever there is a token and a
      thread asleep for one, some awake thread is on its way to take a token or
      to wake a sleeper. */
  lemma NoLostWakeup(s: State, run: seq<Action>)
    requires Initial(s) && Enabling(s, run) && Faultless(run)
    ensures var n := ExecAll(s, run);
      SomeoneAsleep(n.pcs) && n.tokens > 0 ==>
        n.tokens <= Credits(n.pcs, n.sequence)
        && exists t :: 0 <= t < |n.pcs| && !n.pcs[t].Asleep? && Credit(n.pcs[t], n.sequence) > 0
  {
    SleepersAreCovered(s, run);
    FaultlessLosesNothing(s, run);
    var n := ExecAll(s, run);
    if SomeoneAsleep(n.pcs) && n.tokens > 0 {
      SomeCredit(n.pcs, n.sequence);
      var t :| 0 <= t < |n.pcs| && Credit(n.pcs[t], n.sequence) > 0;
      assert !n.pcs[t].Asleep?;
    }
  }

  /** At most one thread is ever inside the locked section. */
  lemma OneHolder(s: State, run: seq<Action>, t: nat, u: nat)
    requires Initial(s) && Enabling(s, run)
    requires t < |ExecAll(s, run).pcs| && Holding(ExecAll(s, run).pcs[t])
    requires u < |ExecAll(s, run).pcs| && Holding(ExecAll(s, run).pcs[u])
    ensures t == u
  {
    InitialInv(s);
    RunKeepsInv(s, run);
  }

  // ---------- what the calls come to ----------

  function Two(p: Pc, q: Pc, lock: Option<nat>, tokens: nat, sequence: nat, waiting: nat): State {
    State([p, q], lock, tokens, sequence, waiting, 0)
  }

  // A taker finds nothing and sleeps; a poster posts one and wakes it; it takes it.
  const SERVED: seq<Action> := [
    CallTake(0), LockTake(0), Look(0), Register(0), Unlock(0), FutexWait(0),
    CallPost(1), LockPost(1), StoreToken(1), Bump(1), Note(1), Release(1), Wake(1, 0), DoneWaking(1),
    Unregister(0), LockTake(0), Take(0, 1)]

  function Served(q: nat, k: nat): State {
    if k == 0 then Two(Out, Out, None, 0, q, 0)
    else if k == 1 then Two(WantTake, Out, None, 0, q, 0)
    else if k == 2 then Two(Checking, Out, Some(0), 0, q, 0)
    else if k == 3 then Two(Saw(q), Out, Some(0), 0, q, 0)
    else if k == 4 then Two(Registered(q), Out, Some(0), 0, q, 1)
    else if k == 5 then Two(Armed(q), Out, None, 0, q, 1)
    else if k == 6 then Two(Asleep(q), Out, None, 0, q, 1)
    else if k == 7 then Two(Asleep(q), WantPost, None, 0, q, 1)
    else if k == 8 then Two(Asleep(q), Posting(0), Some(1), 0, q, 1)
    else if k == 9 then Two(Asleep(q), Posting(1), Some(1), 1, q, 1)
    else if k == 10 then Two(Asleep(q), Bumped(1), Some(1), 1, q + 1, 1)
    else if k == 11 then Two(Asleep(q), Noted(1, true), Some(1), 1, q + 1, 1)
    else if k == 12 then Two(Asleep(q), Waking(1), None, 1, q + 1, 1)
    else if k == 13 then Two(Awake, Waking(0), None, 1, q + 1, 1)
    else if k == 14 then Two(Awake, Out, None, 1, q + 1, 1)
    else if k == 15 then Two(WantTake, Out, None, 1, q + 1, 0)
    else if k == 16 then Two(Checking, Out, Some(0), 1, q + 1, 0)
    else Two(Out, Out, None, 0, q + 1, 0)
  }

  lemma SleeperIsServed(q: nat)
    ensures Enabling(Served(q, 0), SERVED) && ExecAll(Served(q, 0), SERVED) == Served(q, 17)
  {
    ServedFrom(q, 0);
    assert SERVED[0..] == SERVED;
  }

  lemma {:induction false} ServedFrom(q: nat, k: nat)
    requires k <= 17
    ensures Enabling(Served(q, k), SERVED[k..]) && ExecAll(Served(q, k), SERVED[k..]) == Served(q, 17)
    decreases 17 - k
  {
    hide Exec, Enabled, Served;
    if k < 17 {
      ServedFrom(q, k + 1);
      ServedStep(q, k);
      assert SERVED[k..] == [SERVED[k]] + SERVED[k + 1..];
    }
  }

  lemma ServedStep(q: nat, k: nat)
    requires k < 17
    ensures Enabled(Served(q, k), SERVED[k]) && Exec(Served(q, k), SERVED[k]) == Served(q, k + 1)
  {
    if k < 6 {
      SleepsStep(q, k);
    } else if k < 12 {
      PostsStep(q, k);
    } else {
      TakesStep(q, k);
    }
  }

  lemma SleepsStep(q: nat, k: nat)
    requires k < 6
    ensures Enabled(Served(q, k), SERVED[k]) && Exec(Served(q, k), SERVED[k]) == Served(q, k + 1)
  {
    assert SERVED[k] == [CallTake(0), LockTake(0), Look(0), Register(0), Unlock(0), FutexWait(0)][k];
    assert Exec(Served(q, k), SERVED[k]).pcs == Served(q, k + 1).pcs;
  }

  lemma PostsStep(q: nat, k: nat)
    requires 6 <= k < 12
    ensures Enabled(Served(q, k), SERVED[k]) && Exec(Served(q, k), SERVED[k]) == Served(q, k + 1)
  {
    assert SERVED[k] == [CallPost(1), LockPost(1), StoreToken(1), Bump(1), Note(1), Release(1)][k - 6];
    assert Exec(Served(q, k), SERVED[k]).pcs == Served(q, k + 1).pcs;
  }

  lemma TakesStep(q: nat, k: nat)
    requires 12 <= k < 17
    ensures Enabled(Served(q, k), SERVED[k]) && Exec(Served(q, k), SERVED[k]) == Served(q, k + 1)
  {
    assert SERVED[k] == [Wake(1, 0), DoneWaking(1), Unregister(0), LockTake(0), Take(0, 1)][k - 12];
    assert Exec(Served(q, k), SERVED[k]).pcs == Served(q, k + 1).pcs;
  }

  lemma After(s: State, a: Action, n: State, run: seq<Action>)
    requires Enabled(s, a) && Exec(s, a) == n && Enabling(n, run)
    ensures Enabling(s, [a] + run) && ExecAll(s, [a] + run) == ExecAll(n, run)
  {
    hide Enabled, Exec;
    assert ([a] + run)[1..] == run;
  }

  lemma Nothing(s: State)
    ensures Enabling(s, []) && ExecAll(s, []) == s
  {
  }

  // Posting n at once: the sequence moves by n, and n wakes follow if anyone is
  // counted as waiting.
  lemma PostsEnd(s: State, t: nat, n: nat)
    requires t < |s.pcs| && s.pcs[t] == Posting(n) && n > 0 && s.lock == Some(t)
    ensures Enabling(s, [Bump(t)] + ([Note(t)] + ([Release(t)] + [])))
    ensures ExecAll(s, [Bump(t)] + ([Note(t)] + ([Release(t)] + [])))
         == s.(pcs := s.pcs[t := if s.waiting > 0 then Waking(n) else Out], lock := None, sequence := s.sequence + n)
  {
    hide Enabling, ExecAll, Enabled, Exec;
    var wake := s.waiting > 0;
    var s1 := s.(pcs := s.pcs[t := Bumped(n)], sequence := s.sequence + n);
    var s2 := s1.(pcs := s.pcs[t := Noted(n, wake)]);
    var s3 := s2.(pcs := s.pcs[t := if wake then Waking(n) else Out], lock := None);
    Moves(s, Bump(t), s1);
    Moves(s1, Note(t), s2);
    Moves(s2, Release(t), s3);
    Nothing(s3);
    After(s2, Release(t), s3, []);
    After(s1, Note(t), s2, [Release(t)] + []);
    After(s, Bump(t), s1, [Note(t)] + ([Release(t)] + []));
  }

  // One step of the end of a post.
  lemma Moves(s: State, a: Action, n: State)
    requires a.t < |s.pcs| && |n.pcs| == |s.pcs| && n.pcs == s.pcs[a.t := n.pcs[a.t]]
    requires
      var p, q := s.pcs[a.t], n.pcs[a.t];
      || (a.Bump? && p.Posting? && p.k > 0 && q == Bumped(p.k) && n == s.(pcs := n.pcs, sequence := s.sequence + p.k))
      || (a.Note? && p.Bumped? && q == Noted(p.k, s.waiting > 0) && n == s.(pcs := n.pcs))
      || (a.Release? && p.Noted? && q == (if p.wake then Waking(p.k) else Out) && n == s.(pcs := n.pcs, lock := None))
    ensures Enabled(s, a) && Exec(s, a) == n
  {
  }

  // A taker about to sleep does so if nothing was posted since it looked, and does
  // not if a poster gets in between.
  lemma BumpKeepsAwake(s: State, t: nat, u: nat)
    requires t < |s.pcs| && u < |s.pcs| && t != u && s.pcs[t] == Armed(s.sequence) && s.pcs[u].Posting? && s.pcs[u].k > 0
    ensures Enabled(s, FutexWait(t)) && Exec(s, FutexWait(t)) == s.(pcs := s.pcs[t := Asleep(s.sequence)])
    ensures Enabled(s, Bump(u)) && Enabled(Exec(s, Bump(u)), FutexWait(t))
    ensures Exec(Exec(s, Bump(u)), FutexWait(t)).pcs[t] == Awake
  {
  }

  // A sleeper whose wait ends, by itself or with a signal, is no longer counted.
  lemma WaitsEnd(s: State, t: nat)
    requires t < |s.pcs| && s.pcs[t].Asleep? && s.waiting > 0 && s.lock == None
    ensures var timedOut := [TimeOut(t)] + ([Unregister(t)] + ([LockTake(t)] + []));
      && Enabling(s, timedOut)
      && ExecAll(s, timedOut) == s.(pcs := s.pcs[t := Checking], waiting := s.waiting - 1, lock := Some(t))
    ensures var signalled := [TimeOut(t)] + ([SignalError(t)] + []);
      && Enabling(s, signalled)
      && ExecAll(s, signalled) == s.(pcs := s.pcs[t := Out], waiting := s.waiting - 1, lost := s.lost + 1)
  {
    var s1 := s.(pcs := s.pcs[t := Awake]);
    var s2 := s1.(pcs := s.pcs[t := WantTake], waiting := s.waiting - 1);
    var s3 := s2.(pcs := s.pcs[t := Checking], lock := Some(t));
    var e2 := s1.(pcs := s.pcs[t := Out], waiting := s.waiting - 1, lost := s.lost + 1);
    Nothing(s3);
    Nothing(e2);
    hide Enabling, ExecAll;
    After(s2, LockTake(t), s3, []);
    After(s1, Unregister(t), s2, [LockTake(t)] + []);
    After(s, TimeOut(t), s1, [Unregister(t)] + ([LockTake(t)] + []));
    After(s1, SignalError(t), e2, []);
    After(s, TimeOut(t), s1, [SignalError(t)] + []);
  }

  // A take that finds nothing, and a post of nothing, change nothing.
  lemma NothingDone(s: State, t: nat)
    requires t < |s.pcs| && s.pcs[t].Out? && s.lock.None?
    ensures var post := [CallPost(t)] + ([LockPost(t)] + ([NoPost(t)] + []));
      Enabling(s, post) && ExecAll(s, post) == s
    ensures s.tokens == 0 ==>
      var take := [CallTake(t)] + ([LockTake(t)] + ([Expire(t)] + []));
      Enabling(s, take) && ExecAll(s, take) == s
  {
    var p1 := s.(pcs := s.pcs[t := WantPost]);
    var p2 := p1.(pcs := s.pcs[t := Posting(0)], lock := Some(t));
    var t1 := s.(pcs := s.pcs[t := WantTake]);
    var t2 := t1.(pcs := s.pcs[t := Checking], lock := Some(t));
    assert s.pcs[t := Out] == s.pcs;
    Nothing(s);
    hide Enabling, ExecAll;
    After(p2, NoPost(t), s, []);
    After(p1, LockPost(t), p2, [NoPost(t)] + []);
    After(s, CallPost(t), p1, [LockPost(t)] + ([NoPost(t)] + []));
    if s.tokens == 0 {
      After(t2, Expire(t), s, []);
      After(t1, LockTake(t), t2, [Expire(t)] + []);
      After(s, CallTake(t), t1, [LockTake(t)] + ([Expire(t)] + []));
    }
  }
}
