/** The GPU scavenger and one worker of a scavenge stage (src/pipe/scavenge.py:
    _scavenger_thread, _park_worker, _keep_acked_park; src/pipe/workers.py:
    _maybe_park, _scavenge_hold_wait). They share two words, `park` and `hold`,
    and take turns in any order, one access to them at a time. What nvidia-smi,
    cuda-checkpoint and the stage's hooks answer is arbitrary. */
module Scavenger {
  // park: 0 run, 1 park requested, 2 parked, 3 refused.
  type Park = n: nat | n <= 3

  datatype Worker =
    | Held       // before load(), until hold is clear
    | Running
    | Parking    // saw a request; on_park() is at work
    | Waiting    // acked; until park is no longer 2

  datatype Poller =
    | Between
    | Holding      // hold is set, park about to be requested
    | Requested    // watching park
    | Withdrawing  // refused or timed out: about to clear park
    | Fallback(asked: bool)  // about to checkpoint; whether it asked for a park first

  // `late` is a history variable: the worker answered when no request stood.
  datatype State = State(
    park: Park, hold: bool, worker: Worker, poller: Poller,
    parked: bool, frozen: bool, streak: nat, late: bool)

  datatype Action =
    | Load | See | Ack | Refuse | Resume                      // the worker
    | NoSmi | Foreign(canPark: bool) | Request                // the poller
    | Confirm(residual: bool) | Refused | TimeOut | Withdraw
    | Checkpoint(used: bool, hazard: bool, works: bool)
    | Free(thaws: bool)

  predicate Enabled(s: State, a: Action) {
    match a
    case Load => s.worker.Held? && !s.hold
    case See => s.worker.Running? && s.park == 1
    case Ack => s.worker.Parking?
    case Refuse => s.worker.Parking?
    case Resume => s.worker.Waiting? && s.park != 2
    case NoSmi => s.poller.Between?
    case Foreign(_) => s.poller.Between?
    case Request => s.poller.Holding?
    case Confirm(_) => s.poller.Requested? && s.park == 2
    case Refused => s.poller.Requested? && s.park == 3
    case TimeOut => s.poller.Requested? && s.park != 2
    case Withdraw => s.poller.Withdrawing?
    // Only a process that uses GPU memory is asked to park.
    case Checkpoint(used, _, _) => s.poller.Fallback? && (s.poller.asked ==> used)
    case Free(_) => s.poller.Between?
  }

  // A worker that acked but could not be checkpointed is tracked as parked.
  function KeepAckedPark(s: State): State {
    s.(parked := s.parked || s.park == 2, poller := Between)
  }

  function Exec(s: State, a: Action, need: nat): State
    requires Enabled(s, a)
  {
    match a
    case Load => s.(worker := Running)
    case See => s.(worker := Parking)
    case Ack => s.(park := 2, worker := Waiting, late := s.late || s.park != 1)
    case Refuse => s.(park := 3, worker := Running, late := s.late || s.park != 1)
    case Resume => s.(worker := Running)
    case NoSmi => s
    case Foreign(canPark) =>
      if s.frozen || s.parked then s.(streak := 0)
      else if canPark then s.(streak := 0, hold := true, poller := Holding)
      else s.(streak := 0, poller := Fallback(false))
    case Request => s.(park := 1, poller := Requested)
    case Confirm(residual) =>
      if residual then s.(poller := Fallback(true)) else s.(parked := true, poller := Between)
    case Refused => s.(poller := Withdrawing)
    case TimeOut => s.(poller := Withdrawing)
    case Withdraw => s.(park := 0, poller := Fallback(true))
    case Checkpoint(used, hazard, works) =>
      if hazard then KeepAckedPark(s)
      else if !used then s.(hold := true, poller := Between)
      else if works then s.(hold := true, frozen := true, poller := Between)
      else KeepAckedPark(s.(hold := true))
    case Free(thaws) =>
      var f := s.(streak := s.streak + 1);
      if f.streak < need then f
      else if f.parked then f.(park := 0, parked := false, hold := false)
      else if f.frozen then
        if thaws then f.(frozen := false, park := if f.park == 2 then 0 else f.park, hold := false) else f
      else f.(hold := false)
  }

  ghost predicate Enabling(s: State, run: seq<Action>, need: nat)
    decreases |run|
  {
    run == [] || (Enabled(s, run[0]) && Enabling(Exec(s, run[0], need), run[1..], need))
  }

  function ExecAll(s: State, run: seq<Action>, need: nat): State
    requires Enabling(s, run, need)
    decreases |run|
  {
    if run == [] then s else ExecAll(Exec(s, run[0], need), run[1..], need)
  }

  // A worker starts held if its GPU was claimed at spawn time.
  predicate Initial(s: State) {
    s == State(0, s.hold, if s.hold then Held else Running, Between, false, false, 0, false)
  }

  // ---------- no worker is stranded ----------

  // What each point of a poll knows, as long as no answer came late.
  predicate Tracked(s: State) {
    match s.poller
    case Between => (s.park == 0 || s.park == 2) && (s.park == 2 ==> s.parked || s.frozen)
    case Holding => s.park == 0 && !s.parked && !s.frozen
    case Requested => s.park != 0 && !s.parked && !s.frozen
    case Withdrawing => s.park != 0 && !s.parked && !s.frozen
    case Fallback(asked) => (s.park == 0 || (asked && s.park == 2)) && !s.parked && !s.frozen
  }

  predicate Inv(s: State) {
    && (s.parked ==> s.park == 2)
    && !(s.parked && s.frozen)
    && (s.park == 2 ==> s.worker.Waiting?)
    && Tracked(s)
  }

  lemma StepKeepsInv(s: State, a: Action, need: nat)
    requires Inv(s) && Enabled(s, a) && !Exec(s, a, need).late
    ensures Inv(Exec(s, a, need))
  {
  }

  lemma {:induction false} LateStays(s: State, run: seq<Action>, need: nat)
    requires Enabling(s, run, need) && s.late
    ensures ExecAll(s, run, need).late
    decreases |run|
  {
    if run != [] {
      LateStays(Exec(s, run[0], need), run[1..], need);
    }
  }

  lemma {:induction false} RunKeepsInv(s: State, run: seq<Action>, need: nat)
    requires Inv(s) && Enabling(s, run, need) && !ExecAll(s, run, need).late
    ensures Inv(ExecAll(s, run, need))
    decreases |run|
  {
    hide Inv, Enabled, Exec;
    if run != [] {
      var n := Exec(s, run[0], need);
      if n.late {
        LateStays(n, run[1..], need);
      } else {
        StepKeepsInv(s, run[0], need);
        RunKeepsInv(n, run[1..], need);
      }
    }
  }

  // Between polls park is 0 or 2, and it is 2 exactly of a worker that waits and
  // that the poller knows it has to release.
  lemma NeverStranded(s: State, run: seq<Action>, need: nat)
    requires Initial(s) && Enabling(s, run, need)
    requires var n := ExecAll(s, run, need); n.poller.Between? && !n.late
    ensures var n := ExecAll(s, run, need);
            && (n.park == 0 || n.park == 2)
            && (n.park == 2 ==> n.worker.Waiting? && (n.parked || n.frozen))
            && (n.parked ==> n.park == 2)
  {
    hide Enabled, Exec;
    RunKeepsInv(s, run, need);
  }

  // No foreign process shows up, and a restore that is tried succeeds.
  predicate Quiet(a: Action) {
    !a.Foreign? && (a.Free? ==> a.thaws)
  }

  predicate AllQuiet(run: seq<Action>) {
    forall i :: 0 <= i < |run| ==> Quiet(run[i])
  }

  function FreePolls(run: seq<Action>): nat {
    if run == [] then 0 else (if run[0].Free? then 1 else 0) + FreePolls(run[1..])
  }

  predicate Released(s: State) {
    s.park == 0 && !s.hold && !s.parked && !s.frozen
  }

  lemma {:induction false} StaysReleased(s: State, run: seq<Action>, need: nat)
    requires Inv(s) && s.poller.Between? && Released(s) && AllQuiet(run)
    requires Enabling(s, run, need) && !ExecAll(s, run, need).late
    ensures Released(ExecAll(s, run, need))
    decreases |run|
  {
    if run != [] {
      var n := Exec(s, run[0], need);
      if n.late {
        LateStays(n, run[1..], need);
      } else {
        assert Quiet(run[0]) && AllQuiet(run[1..]);
        StaysReleased(n, run[1..], need);
      }
    }
  }

  // Enough foreign-free polls in a row release the worker, whatever it and the
  // unreadable polls do in between.
  lemma {:induction false} FreePollsRelease(s: State, run: seq<Action>, need: nat)
    requires Inv(s) && s.poller.Between? && AllQuiet(run)
    requires Enabling(s, run, need) && !ExecAll(s, run, need).late
    requires FreePolls(run) > 0 && s.streak + FreePolls(run) >= need
    ensures Released(ExecAll(s, run, need))
    decreases |run|
  {
    var n := Exec(s, run[0], need);
    if n.late {
      LateStays(n, run[1..], need);
    } else {
      StepKeepsInv(s, run[0], need);
      assert Quiet(run[0]) && AllQuiet(run[1..]);
      if run[0].Free? && s.streak + 1 >= need {
        StaysReleased(n, run[1..], need);
      } else {
        FreePollsRelease(n, run[1..], need);
      }
    }
  }

  // ---------- and not before ----------

  // How many foreign-free polls a run ends with since a foreign process was last
  // seen, whatever else happens between them.
  function FreeAtEnd(run: seq<Action>): nat {
    if run == [] || run[|run| - 1].Foreign? then 0
    else FreeAtEnd(run[..|run| - 1]) + if run[|run| - 1].Free? then 1 else 0
  }

  lemma {:induction false} Append(s: State, run: seq<Action>, a: Action, need: nat)
    requires Enabling(s, run + [a], need)
    ensures Enabling(s, run, need) && Enabled(ExecAll(s, run, need), a)
    ensures ExecAll(s, run + [a], need) == Exec(ExecAll(s, run, need), a, need)
    decreases |run|
  {
    hide Exec, Enabled;
    assert (run + [a])[0] == if run == [] then a else run[0];
    if run == [] {
      assert (run + [a])[1..] == [];
    } else {
      assert (run + [a])[1..] == run[1..] + [a];
      Append(Exec(s, run[0], need), run[1..], a, need);
    }
  }

  // The poller's count is that number.
  lemma {:induction false} StreakCounts(s: State, run: seq<Action>, need: nat)
    requires Initial(s) && Enabling(s, run, need)
    ensures ExecAll(s, run, need).streak == FreeAtEnd(run)
    decreases |run|
  {
    if run != [] {
      hide Enabling, ExecAll, Enabled, Exec, Initial;
      var before, a := run[..|run| - 1], run[|run| - 1];
      assert run == before + [a];
      Append(s, before, a, need);
      StreakCounts(s, before, need);
      StreakStep(ExecAll(s, before, need), a, need);
    }
  }

  lemma StreakStep(s: State, a: Action, need: nat)
    requires Enabled(s, a)
    ensures Exec(s, a, need).streak == if a.Foreign? then 0 else s.streak + if a.Free? then 1 else 0
  {
  }

  // A worker, or its slot, is let go: what holds it is cleared.
  predicate LetsGo(s: State, n: State) {
    || (s.parked && !n.parked) || (s.frozen && !n.frozen) || (s.hold && !n.hold)
    || (s.poller.Between? && (s.parked || s.frozen) && s.park == 2 && n.park != 2)
  }

  // No step but a foreign-free poll lets go, and that only if the run up to it has
  // `need` of them with no foreign process since the first.
  lemma ReleasesOnlyAfter(s: State, run: seq<Action>, a: Action, need: nat)
    requires Initial(s) && Enabling(s, run, need) && Enabling(s, run + [a], need)
    requires LetsGo(ExecAll(s, run, need), ExecAll(s, run + [a], need))
    ensures a.Free? && FreeAtEnd(run + [a]) >= need
  {
    Append(s, run, a, need);
    StreakCounts(s, run + [a], need);
    InitialSound(s);
    RunKeepsSound(s, run, need);
    hide Enabling, ExecAll, FreeAtEnd;
  }

  lemma {:induction false} RunKeepsSound(s: State, run: seq<Action>, need: nat)
    requires Sound(s) && Enabling(s, run, need)
    ensures Sound(ExecAll(s, run, need))
    decreases |run|
  {
    hide Sound, Enabled, Exec;
    if run != [] {
      StepKeepsSound(s, run[0], need);
      RunKeepsSound(Exec(s, run[0], need), run[1..], need);
    }
  }

  // So while no stretch without a foreign process has `need` free polls, nobody is
  // released: what is parked, frozen or held stays so.
  lemma {:induction false} FewPollsReleaseNobody(s: State, before: seq<Action>, run: seq<Action>, need: nat)
    requires Initial(s) && Enabling(s, before + run, need) && Enabling(s, before, need)
    requires forall k :: 0 <= k <= |run| ==> FreeAtEnd(before + run[..k]) < need
    ensures var m, n := ExecAll(s, before, need), ExecAll(s, before + run, need);
      && (m.parked ==> n.parked) && (m.frozen ==> n.frozen) && (m.hold ==> n.hold)
      && (m.poller.Between? && (m.parked || m.frozen) && m.park == 2 ==> n.park == 2 && n.poller.Between?)
    decreases |run|
  {
    if run == [] {
      assert before + run == before;
    } else {
      var more, a := run[..|run| - 1], run[|run| - 1];
      assert before + run == (before + more) + [a] && run[..|run|] == run;
      Append(s, before + more, a, need);
      assert forall k :: 0 <= k <= |more| ==> more[..k] == run[..k];
      FewPollsReleaseNobody(s, before, more, need);
      hide Enabling, ExecAll, FreeAtEnd;
      if LetsGo(ExecAll(s, before + more, need), ExecAll(s, before + run, need)) {
        ReleasesOnlyAfter(s, before + more, a, need);
      }
    }
  }

  // Nor does a worker that waits for its GPU get on before: one held at its start,
  // or one that parked.
  lemma {:induction false} FewPollsKeepWaiting(s: State, before: seq<Action>, run: seq<Action>, need: nat)
    requires Initial(s) && Enabling(s, before + run, need) && Enabling(s, before, need)
    requires forall k :: 0 <= k <= |run| ==> FreeAtEnd(before + run[..k]) < need
    ensures var m, n := ExecAll(s, before, need), ExecAll(s, before + run, need);
      && (m.worker.Held? && m.hold ==> n.worker.Held? && n.hold)
      && (m.poller.Between? && (m.parked || m.frozen) && m.park == 2 && m.worker.Waiting? ==> n.worker.Waiting?)
    decreases |run|
  {
    if run == [] {
      assert before + run == before;
    } else {
      var more, a := run[..|run| - 1], run[|run| - 1];
      assert before + run == (before + more) + [a];
      Append(s, before + more, a, need);
      assert forall k :: 0 <= k <= |more| ==> more[..k] == run[..k];
      FewPollsKeepWaiting(s, before, more, need);
      FewPollsReleaseNobody(s, before, more, need);
      FewPollsReleaseNobody(s, before, run, need);
      hide Enabling, ExecAll, FreeAtEnd;
    }
  }

  // A worker that is never asked never parks.
  lemma {:induction false} UnaskedNeverParks(s: State, run: seq<Action>, need: nat)
    requires Initial(s) && Enabling(s, run, need) && forall a :: a in run ==> !a.Request?
    ensures var n := ExecAll(s, run, need); (n.worker.Held? || n.worker.Running?) && n.park == 0
    decreases |run|
  {
    if run != [] {
      var before, a := run[..|run| - 1], run[|run| - 1];
      assert run == before + [a];
      Append(s, before, a, need);
      UnaskedNeverParks(s, before, need);
      UnaskedStep(s, before, a, need);
    }
  }

  lemma UnaskedStep(s: State, before: seq<Action>, a: Action, need: nat)
    requires Initial(s) && Enabling(s, before, need) && Enabled(ExecAll(s, before, need), a) && !a.Request?
    requires var m := ExecAll(s, before, need); (m.worker.Held? || m.worker.Running?) && m.park == 0
    ensures var n := Exec(ExecAll(s, before, need), a, need); (n.worker.Held? || n.worker.Running?) && n.park == 0
  {
    hide Enabling, ExecAll;
  }

  // A released worker goes on.
  lemma ReleasedRuns(s: State, need: nat) returns (run: seq<Action>)
    requires Released(s) && !s.worker.Parking?
    ensures Enabling(s, run, need) && ExecAll(s, run, need) == s.(worker := Running)
  {
    match s.worker {
      case Held => run := [Load];
      case Waiting => run := [Resume];
      case Running => run := [];
    }
    assert run != [] ==> run[1..] == [];
  }

  // ---------- what a claimed GPU comes to ----------

  // From a foreign process seen to the end of the poll: the worker is held from
  // the start if it was asked to park, and it is being asked, or is not.
  predicate MidPoll(s: State, canPark: bool) {
    && !s.poller.Between? && (canPark ==> s.hold && s.poller != Fallback(false)) && (!canPark ==> s.poller == Fallback(false))
    && !s.parked && !s.frozen
  }

  lemma PollStep(s: State, a: Action, canPark: bool, need: nat)
    requires MidPoll(s, canPark) && Enabled(s, a)
    ensures var n := Exec(s, a, need);
      if n.poller.Between? then PollEnds(s, a, n) else MidPoll(n, canPark)
  {
  }

  // The poll ends with the worker parked, all its memory free; or frozen; or, if it
  // cannot be checkpointed or has no memory to free, with what is left to do: held
  // unless there was a hazard, and known to be parked if it had acked.
  predicate PollEnds(s: State, a: Action, n: State) {
    || (a == Confirm(false) && n.parked && n.park == 2 && n.hold == s.hold)
    || (a.Checkpoint? && (n.frozen <==> a.used && !a.hazard && a.works) && (a.hazard || n.hold)
        && (n.parked <==> s.park == 2 && !n.frozen && (a.hazard || a.used)))
  }

  lemma {:induction false} MidPollEnds(s: State, run: seq<Action>, canPark: bool, need: nat)
    requires MidPoll(s, canPark) && run != [] && Enabling(s, run, need) && Enabling(s, run[..|run| - 1], need)
    requires ExecAll(s, run, need).poller.Between?
    requires forall k :: 0 <= k < |run| && Enabling(s, run[..k], need) ==> !ExecAll(s, run[..k], need).poller.Between?
    ensures PollEnds(ExecAll(s, run[..|run| - 1], need), run[|run| - 1], ExecAll(s, run, need))
  {
    var before, a := run[..|run| - 1], run[|run| - 1];
    assert run == before + [a];
    Append(s, before, a, need);
    StaysMidPoll(s, before, run, canPark, need);
    hide Enabling, ExecAll, PollEnds;
    PollStep(ExecAll(s, before, need), a, canPark, need);
  }

  lemma {:induction false} StaysMidPoll(s: State, before: seq<Action>, run: seq<Action>, canPark: bool, need: nat)
    requires MidPoll(s, canPark) && before <= run && before != run && Enabling(s, before, need)
    requires forall k :: 0 <= k < |run| && Enabling(s, run[..k], need) ==> !ExecAll(s, run[..k], need).poller.Between?
    ensures MidPoll(ExecAll(s, before, need), canPark)
    decreases |before|
  {
    if before != [] {
      var less, a := before[..|before| - 1], before[|before| - 1];
      assert before == less + [a] && run[..|before|] == before;
      Append(s, less, a, need);
      StaysMidPoll(s, less, run, canPark, need);
      hide Enabling, ExecAll, PollEnds;
      PollStep(ExecAll(s, less, need), a, canPark, need);
    }
  }

  // However the worker and the poller take turns, a poll that finds a foreign
  // process and the worker neither parked nor frozen ends so; the streak of free
  // polls is over at once.
  lemma ForeignPollEnds(s: State, run: seq<Action>, canPark: bool, need: nat)
    requires s.poller.Between? && !s.parked && !s.frozen && |run| > 1 && run[0] == Foreign(canPark)
    requires Enabling(s, run, need) && Enabling(s, run[..|run| - 1], need) && ExecAll(s, run, need).poller.Between?
    requires forall k :: 0 < k < |run| && Enabling(s, run[..k], need) ==> !ExecAll(s, run[..k], need).poller.Between?
    ensures Exec(s, run[0], need).streak == 0
    ensures PollEnds(ExecAll(s, run[..|run| - 1], need), run[|run| - 1], ExecAll(s, run, need))
  {
    var n, rest := Exec(s, run[0], need), run[1..];
    assert MidPoll(n, canPark);
    forall k | 0 <= k < |rest| && Enabling(n, rest[..k], need)
      ensures !ExecAll(n, rest[..k], need).poller.Between?
    {
      assert run[..k + 1][1..] == rest[..k];
      assert Enabling(s, run[..k + 1], need);
    }
    assert run[..|run| - 1][1..] == rest[..|rest| - 1];
    hide PollEnds, Exec, MidPoll;
    MidPollEnds(n, rest, canPark, need);
  }

  // A worker that refuses to park goes on, and the poller clears its request and
  // turns to the checkpoint.
  lemma RefusalIsTaken(s: State, need: nat)
    requires s.poller.Requested? && s.park == 1 && s.worker.Parking?
    ensures var run := [Refuse, Refused, Withdraw];
      Enabling(s, run, need) && ExecAll(s, run, need) == s.(park := 0, worker := Running, poller := Fallback(true))
  {
    var run := [Refuse, Refused, Withdraw];
    assert run[1..] == [Refused, Withdraw] && run[1..][1..] == [Withdraw] && run[1..][1..][1..] == [];
  }

  // ---------- the race the assumption shuts out ----------

  // The worker waits for a release nobody thinks it needs.
  predicate Stranded(s: State) {
    s.poller.Between? && s.worker.Waiting? && s.park == 2 && !s.parked && !s.frozen
  }

  lemma Prepend(s: State, a: Action, m: State, run: seq<Action>, need: nat)
    requires Enabled(s, a) && Exec(s, a, need) == m && Enabling(m, run, need)
    ensures Enabling(s, [a] + run, need) && ExecAll(s, [a] + run, need) == ExecAll(m, run, need)
  {
    hide Enabled, Exec;
    assert ([a] + run)[1..] == run;
  }

  // An ack that comes after its request timed out strands the worker.
  lemma LateAckStrands(need: nat) returns (run: seq<Action>)
    ensures var s := State(0, false, Running, Between, false, false, 0, false);
            Initial(s) && Enabling(s, run, need) && Stranded(ExecAll(s, run, need))
  {
    hide Enabling, ExecAll;
    var s0 := State(0, false, Running, Between, false, false, 0, false);
    var s1 := State(0, true, Running, Holding, false, false, 0, false);
    var s2 := State(1, true, Running, Requested, false, false, 0, false);
    var s3 := State(1, true, Parking, Requested, false, false, 0, false);
    var s4 := State(1, true, Parking, Withdrawing, false, false, 0, false);
    var s5 := State(0, true, Parking, Fallback(true), false, false, 0, false);
    var s6 := State(0, true, Parking, Between, false, false, 0, false);
    var s7 := State(2, true, Waiting, Between, false, false, 0, true);
    NoSteps(s7, need);
    Prepend(s6, Ack, s7, [], need);
    run := [Ack] + [];
    Prepend(s5, Checkpoint(true, true, false), s6, run, need);
    run := [Checkpoint(true, true, false)] + run;
    Prepend(s4, Withdraw, s5, run, need);
    run := [Withdraw] + run;
    Prepend(s3, TimeOut, s4, run, need);
    run := [TimeOut] + run;
    Prepend(s2, See, s3, run, need);
    run := [See] + run;
    Prepend(s1, Request, s2, run, need);
    run := [Request] + run;
    Prepend(s0, Foreign(true), s1, run, need);
    run := [Foreign(true)] + run;
  }

  lemma NoSteps(s: State, need: nat)
    ensures Enabling(s, [], need) && ExecAll(s, [], need) == s
  {
  }

  // It stays so through any number of foreign-free polls.
  lemma {:induction false} StrandedStays(s: State, run: seq<Action>, need: nat)
    requires Stranded(s) && AllQuiet(run) && Enabling(s, run, need)
    ensures Stranded(ExecAll(s, run, need))
    decreases |run|
  {
    if run != [] {
      assert Quiet(run[0]) && AllQuiet(run[1..]);
      StrandedStays(Exec(s, run[0], need), run[1..], need);
    }
  }

  // ---------- exactly when ----------

  // Holds at every point of every run, late answers included.
  predicate Sound(s: State) {
    && (s.parked ==> s.park == 2)
    && !(s.parked && s.frozen)
    && (s.park == 2 ==> s.worker.Waiting?)
    && (!s.poller.Between? ==> !s.parked && !s.frozen)
    && (s.park == 1 ==> s.poller.Requested? || s.poller.Withdrawing?)
  }

  // The worker acks between polls, unasked and not frozen; or the poller gives
  // up, without looking at park, on a worker it did not ask and that has acked.
  predicate Strands(s: State, a: Action) {
    || (a.Ack? && s.poller.Between? && !s.frozen)
    || (a.Checkpoint? && !a.used && !a.hazard && s.park == 2)
  }

  lemma StepKeepsSound(s: State, a: Action, need: nat)
    requires Sound(s) && Enabled(s, a)
    ensures Sound(Exec(s, a, need))
  {
  }

  // Exactly those steps strand a worker.
  lemma StrandsExactly(s: State, a: Action, need: nat)
    requires Sound(s) && Enabled(s, a) && !Stranded(s)
    ensures Stranded(Exec(s, a, need)) <==> Strands(s, a)
    ensures a.Ack? && Strands(s, a) ==> s.park != 1
  {
    if a.Ack? {
      assert !s.worker.Waiting?;
    }
  }

  ghost predicate NeverStrands(s: State, run: seq<Action>, need: nat)
    requires Enabling(s, run, need)
    decreases |run|
  {
    run == [] || (!Strands(s, run[0]) && NeverStrands(Exec(s, run[0], need), run[1..], need))
  }

  // Some state along the run has the worker stranded.
  ghost predicate SomewhereStranded(s: State, run: seq<Action>, need: nat)
    requires Enabling(s, run, need)
    decreases |run|
  {
    Stranded(s) || (run != [] && SomewhereStranded(Exec(s, run[0], need), run[1..], need))
  }

  lemma {:induction false} StrandedFrom(s: State, run: seq<Action>, need: nat)
    requires Sound(s) && !Stranded(s) && Enabling(s, run, need)
    ensures SomewhereStranded(s, run, need) <==> !NeverStrands(s, run, need)
    decreases |run|
  {
    hide Enabled, Exec, Sound, Strands;
    if run != [] {
      var n := Exec(s, run[0], need);
      StepKeepsSound(s, run[0], need);
      StrandsExactly(s, run[0], need);
      if !Stranded(n) {
        StrandedFrom(n, run[1..], need);
      }
    }
  }

  lemma InitialSound(s: State)
    requires Initial(s)
    ensures Sound(s) && !Stranded(s)
  {
  }

  /** Over every run, a worker is stranded at some point if and only if one of
      those steps was taken. */
  lemma StrandedExactly(s: State, run: seq<Action>, need: nat)
    requires Initial(s) && Enabling(s, run, need)
    ensures SomewhereStranded(s, run, need) <==> !NeverStrands(s, run, need)
  {
    InitialSound(s);
    StrandedFrom(s, run, need);
  }
}
