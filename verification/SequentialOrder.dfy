/** The order of a run of the single-process runner (module Sequential), with
    pushes back: what its turns do is said here of the log they leave, event by
    event, without following the list of pending entries. */
module SequentialOrder {
  import opened Flow
  import opened Sequential

  // What an event appends to the list.
  function Added(p: Program, e: Event): seq<Entry> {
    match e
    case Root(k) => At(1, RootItems(Scripted(p, k)))
    case Pop(s, b) =>
      if s >= p.n then []
      else if s in p.runs then Pulled(p, s, b, BatchSize(p, s))
      else After(p, s, b)
  }

  function Appended(p: Program, log: seq<Event>): seq<Entry> {
    if log == [] then [] else Added(p, log[0]) + Appended(p, log[1..])
  }

  function Roots(log: seq<Event>): nat {
    if log == [] then 0 else (if log[0].Root? then 1 else 0) + Roots(log[1..])
  }

  // Without the first such entry.
  function Without(es: seq<Entry>, e: Entry): seq<Entry> {
    if es == [] then [] else if es[0] == e then es[1..] else [es[0]] + Without(es[1..], e)
  }

  // What is left of what was appended when so much has been popped.
  function Waiting(es: seq<Entry>, pops: seq<Entry>): seq<Entry>
    decreases |pops|
  {
    if pops == [] then es else Waiting(Without(es, pops[0]), pops[1..])
  }

  predicate Found(es: seq<Entry>, pops: seq<Entry>)
    decreases |pops|
  {
    pops == [] || (pops[0] in es && Found(Without(es, pops[0]), pops[1..]))
  }

  // A batch is what waits longest, whatever its stage: one entry that is yielded;
  // for a run() stage all its entries; else those of its stage right behind it, as
  // many as there are up to the batch size.
  predicate TakesFront(p: Program, w: seq<Entry>, s: nat, b: seq<Item>) {
    && w != [] && b != [] && w[0] == (s, b[0])
    && if s >= p.n then |b| == 1
       else if s in p.runs then b == Level(w, s)
       else
         && |b| <= |w| && |b| <= BatchSize(p, s) && w[..|b|] == At(s, b)
         && (|b| < BatchSize(p, s) && |b| < |w| ==> w[|b|].0 != s)
  }

  // The source has ended with r root calls from the k-th on.
  predicate Ended(p: Program, k: nat, ended: bool, r: nat) {
    ended || exists j :: k <= j < k + r && RootEnds(Scripted(p, j))
  }

  lemma EndedLater(p: Program, k: nat, r: nat)
    ensures Ended(p, k, false, r + 1) <==> Ended(p, k + 1, RootEnds(Scripted(p, k)), r)
  {
    if RootEnds(Scripted(p, k)) {
      assert Ended(p, k, false, r + 1);
    }
  }

  predicate AfterPop(log: seq<Event>, i: nat, first: bool)
    requires i < |log|
  {
    if i == 0 then first else log[i - 1].Pop?
  }

  // The root's calls are numbered on and stop at its end, and one follows another
  // only when nothing waits; a pop takes the front of what waits, and follows
  // another only when the source has ended. `first` says whether the log itself
  // follows a pop.
  predicate Lawful(p: Program, es: seq<Entry>, k: nat, ended: bool, first: bool, log: seq<Event>, i: nat)
    requires i < |log|
  {
    var w, r := Waiting(es + Appended(p, log[..i]), Pops(log[..i])), Roots(log[..i]);
    match log[i]
    case Root(j) => j == k + r && !Ended(p, k, ended, r) && (!AfterPop(log, i, first) ==> w == [])
    case Pop(s, b) => TakesFront(p, w, s, b) && (AfterPop(log, i, first) ==> Ended(p, k, ended, r))
  }

  // ---------- what waits ----------

  lemma {:induction false} WaitingConcat(es: seq<Entry>, a: seq<Entry>, b: seq<Entry>)
    ensures Waiting(es, a + b) == Waiting(Waiting(es, a), b)
    decreases |a|
  {
    if a == [] {
      assert a + b == b;
    } else {
      assert (a + b)[1..] == a[1..] + b;
      WaitingConcat(Without(es, a[0]), a[1..], b);
    }
  }

  lemma {:induction false} WithoutAppend(es: seq<Entry>, more: seq<Entry>, e: Entry)
    requires e in es
    ensures Without(es + more, e) == Without(es, e) + more
  {
    assert (es + more)[0] == es[0] && (es + more)[1..] == es[1..] + more;
    if es[0] != e {
      WithoutAppend(es[1..], more, e);
    }
  }

  lemma {:induction false} WaitingAppend(es: seq<Entry>, more: seq<Entry>, pops: seq<Entry>)
    requires Found(es, pops)
    ensures Waiting(es + more, pops) == Waiting(es, pops) + more
    decreases |pops|
  {
    if pops != [] {
      WithoutAppend(es, more, pops[0]);
      WaitingAppend(Without(es, pops[0]), more, pops[1..]);
    }
  }

  lemma {:induction false} FrontGoes(s: nat, b: seq<Item>, rest: seq<Entry>)
    ensures Found(At(s, b) + rest, At(s, b)) && Waiting(At(s, b) + rest, At(s, b)) == rest
  {
    if b == [] {
      assert At(s, b) + rest == rest;
    } else {
      assert (At(s, b) + rest)[1..] == At(s, b[1..]) + rest && At(s, b)[1..] == At(s, b[1..]);
      FrontGoes(s, b[1..], rest);
    }
  }

  lemma {:induction false} OtherStays(o: Entry, es: seq<Entry>, s: nat, xs: seq<Item>)
    requires o.0 != s && Found(es, At(s, xs))
    ensures Found([o] + es, At(s, xs)) && Waiting([o] + es, At(s, xs)) == [o] + Waiting(es, At(s, xs))
    decreases |xs|
  {
    if xs != [] {
      assert ([o] + es)[1..] == es && At(s, xs)[1..] == At(s, xs[1..]);
      OtherStays(o, Without(es, (s, xs[0])), s, xs[1..]);
    }
  }

  lemma {:induction false} StageGoes(es: seq<Entry>, s: nat)
    ensures Found(es, At(s, Level(es, s))) && Waiting(es, At(s, Level(es, s))) == Others(es, s)
  {
    if es != [] {
      StageGoes(es[1..], s);
      if es[0].0 == s {
        assert At(s, Level(es, s))[1..] == At(s, Level(es[1..], s));
      } else {
        assert es == [es[0]] + es[1..];
        OtherStays(es[0], es[1..], s, Level(es[1..], s));
      }
    }
  }

  // A pop takes the front, and what it adds joins what waits behind.
  lemma PopWaits(p: Program, es: seq<Entry>)
    requires es != []
    ensures var s, b := es[0].0, Popped(p, es);
      && TakesFront(p, es, s, b) && Found(es, At(s, b))
      && Waiting(es, At(s, b)) + Added(p, Pop(s, b)) == Remaining(p, es)
  {
    hide Pulled, After;
    var s, b := es[0].0, Popped(p, es);
    if s >= p.n {
      assert es == At(s, b) + es[1..];
      FrontGoes(s, b, es[1..]);
    } else if s in p.runs {
      StageGoes(es, s);
    } else {
      FrontOf(es, s, BatchSize(p, s));
      FrontGoes(s, b, es[|b|..]);
      assert es[..|b|] == At(s, b);
    }
  }

  // ---------- logs ----------

  lemma {:induction false} AppendedConcat(p: Program, a: seq<Event>, b: seq<Event>)
    ensures Appended(p, a + b) == Appended(p, a) + Appended(p, b) && Roots(a + b) == Roots(a) + Roots(b)
  {
    hide Added;
    if a == [] {
      assert a + b == b;
    } else {
      assert (a + b)[1..] == a[1..] + b;
      AppendedConcat(p, a[1..], b);
    }
  }

  // The list an event leaves.
  predicate Leaves(p: Program, es: seq<Entry>, e: Event, next: seq<Entry>) {
    match e
    case Root(_) => next == es + Added(p, e)
    case Pop(s, b) => Found(es, At(s, b)) && next == Waiting(es, At(s, b)) + Added(p, e)
  }

  // What waits after one event and then more is what waits after more, from the
  // list the event leaves on.
  lemma WaitingLater(p: Program, es: seq<Entry>, e: Event, more: seq<Event>, next: seq<Entry>)
    requires Leaves(p, es, e, next)
    ensures Waiting(es + Appended(p, [e] + more), Pops([e] + more)) == Waiting(next + Appended(p, more), Pops(more))
    ensures Roots([e] + more) == (if e.Root? then 1 else 0) + Roots(more)
  {
    hide Added, Waiting, Found;
    assert ([e] + more)[1..] == more;
    var rest := Added(p, e) + Appended(p, more);
    assert Appended(p, [e] + more) == rest;
    if e.Pop? {
      assert Pops([e] + more) == At(e.s, e.b) + Pops(more);
      WaitingConcat(es + rest, At(e.s, e.b), Pops(more));
      WaitingAppend(es, rest, At(e.s, e.b));
      assert Waiting(es, At(e.s, e.b)) + rest == next + Appended(p, more);
    } else {
      assert Pops([e] + more) == Pops(more);
      assert es + rest == next + Appended(p, more);
    }
  }

  // So a law of the later events is one of the whole log.
  lemma LawLater(p: Program, es: seq<Entry>, k: nat, ended: bool, first: bool, e: Event, next: seq<Entry>,
                 log: seq<Event>, i: nat)
    requires Leaves(p, es, e, next) && (e.Root? ==> !ended) && i < |log|
    requires var k1, ended1 := if e.Root? then k + 1 else k, if e.Root? then RootEnds(Scripted(p, k)) else ended;
      Lawful(p, next, k1, ended1, e.Pop?, log, i)
    ensures Lawful(p, es, k, ended, first, [e] + log, i + 1)
  {
    hide Leaves, Waiting, Appended, Pops, Roots, TakesFront, RootEnds, Scripted;
    assert ([e] + log)[..i + 1] == [e] + log[..i] && ([e] + log)[i + 1] == log[i];
    assert ([e] + log)[i] == if i > 0 then log[i - 1] else e;
    EndedLater(p, k, Roots(log[..i]));
    hide Ended;
    WaitingLater(p, es, e, log[..i], next);
  }

  lemma NothingYet(p: Program, es: seq<Entry>)
    ensures Waiting(es + Appended(p, []), Pops([])) == es && Roots([]) == 0
  {
    assert es + [] == es;
  }

  // The first event of a turn.
  lemma FirstIsLawful(p: Program, es: seq<Entry>, k: nat, ended: bool, first: bool, log: seq<Event>)
    requires log != []
    requires log[0].Root? ==> log[0] == Root(k) && !ended && (first || es == [])
    requires log[0].Pop? ==> es != [] && log[0] == Pop(es[0].0, Popped(p, es)) && (ended || !first)
    ensures Lawful(p, es, k, ended, first, log, 0)
  {
    hide Waiting, Appended, Pops, Roots, TakesFront, Popped, Found, Remaining, Added;
    assert log[..0] == [];
    NothingYet(p, es);
    if log[0].Pop? {
      PopWaits(p, es);
    }
  }

  lemma PopLeaves(p: Program, es: seq<Entry>)
    requires es != []
    ensures Leaves(p, es, Pop(es[0].0, Popped(p, es)), Remaining(p, es))
  {
    hide Popped, Remaining, Found, Waiting, Added, TakesFront;
    PopWaits(p, es);
  }

  /** Every event of a run, pushes back and all, keeps the laws of turns. */
  lemma {:induction false} TurnsAreLawful(p: Program, es: seq<Entry>, k: nat, ended: bool, first: bool, i: nat)
    requires Good(p) && Placed(p, es) && (ended || k <= |p.script|) && (ended || first || es == [])
    requires i < |Turns(p, es, k, ended)|
    ensures Lawful(p, es, k, ended, first, Turns(p, es, k, ended), i)
    decreases i
  {
    hide Good, Placed, Turns, Leaves, Lawful, Remaining, Popped, RootItems, RootEnds, At;
    if ended {
      if es == [] {
        NoMoreTurns(p, k);
      } else {
        TurnEnded(p, es, k);
        var e, next := Pop(es[0].0, Popped(p, es)), Remaining(p, es);
        PopLeaves(p, es);
        if i == 0 {
          FirstIsLawful(p, es, k, ended, first, Turns(p, es, k, ended));
        } else {
          TurnsAreLawful(p, next, k, true, true, i - 1);
          LawLater(p, es, k, ended, first, e, next, Turns(p, next, k, true), i - 1);
        }
      }
    } else {
      TurnWithRoot(p, es, k);
      if i == 0 {
        FirstIsLawful(p, es, k, ended, first, Turns(p, es, k, ended));
      } else {
        AfterRootIsLawful(p, es, k, i);
        var all := es + At(1, RootItems(Scripted(p, k)));
        RootLeaves(p, es, k);
        LawLater(p, es, k, ended, first, Root(k), all, Turns(p, es, k, false)[1..], i - 1);
        assert Turns(p, es, k, false) == [Root(k)] + Turns(p, es, k, false)[1..];
      }
    }
  }

  lemma RootLeaves(p: Program, es: seq<Entry>, k: nat)
    ensures Leaves(p, es, Root(k), es + At(1, RootItems(Scripted(p, k))))
  {
  }

  lemma NoMoreTurns(p: Program, k: nat)
    requires Good(p) && Placed(p, [])
    ensures Turns(p, [], k, true) == []
  {
  }

  // The events behind a turn's root call.
  lemma {:induction false} AfterRootIsLawful(p: Program, es: seq<Entry>, k: nat, i: nat)
    requires Good(p) && Placed(p, es) && k <= |p.script| && 0 < i < |Turns(p, es, k, false)|
    ensures Lawful(p, es + At(1, RootItems(Scripted(p, k))), k + 1, RootEnds(Scripted(p, k)), false,
                   Turns(p, es, k, false)[1..], i - 1)
    decreases i, 0
  {
    hide Good, Placed, Turns, Leaves, Lawful, Remaining, Popped, RootItems, RootEnds, At;
    TurnWithRoot(p, es, k);
    var all, ended := es + At(1, RootItems(Scripted(p, k))), RootEnds(Scripted(p, k));
    var log := Turns(p, es, k, false)[1..];
    if all == [] {
      assert log == Turns(p, all, k + 1, ended);
      TurnsAreLawful(p, all, k + 1, ended, false, i - 1);
    } else {
      var e, next := Pop(all[0].0, Popped(p, all)), Remaining(p, all);
      var rest := Turns(p, next, k + 1, ended);
      assert log == [e] + rest;
      PopLeaves(p, all);
      if i == 1 {
        FirstIsLawful(p, all, k + 1, ended, false, log);
      } else {
        TurnsAreLawful(p, next, k + 1, ended, true, i - 2);
        LawLater(p, all, k + 1, ended, false, e, next, rest, i - 2);
      }
    }
  }

  // At the end nothing waits, and the source has ended.
  ghost predicate Over(p: Program, es: seq<Entry>, k: nat, ended: bool, log: seq<Event>) {
    Waiting(es + Appended(p, log), Pops(log)) == [] && Ended(p, k, ended, Roots(log))
  }

  lemma OverLater(p: Program, es: seq<Entry>, k: nat, ended: bool, e: Event, next: seq<Entry>, log: seq<Event>)
    requires Leaves(p, es, e, next) && (e.Root? ==> !ended)
    requires var k1, ended1 := if e.Root? then k + 1 else k, if e.Root? then RootEnds(Scripted(p, k)) else ended;
      Over(p, next, k1, ended1, log)
    ensures Over(p, es, k, ended, [e] + log)
  {
    hide Leaves, Waiting, Appended, Pops, Roots, RootEnds, Scripted, Ended;
    EndedLater(p, k, Roots(log));
    WaitingLater(p, es, e, log, next);
  }

  lemma {:induction false} TurnsEnd(p: Program, es: seq<Entry>, k: nat, ended: bool)
    requires Good(p) && Placed(p, es) && (ended || k <= |p.script|)
    ensures Over(p, es, k, ended, Turns(p, es, k, ended))
    decreases |Turns(p, es, k, ended)|
  {
    hide Good, Placed, Turns, Leaves, Over, Remaining, Popped, RootItems, RootEnds, At;
    if ended {
      if es == [] {
        NoMoreTurns(p, k);
        NothingOver(p, k);
      } else {
        TurnEnded(p, es, k);
        PopLeaves(p, es);
        TurnsEnd(p, Remaining(p, es), k, true);
        OverLater(p, es, k, ended, Pop(es[0].0, Popped(p, es)), Remaining(p, es), Turns(p, Remaining(p, es), k, true));
      }
    } else {
      TurnWithRoot(p, es, k);
      RootLeaves(p, es, k);
      var all, ended1 := es + At(1, RootItems(Scripted(p, k))), RootEnds(Scripted(p, k));
      if all == [] {
        TurnsEnd(p, all, k + 1, ended1);
        OverLater(p, es, k, ended, Root(k), all, Turns(p, all, k + 1, ended1));
      } else {
        var e, next := Pop(all[0].0, Popped(p, all)), Remaining(p, all);
        PopLeaves(p, all);
        TurnsEnd(p, next, k + 1, ended1);
        OverLater(p, all, k + 1, ended1, e, next, Turns(p, next, k + 1, ended1));
        OverLater(p, es, k, ended, Root(k), all, [e] + Turns(p, next, k + 1, ended1));
      }
    }
  }

  lemma NothingOver(p: Program, k: nat)
    ensures Over(p, [], k, true, [])
  {
    NothingYet(p, []);
  }

  /** A whole run (see Runner.Run): its log is lawful event by event, and ends with
      nothing left and the source at its end. */
  lemma RunsAreLawful(p: Program)
    requires Good(p) && Placed(p, [])
    ensures var log := Turns(p, [], 0, false);
      && (forall i :: 0 <= i < |log| ==> Lawful(p, [], 0, false, true, log, i))
      && Over(p, [], 0, false, log)
  {
    hide Good, Turns, Lawful, Over;
    TurnsEnd(p, [], 0, false);
    forall i | 0 <= i < |Turns(p, [], 0, false)| ensures Lawful(p, [], 0, false, true, Turns(p, [], 0, false), i) {
      TurnsAreLawful(p, [], 0, false, true, i);
    }
  }

  // ---------- first in, first out ----------

  // A turn's pop takes the first of its stage and leaves the rest of every stage.
  lemma PopLevels(p: Program, es: seq<Entry>, s: nat)
    requires es != []
    ensures var e := Pop(es[0].0, Popped(p, es));
      Level(es, s) + Level(Added(p, e), s) == Level(At(e.s, e.b), s) + Level(Remaining(p, es), s)
  {
    hide Pulled, After, Level;
    var t, b := es[0].0, Popped(p, es);
    LevelAt(t, b, s);
    if t >= p.n {
      assert es == At(t, b) + es[1..];
      LevelConcat(At(t, b), es[1..], s);
      assert Level([], s) == [] by { LevelAt(s, [], s); }
    } else if t in p.runs {
      LevelOthers(es, t, s);
      LevelConcat(Others(es, t), Added(p, Pop(t, b)), s);
    } else {
      var k := InFront(es, t, BatchSize(p, t));
      FrontOf(es, t, BatchSize(p, t));
      LevelConcat(At(t, b), es[k..], s);
      LevelConcat(es[k..], Added(p, Pop(t, b)), s);
    }
  }

  // A stage's pops are what was appended for it, in that order.
  ghost predicate Fifo(p: Program, es: seq<Entry>, log: seq<Event>, s: nat) {
    Level(Pops(log), s) == Level(es, s) + Level(Appended(p, log), s)
  }

  lemma FifoPop(p: Program, es: seq<Entry>, log: seq<Event>, s: nat)
    requires es != [] && Fifo(p, Remaining(p, es), log, s)
    ensures Fifo(p, es, [Pop(es[0].0, Popped(p, es))] + log, s)
  {
    hide Popped, Remaining, Level, At, Added;
    var e := Pop(es[0].0, Popped(p, es));
    assert ([e] + log)[1..] == log;
    PopLevels(p, es, s);
    assert Pops([e] + log) == At(e.s, e.b) + Pops(log) && Appended(p, [e] + log) == Added(p, e) + Appended(p, log);
    LevelConcat(At(e.s, e.b), Pops(log), s);
    LevelConcat(Added(p, e), Appended(p, log), s);
    var popped, rest, later := Level(At(e.s, e.b), s), Level(Remaining(p, es), s), Level(Appended(p, log), s);
    assert popped + (rest + later) == (popped + rest) + later;
    assert Level(es, s) + (Level(Added(p, e), s) + later) == (Level(es, s) + Level(Added(p, e), s)) + later;
  }

  lemma FifoRoot(p: Program, es: seq<Entry>, k: nat, log: seq<Event>, s: nat)
    requires Fifo(p, es + At(1, RootItems(Scripted(p, k))), log, s)
    ensures Fifo(p, es, [Root(k)] + log, s)
  {
    hide Level, At, RootItems;
    var items := At(1, RootItems(Scripted(p, k)));
    assert ([Root(k)] + log)[1..] == log;
    assert Pops([Root(k)] + log) == Pops(log) && Appended(p, [Root(k)] + log) == items + Appended(p, log);
    LevelConcat(es, items, s);
    LevelConcat(items, Appended(p, log), s);
    var mine, more, later := Level(es, s), Level(items, s), Level(Appended(p, log), s);
    assert (mine + more) + later == mine + (more + later);
  }

  /** Every stage gets its items in the order in which they were appended for it,
      pushes included. */
  lemma {:induction false} StagesAreFifo(p: Program, es: seq<Entry>, k: nat, ended: bool, s: nat)
    requires Good(p) && Placed(p, es) && (ended || k <= |p.script|)
    ensures Fifo(p, es, Turns(p, es, k, ended), s)
    decreases |Turns(p, es, k, ended)|
  {
    hide Good, Placed, Turns, Fifo, Remaining, Popped, RootItems, RootEnds, At;
    if ended {
      if es == [] {
        NoMoreTurns(p, k);
        NothingFifo(p, s);
      } else {
        TurnEnded(p, es, k);
        StagesAreFifo(p, Remaining(p, es), k, true, s);
        FifoPop(p, es, Turns(p, Remaining(p, es), k, true), s);
      }
    } else {
      TurnWithRoot(p, es, k);
      var all, ended1 := es + At(1, RootItems(Scripted(p, k))), RootEnds(Scripted(p, k));
      if all == [] {
        StagesAreFifo(p, all, k + 1, ended1, s);
        FifoRoot(p, es, k, Turns(p, all, k + 1, ended1), s);
      } else {
        var rest := Turns(p, Remaining(p, all), k + 1, ended1);
        StagesAreFifo(p, Remaining(p, all), k + 1, ended1, s);
        FifoPop(p, all, rest, s);
        FifoRoot(p, es, k, [Pop(all[0].0, Popped(p, all))] + rest, s);
      }
    }
  }

  lemma NothingFifo(p: Program, s: nat)
    ensures Fifo(p, [], [], s)
  {
  }
}
