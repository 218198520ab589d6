/** The order of items in a pipeline (module Pipeline) with one worker at each
    stage and one reader: items leave in the order they came, through chunks,
    batches and queues. */
module PipelineOrder {
  import opened Flow
  import opened Pipeline

  // The worker of stage i.
  function WorkerOf(ws: seq<Worker>, i: nat): (w: Worker)
    requires Sum(Staff, ws, i) > 0
    ensures w.stage == i
  {
    if ws[0].stage == i then ws[0] else WorkerOf(ws[1..], i)
  }

  predicate Alone(c: Config, s: State) {
    && WellFormed(c, s) && |s.readers| == 1
    && forall i :: 0 <= i < c.n ==> Sum(Staff, s.workers, i) == 1
  }

  lemma {:induction false} NoOther(ws: seq<Worker>, t: nat, i: nat)
    requires t < |ws| && Sum(Staff, ws, i) == 0
    ensures ws[t].stage != i
  {
    if t > 0 {
      NoOther(ws[1..], t - 1, i);
    }
  }

  lemma {:induction false} OfUpdate(ws: seq<Worker>, t: nat, w: Worker, i: nat)
    requires t < |ws| && w.stage == ws[t].stage && Sum(Staff, ws, i) == 1
    ensures Sum(Staff, ws[t := w], i) == 1
    ensures WorkerOf(ws[t := w], i) == if w.stage == i then w else WorkerOf(ws, i)
    ensures w.stage == i ==> WorkerOf(ws, i) == ws[t]
  {
    if t == 0 {
      assert ws[t := w][1..] == ws[1..];
    } else {
      assert ws[t := w][1..] == ws[1..][t - 1 := w];
      if ws[0].stage == i {
        NoOther(ws[1..], t - 1, i);
        SumUpdate(Staff, ws[1..], t - 1, w, i);
      } else {
        OfUpdate(ws[1..], t - 1, w, i);
      }
    }
  }

  // ---------- the lines of items ----------

  // What of stage k's input has been taken off its queue, and what of its output
  // has not yet been put.
  function TakenOff(w: Worker): seq<Item> {
    w.batch + w.inbuf
  }

  function Unsent(w: Worker): seq<Item> {
    w.pending + w.todo
  }

  // All items that are to enter stage k (or to be returned, for k = n), in the
  // order in which they will.
  function Line(c: Config, s: State, k: nat): seq<Item>
    requires Alone(c, s) && 1 <= k <= c.n
  {
    (if k == c.n then s.readers[0].inbuf else TakenOff(WorkerOf(s.workers, k)))
    + Items(s.queues[k - 1]) + Unsent(WorkerOf(s.workers, k - 1))
  }

  function Lines(c: Config, s: State): (ls: seq<seq<Item>>)
    requires Alone(c, s)
    ensures |ls| == c.n && forall j :: 0 <= j < c.n ==> ls[j] == Line(c, s, j + 1)
  {
    seq(c.n, k requires 0 <= k < c.n => Line(c, s, k + 1))
  }

  // What the items waiting for stage k and further down lead to, the furthest
  // first.
  function Outcome(c: Config, ls: seq<seq<Item>>, k: nat): seq<Item>
    requires |ls| == c.n && k >= 1
    decreases c.n + 1 - k
  {
    if k > c.n then [] else Outcome(c, ls, k + 1) + Composed(c.f, c.n, k, ls[k - 1])
  }

  lemma {:induction false} OutcomeSame(c: Config, ls: seq<seq<Item>>, ms: seq<seq<Item>>, k: nat)
    requires |ls| == |ms| == c.n && k >= 1 && (forall j :: k - 1 <= j < c.n ==> ms[j] == ls[j])
    ensures Outcome(c, ms, k) == Outcome(c, ls, k)
    decreases c.n + 1 - k
  {
    if k <= c.n {
      OutcomeSame(c, ls, ms, k + 1);
    }
  }

  // A call takes b from the front of its line and puts what it makes of it behind
  // the next one.
  predicate Advances(c: Config, ls: seq<seq<Item>>, ms: seq<seq<Item>>, i: nat, b: seq<Item>)
    requires |ls| == |ms| == c.n && 1 <= i < c.n
  {
    && ls[i - 1] == b + ms[i - 1] && ms[i] == ls[i] + FlatMap(c.f, i, b)
    && forall j :: 0 <= j < c.n && j != i - 1 && j != i ==> ms[j] == ls[j]
  }

  lemma {:induction false} OutcomeAdvances(c: Config, ls: seq<seq<Item>>, ms: seq<seq<Item>>, i: nat, b: seq<Item>, k: nat)
    requires |ls| == |ms| == c.n && 1 <= k <= i < c.n && Advances(c, ls, ms, i, b)
    ensures Outcome(c, ms, k) == Outcome(c, ls, k)
    decreases i - k
  {
    hide FlatMap;
    if k < i {
      OutcomeAdvances(c, ls, ms, i, b, k + 1);
    } else {
      var made := FlatMap(c.f, i, b);
      OutcomeSame(c, ls, ms, i + 2);
      ComposedConcat(c.f, c.n, i, b, ms[i - 1]);
      ComposedConcat(c.f, c.n, i + 1, ls[i], made);
      assert Composed(c.f, c.n, i, b) == Composed(c.f, c.n, i + 1, made);
      var deep, next := Outcome(c, ls, i + 2), Composed(c.f, c.n, i + 1, ls[i]);
      var mine, rest := Composed(c.f, c.n, i + 1, made), Composed(c.f, c.n, i, ms[i - 1]);
      assert (deep + (next + mine)) + rest == (deep + next) + (mine + rest);
    }
  }

  lemma {:induction false} OutcomeReturns(c: Config, ls: seq<seq<Item>>, ms: seq<seq<Item>>, xs: seq<Item>, k: nat)
    requires |ls| == |ms| == c.n && 1 <= k <= c.n && ls[c.n - 1] == xs + ms[c.n - 1]
    requires forall j :: 0 <= j < c.n - 1 ==> ms[j] == ls[j]
    ensures Outcome(c, ls, k) == xs + Outcome(c, ms, k)
    decreases c.n - k
  {
    if k < c.n {
      OutcomeReturns(c, ls, ms, xs, k + 1);
      assert (xs + Outcome(c, ms, k + 1)) + Composed(c.f, c.n, k, ls[k - 1])
          == xs + (Outcome(c, ms, k + 1) + Composed(c.f, c.n, k, ls[k - 1]));
    } else {
      assert Outcome(c, ls, k) == [] + ls[k - 1] && Outcome(c, ms, k) == [] + ms[k - 1];
    }
  }

  // ---------- steps ----------

  // Without chunks nothing is ever pending.
  predicate Neat(c: Config, s: State)
    requires WellFormed(c, s)
  {
    forall t :: 0 <= t < |s.workers| && c.chunk[s.workers[t].stage] == 0 ==> s.workers[t].pending == []
  }

  // What the reader has returned, and all that what is in the pipeline will come to.
  function Stream(c: Config, s: State): seq<Item>
    requires Alone(c, s) && c.n > 0
  {
    s.readers[0].out + Outcome(c, Lines(c, s), 1)
  }

  // What a step makes of its worker's input, queued and taken off, and of its
  // output, queued and unsent.
  predicate Moves(c: Config, s: State, a: Action, b: seq<Item>)
    requires WellFormed(c, s) && Enabled(c, s, a) && !a.Read?
  {
    var w, v, qs := s.workers[a.t], NextWorker(c, s, a), NextQueues(c, s, a);
    && (w.stage > 0 ==>
          TakenOff(w) + Items(s.queues[w.stage - 1]) == b + (TakenOff(v) + Items(qs[w.stage - 1])))
    && Items(qs[w.stage]) + Unsent(v) == (Items(s.queues[w.stage]) + Unsent(w)) + FlatMap(c.f, w.stage, b)
  }

  // It leaves both as they are, but for the batch it calls on and what the call
  // makes of it.
  lemma WorkerMoves(c: Config, s: State, a: Action)
    requires WellFormed(c, s) && Neat(c, s) && Enabled(c, s, a) && !a.Read?
    ensures Moves(c, s, a, if a.Call? then s.workers[a.t].batch else [])
  {
    hide Moves, NextWorker, NextQueues, Items, Neat;
    match a {
      case Get(_) => GetMoves(c, s, a);
      case Emit(_) => EmitMoves(c, s, a);
      case Flush(_) => FlushMoves(c, s, a);
      case PutEnd(_) => PutEndMoves(c, s, a);
      case Call(_) => CallMoves(c, s, a);
      case _ => OthersMoveNothing(c, s, a);
    }
  }

  lemma ItemsFirst(q: seq<Msg>)
    requires q != []
    ensures Items(q) == ItemsOf(q[0]) + Items(q[1..])
  {
  }

  lemma GetMoves(c: Config, s: State, a: Action)
    requires WellFormed(c, s) && Enabled(c, s, a) && a.Get?
    ensures Moves(c, s, a, [])
  {
    hide Items;
    var w := s.workers[a.t];
    var q := s.queues[w.stage - 1];
    if w.inbuf != [] {
      assert w.batch + w.inbuf == (w.batch + [w.inbuf[0]]) + w.inbuf[1..];
    } else {
      ItemsFirst(q);
      TakenJoins(w.batch, Taken(q[0]).0, Taken(q[0]).1, Items(q[1..]));
    }
    assert [] + Unsent(w) == Unsent(w);
  }

  lemma TakenJoins(batch: seq<Item>, x: seq<Item>, buf: seq<Item>, rest: seq<Item>)
    ensures (batch + []) + ((x + buf) + rest) == ((batch + x) + buf) + rest
  {
  }

  lemma EmitMoves(c: Config, s: State, a: Action)
    requires WellFormed(c, s) && Neat(c, s) && Enabled(c, s, a) && a.Emit?
    ensures Moves(c, s, a, [])
  {
    hide Items;
    var w := s.workers[a.t];
    var q, x := Items(s.queues[w.stage]), w.todo[0];
    assert w.todo == [x] + w.todo[1..];
    if c.chunk[w.stage] == 0 {
      ItemsAppend(s.queues[w.stage], Bare(x));
      assert (q + [x]) + ([] + w.todo[1..]) == q + ([] + w.todo);
    } else {
      assert (w.pending + [x]) + w.todo[1..] == w.pending + w.todo;
    }
  }

  lemma FlushMoves(c: Config, s: State, a: Action)
    requires WellFormed(c, s) && Enabled(c, s, a) && a.Flush?
    ensures Moves(c, s, a, [])
  {
    hide Items;
    var w := s.workers[a.t];
    ItemsAppend(s.queues[w.stage], Chunk(w.pending));
    assert (Items(s.queues[w.stage]) + w.pending) + ([] + w.todo) == Items(s.queues[w.stage]) + (w.pending + w.todo);
  }

  lemma PutEndMoves(c: Config, s: State, a: Action)
    requires WellFormed(c, s) && Enabled(c, s, a) && a.PutEnd?
    ensures Moves(c, s, a, [])
  {
    hide Items;
    var w := s.workers[a.t];
    ItemsAppend(s.queues[w.stage], End);
  }

  lemma CallMoves(c: Config, s: State, a: Action)
    requires WellFormed(c, s) && Enabled(c, s, a) && a.Call?
    ensures Moves(c, s, a, s.workers[a.t].batch)
  {
    hide Items, FlatMap;
    var w := s.workers[a.t];
    var q, made := Items(s.queues[w.stage]), FlatMap(c.f, w.stage, w.batch);
    assert q + (w.pending + made) == (q + (w.pending + [])) + made;
    var input := Items(s.queues[w.stage - 1]);
    assert (w.batch + w.inbuf) + input == w.batch + (([] + w.inbuf) + input);
  }

  lemma OthersMoveNothing(c: Config, s: State, a: Action)
    requires WellFormed(c, s) && Enabled(c, s, a)
    requires !a.Read? && !a.Get? && !a.Emit? && !a.Flush? && !a.PutEnd? && !a.Call?
    ensures Moves(c, s, a, [])
  {
    hide Items;
  }

  // Only its worker's queues change.
  lemma OtherQueues(c: Config, s: State, a: Action, j: nat)
    requires WellFormed(c, s) && Enabled(c, s, a) && !a.Read? && j < c.n
    ensures j != s.workers[a.t].stage && j + 1 != s.workers[a.t].stage ==> NextQueues(c, s, a)[j] == s.queues[j]
  {
  }

  lemma ReadMoves(c: Config, s: State, a: Action)
    requires WellFormed(c, s) && Enabled(c, s, a) && a.Read?
    ensures var r, v, q := s.readers[a.t], NextReader(c, s, a), s.queues[c.n - 1];
      var left := NextQueues(c, s, a)[c.n - 1];
      && v.out + v.inbuf + Items(left) == r.out + r.inbuf + Items(q) && r.out <= v.out
      && forall j :: 0 <= j < c.n - 1 ==> NextQueues(c, s, a)[j] == s.queues[j]
  {
    var r, q := s.readers[a.t], s.queues[c.n - 1];
    if r.inbuf != [] {
      assert (r.out + [r.inbuf[0]]) + r.inbuf[1..] == r.out + r.inbuf;
    } else {
      var got := Taken(if q[0].End? then Bare(0) else q[0]);
      assert !q[0].End? ==> ((r.out + got.0) + got.1) + Items(q[1..]) == r.out + (ItemsOf(q[0]) + Items(q[1..]));
      assert q[0].End? ==> ItemsOf(q[0]) + Items(q[1..]) == Items(q[1..]);
      assert r.out + [] == r.out;
    }
  }

  // The step of a worker seen in the lines.
  lemma InputLine(c: Config, s: State, a: Action, b: seq<Item>)
    requires Alone(c, s) && Enabled(c, s, a) && !a.Read? && s.workers[a.t].stage > 0 && Moves(c, s, a, b)
    requires Alone(c, Exec(c, s, a))
    ensures Line(c, s, s.workers[a.t].stage) == b + Line(c, Exec(c, s, a), s.workers[a.t].stage)
  {
    hide TakenOff, Unsent, Items, NextWorker, NextQueues, Enabled, FlatMap, Sum, WorkerOf, Exec;
    StageIs(c, s, a);
    var n, k, v := Exec(c, s, a), s.workers[a.t].stage, NextWorker(c, s, a);
    OfUpdate(s.workers, a.t, v, k - 1);
    OfUpdate(s.workers, a.t, v, k);
    var out := Unsent(WorkerOf(s.workers, k - 1));
    assert (b + (TakenOff(v) + Items(n.queues[k - 1]))) + out == b + ((TakenOff(v) + Items(n.queues[k - 1])) + out);
  }

  lemma OutputLine(c: Config, s: State, a: Action, b: seq<Item>)
    requires Alone(c, s) && Enabled(c, s, a) && !a.Read? && Moves(c, s, a, b) && Alone(c, Exec(c, s, a))
    ensures var i := s.workers[a.t].stage;
      i < c.n && Line(c, Exec(c, s, a), i + 1) == Line(c, s, i + 1) + FlatMap(c.f, i, b)
  {
    hide TakenOff, Unsent, Items, NextWorker, NextQueues, Enabled, FlatMap, Sum, WorkerOf, Exec;
    StageIs(c, s, a);
    var n, w, v := Exec(c, s, a), s.workers[a.t], NextWorker(c, s, a);
    var k, made := w.stage + 1, FlatMap(c.f, w.stage, b);
    OfUpdate(s.workers, a.t, v, k - 1);
    if k < c.n {
      OfUpdate(s.workers, a.t, v, k);
    }
    var front := if k == c.n then s.readers[0].inbuf else TakenOff(WorkerOf(s.workers, k));
    assert front + Items(n.queues[k - 1]) + Unsent(v) == front + (Items(n.queues[k - 1]) + Unsent(v));
    assert front + ((Items(s.queues[k - 1]) + Unsent(w)) + made) == (front + Items(s.queues[k - 1]) + Unsent(w)) + made;
  }

  lemma OtherLine(c: Config, s: State, a: Action, k: nat)
    requires Alone(c, s) && Enabled(c, s, a) && !a.Read? && 1 <= k <= c.n && Alone(c, Exec(c, s, a))
    requires k != s.workers[a.t].stage && k != s.workers[a.t].stage + 1
    ensures Line(c, Exec(c, s, a), k) == Line(c, s, k)
  {
    hide TakenOff, Unsent, Items, NextWorker, NextQueues, Enabled, Sum, WorkerOf, Exec;
    StageIs(c, s, a);
    var v := NextWorker(c, s, a);
    OtherQueues(c, s, a, k - 1);
    OfUpdate(s.workers, a.t, v, k - 1);
    if k < c.n {
      OfUpdate(s.workers, a.t, v, k);
    }
  }

  lemma StageIs(c: Config, s: State, a: Action)
    requires WellFormed(c, s) && Enabled(c, s, a) && !a.Read?
    ensures a.t < |s.workers| && NextWorker(c, s, a).stage == s.workers[a.t].stage
    ensures Exec(c, s, a).workers == s.workers[a.t := NextWorker(c, s, a)] && Exec(c, s, a).readers == s.readers
    ensures Exec(c, s, a).queues == NextQueues(c, s, a)
  {
    hide NextWorker, NextQueues;
  }

  lemma StaysAlone(c: Config, s: State, a: Action)
    requires Alone(c, s) && Enabled(c, s, a)
    ensures Alone(c, Exec(c, s, a))
  {
    hide NextQueues, NextReader, NextWorker, Enabled, Sum, WorkerOf;
    if !a.Read? {
      StageIs(c, s, a);
      forall i | 0 <= i < c.n ensures Sum(Staff, Exec(c, s, a).workers, i) == 1 {
        OfUpdate(s.workers, a.t, NextWorker(c, s, a), i);
      }
    }
  }

  // No step changes what everything comes to, in order, and what has been
  // returned stays.
  lemma StepKeepsStream(c: Config, s: State, a: Action)
    requires Alone(c, s) && Neat(c, s) && Enabled(c, s, a)
    ensures Alone(c, Exec(c, s, a)) && Stream(c, Exec(c, s, a)) == Stream(c, s)
  {
    hide Line, NextQueues, NextReader, NextWorker, Enabled, FlatMap, Items, Sum, WorkerOf;
    if a.Read? {
      ReadKeepsStream(c, s, a);
    } else {
      WorkerKeepsStream(c, s, a);
    }
  }

  lemma WorkerKeepsStream(c: Config, s: State, a: Action)
    requires Alone(c, s) && Neat(c, s) && Enabled(c, s, a) && !a.Read?
    ensures Alone(c, Exec(c, s, a)) && Stream(c, Exec(c, s, a)) == Stream(c, s)
  {
    hide Line, NextQueues, NextReader, NextWorker, Enabled, FlatMap, Items, Sum, WorkerOf, Outcome, Alone, Neat, Moves, Exec;
    CallsAreInside(c, s, a);
    StaysAlone(c, s, a);
    WorkerMoves(c, s, a);
    var n, i := Exec(c, s, a), s.workers[a.t].stage;
    var b := if a.Call? then s.workers[a.t].batch else [];
    if i > 0 {
      InputLine(c, s, a, b);
    }
    OutputLine(c, s, a, b);
    forall k | 1 <= k <= c.n && k != i && k != i + 1 ensures Line(c, n, k) == Line(c, s, k) {
      OtherLine(c, s, a, k);
    }
    if a.Call? {
      OutcomeAdvances(c, Lines(c, s), Lines(c, n), i, b, 1);
    } else {
      NothingMade(c, i);
      assert forall k :: 1 <= k <= c.n ==> Line(c, n, k) == Line(c, s, k);
      OutcomeSame(c, Lines(c, s), Lines(c, n), 1);
    }
  }

  lemma NothingMade(c: Config, i: nat)
    ensures FlatMap(c.f, i, []) == []
  {
  }

  lemma CallsAreInside(c: Config, s: State, a: Action)
    requires Alone(c, s) && Enabled(c, s, a)
    ensures WellFormed(c, s)
    ensures c.n > 0 && (!a.Read? ==> a.t < |s.workers| && s.workers[a.t].stage < c.n && Exec(c, s, a).readers == s.readers)
    ensures a.Call? ==> s.workers[a.t].stage > 0
  {
    hide NextQueues, NextReader, NextWorker;
  }

  lemma Cancel(front: seq<Item>, a: seq<Item>, b: seq<Item>)
    requires front + a == front + b
    ensures a == b
  {
    assert a == (front + a)[|front|..] && b == (front + b)[|front|..];
  }

  // A read moves what it returns from the last line to `out`.
  lemma ReadLines(c: Config, s: State, a: Action) returns (xs: seq<Item>)
    requires Alone(c, s) && Enabled(c, s, a) && a.Read?
    ensures var n := Exec(c, s, a);
      && Alone(c, n) && n.readers[0].out == s.readers[0].out + xs && Line(c, s, c.n) == xs + Line(c, n, c.n)
      && forall k :: 1 <= k < c.n ==> Line(c, n, k) == Line(c, s, k)
  {
    hide NextQueues, NextReader, NextWorker, FlatMap, Items, Sum, WorkerOf, TakenOff, Unsent;
    StaysAlone(c, s, a);
    ReadMoves(c, s, a);
    var n, r, v := Exec(c, s, a), s.readers[0], NextReader(c, s, a);
    assert a.t == 0 && n.workers == s.workers && n.readers == s.readers[0 := v] && n.queues == NextQueues(c, s, a);
    xs := v.out[|r.out|..];
    var left, q, unsent := Items(n.queues[c.n - 1]), Items(s.queues[c.n - 1]), Unsent(WorkerOf(s.workers, c.n - 1));
    assert v.out == r.out + xs;
    assert r.out + (xs + (v.inbuf + left)) == v.out + v.inbuf + left;
    assert r.out + r.inbuf + q == r.out + (r.inbuf + q);
    Cancel(r.out, xs + (v.inbuf + left), r.inbuf + q);
    assert (xs + (v.inbuf + left)) + unsent == xs + (v.inbuf + left + unsent);
  }

  lemma ReadKeepsStream(c: Config, s: State, a: Action)
    requires Alone(c, s) && Neat(c, s) && Enabled(c, s, a) && a.Read?
    ensures Alone(c, Exec(c, s, a)) && Stream(c, Exec(c, s, a)) == Stream(c, s)
  {
    hide Line, Exec, Enabled, Sum, WorkerOf, Outcome;
    var xs := ReadLines(c, s, a);
    var n := Exec(c, s, a);
    OutcomeReturns(c, Lines(c, s), Lines(c, n), xs, 1);
    var out, rest := s.readers[0].out, Outcome(c, Lines(c, n), 1);
    assert out + (xs + rest) == (out + xs) + rest;
  }

  lemma StepKeepsNeat(c: Config, s: State, a: Action)
    requires WellFormed(c, s) && Neat(c, s) && Enabled(c, s, a)
    ensures Neat(c, Exec(c, s, a))
  {
    hide NextQueues, NextReader, FlatMap, Items;
  }

  lemma {:induction false} RunKeepsStream(c: Config, s: State, run: seq<Action>)
    requires Alone(c, s) && Neat(c, s) && Enabling(c, s, run)
    ensures var n := ExecAll(c, s, run); Alone(c, n) && Stream(c, n) == Stream(c, s)
    decreases |run|
  {
    if run != [] {
      var n := Exec(c, s, run[0]);
      StepKeepsStream(c, s, run[0]);
      StepKeepsNeat(c, s, run[0]);
      hide Exec, Enabled, Neat, Stream;
      RunKeepsStream(c, n, run[1..]);
    }
  }

  // ---------- the theorems ----------

  lemma StartsInOrder(c: Config, s: State)
    requires Initial(c, s) && |s.readers| == 1 && forall i :: 0 <= i < c.n ==> c.staff[i] == 1
    ensures Alone(c, s) && Neat(c, s) && Stream(c, s) == Composed(c.f, c.n, 1, Source(s.workers))
  {
    hide Sum, WorkerOf, Items;
    StartLines(c, s);
    var ls, source := Lines(c, s), Source(s.workers);
    OnlyFirst(c, ls, source, 1);
    assert s.readers[0].out + Composed(c.f, c.n, 1, source) == Composed(c.f, c.n, 1, source);
  }

  // The first line is the root's script, the others are empty.
  lemma StartLines(c: Config, s: State)
    requires Initial(c, s) && Alone(c, s)
    ensures forall k :: 1 <= k <= c.n ==> Line(c, s, k) == if k == 1 then Source(s.workers) else []
  {
    hide Sum;
    RootIsSource(s.workers);
    forall k | 1 <= k <= c.n ensures Line(c, s, k) == if k == 1 then Source(s.workers) else [] {
      var t := IndexOf(s.workers, k - 1);
      if k < c.n {
        var u := IndexOf(s.workers, k);
      }
    }
  }

  lemma {:induction false} IndexOf(ws: seq<Worker>, i: nat) returns (t: nat)
    requires Sum(Staff, ws, i) > 0
    ensures t < |ws| && WorkerOf(ws, i) == ws[t]
  {
    if ws[0].stage == i {
      t := 0;
    } else {
      t := IndexOf(ws[1..], i);
      t := t + 1;
    }
  }

  lemma {:induction false} NoSource(ws: seq<Worker>)
    requires Sum(Staff, ws, 0) == 0 && forall t :: 0 <= t < |ws| && ws[t].stage > 0 ==> ws[t].todo == []
    ensures Source(ws) == []
  {
    if ws != [] {
      NoSource(ws[1..]);
    }
  }

  lemma {:induction false} RootIsSource(ws: seq<Worker>)
    requires Sum(Staff, ws, 0) == 1 && forall t :: 0 <= t < |ws| && ws[t].stage > 0 ==> ws[t].todo == []
    ensures Source(ws) == WorkerOf(ws, 0).todo
  {
    if ws[0].stage == 0 {
      NoSource(ws[1..]);
    } else {
      RootIsSource(ws[1..]);
    }
  }

  lemma {:induction false} NothingComposed(c: Config, k: nat)
    ensures Composed(c.f, c.n, k, []) == []
    decreases c.n - k
  {
    if k < c.n {
      NothingComposed(c, k + 1);
    }
  }

  lemma {:induction false} OnlyFirst(c: Config, ls: seq<seq<Item>>, source: seq<Item>, k: nat)
    requires |ls| == c.n > 0 && k >= 1 && forall j :: 0 <= j < c.n ==> ls[j] == if j == 0 then source else []
    ensures Outcome(c, ls, k) == if k == 1 then Composed(c.f, c.n, 1, source) else []
    decreases c.n + 1 - k
  {
    hide Composed;
    if k <= c.n {
      OnlyFirst(c, ls, source, k + 1);
      NothingComposed(c, k);
    }
  }

  /** In every reachable state of a pipeline with one worker at each stage, what its
      reader has returned is the beginning of the composed flat-map of the root's
      items, in order; what is still to come follows it. */
  lemma ReaderIsInOrder(c: Config, s: State, run: seq<Action>)
    requires Initial(c, s) && Enabling(c, s, run) && |s.readers| == 1
    requires forall i :: 0 <= i < c.n ==> c.staff[i] == 1
    ensures var n := ExecAll(c, s, run);
      && Alone(c, n) && n.readers[0].out <= Composed(c.f, c.n, 1, Source(s.workers))
      && n.readers[0].out + Outcome(c, Lines(c, n), 1) == Composed(c.f, c.n, 1, Source(s.workers))
  {
    hide Exec, Enabled, ExecAll, Enabling, Initial, Composed, Source, Lines, Outcome, Neat;
    StartsInOrder(c, s);
    RunKeepsStream(c, s, run);
  }

  /** Once the reader has stopped, it has returned the whole of it, in order, if and
      only if no stranded item leads to an output. */
  lemma StoppedInOrder(c: Config, s: State, run: seq<Action>)
    requires Initial(c, s) && Enabling(c, s, run) && |s.readers| == 1 && AllStopped(ExecAll(c, s, run))
    requires forall i :: 0 <= i < c.n ==> c.staff[i] == 1
    ensures var n := ExecAll(c, s, run);
      n.readers[0].out == Composed(c.f, c.n, 1, Source(s.workers)) <==> forall y :: Stranded(c, n, y) == 0
  {
    hide Exec, Enabled, ExecAll, Enabling, Composed, Source, Lines, Outcome, AllStopped, Stranded, Alone, Sum, Items;
    ReaderIsInOrder(c, s, run);
    DeliveredExactly(c, s, run);
    var n := ExecAll(c, s, run);
    OneReader(c, n);
    var all, rest := Composed(c.f, c.n, 1, Source(s.workers)), Outcome(c, Lines(c, n), 1);
    PrefixOfAll(n.readers[0].out, rest, all);
  }

  lemma OneReader(c: Config, n: State)
    requires Alone(c, n)
    ensures Delivered(n.readers) == multiset(n.readers[0].out)
  {
    assert n.readers[1..] == [];
  }

  lemma PrefixOfAll(out: seq<Item>, rest: seq<Item>, all: seq<Item>)
    requires out + rest == all
    ensures out == all <==> multiset(out) == multiset(all)
  {
    if multiset(out) == multiset(all) {
      assert |multiset(out)| == |out| && |multiset(all)| == |all|;
    }
  }

  /** With every empty poll and its check in one step, it is all returned in order. */
  lemma AtomicPollsKeepOrder(c: Config, s: State, run: seq<Action>)
    requires Initial(c, s) && Enabling(c, s, run) && |s.readers| == 1 && Atomic(run) && AllStopped(ExecAll(c, s, run))
    requires forall i :: 0 <= i < c.n ==> c.staff[i] == 1
    ensures ExecAll(c, s, run).readers[0].out == Composed(c.f, c.n, 1, Source(s.workers))
  {
    hide Exec, Enabled, ExecAll, Enabling, Composed, Source, Lines, Outcome, AllStopped, Atomic, Alone, Sum, Items;
    ReaderIsInOrder(c, s, run);
    AtomicPollsLoseNothing(c, s, run);
    var n := ExecAll(c, s, run);
    OneReader(c, n);
    PrefixOfAll(n.readers[0].out, Outcome(c, Lines(c, n), 1), Composed(c.f, c.n, 1, Source(s.workers)));
  }
}
