/** The run protocol of a pipeline (src/pipe/workers.py: _worker_run,
    _finish_worker; src/pipe/queues.py: _OutputChannel, _InputChannel,
    PipeIterator): any number of stages, any number of worker processes per
    stage, chunked edges, batches, and competing readers of the final queue. A
    put takes effect when its queue has room; who moves next is arbitrary. */
module Pipeline {
  import opened Flow

  datatype Msg = Bare(x: Item) | Chunk(xs: seq<Item>) | End

  datatype Pc =
    | Looping
    | Polled              // last poll was empty; about to read upstream_done
    | Leaving             // out of the loop, flushing
    | Counting            // about to add itself to the stage's end counter
    | Ending(left: nat)   // last finisher: End sentinels still to put
    | Parked

  datatype Worker = Worker(
    stage: nat, pc: Pc,
    inbuf: seq<Item>,     // _InputChannel._buf
    batch: seq<Item>,     // items collected for the next call
    todo: seq<Item>,      // results of the last call still to send (a root's script)
    pending: seq<Item>,   // _OutputChannel._pending
    empties: nat)         // consecutive empty polls

  datatype Reader = Reader(inbuf: seq<Item>, out: seq<Item>, stopped: bool)

  // The number of stages, what they compute, and each stage's batch size, output
  // chunk size, worker count and the empty polls its workers leave after (none
  // for the pull of a run() stage, which looks at upstream_done at once).
  datatype Config = Config(
    n: nat, f: Calls, batch: seq<nat>, chunk: seq<nat>, staff: seq<nat>, grace: seq<nat>)

  // queues[s] is stage s's output. `clean` is a history variable: some worker of
  // the stage left its loop while its input queue held no item. `lostEnd` says
  // that a put of an End on the final queue timed out.
  datatype State = State(
    workers: seq<Worker>, queues: seq<seq<Msg>>, finished: seq<nat>, done: seq<bool>,
    readers: seq<Reader>, clean: seq<bool>, lostEnd: bool)

  datatype Action =
    | Get(t: nat) | Call(t: nat) | Emit(t: nat) | Flush(t: nat)
    | Poll(t: nat) | Check(t: nat) | RootEnds(t: nat)
    | Drained(t: nat) | Count(t: nat) | PutEnd(t: nat) | EndFull(t: nat) | SetDone(t: nat)
    | Read(t: nat)

  predicate WellFormed(c: Config, s: State) {
    && c.n > 0 && |c.batch| == |c.chunk| == |c.staff| == |c.grace| == c.n
    && |s.queues| == |s.finished| == |s.done| == |s.clean| == c.n
    && (forall t :: 0 <= t < |s.workers| ==> s.workers[t].stage < c.n)
  }

  function ItemsOf(m: Msg): seq<Item> {
    match m
    case Bare(x) => [x]
    case Chunk(xs) => xs
    case End => []
  }

  function Items(q: seq<Msg>): seq<Item> {
    if q == [] then [] else ItemsOf(q[0]) + Items(q[1..])
  }

  predicate Enabled(c: Config, s: State, a: Action)
    requires WellFormed(c, s)
  {
    if a.Read? then
      a.t < |s.readers| && !s.readers[a.t].stopped
      && (s.readers[a.t].inbuf != [] || (s.queues[c.n - 1] != [] && Sendable(s.queues[c.n - 1][0])))
    else
      a.t < |s.workers| &&
      var w := s.workers[a.t];
      match a
      case Get(_) =>
        w.pc.Looping? && w.stage > 0 && w.todo == [] && |w.batch| < (if c.batch[w.stage] == 0 then 1 else c.batch[w.stage])
        && (w.inbuf != [] || (s.queues[w.stage - 1] != [] && Sendable(s.queues[w.stage - 1][0])))
      case Call(_) => w.pc.Looping? && w.stage > 0 && w.todo == [] && w.batch != []
      case Emit(_) => w.pc.Looping? && w.todo != [] && (c.chunk[w.stage] == 0 || |w.pending| < c.chunk[w.stage])
      case Flush(_) => (w.pc.Looping? || w.pc.Leaving?) && w.pending != []
      case Poll(_) =>
        w.pc.Looping? && w.stage > 0 && w.todo == [] && w.batch == [] && w.inbuf == [] && s.queues[w.stage - 1] == []
      case Check(_) => w.pc.Polled?
      case RootEnds(_) => w.pc.Looping? && w.stage == 0 && w.todo == []
      case Drained(_) => w.pc.Leaving? && w.pending == []
      case Count(_) => w.pc.Counting?
      case PutEnd(_) => w.pc.Ending? && w.pc.left > 0
      case EndFull(_) => w.pc.Ending? && w.pc.left > 0
      case SetDone(_) => w.pc == Ending(0)
      case Read(_) => true
  }

  // No empty chunk is ever sent (flush returns early when nothing is pending).
  predicate Sendable(m: Msg) {
    m.Chunk? ==> m.xs != []
  }

  // What _InputChannel.get takes off the queue: the item it returns (none for an
  // End), and the rest of a chunk for its buffer.
  function Taken(m: Msg): (r: (seq<Item>, seq<Item>))
    requires Sendable(m)
    ensures r.0 + r.1 == ItemsOf(m)
  {
    match m
    case Bare(x) => ([x], [])
    case Chunk(xs) => ([xs[0]], xs[1..])
    case End => ([], [])
  }

  // The End sentinels a stage's last finisher puts.
  function Ends(c: Config, s: State, stage: nat): nat {
    if stage + 1 == c.n then |s.readers| else 1
  }

  predicate MayLeave(c: Config, s: State, a: Action)
    requires WellFormed(c, s) && Enabled(c, s, a) && a.Check?
  {
    var w := s.workers[a.t];
    w.stage > 0 && s.done[w.stage - 1] && w.empties >= c.grace[w.stage]
  }

  function NextWorker(c: Config, s: State, a: Action): (v: Worker)
    requires WellFormed(c, s) && Enabled(c, s, a) && !a.Read?
    ensures v.stage == s.workers[a.t].stage
  {
    var w := s.workers[a.t];
    match a
    case Get(_) =>
      if w.inbuf != [] then w.(batch := w.batch + [w.inbuf[0]], inbuf := w.inbuf[1..], empties := 0)
      else
        var got := Taken(s.queues[w.stage - 1][0]);
        w.(batch := w.batch + got.0, inbuf := got.1, empties := 0)
    case Call(_) => w.(todo := FlatMap(c.f, w.stage, w.batch), batch := [])
    case Emit(_) =>
      if c.chunk[w.stage] == 0 then w.(todo := w.todo[1..])
      else w.(todo := w.todo[1..], pending := w.pending + [w.todo[0]])
    case Flush(_) => w.(pending := [])
    case Poll(_) => w.(pc := Polled, empties := w.empties + 1)
    // Empty polls only lead out once upstream is done and there were enough.
    case Check(_) => w.(pc := if MayLeave(c, s, a) then Leaving else Looping)
    case RootEnds(_) => w.(pc := Leaving)
    case Drained(_) => w.(pc := Counting)
    case Count(_) =>
      w.(pc := if s.finished[w.stage] + 1 < c.staff[w.stage] then Parked else Ending(Ends(c, s, w.stage)))
    case PutEnd(_) => w.(pc := Ending(w.pc.left - 1))
    case EndFull(_) => w.(pc := Ending(0))
    case SetDone(_) => w.(pc := Parked)
  }

  function NextQueues(c: Config, s: State, a: Action): (qs: seq<seq<Msg>>)
    requires WellFormed(c, s) && Enabled(c, s, a)
    ensures |qs| == |s.queues|
  {
    var qs := s.queues;
    if a.Read? then
      if s.readers[a.t].inbuf == [] then qs[c.n - 1 := qs[c.n - 1][1..]] else qs
    else
      var w := s.workers[a.t];
      match a
      case Get(_) => if w.inbuf == [] then qs[w.stage - 1 := qs[w.stage - 1][1..]] else qs
      case Emit(_) => if c.chunk[w.stage] == 0 then qs[w.stage := qs[w.stage] + [Bare(w.todo[0])]] else qs
      case Flush(_) => qs[w.stage := qs[w.stage] + [Chunk(w.pending)]]
      case PutEnd(_) => qs[w.stage := qs[w.stage] + [End]]
      case _ => qs
  }

  function NextReader(c: Config, s: State, a: Action): Reader
    requires WellFormed(c, s) && Enabled(c, s, a) && a.Read?
  {
    var r := s.readers[a.t];
    if r.inbuf != [] then r.(out := r.out + [r.inbuf[0]], inbuf := r.inbuf[1..])
    else
      var m := s.queues[c.n - 1][0];
      if m.End? then r.(stopped := true)
      else r.(out := r.out + Taken(m).0, inbuf := Taken(m).1)
  }

  function Exec(c: Config, s: State, a: Action): (n: State)
    requires WellFormed(c, s) && Enabled(c, s, a)
    ensures WellFormed(c, n) && |n.workers| == |s.workers| && |n.readers| == |s.readers|
  {
    if a.Read? then
      s.(queues := NextQueues(c, s, a), readers := s.readers[a.t := NextReader(c, s, a)])
    else
      var w := s.workers[a.t];
      s.(workers := s.workers[a.t := NextWorker(c, s, a)],
         queues := NextQueues(c, s, a),
         finished := if a.Count? then s.finished[w.stage := s.finished[w.stage] + 1] else s.finished,
         done := if a.SetDone? then s.done[w.stage := true] else s.done,
         clean := if a.Check? && MayLeave(c, s, a) && Items(s.queues[w.stage - 1]) == []
                  then s.clean[w.stage := true] else s.clean,
         lostEnd := s.lostEnd || (a.EndFull? && w.stage + 1 == c.n))
  }

  ghost predicate Enabling(c: Config, s: State, run: seq<Action>)
    requires WellFormed(c, s)
    decreases |run|
  {
    run == [] || (Enabled(c, s, run[0]) && Enabling(c, Exec(c, s, run[0]), run[1..]))
  }

  function ExecAll(c: Config, s: State, run: seq<Action>): (n: State)
    requires WellFormed(c, s) && Enabling(c, s, run)
    ensures WellFormed(c, n) && |n.workers| == |s.workers| && |n.readers| == |s.readers|
    decreases |run|
  {
    if run == [] then s else ExecAll(c, Exec(c, s, run[0]), run[1..])
  }

  // What is counted over a stage's workers: all of them, those counted as
  // finished, last finishers at work, and the End sentinels those still owe.
  datatype Tally = Staff | Finished | Finishing | Owed

  predicate Gone(p: Pc) {
    p.Ending? || p.Parked?
  }

  function Weigh(m: Tally, w: Worker, i: nat): nat {
    if w.stage != i then 0
    else
      match m
      case Staff => 1
      case Finished => if Gone(w.pc) then 1 else 0
      case Finishing => if w.pc.Ending? then 1 else 0
      case Owed => if w.pc.Ending? then w.pc.left else 0
  }

  function Sum(m: Tally, ws: seq<Worker>, i: nat): nat {
    if ws == [] then 0 else Weigh(m, ws[0], i) + Sum(m, ws[1..], i)
  }

  // Each root worker starts with the items its calls will produce; all others,
  // and all queues, start empty.
  ghost predicate Initial(c: Config, s: State) {
    && WellFormed(c, s)
    && (forall t :: 0 <= t < |s.workers| ==>
          var w := s.workers[t];
          && w.pc.Looping? && w.inbuf == [] && w.batch == [] && w.pending == [] && w.empties == 0
          && (w.stage > 0 ==> w.todo == []))
    && (forall i :: 0 <= i < c.n ==>
          s.queues[i] == [] && s.finished[i] == 0 && !s.done[i] && !s.clean[i]
          && c.staff[i] == Sum(Staff, s.workers, i) > 0)
    && (forall r :: 0 <= r < |s.readers| ==> s.readers[r] == Reader([], [], false))
    && !s.lostEnd
  }

  // ---------- conservation ----------

  // The copies of y among the final outputs of items that enter at stage i.
  function Share(c: Config, i: nat, xs: seq<Item>, y: Item): nat {
    Worth(c.f, c.n, i, xs)[y]
  }

  lemma ShareConcat(c: Config, i: nat, xs: seq<Item>, ys: seq<Item>, y: Item)
    ensures Share(c, i, xs + ys, y) == Share(c, i, xs, y) + Share(c, i, ys, y)
  {
    hide Worth;
    WorthConcat(c.f, c.n, i, xs, ys);
  }

  lemma ShareNothing(c: Config, i: nat, y: Item)
    ensures Share(c, i, [], y) == 0
  {
    WorthNothing(c.f, c.n, i);
  }

  lemma ShareFirst(c: Config, i: nat, xs: seq<Item>, y: Item)
    requires xs != []
    ensures Share(c, i, xs, y) == Share(c, i, [xs[0]], y) + Share(c, i, xs[1..], y)
  {
    hide Share;
    ShareConcat(c, i, [xs[0]], xs[1..], y);
    assert [xs[0]] + xs[1..] == xs;
  }

  // What a worker holds, in terms of the outputs it will lead to.
  function WorkerShare(c: Config, w: Worker, y: Item): nat {
    Share(c, w.stage, w.inbuf, y) + Share(c, w.stage, w.batch, y)
    + Share(c, w.stage + 1, w.todo, y) + Share(c, w.stage + 1, w.pending, y)
  }

  function WorkersShare(c: Config, ws: seq<Worker>, y: Item): nat {
    if ws == [] then 0 else WorkerShare(c, ws[0], y) + WorkersShare(c, ws[1..], y)
  }

  // Queue number `from + i` feeds stage `from + i + 1`.
  function QueuesShare(c: Config, qs: seq<seq<Msg>>, from: nat, y: Item): nat {
    if qs == [] then 0 else Share(c, from + 1, Items(qs[0]), y) + QueuesShare(c, qs[1..], from + 1, y)
  }

  function ReaderShare(r: Reader, y: Item): nat {
    multiset(r.inbuf)[y] + multiset(r.out)[y]
  }

  function ReadersShare(rs: seq<Reader>, y: Item): nat {
    if rs == [] then 0 else ReaderShare(rs[0], y) + ReadersShare(rs[1..], y)
  }

  function Total(c: Config, s: State, y: Item): nat {
    WorkersShare(c, s.workers, y) + QueuesShare(c, s.queues, 0, y) + ReadersShare(s.readers, y)
  }

  lemma {:induction false} WorkersUpdate(c: Config, ws: seq<Worker>, t: nat, w: Worker, y: Item)
    requires t < |ws|
    ensures WorkersShare(c, ws[t := w], y) + WorkerShare(c, ws[t], y) == WorkersShare(c, ws, y) + WorkerShare(c, w, y)
  {
    hide WorkerShare;
    if t == 0 {
      assert ws[t := w][1..] == ws[1..];
    } else {
      WorkersUpdate(c, ws[1..], t - 1, w, y);
      assert ws[t := w][1..] == ws[1..][t - 1 := w];
    }
  }

  lemma {:induction false} QueuesUpdate(c: Config, qs: seq<seq<Msg>>, from: nat, i: nat, q: seq<Msg>, y: Item)
    requires i < |qs|
    ensures QueuesShare(c, qs[i := q], from, y) + Share(c, from + i + 1, Items(qs[i]), y)
         == QueuesShare(c, qs, from, y) + Share(c, from + i + 1, Items(q), y)
  {
    hide Share, Items;
    if i == 0 {
      assert qs[i := q][1..] == qs[1..];
    } else {
      QueuesUpdate(c, qs[1..], from + 1, i - 1, q, y);
      assert qs[i := q][1..] == qs[1..][i - 1 := q];
    }
  }

  lemma {:induction false} ReadersUpdate(rs: seq<Reader>, t: nat, r: Reader, y: Item)
    requires t < |rs|
    ensures ReadersShare(rs[t := r], y) + ReaderShare(rs[t], y) == ReadersShare(rs, y) + ReaderShare(r, y)
  {
    hide ReaderShare;
    if t == 0 {
      assert rs[t := r][1..] == rs[1..];
    } else {
      ReadersUpdate(rs[1..], t - 1, r, y);
      assert rs[t := r][1..] == rs[1..][t - 1 := r];
    }
  }

  lemma {:induction false} ItemsAppend(q: seq<Msg>, m: Msg)
    ensures Items(q + [m]) == Items(q) + ItemsOf(m)
  {
    if q == [] {
      assert [m][1..] == [];
      assert q + [m] == [m];
      assert ItemsOf(m) + [] == [] + ItemsOf(m);
    } else {
      assert (q + [m])[1..] == q[1..] + [m];
      ItemsAppend(q[1..], m);
      assert ItemsOf(q[0]) + (Items(q[1..]) + ItemsOf(m)) == (ItemsOf(q[0]) + Items(q[1..])) + ItemsOf(m);
    }
  }

  lemma QueueAppends(c: Config, qs: seq<seq<Msg>>, i: nat, m: Msg, y: Item)
    requires i < |qs|
    ensures QueuesShare(c, qs[i := qs[i] + [m]], 0, y) == QueuesShare(c, qs, 0, y) + Share(c, i + 1, ItemsOf(m), y)
  {
    hide Share, Items, QueuesShare;
    QueuesUpdate(c, qs, 0, i, qs[i] + [m], y);
    ItemsAppend(qs[i], m);
    ShareConcat(c, i + 1, Items(qs[i]), ItemsOf(m), y);
  }

  lemma QueueTakes(c: Config, qs: seq<seq<Msg>>, i: nat, y: Item)
    requires i < |qs| && qs[i] != []
    ensures QueuesShare(c, qs[i := qs[i][1..]], 0, y) + Share(c, i + 1, ItemsOf(qs[i][0]), y) == QueuesShare(c, qs, 0, y)
  {
    hide Share, QueuesShare;
    QueuesUpdate(c, qs, 0, i, qs[i][1..], y);
    ShareConcat(c, i + 1, ItemsOf(qs[i][0]), Items(qs[i][1..]), y);
  }

  // What one worker's step moves, it moves between that worker and the queues.
  lemma GetConserves(c: Config, s: State, a: Action, y: Item)
    requires WellFormed(c, s) && Enabled(c, s, a) && a.Get?
    ensures WorkerShare(c, NextWorker(c, s, a), y) + QueuesShare(c, NextQueues(c, s, a), 0, y)
         == WorkerShare(c, s.workers[a.t], y) + QueuesShare(c, s.queues, 0, y)
  {
    hide Share, QueuesShare, Items;
    var w := s.workers[a.t];
    if w.inbuf != [] {
      ShareFirst(c, w.stage, w.inbuf, y);
      ShareConcat(c, w.stage, w.batch, [w.inbuf[0]], y);
    } else {
      var m := s.queues[w.stage - 1][0];
      var got := Taken(m);
      QueueTakes(c, s.queues, w.stage - 1, y);
      ShareConcat(c, w.stage, got.0, got.1, y);
      ShareConcat(c, w.stage, w.batch, got.0, y);
      ShareNothing(c, w.stage, y);
    }
  }

  lemma CallConserves(c: Config, s: State, a: Action, y: Item)
    requires WellFormed(c, s) && Enabled(c, s, a) && a.Call?
    ensures WorkerShare(c, NextWorker(c, s, a), y) == WorkerShare(c, s.workers[a.t], y)
    ensures NextQueues(c, s, a) == s.queues
  {
    hide Worth;
    var w := s.workers[a.t];
    WorthCall(c.f, c.n, w.stage, w.batch);
    WorthNothing(c.f, c.n, w.stage);
    WorthNothing(c.f, c.n, w.stage + 1);
  }

  lemma EmitConserves(c: Config, s: State, a: Action, y: Item)
    requires WellFormed(c, s) && Enabled(c, s, a) && a.Emit?
    ensures WorkerShare(c, NextWorker(c, s, a), y) + QueuesShare(c, NextQueues(c, s, a), 0, y)
         == WorkerShare(c, s.workers[a.t], y) + QueuesShare(c, s.queues, 0, y)
  {
    hide Share, QueuesShare, Items;
    var w := s.workers[a.t];
    ShareFirst(c, w.stage + 1, w.todo, y);
    if c.chunk[w.stage] == 0 {
      QueueAppends(c, s.queues, w.stage, Bare(w.todo[0]), y);
    } else {
      ShareConcat(c, w.stage + 1, w.pending, [w.todo[0]], y);
    }
  }

  lemma FlushConserves(c: Config, s: State, a: Action, y: Item)
    requires WellFormed(c, s) && Enabled(c, s, a) && a.Flush?
    ensures WorkerShare(c, NextWorker(c, s, a), y) + QueuesShare(c, NextQueues(c, s, a), 0, y)
         == WorkerShare(c, s.workers[a.t], y) + QueuesShare(c, s.queues, 0, y)
  {
    hide Share, QueuesShare, Items;
    var w := s.workers[a.t];
    QueueAppends(c, s.queues, w.stage, Chunk(w.pending), y);
    ShareNothing(c, w.stage + 1, y);
  }

  lemma ProtocolConserves(c: Config, s: State, a: Action, y: Item)
    requires WellFormed(c, s) && Enabled(c, s, a)
    requires !(a.Read? || a.Get? || a.Call? || a.Emit? || a.Flush?)
    ensures WorkerShare(c, NextWorker(c, s, a), y) + QueuesShare(c, NextQueues(c, s, a), 0, y)
         == WorkerShare(c, s.workers[a.t], y) + QueuesShare(c, s.queues, 0, y)
  {
    hide Share, QueuesShare, Items;
    var w := s.workers[a.t];
    if a.PutEnd? {
      QueueAppends(c, s.queues, w.stage, End, y);
      ShareNothing(c, w.stage + 1, y);
    }
  }

  lemma ReadConserves(c: Config, s: State, a: Action, y: Item)
    requires WellFormed(c, s) && Enabled(c, s, a) && a.Read?
    ensures ReaderShare(NextReader(c, s, a), y) + QueuesShare(c, NextQueues(c, s, a), 0, y)
         == ReaderShare(s.readers[a.t], y) + QueuesShare(c, s.queues, 0, y)
  {
    hide QueuesShare, Items;
    var r := s.readers[a.t];
    if r.inbuf != [] {
      assert r.inbuf == [r.inbuf[0]] + r.inbuf[1..];
    } else {
      var m := s.queues[c.n - 1][0];
      QueueTakes(c, s.queues, c.n - 1, y);
      assert Share(c, c.n, ItemsOf(m), y) == multiset(ItemsOf(m))[y];
      assert multiset(Taken(m).0 + Taken(m).1)[y] == multiset(ItemsOf(m))[y];
    }
  }

  // Whoever moves, nothing is lost and nothing is made up.
  lemma StepConserves(c: Config, s: State, a: Action, y: Item)
    requires WellFormed(c, s) && Enabled(c, s, a)
    ensures Total(c, Exec(c, s, a), y) == Total(c, s, y)
  {
    hide NextWorker, NextQueues, NextReader, WorkerShare, WorkersShare, QueuesShare, ReaderShare, ReadersShare;
    if a.Read? {
      ReadConserves(c, s, a, y);
      ReadersUpdate(s.readers, a.t, NextReader(c, s, a), y);
    } else {
      WorkersUpdate(c, s.workers, a.t, NextWorker(c, s, a), y);
      if a.Get? { GetConserves(c, s, a, y); }
      else if a.Call? { CallConserves(c, s, a, y); }
      else if a.Emit? { EmitConserves(c, s, a, y); }
      else if a.Flush? { FlushConserves(c, s, a, y); }
      else { ProtocolConserves(c, s, a, y); }
    }
  }

  // ---------- the finishing protocol ----------

  lemma {:induction false} SumUpdate(m: Tally, ws: seq<Worker>, t: nat, w: Worker, i: nat)
    requires t < |ws|
    ensures Sum(m, ws[t := w], i) + Weigh(m, ws[t], i) == Sum(m, ws, i) + Weigh(m, w, i)
  {
    hide Weigh;
    if t == 0 {
      assert ws[t := w][1..] == ws[1..];
    } else {
      SumUpdate(m, ws[1..], t - 1, w, i);
      assert ws[t := w][1..] == ws[1..][t - 1 := w];
    }
  }

  lemma {:induction false} SumCovers(m: Tally, ws: seq<Worker>, t: nat, i: nat)
    requires t < |ws|
    ensures Weigh(m, ws[t], i) <= Sum(m, ws, i)
  {
    hide Weigh;
    if t > 0 {
      SumCovers(m, ws[1..], t - 1, i);
    }
  }

  // As many finished as there are workers: every worker has finished.
  lemma {:induction false} AllGone(ws: seq<Worker>, t: nat, i: nat)
    requires t < |ws|
    ensures Sum(Finished, ws, i) <= Sum(Staff, ws, i)
    ensures Sum(Finished, ws, i) == Sum(Staff, ws, i) && ws[t].stage == i ==> Gone(ws[t].pc)
  {
    assert Weigh(Finished, ws[0], i) <= Weigh(Staff, ws[0], i);
    if |ws| > 1 {
      AllGone(ws[1..], if t > 0 then t - 1 else 0, i);
    }
  }

  function One(b: bool): nat {
    if b then 1 else 0
  }

  // A worker past a point of its exit has emptied what it should have.
  predicate WorkerOk(w: Worker) {
    && (w.stage == 0 ==> w.inbuf == [] && w.batch == [] && !w.pc.Polled?)
    && (!w.pc.Looping? ==> w.inbuf == [] && w.batch == [] && w.todo == [])
    && (w.pc.Counting? || Gone(w.pc) ==> w.pending == [])
  }

  // Exactly one finisher passes the counter test, and only once all are counted.
  predicate StageOk(c: Config, s: State, i: nat)
    requires WellFormed(c, s) && i < c.n
  {
    && c.staff[i] == Sum(Staff, s.workers, i) > 0
    && s.finished[i] == Sum(Finished, s.workers, i) <= c.staff[i]
    && Sum(Finishing, s.workers, i) + One(s.done[i]) == One(s.finished[i] == c.staff[i])
  }

  // Nobody leaves before the stage upstream is done.
  predicate ExitOk(s: State, w: Worker)
    requires w.stage < |s.done|
  {
    w.stage > 0 && !w.pc.Looping? && !w.pc.Polled? ==> s.done[w.stage - 1]
  }

  ghost predicate Inv(c: Config, s: State) {
    && WellFormed(c, s)
    && (forall t :: 0 <= t < |s.workers| ==> WorkerOk(s.workers[t]) && ExitOk(s, s.workers[t]))
    && (forall i :: 0 <= i < c.n ==> StageOk(c, s, i))
  }

  lemma StepOtherWorker(c: Config, s: State, a: Action, t: nat)
    requires Inv(c, s) && Enabled(c, s, a) && t < |s.workers| && (a.Read? || a.t != t)
    ensures WorkerOk(Exec(c, s, a).workers[t]) && ExitOk(Exec(c, s, a), Exec(c, s, a).workers[t])
  {
    hide NextWorker, NextQueues, NextReader, StageOk, Sum, Enabled;
    assert WorkerOk(s.workers[t]) && ExitOk(s, s.workers[t]);
  }

  lemma StepWorker(c: Config, s: State, a: Action)
    requires Inv(c, s) && Enabled(c, s, a) && !a.Read?
    ensures var w := Exec(c, s, a).workers[a.t]; WorkerOk(w) && ExitOk(Exec(c, s, a), w)
  {
    assert WorkerOk(s.workers[a.t]) && ExitOk(s, s.workers[a.t]);
    hide NextQueues, NextReader, StageOk, Sum, Inv, Items, FlatMap, Ends;
  }

  lemma StepStage(c: Config, s: State, a: Action, i: nat)
    requires Inv(c, s) && Enabled(c, s, a) && i < c.n
    ensures StageOk(c, Exec(c, s, a), i)
  {
    hide NextQueues, NextReader, WorkerOk, ExitOk, Sum;
    assert StageOk(c, s, i);
    if !a.Read? {
      var w := NextWorker(c, s, a);
      SumUpdate(Staff, s.workers, a.t, w, i);
      SumUpdate(Finished, s.workers, a.t, w, i);
      SumUpdate(Finishing, s.workers, a.t, w, i);
      SumCovers(Finishing, s.workers, a.t, i);
      AllGone(s.workers, a.t, i);
    }
  }

  lemma StepKeepsInv(c: Config, s: State, a: Action)
    requires Inv(c, s) && Enabled(c, s, a)
    ensures Inv(c, Exec(c, s, a))
  {
    hide NextWorker, NextQueues, NextReader, WorkerOk, ExitOk, StageOk, Enabled, Exec;
    var n := Exec(c, s, a);
    forall t | 0 <= t < |n.workers| ensures WorkerOk(n.workers[t]) && ExitOk(n, n.workers[t]) {
      if a.Read? || a.t != t { StepOtherWorker(c, s, a, t); } else { StepWorker(c, s, a); }
    }
    forall i | 0 <= i < c.n ensures StageOk(c, n, i) {
      StepStage(c, s, a, i);
    }
  }

  // A stage's done event is set only when every worker of it has nothing left:
  // all it emitted is in its output queue or beyond.
  lemma DoneMeansFlushed(c: Config, s: State, i: nat, t: nat)
    requires Inv(c, s) && i < c.n && s.done[i]
    requires t < |s.workers| && s.workers[t].stage == i
    ensures s.workers[t].pc.Parked?
    ensures s.workers[t].inbuf == s.workers[t].batch == s.workers[t].todo == s.workers[t].pending == []
  {
    assert StageOk(c, s, i) && WorkerOk(s.workers[t]);
    AllGone(s.workers, t, i);
    SumCovers(Finishing, s.workers, t, i);
  }

  // A done stage is done for good: its output queue only shrinks from then on.
  lemma DoneIsFinal(c: Config, s: State, a: Action, i: nat)
    requires Inv(c, s) && Enabled(c, s, a) && i < c.n && s.done[i]
    ensures Exec(c, s, a).done[i]
    ensures var q, after := s.queues[i], Exec(c, s, a).queues[i];
            after == q || (q != [] && after == q[1..])
  {
    hide NextWorker, NextReader, StageOk, WorkerOk, ExitOk;
    if !a.Read? && s.workers[a.t].stage == i {
      DoneMeansFlushed(c, s, i, a.t);
    }
  }

  lemma {:induction false} SumPositive(m: Tally, ws: seq<Worker>, i: nat) returns (t: nat)
    requires Sum(m, ws, i) > 0
    ensures t < |ws| && Weigh(m, ws[t], i) > 0
  {
    hide Weigh;
    if Weigh(m, ws[0], i) > 0 {
      t := 0;
    } else {
      var k := SumPositive(m, ws[1..], i);
      t := k + 1;
    }
  }

  // When a stage has counted out its workers, every stage upstream is done.
  lemma {:induction false} UpstreamDone(c: Config, s: State, i: nat, j: nat)
    requires Inv(c, s) && j < i < c.n && s.finished[i] == c.staff[i]
    ensures s.done[j]
    decreases i
  {
    assert StageOk(c, s, i) && StageOk(c, s, i - 1);
    var t := SumPositive(Staff, s.workers, i);
    AllGone(s.workers, t, i);
    assert ExitOk(s, s.workers[t]);
    if j < i - 1 {
      UpstreamDone(c, s, i - 1, j);
    }
  }

  // ---------- the End sentinels ----------

  function EndsIn(q: seq<Msg>): nat {
    if q == [] then 0 else One(q[0].End?) + EndsIn(q[1..])
  }

  function Stopped(rs: seq<Reader>): nat {
    if rs == [] then 0 else One(rs[0].stopped) + Stopped(rs[1..])
  }

  predicate EndsLast(q: seq<Msg>) {
    forall i, j :: 0 <= i < j < |q| && q[i].End? ==> q[j].End?
  }

  // The Ends of the final stage: each is owed, queued, or stopped its reader,
  // they come after every item, and there is one for each reader.
  ghost predicate EndsOk(c: Config, s: State)
    requires WellFormed(c, s)
  {
    var q := s.queues[c.n - 1];
    var all := EndsIn(q) + Stopped(s.readers) + Sum(Owed, s.workers, c.n - 1);
    && EndsLast(q)
    && (s.finished[c.n - 1] < c.staff[c.n - 1] ==> all == 0)
    && all <= |s.readers|
    && (s.finished[c.n - 1] == c.staff[c.n - 1] && !s.lostEnd ==> all == |s.readers|)
    && (Stopped(s.readers) > 0 ==> Items(q) == [])
    && forall r :: 0 <= r < |s.readers| && s.readers[r].stopped ==> s.readers[r].inbuf == []
  }

  lemma {:induction false} EndsInAppend(q: seq<Msg>, m: Msg)
    ensures EndsIn(q + [m]) == EndsIn(q) + One(m.End?)
  {
    if q == [] {
      assert (q + [m])[1..] == [];
    } else {
      EndsInAppend(q[1..], m);
      assert (q + [m])[1..] == q[1..] + [m];
    }
  }

  lemma {:induction false} NoEnds(q: seq<Msg>, k: nat)
    requires k < |q| && EndsIn(q) == 0
    ensures !q[k].End?
  {
    if k > 0 {
      NoEnds(q[1..], k - 1);
    }
  }

  lemma {:induction false} OnlyEnds(q: seq<Msg>)
    requires forall k :: 0 <= k < |q| ==> q[k].End?
    ensures Items(q) == []
  {
    if q != [] {
      OnlyEnds(q[1..]);
    }
  }

  lemma {:induction false} StoppedUpdate(rs: seq<Reader>, t: nat, r: Reader)
    requires t < |rs|
    ensures Stopped(rs[t := r]) + One(rs[t].stopped) == Stopped(rs) + One(r.stopped)
  {
    if t == 0 {
      assert rs[t := r][1..] == rs[1..];
    } else {
      StoppedUpdate(rs[1..], t - 1, r);
      assert rs[t := r][1..] == rs[1..][t - 1 := r];
    }
  }

  lemma {:induction false} StoppedAtMost(rs: seq<Reader>, t: nat)
    requires t < |rs|
    ensures One(rs[t].stopped) <= Stopped(rs) <= |rs|
    ensures Stopped(rs) == |rs| ==> rs[t].stopped
  {
    if |rs| > 1 {
      StoppedAtMost(rs[1..], if t > 0 then t - 1 else 0);
    }
    assert rs[0].stopped || Stopped(rs) <= |rs| - 1 by {
      if |rs| > 1 { StoppedAtMost(rs[1..], 0); }
    }
  }

  lemma ReadKeepsEnds(c: Config, s: State, a: Action)
    requires Inv(c, s) && EndsOk(c, s) && Enabled(c, s, a) && a.Read?
    ensures EndsOk(c, Exec(c, s, a))
  {
    hide StageOk, WorkerOk, ExitOk, Sum;
    var q := s.queues[c.n - 1];
    var r := s.readers[a.t];
    StoppedUpdate(s.readers, a.t, NextReader(c, s, a));
    if r.inbuf == [] && q[0].End? {
      OnlyEnds(q[1..]);
    }
  }

  // Only a worker that is not counted yet sends items.
  lemma SendKeepsEnds(c: Config, s: State, a: Action)
    requires Inv(c, s) && EndsOk(c, s) && Enabled(c, s, a) && (a.Emit? || a.Flush?)
    ensures EndsOk(c, Exec(c, s, a))
  {
    hide StageOk, WorkerOk, ExitOk, Sum;
    var w := s.workers[a.t];
    var q := s.queues[c.n - 1];
    SumUpdate(Owed, s.workers, a.t, NextWorker(c, s, a), c.n - 1);
    if w.stage == c.n - 1 && Exec(c, s, a).queues[c.n - 1] != q {
      NotAllCounted(c, s, a.t);
      EndsInAppend(q, Exec(c, s, a).queues[c.n - 1][|q|]);
      forall k | 0 <= k < |q| ensures !q[k].End? {
        NoEnds(q, k);
      }
    }
  }

  lemma NotAllCounted(c: Config, s: State, t: nat)
    requires Inv(c, s) && t < |s.workers| && !Gone(s.workers[t].pc)
    ensures s.finished[s.workers[t].stage] < c.staff[s.workers[t].stage]
  {
    var i := s.workers[t].stage;
    assert StageOk(c, s, i);
    AllGone(s.workers, t, i);
  }

  lemma PutEndKeepsEnds(c: Config, s: State, a: Action)
    requires Inv(c, s) && EndsOk(c, s) && Enabled(c, s, a) && (a.PutEnd? || a.EndFull?)
    ensures EndsOk(c, Exec(c, s, a))
  {
    hide StageOk, WorkerOk, ExitOk, Sum, Items, EndsIn, Stopped, NextReader;
    var w := s.workers[a.t];
    var q := s.queues[c.n - 1];
    SumUpdate(Owed, s.workers, a.t, NextWorker(c, s, a), c.n - 1);
    SumCovers(Owed, s.workers, a.t, c.n - 1);
    if a.PutEnd? && w.stage == c.n - 1 {
      EndsInAppend(q, End);
      ItemsAppend(q, End);
      assert Exec(c, s, a).queues[c.n - 1] == q + [End];
    } else {
      assert Exec(c, s, a).queues[c.n - 1] == q;
    }
  }

  lemma OthersKeepEnds(c: Config, s: State, a: Action)
    requires Inv(c, s) && EndsOk(c, s) && Enabled(c, s, a)
    requires !(a.Read? || a.Emit? || a.Flush? || a.PutEnd? || a.EndFull?)
    ensures EndsOk(c, Exec(c, s, a))
  {
    hide WorkerOk, ExitOk, Sum;
    var w := s.workers[a.t];
    SumUpdate(Owed, s.workers, a.t, NextWorker(c, s, a), c.n - 1);
    assert Exec(c, s, a).queues[c.n - 1] == s.queues[c.n - 1];
    assert StageOk(c, s, c.n - 1);
    if a.Count? {
      NotAllCounted(c, s, a.t);
    }
  }

  lemma StepKeepsEnds(c: Config, s: State, a: Action)
    requires Inv(c, s) && EndsOk(c, s) && Enabled(c, s, a)
    ensures EndsOk(c, Exec(c, s, a))
  {
    hide Inv, EndsOk, Exec, Enabled;
    if a.Read? { ReadKeepsEnds(c, s, a); }
    else if a.Emit? || a.Flush? { SendKeepsEnds(c, s, a); }
    else if a.PutEnd? || a.EndFull? { PutEndKeepsEnds(c, s, a); }
    else { OthersKeepEnds(c, s, a); }
  }

  // No empty chunk is ever on a queue.
  ghost predicate AllSendable(qs: seq<seq<Msg>>) {
    forall i, k :: 0 <= i < |qs| && 0 <= k < |qs[i]| ==> Sendable(qs[i][k])
  }

  lemma StepKeepsSendable(c: Config, s: State, a: Action)
    requires WellFormed(c, s) && AllSendable(s.queues) && Enabled(c, s, a)
    ensures AllSendable(Exec(c, s, a).queues)
  {
    hide NextWorker, NextReader;
  }

  // ---------- whole runs ----------

  lemma {:induction false} NothingCounted(ws: seq<Worker>, m: Tally, i: nat)
    requires forall t :: 0 <= t < |ws| ==> ws[t].pc.Looping?
    ensures m.Staff? || Sum(m, ws, i) == 0
  {
    if ws != [] {
      NothingCounted(ws[1..], m, i);
    }
  }

  lemma {:induction false} NobodyStopped(rs: seq<Reader>)
    requires forall r :: 0 <= r < |rs| ==> rs[r] == Reader([], [], false)
    ensures Stopped(rs) == 0
    ensures forall y :: ReadersShare(rs, y) == 0
  {
    if rs != [] {
      NobodyStopped(rs[1..]);
    }
  }

  lemma InitialInv(c: Config, s: State)
    requires Initial(c, s)
    ensures Inv(c, s) && EndsOk(c, s) && AllSendable(s.queues)
  {
    hide Sum;
    forall i | 0 <= i < c.n ensures StageOk(c, s, i) {
      NothingCounted(s.workers, Finished, i);
      NothingCounted(s.workers, Finishing, i);
    }
    NothingCounted(s.workers, Owed, c.n - 1);
    NobodyStopped(s.readers);
  }

  lemma {:induction false} RunKeeps(c: Config, s: State, run: seq<Action>, y: Item)
    requires Inv(c, s) && EndsOk(c, s) && AllSendable(s.queues) && Enabling(c, s, run)
    ensures var n := ExecAll(c, s, run);
            Inv(c, n) && EndsOk(c, n) && AllSendable(n.queues) && Total(c, n, y) == Total(c, s, y)
    decreases |run|
  {
    hide EndsOk, AllSendable, Total, Enabled, Exec;
    if run != [] {
      StepKeepsInv(c, s, run[0]);
      StepKeepsEnds(c, s, run[0]);
      StepKeepsSendable(c, s, run[0]);
      StepConserves(c, s, run[0], y);
      hide Inv;
      RunKeeps(c, Exec(c, s, run[0]), run[1..], y);
    }
  }

  // What the root workers will produce, one worker's script after another.
  function Source(ws: seq<Worker>): seq<Item> {
    if ws == [] then [] else ws[0].todo + Source(ws[1..])
  }

  lemma {:induction false} SourceShare(c: Config, ws: seq<Worker>, y: Item)
    requires forall t :: 0 <= t < |ws| ==>
               ws[t].inbuf == ws[t].batch == ws[t].pending == [] && (ws[t].stage > 0 ==> ws[t].todo == [])
    ensures WorkersShare(c, ws, y) == Share(c, 1, Source(ws), y)
  {
    hide Share;
    if ws == [] {
      ShareNothing(c, 1, y);
    } else {
      SourceShare(c, ws[1..], y);
      ShareConcat(c, 1, ws[0].todo, Source(ws[1..]), y);
      ShareNothing(c, ws[0].stage, y);
      ShareNothing(c, ws[0].stage + 1, y);
      ShareNothing(c, 1, y);
    }
  }

  lemma {:induction false} NothingQueued(c: Config, qs: seq<seq<Msg>>, from: nat, y: Item)
    requires forall i :: 0 <= i < |qs| ==> Items(qs[i]) == []
    ensures QueuesShare(c, qs, from, y) == 0
  {
    hide Share, Items;
    if qs != [] {
      ShareNothing(c, from + 1, y);
      NothingQueued(c, qs[1..], from + 1, y);
    }
  }

  lemma InitialTotal(c: Config, s: State, y: Item)
    requires Initial(c, s)
    ensures Total(c, s, y) == Share(c, 1, Source(s.workers), y)
  {
    hide Share;
    SourceShare(c, s.workers, y);
    NothingQueued(c, s.queues, 0, y);
    NobodyStopped(s.readers);
  }

  // What the readers have returned.
  function Delivered(rs: seq<Reader>): multiset<Item> {
    if rs == [] then multiset{} else multiset(rs[0].out) + Delivered(rs[1..])
  }

  // What is left on the queues between stages.
  function Stranded(c: Config, s: State, y: Item): nat
    requires WellFormed(c, s)
  {
    QueuesShare(c, s.queues[..c.n - 1], 0, y)
  }

  lemma {:induction false} AllDelivered(rs: seq<Reader>, y: Item)
    requires forall r :: 0 <= r < |rs| ==> rs[r].inbuf == []
    ensures ReadersShare(rs, y) == Delivered(rs)[y]
  {
    if rs != [] {
      AllDelivered(rs[1..], y);
    }
  }

  lemma {:induction false} NothingHeld(c: Config, ws: seq<Worker>, y: Item)
    requires forall t :: 0 <= t < |ws| ==> ws[t].inbuf == ws[t].batch == ws[t].todo == ws[t].pending == []
    ensures WorkersShare(c, ws, y) == 0
  {
    hide Share;
    if ws != [] {
      NothingHeld(c, ws[1..], y);
      ShareNothing(c, ws[0].stage, y);
      ShareNothing(c, ws[0].stage + 1, y);
    }
  }

  lemma {:induction false} QueuesSplit(c: Config, qs: seq<seq<Msg>>, from: nat, y: Item)
    requires qs != []
    ensures QueuesShare(c, qs, from, y)
         == QueuesShare(c, qs[..|qs| - 1], from, y) + Share(c, from + |qs|, Items(qs[|qs| - 1]), y)
  {
    hide Share, Items;
    var last := |qs| - 1;
    if last > 0 {
      QueuesSplit(c, qs[1..], from + 1, y);
      assert qs[1..][..last - 1] == qs[..last][1..];
    }
  }

  ghost predicate AllStopped(s: State) {
    s.readers != [] && forall r :: 0 <= r < |s.readers| ==> s.readers[r].stopped
  }

  // Once every reader has stopped, no worker holds anything and the final queue
  // holds no item.
  lemma StoppedMeansFinished(c: Config, s: State)
    requires Inv(c, s) && EndsOk(c, s) && AllStopped(s)
    ensures Items(s.queues[c.n - 1]) == []
    ensures forall r :: 0 <= r < |s.readers| ==> s.readers[r].inbuf == []
    ensures forall i :: 0 <= i < c.n - 1 ==> s.done[i]
    ensures forall t :: 0 <= t < |s.workers| ==>
              var w := s.workers[t]; w.inbuf == w.batch == w.todo == w.pending == []
  {
    hide Sum, Items;
    StoppedAtMost(s.readers, 0);
    assert s.finished[c.n - 1] == c.staff[c.n - 1] by {
      assert StageOk(c, s, c.n - 1);
    }
    forall i | 0 <= i < c.n - 1 ensures s.done[i] {
      UpstreamDone(c, s, c.n - 1, i);
    }
    forall t | 0 <= t < |s.workers|
      ensures var w := s.workers[t]; w.inbuf == w.batch == w.todo == w.pending == []
    {
      var i := s.workers[t].stage;
      if i < c.n - 1 {
        DoneMeansFlushed(c, s, i, t);
      } else {
        assert WorkerOk(s.workers[t]) && StageOk(c, s, i);
        AllGone(s.workers, t, i);
      }
    }
  }

  // Whatever the interleaving: once every reader has stopped, what they returned
  // and what was stranded between stages together are the composed flat-map of
  // the root's items, copy for copy.
  lemma RunAccounts(c: Config, s: State, run: seq<Action>, y: Item)
    requires Initial(c, s) && Enabling(c, s, run) && AllStopped(ExecAll(c, s, run))
    ensures var n := ExecAll(c, s, run);
            Delivered(n.readers)[y] + Stranded(c, n, y) == multiset(Composed(c.f, c.n, 1, Source(s.workers)))[y]
  {
    var n := ExecAll(c, s, run);
    hide Exec, Enabled, Items, EndsOk, StageOk, WorkerOk, ExitOk, Composed, Source, WorkersShare, ReadersShare, QueuesShare;
    InitialInv(c, s);
    InitialTotal(c, s, y);
    RunKeeps(c, s, run, y);
    StoppedMeansFinished(c, n);
    NothingHeld(c, n.workers, y);
    AllDelivered(n.readers, y);
    QueuesSplit(c, n.queues, 0, y);
    ShareNothing(c, c.n, y);
  }

  // ---------- polls in one step ----------

  // Every empty poll is followed at once by its check of upstream_done.
  predicate Atomic(run: seq<Action>)
    decreases |run|
  {
    run == []
    || (!run[0].Poll? && !run[0].Check? && Atomic(run[1..]))
    || (run[0].Poll? && (|run| == 1 || (run[1] == Check(run[0].t) && Atomic(run[2..]))))
  }

  // Whoever has left saw its input queue without an item after upstream was done.
  predicate LeftClean(s: State, w: Worker)
    requires w.stage < |s.clean|
  {
    w.stage > 0 && !w.pc.Looping? && !w.pc.Polled? ==> s.clean[w.stage]
  }

  predicate StageClean(c: Config, s: State, i: nat)
    requires WellFormed(c, s) && i < c.n
  {
    s.clean[i] ==> i > 0 && s.done[i - 1] && Items(s.queues[i - 1]) == []
  }

  ghost predicate CleanOk(c: Config, s: State) {
    && WellFormed(c, s)
    && (forall t :: 0 <= t < |s.workers| ==> LeftClean(s, s.workers[t]))
    && (forall i :: 0 <= i < c.n ==> StageClean(c, s, i))
  }

  lemma StepLeavers(c: Config, s: State, a: Action, t: nat)
    requires WellFormed(c, s) && Enabled(c, s, a) && t < |s.workers| && LeftClean(s, s.workers[t])
    requires a.Check? ==> s.workers[a.t].stage > 0 && Items(s.queues[s.workers[a.t].stage - 1]) == []
    ensures LeftClean(Exec(c, s, a), Exec(c, s, a).workers[t])
  {
    hide NextReader, NextQueues, Items;
    if a.Read? || a.t != t {
      hide NextWorker;
    }
  }

  lemma StepKeepsClean(c: Config, s: State, a: Action)
    requires Inv(c, s) && CleanOk(c, s) && Enabled(c, s, a)
    requires a.Check? ==> s.workers[a.t].stage > 0 && Items(s.queues[s.workers[a.t].stage - 1]) == []
    ensures CleanOk(c, Exec(c, s, a))
  {
    hide Inv, NextReader, NextWorker, NextQueues, LeftClean;
    var n := Exec(c, s, a);
    forall t | 0 <= t < |n.workers| ensures LeftClean(n, n.workers[t]) {
      StepLeavers(c, s, a, t);
    }
    forall i | 0 <= i < c.n ensures StageClean(c, n, i) {
      assert StageClean(c, s, i);
      if i > 0 && s.done[i - 1] {
        DoneIsFinal(c, s, a, i - 1);
      }
    }
  }

  lemma {:induction false} AtomicRunIsClean(c: Config, s: State, run: seq<Action>)
    requires Inv(c, s) && CleanOk(c, s) && Enabling(c, s, run) && Atomic(run)
    ensures CleanOk(c, ExecAll(c, s, run))
    decreases |run|
  {
    hide CleanOk, StageOk, WorkerOk, ExitOk, NextReader;
    if run != [] {
      var n := Exec(c, s, run[0]);
      StepKeepsInv(c, s, run[0]);
      StepKeepsClean(c, s, run[0]);
      if !run[0].Poll? {
        AtomicRunIsClean(c, n, run[1..]);
      } else if |run| > 1 {
        var next := Exec(c, n, run[1]);
        StepKeepsInv(c, n, run[1]);
        StepKeepsClean(c, n, run[1]);
        assert run[1..][1..] == run[2..];
        AtomicRunIsClean(c, next, run[2..]);
      }
    }
  }

  // Every stage has a worker, which has left.
  lemma LeaverOf(c: Config, s: State, i: nat)
    requires Inv(c, s) && EndsOk(c, s) && AllStopped(s) && CleanOk(c, s) && 0 < i < c.n
    ensures Items(s.queues[i - 1]) == []
  {
    hide Items, ExitOk, WorkerOk, Sum;
    StoppedAtMost(s.readers, 0);
    assert StageOk(c, s, i) && StageOk(c, s, c.n - 1) && StageClean(c, s, i);
    if i < c.n - 1 {
      UpstreamDone(c, s, c.n - 1, i);
    }
    var t := SumPositive(Staff, s.workers, i);
    AllGone(s.workers, t, i);
    assert LeftClean(s, s.workers[t]);
  }

  lemma InitialClean(c: Config, s: State)
    requires Initial(c, s)
    ensures CleanOk(c, s)
  {
    hide Sum;
  }

  lemma NothingStranded(c: Config, s: State, run: seq<Action>, i: nat)
    requires Initial(c, s) && Enabling(c, s, run) && Atomic(run) && AllStopped(ExecAll(c, s, run)) && i < c.n - 1
    ensures Items(ExecAll(c, s, run).queues[i]) == []
  {
    hide Exec, Enabled, ExecAll, Enabling, Atomic, AllStopped, Items, EndsOk, Inv, AllSendable, CleanOk, Total;
    InitialInv(c, s);
    InitialClean(c, s);
    RunKeeps(c, s, run, 0);
    AtomicRunIsClean(c, s, run);
    LeaverOf(c, ExecAll(c, s, run), i + 1);
  }

  // With every empty poll and its upstream_done check in one step, the readers
  // return exactly the composed flat-map of the root's items.
  lemma AtomicPollsLoseNothing(c: Config, s: State, run: seq<Action>)
    requires Initial(c, s) && Enabling(c, s, run) && Atomic(run) && AllStopped(ExecAll(c, s, run))
    ensures Delivered(ExecAll(c, s, run).readers) == multiset(Composed(c.f, c.n, 1, Source(s.workers)))
  {
    hide Exec, Enabled, ExecAll, Enabling, Atomic, AllStopped, Items, EndsOk, Inv, AllSendable, CleanOk;
    hide Total, Composed, Source, Delivered, QueuesShare;
    var n := ExecAll(c, s, run);
    var left := n.queues[..c.n - 1];
    forall i | 0 <= i < |left| ensures Items(left[i]) == [] {
      NothingStranded(c, s, run, i);
    }
    forall y ensures Delivered(n.readers)[y] == multiset(Composed(c.f, c.n, 1, Source(s.workers)))[y] {
      RunAccounts(c, s, run, y);
      NothingQueued(c, left, 0, y);
    }
  }

  // A reader that has not stopped when the final stage is done can always move,
  // unless the put of an End timed out.
  lemma ReadersFinish(c: Config, s: State, r: nat)
    requires Inv(c, s) && EndsOk(c, s) && AllSendable(s.queues)
    requires s.done[c.n - 1] && !s.lostEnd && r < |s.readers| && !s.readers[r].stopped
    ensures Enabled(c, s, Read(r))
  {
    hide WorkerOk, ExitOk;
    assert StageOk(c, s, c.n - 1);
    StoppedAtMost(s.readers, r);
    NothingOwed(s.workers, c.n - 1);
  }

  // What there is left to read: the final queue's messages and their items, and
  // the readers' buffers.
  function Buffered(rs: seq<Reader>): nat {
    if rs == [] then 0 else |rs[0].inbuf| + Buffered(rs[1..])
  }

  function LeftToRead(c: Config, s: State): nat
    requires WellFormed(c, s)
  {
    var q := s.queues[c.n - 1];
    |q| + |Items(q)| + Buffered(s.readers)
  }

  function Reads(run: seq<Action>): nat {
    if run == [] then 0 else One(run[0].Read?) + Reads(run[1..])
  }

  lemma {:induction false} BufferedUpdate(rs: seq<Reader>, t: nat, r: Reader)
    requires t < |rs|
    ensures Buffered(rs[t := r]) + |rs[t].inbuf| == Buffered(rs) + |r.inbuf|
  {
    if t == 0 {
      assert rs[t := r][1..] == rs[1..];
    } else {
      BufferedUpdate(rs[1..], t - 1, r);
      assert rs[t := r][1..] == rs[1..][t - 1 := r];
    }
  }

  lemma ReadTakes(c: Config, s: State, a: Action)
    requires WellFormed(c, s) && Enabled(c, s, a) && a.Read?
    ensures LeftToRead(c, Exec(c, s, a)) < LeftToRead(c, s)
  {
    hide Buffered;
    BufferedUpdate(s.readers, a.t, NextReader(c, s, a));
  }

  // Once the final stage is done nobody but the readers touches what is left.
  lemma OthersLeaveIt(c: Config, s: State, a: Action)
    requires Inv(c, s) && Enabled(c, s, a) && s.done[c.n - 1] && !a.Read?
    ensures var n := Exec(c, s, a);
            n.queues[c.n - 1] == s.queues[c.n - 1] && n.readers == s.readers && n.lostEnd == s.lostEnd
  {
    hide NextWorker, NextReader, StageOk, WorkerOk, ExitOk;
    if s.workers[a.t].stage == c.n - 1 {
      DoneMeansFlushed(c, s, c.n - 1, a.t);
    }
  }

  lemma ReadKeepsLostEnd(c: Config, s: State, a: Action)
    requires WellFormed(c, s) && Enabled(c, s, a) && a.Read?
    ensures Exec(c, s, a).lostEnd == s.lostEnd
  {
  }

  lemma {:induction false} ReadsAreBounded(c: Config, s: State, run: seq<Action>)
    requires Inv(c, s) && Enabling(c, s, run) && s.done[c.n - 1] && !s.lostEnd
    ensures var n := ExecAll(c, s, run);
            n.done[c.n - 1] && !n.lostEnd && Reads(run) + LeftToRead(c, n) <= LeftToRead(c, s)
    decreases |run|
  {
    if run != [] {
      var n := Exec(c, s, run[0]);
      StepKeepsInv(c, s, run[0]);
      DoneIsFinal(c, s, run[0], c.n - 1);
      if run[0].Read? {
        ReadTakes(c, s, run[0]);
        ReadKeepsLostEnd(c, s, run[0]);
      } else {
        OthersLeaveIt(c, s, run[0]);
      }
      hide Exec, Enabled, StageOk, WorkerOk, ExitOk, Items, Buffered;
      ReadsAreBounded(c, n, run[1..]);
    }
  }

  // From then on the readers make finitely many reads, whatever else happens, and
  // when none of them can move, all have stopped.
  lemma ReadersStop(c: Config, s: State, before: seq<Action>, after: seq<Action>)
    requires Initial(c, s) && Enabling(c, s, before) && Enabling(c, ExecAll(c, s, before), after)
    requires ExecAll(c, s, before).done[c.n - 1] && !ExecAll(c, s, before).lostEnd
    ensures var m := ExecAll(c, s, before);
            var n := ExecAll(c, m, after);
            && Reads(after) + LeftToRead(c, n) <= LeftToRead(c, m)
            && ((forall r :: 0 <= r < |n.readers| ==> !Enabled(c, n, Read(r)))
                <==> forall r :: 0 <= r < |n.readers| ==> n.readers[r].stopped)
  {
    hide Exec, Inv, EndsOk, AllSendable, Total, Items, Buffered, Sum;
    var m := ExecAll(c, s, before);
    InitialInv(c, s);
    RunKeeps(c, s, before, 0);
    RunKeeps(c, m, after, 0);
    ReadsAreBounded(c, m, after);
    var n := ExecAll(c, m, after);
    forall r | 0 <= r < |n.readers| ensures Enabled(c, n, Read(r)) <==> !n.readers[r].stopped {
      if !n.readers[r].stopped {
        ReadersFinish(c, n, r);
      }
    }
  }

  lemma {:induction false} NothingOwed(ws: seq<Worker>, i: nat)
    requires Sum(Finishing, ws, i) == 0
    ensures Sum(Owed, ws, i) == 0
  {
    if ws != [] {
      NothingOwed(ws[1..], i);
    }
  }

  // ---------- the last one out ----------

  function EndMarks(k: nat): (q: seq<Msg>)
    ensures |q| == k && forall j :: 0 <= j < k ==> q[j] == End
  {
    seq(k, _ => End)
  }

  function EndPuts(t: nat, k: nat): seq<Action> {
    if k == 0 then [SetDone(t)] else [PutEnd(t)] + EndPuts(t, k - 1)
  }

  // The state once worker t has put k Ends and parked.
  function Closed(s: State, t: nat, k: nat): State
    requires t < |s.workers| && s.workers[t].stage < |s.queues| && s.workers[t].stage < |s.done|
  {
    var w := s.workers[t];
    s.(workers := s.workers[t := w.(pc := Parked)], queues := s.queues[w.stage := s.queues[w.stage] + EndMarks(k)],
       done := s.done[w.stage := true])
  }

  lemma {:induction false} PutsEnds(c: Config, s: State, t: nat, k: nat)
    requires WellFormed(c, s) && t < |s.workers| && s.workers[t].pc == Ending(k)
    ensures Enabling(c, s, EndPuts(t, k)) && ExecAll(c, s, EndPuts(t, k)) == Closed(s, t, k)
    decreases k
  {
    hide Items, FlatMap;
    var i := s.workers[t].stage;
    if k == 0 {
      assert Exec(c, s, SetDone(t)) == Closed(s, t, 0) by {
        assert s.queues[i] + EndMarks(0) == s.queues[i];
        assert s.queues[i := s.queues[i]] == s.queues;
      }
      var n := Exec(c, s, SetDone(t));
      assert Enabling(c, n, []) && ExecAll(c, n, []) == n;
      hide Exec, Enabled;
      Prepend(c, s, SetDone(t), n, []);
      assert [SetDone(t)] + [] == [SetDone(t)];
    } else {
      var n := Exec(c, s, PutEnd(t));
      assert Closed(n, t, k - 1) == Closed(s, t, k) by {
        assert (s.queues[i] + [End]) + EndMarks(k - 1) == s.queues[i] + EndMarks(k);
        assert n.workers[t].(pc := Parked) == s.workers[t].(pc := Parked);
      }
      PutsEnds(c, n, t, k - 1);
      hide Exec, Enabled, ExecAll, Enabling, Closed;
      Prepend(c, s, PutEnd(t), n, EndPuts(t, k - 1));
    }
  }

  // The worker whose count completes its stage can put its Ends, one behind the
  // last stage for every reader and one behind any other, and then the stage is
  // done and nothing else has changed; any other worker just parks.
  lemma LastOneOut(c: Config, s: State, t: nat)
    requires WellFormed(c, s) && t < |s.workers| && s.workers[t].pc.Counting?
    ensures Enabled(c, s, Count(t))
    ensures var i, n := s.workers[t].stage, Exec(c, s, Count(t));
      var counted := s.(finished := s.finished[i := s.finished[i] + 1]);
      if s.finished[i] + 1 < c.staff[i] then
        n == counted.(workers := s.workers[t := s.workers[t].(pc := Parked)])
      else
        var k := if i + 1 == c.n then |s.readers| else 1;
        Enabling(c, n, EndPuts(t, k)) && ExecAll(c, n, EndPuts(t, k)) == Closed(counted, t, k)
  {
    hide Items, FlatMap, Enabling, ExecAll;
    var i, n := s.workers[t].stage, Exec(c, s, Count(t));
    if s.finished[i] + 1 >= c.staff[i] {
      var k := if i + 1 == c.n then |s.readers| else 1;
      PutsEnds(c, n, t, k);
    }
  }

  // ---------- nobody gets stuck ----------

  // What a worker that has not parked can do next.
  lemma WorkerCanMove(c: Config, s: State, t: nat) returns (a: Action)
    requires Inv(c, s) && AllSendable(s.queues) && t < |s.workers| && !s.workers[t].pc.Parked?
    ensures Enabled(c, s, a) && a.t == t && !a.Read? && !a.EndFull?
  {
    hide StageOk, ExitOk;
    var w := s.workers[t];
    assert WorkerOk(w);
    match w.pc {
      case Looping =>
        if w.todo != [] {
          a := if c.chunk[w.stage] == 0 || |w.pending| < c.chunk[w.stage] then Emit(t) else Flush(t);
        } else if w.stage == 0 {
          a := RootEnds(t);
        } else if w.batch != [] {
          a := Call(t);
        } else {
          a := if w.inbuf != [] || s.queues[w.stage - 1] != [] then Get(t) else Poll(t);
        }
      case Polled => a := Check(t);
      case Leaving => a := if w.pending != [] then Flush(t) else Drained(t);
      case Counting => a := Count(t);
      case Ending(left) => a := if left > 0 then PutEnd(t) else SetDone(t);
    }
  }

  // With all workers parked every stage is done.
  lemma AllParked(c: Config, s: State, i: nat)
    requires Inv(c, s) && i < c.n && forall t :: 0 <= t < |s.workers| ==> s.workers[t].pc.Parked?
    ensures s.done[i]
  {
    assert StageOk(c, s, i);
    ParkedAreFinished(s.workers, i);
  }

  lemma {:induction false} ParkedAreFinished(ws: seq<Worker>, i: nat)
    requires forall t :: 0 <= t < |ws| ==> ws[t].pc.Parked?
    ensures Sum(Finished, ws, i) == Sum(Staff, ws, i) && Sum(Finishing, ws, i) == 0
  {
    if ws != [] {
      ParkedAreFinished(ws[1..], i);
    }
  }

  predicate AllAreParked(s: State) {
    forall t :: 0 <= t < |s.workers| ==> s.workers[t].pc.Parked?
  }

  // In every reachable state a worker that has not parked can move, whatever the
  // others do; and when all have, every reader that has not stopped can, unless a
  // put of an End timed out.
  lemma NobodyIsStuck(c: Config, s: State, run: seq<Action>, t: nat)
    requires Initial(c, s) && Enabling(c, s, run)
    ensures var n := ExecAll(c, s, run);
      && (t < |n.workers| && !n.workers[t].pc.Parked? ==> exists a :: Enabled(c, n, a) && a.t == t && !a.Read? && !a.EndFull?)
      && (t < |n.readers| && !n.readers[t].stopped && !n.lostEnd && AllAreParked(n) ==> Enabled(c, n, Read(t)))
  {
    hide Exec, Enabled, Inv, EndsOk, AllSendable, Total, Sum;
    InitialInv(c, s);
    RunKeeps(c, s, run, 0);
    var n := ExecAll(c, s, run);
    if t < |n.workers| && !n.workers[t].pc.Parked? {
      var a := WorkerCanMove(c, n, t);
    }
    if t < |n.readers| && !n.readers[t].stopped && !n.lostEnd && AllAreParked(n) {
      AllParked(c, n, c.n - 1);
      ReadersFinish(c, n, t);
    }
  }

  // ---------- sizes ----------

  // A worker collects no more than its batch size and holds no more than its chunk
  // size; without chunks items travel bare, with them never, and none is larger.
  predicate WorkerFits(c: Config, w: Worker)
    requires w.stage < |c.batch| && w.stage < |c.chunk|
  {
    && |w.batch| <= (if c.batch[w.stage] == 0 then 1 else c.batch[w.stage])
    && |w.pending| <= c.chunk[w.stage]
  }

  predicate MsgFits(c: Config, i: nat, m: Msg)
    requires i < |c.chunk|
  {
    match m
    case Bare(_) => c.chunk[i] == 0
    case Chunk(xs) => |xs| <= c.chunk[i]
    case End => true
  }

  ghost predicate SizesOk(c: Config, s: State)
    requires WellFormed(c, s)
  {
    && (forall t :: 0 <= t < |s.workers| ==> WorkerFits(c, s.workers[t]))
    && (forall i, k :: 0 <= i < c.n && 0 <= k < |s.queues[i]| ==> MsgFits(c, i, s.queues[i][k]))
  }

  lemma StepKeepsSizes(c: Config, s: State, a: Action)
    requires WellFormed(c, s) && SizesOk(c, s) && Enabled(c, s, a)
    ensures SizesOk(c, Exec(c, s, a))
  {
    var n := Exec(c, s, a);
    forall t | 0 <= t < |n.workers| ensures WorkerFits(c, n.workers[t]) {
      WorkerStaysFit(c, s, a, t);
    }
    forall i, k | 0 <= i < c.n && 0 <= k < |n.queues[i]| ensures MsgFits(c, i, n.queues[i][k]) {
      QueueStaysFit(c, s, a, i, k);
    }
  }

  lemma WorkerStaysFit(c: Config, s: State, a: Action, t: nat)
    requires WellFormed(c, s) && SizesOk(c, s) && Enabled(c, s, a) && t < |s.workers|
    ensures WorkerFits(c, Exec(c, s, a).workers[t])
  {
    assert WorkerFits(c, s.workers[t]);
    hide NextQueues, NextReader, MsgFits, Items, SizesOk, MayLeave, Ends, FlatMap;
    if a.Read? || a.t != t {
      hide NextWorker;
    }
  }

  lemma QueueStaysFit(c: Config, s: State, a: Action, i: nat, k: nat)
    requires WellFormed(c, s) && SizesOk(c, s) && Enabled(c, s, a) && i < c.n && k < |Exec(c, s, a).queues[i]|
    ensures MsgFits(c, i, Exec(c, s, a).queues[i][k])
  {
    hide NextWorker, NextReader, Items;
    assert !a.Read? ==> WorkerFits(c, s.workers[a.t]);
    var q, m := s.queues[i], NextQueues(c, s, a)[i][k];
    if k < |q| {
      assert MsgFits(c, i, q[k]);
    }
    if k + 1 < |q| {
      assert MsgFits(c, i, q[k + 1]);
    }
  }

  lemma {:induction false} RunKeepsSizes(c: Config, s: State, run: seq<Action>)
    requires WellFormed(c, s) && SizesOk(c, s) && Enabling(c, s, run)
    ensures SizesOk(c, ExecAll(c, s, run))
    decreases |run|
  {
    hide SizesOk, Enabled, Exec;
    if run != [] {
      StepKeepsSizes(c, s, run[0]);
      RunKeepsSizes(c, Exec(c, s, run[0]), run[1..]);
    }
  }

  lemma SizesHold(c: Config, s: State, run: seq<Action>)
    requires Initial(c, s) && Enabling(c, s, run)
    ensures SizesOk(c, ExecAll(c, s, run))
  {
    hide Sum;
    RunKeepsSizes(c, s, run);
  }

  // ---------- exactly when something is stranded ----------

  predicate HasLeft(w: Worker, i: nat) {
    w.stage == i ==> !w.pc.Looping? && !w.pc.Polled?
  }

  // If all workers of a stage have left, each while its input queue held an item,
  // it still holds one: nobody is left to take it.
  ghost predicate LastLeft(c: Config, s: State, i: nat)
    requires WellFormed(c, s) && 0 < i < c.n
  {
    (forall t :: 0 <= t < |s.workers| ==> HasLeft(s.workers[t], i)) && !s.clean[i] ==> Items(s.queues[i - 1]) != []
  }

  ghost predicate LastLeftAll(c: Config, s: State) {
    WellFormed(c, s) && forall i :: 0 < i < c.n ==> LastLeft(c, s, i)
  }

  lemma QueueKeepsItems(c: Config, s: State, a: Action, i: nat)
    requires WellFormed(c, s) && Enabled(c, s, a) && 0 < i < c.n && Items(s.queues[i - 1]) != []
    requires !a.Read? ==> HasLeft(s.workers[a.t], i)
    ensures Items(Exec(c, s, a).queues[i - 1]) != []
  {
    hide NextWorker, NextReader, Items;
    var q := s.queues[i - 1];
    var n := NextQueues(c, s, a)[i - 1];
    if n != q {
      assert n == q + [n[|q|]];
      ItemsAppend(q, n[|q|]);
    }
  }

  lemma StepKeepsLastLeft(c: Config, s: State, a: Action, i: nat)
    requires Inv(c, s) && Enabled(c, s, a) && 0 < i < c.n && LastLeft(c, s, i)
    ensures LastLeft(c, Exec(c, s, a), i)
  {
    hide NextReader, Items, StageOk, WorkerOk, ExitOk, NextQueues;
    var n := Exec(c, s, a);
    if (forall t :: 0 <= t < |n.workers| ==> HasLeft(n.workers[t], i)) && !n.clean[i] {
      if a.Read? || HasLeft(s.workers[a.t], i) {
        forall t | 0 <= t < |s.workers| ensures HasLeft(s.workers[t], i) {
          assert HasLeft(n.workers[t], i);
        }
        QueueKeepsItems(c, s, a, i);
      } else {
        LeavesByCheck(c, s, a, i);
      }
    }
  }

  lemma LeavesByCheck(c: Config, s: State, a: Action, i: nat)
    requires Inv(c, s) && Enabled(c, s, a) && !a.Read? && 0 < i < c.n
    requires !HasLeft(s.workers[a.t], i) && HasLeft(Exec(c, s, a).workers[a.t], i) && !Exec(c, s, a).clean[i]
    ensures Items(Exec(c, s, a).queues[i - 1]) != []
  {
    hide NextReader, Items, StageOk, WorkerOk, ExitOk;
    assert a.Check?;
  }

  lemma {:induction false} RunKeepsLastLeft(c: Config, s: State, run: seq<Action>)
    requires Inv(c, s) && CleanSound(c, s) && LastLeftAll(c, s) && Enabling(c, s, run)
    ensures CleanSound(c, ExecAll(c, s, run)) && LastLeftAll(c, ExecAll(c, s, run))
    decreases |run|
  {
    hide Inv, LastLeft, CleanSound, Enabled, Exec;
    if run != [] {
      var n := Exec(c, s, run[0]);
      StepKeepsInv(c, s, run[0]);
      StepKeepsCleanSound(c, s, run[0]);
      forall i | 0 < i < c.n ensures LastLeft(c, n, i) {
        StepKeepsLastLeft(c, s, run[0], i);
      }
      RunKeepsLastLeft(c, n, run[1..]);
    }
  }

  ghost predicate CleanSound(c: Config, s: State) {
    WellFormed(c, s) && forall i :: 0 <= i < c.n ==> StageClean(c, s, i)
  }

  lemma StepKeepsCleanSound(c: Config, s: State, a: Action)
    requires Inv(c, s) && CleanSound(c, s) && Enabled(c, s, a)
    ensures CleanSound(c, Exec(c, s, a))
  {
    hide Inv, NextReader, NextWorker, NextQueues;
    var n := Exec(c, s, a);
    forall i | 0 <= i < c.n ensures StageClean(c, n, i) {
      assert StageClean(c, s, i);
      if i > 0 && s.done[i - 1] {
        DoneIsFinal(c, s, a, i - 1);
      }
    }
  }

  lemma InitialLastLeft(c: Config, s: State)
    requires Initial(c, s)
    ensures CleanSound(c, s) && LastLeftAll(c, s)
  {
    hide Sum, Items;
    forall i | 0 < i < c.n ensures LastLeft(c, s, i) {
      var t := SumPositive(Staff, s.workers, i);
      assert !HasLeft(s.workers[t], i);
    }
  }

  // Once all readers have stopped, every worker of the inner stages has left.
  lemma AllHaveLeft(c: Config, s: State, i: nat, t: nat)
    requires Inv(c, s) && EndsOk(c, s) && AllStopped(s) && 0 < i < c.n && t < |s.workers|
    ensures HasLeft(s.workers[t], i)
  {
    hide Items, ExitOk, WorkerOk, Sum;
    StoppedAtMost(s.readers, 0);
    assert StageOk(c, s, i) && StageOk(c, s, c.n - 1);
    if i < c.n - 1 {
      UpstreamDone(c, s, c.n - 1, i);
    }
    AllGone(s.workers, t, i);
  }

  // Once all readers have stopped, the queue into a stage holds no item if and
  // only if some worker of the stage left while it held none.
  lemma StrandedStages(c: Config, s: State, run: seq<Action>, i: nat)
    requires Initial(c, s) && Enabling(c, s, run) && AllStopped(ExecAll(c, s, run)) && 0 < i < c.n
    ensures var n := ExecAll(c, s, run);
            Items(n.queues[i - 1]) == [] <==> n.clean[i]
  {
    hide Exec, Enabled, ExecAll, Enabling, AllStopped, Items, EndsOk, Inv, AllSendable, CleanOk, Total;
    var n := ExecAll(c, s, run);
    InitialInv(c, s);
    InitialLastLeft(c, s);
    RunKeeps(c, s, run, 0);
    RunKeepsLastLeft(c, s, run);
    forall t | 0 <= t < |n.workers| ensures HasLeft(n.workers[t], i) {
      AllHaveLeft(c, n, i, t);
    }
    assert LastLeft(c, n, i) && StageClean(c, n, i);
  }

  // The readers return exactly the composed flat-map if and only if no stranded
  // item leads to anything.
  lemma DeliveredExactly(c: Config, s: State, run: seq<Action>)
    requires Initial(c, s) && Enabling(c, s, run) && AllStopped(ExecAll(c, s, run))
    ensures var n := ExecAll(c, s, run);
            Delivered(n.readers) == multiset(Composed(c.f, c.n, 1, Source(s.workers)))
            <==> forall y :: Stranded(c, n, y) == 0
  {
    hide Exec, Enabled, ExecAll, Enabling, AllStopped, Composed, Source, Delivered, Stranded;
    var n := ExecAll(c, s, run);
    var all := multiset(Composed(c.f, c.n, 1, Source(s.workers)));
    forall y ensures Delivered(n.readers)[y] + Stranded(c, n, y) == all[y] {
      RunAccounts(c, s, run, y);
    }
    Exactly(Delivered(n.readers), all, y => Stranded(c, n, y));
  }

  lemma Exactly(got: multiset<Item>, all: multiset<Item>, left: Item --> nat)
    requires forall y :: left.requires(y) && got[y] + left(y) == all[y]
    ensures got == all <==> forall y :: left(y) == 0
  {
    if forall y :: left(y) == 0 {
      forall y ensures got[y] == all[y] {
        assert left(y) == 0;
      }
    } else {
      var y :| left(y) != 0;
      assert got[y] != all[y];
    }
  }

  // If every stage has a worker that left clean, nothing is lost; if not, an item
  // is stranded, and something is lost exactly when it leads to an output.
  lemma CleanRunsLoseNothing(c: Config, s: State, run: seq<Action>)
    requires Initial(c, s) && Enabling(c, s, run) && AllStopped(ExecAll(c, s, run))
    ensures var n := ExecAll(c, s, run);
            && ((forall i :: 0 < i < c.n ==> n.clean[i]) <==> forall i :: 0 <= i < c.n - 1 ==> Items(n.queues[i]) == [])
            && ((forall i :: 0 < i < c.n ==> n.clean[i]) ==>
                  Delivered(n.readers) == multiset(Composed(c.f, c.n, 1, Source(s.workers))))
  {
    hide Exec, Enabled, ExecAll, Enabling, AllStopped, Items, Composed, Source, Delivered, QueuesShare;
    var n := ExecAll(c, s, run);
    forall i | 0 < i < c.n ensures n.clean[i] <==> Items(n.queues[i - 1]) == [] {
      StrandedStages(c, s, run, i);
    }
    assert forall i :: 0 <= i < c.n - 1 ==> (n.clean[i + 1] <==> Items(n.queues[i]) == []);
    if forall i :: 0 < i < c.n ==> n.clean[i] {
      var left := n.queues[..c.n - 1];
      forall y ensures Stranded(c, n, y) == 0 {
        NothingQueued(c, left, 0, y);
      }
      DeliveredExactly(c, s, run);
    }
  }

  // ---------- a poll and its check are two reads ----------

  // Two stages of one worker each and one reader: the root has one item to
  // send, and the other worker has made `empties` empty polls.
  function Small(f: Calls, grace: nat): Config {
    Config(2, f, [0, 0], [0, 0], [1, 1], [grace, grace])
  }

  function At(root: Pc, todo: seq<Item>, other: Pc, empties: nat, queues: seq<seq<Msg>>,
              finished: seq<nat>, done: seq<bool>, stopped: bool): State
  {
    State([Worker(0, root, [], [], todo, [], 0), Worker(1, other, [], [], [], [], empties)],
          queues, finished, done, [Reader([], [], stopped)], [false, false], false)
  }

  // The root has sent nothing yet.
  function Start(x: Item, empties: nat): State {
    At(Looping, [x], Looping, empties, [[], []], [0, 0], [false, false], false)
  }

  function StartPolled(x: Item, empties: nat): State {
    At(Looping, [x], Polled, empties, [[], []], [0, 0], [false, false], false)
  }

  // The root sends its item and finishes while the other worker sits between an
  // empty poll and its check.
  function RootStory(x: Item, e: nat, k: nat): State {
    if k == 0 then StartPolled(x, e)
    else if k == 1 then At(Looping, [], Polled, e, [[Bare(x)], []], [0, 0], [false, false], false)
    else if k == 2 then At(Leaving, [], Polled, e, [[Bare(x)], []], [0, 0], [false, false], false)
    else if k == 3 then At(Counting, [], Polled, e, [[Bare(x)], []], [0, 0], [false, false], false)
    else if k == 4 then At(Ending(1), [], Polled, e, [[Bare(x)], []], [1, 0], [false, false], false)
    else if k == 5 then At(Ending(0), [], Polled, e, [[Bare(x), End], []], [1, 0], [false, false], false)
    else At(Parked, [], Polled, e, [[Bare(x), End], []], [1, 0], [true, false], false)
  }

  // Its check then sees upstream done and enough empty polls, and it leaves.
  function OtherStory(x: Item, e: nat, k: nat): State {
    if k == 0 then RootStory(x, e, 6)
    else if k == 1 then At(Parked, [], Leaving, e, [[Bare(x), End], []], [1, 0], [true, false], false)
    else if k == 2 then At(Parked, [], Counting, e, [[Bare(x), End], []], [1, 0], [true, false], false)
    else if k == 3 then At(Parked, [], Ending(1), e, [[Bare(x), End], []], [1, 1], [true, false], false)
    else if k == 4 then At(Parked, [], Ending(0), e, [[Bare(x), End], [End]], [1, 1], [true, false], false)
    else if k == 5 then At(Parked, [], Parked, e, [[Bare(x), End], [End]], [1, 1], [true, true], false)
    else At(Parked, [], Parked, e, [[Bare(x), End], []], [1, 1], [true, true], true)
  }

  const ROOT_STEPS: seq<Action> := [Emit(0), RootEnds(0), Drained(0), Count(0), PutEnd(0), SetDone(0)]
  const OTHER_STEPS: seq<Action> := [Check(1), Drained(1), Count(1), PutEnd(1), SetDone(1), Read(0)]

  ghost predicate Moves(c: Config, s: State, a: Action, m: State) {
    WellFormed(c, s) && Enabled(c, s, a) && Exec(c, s, a) == m
  }

  lemma Prepend(c: Config, s: State, a: Action, m: State, run: seq<Action>)
    requires Moves(c, s, a, m) && Enabling(c, m, run)
    ensures Enabling(c, s, [a] + run) && ExecAll(c, s, [a] + run) == ExecAll(c, m, run)
  {
    hide Enabled, Exec;
    assert ([a] + run)[1..] == run;
  }

  lemma EarlyPoll(f: Calls, grace: nat, x: Item, e: nat)
    ensures Moves(Small(f, grace), Start(x, e), Poll(1), StartPolled(x, e + 1))
  {
    hide NextReader, Items;
  }

  lemma EarlyCheck(f: Calls, grace: nat, x: Item, e: nat)
    ensures Moves(Small(f, grace), StartPolled(x, e), Check(1), Start(x, e))
  {
    hide NextReader, Items;
  }

  // Polling before the root has sent anything changes nothing but the count.
  lemma {:induction false} EarlyPolls(f: Calls, grace: nat, x: Item, e: nat, k: nat, rest: seq<Action>)
    returns (run: seq<Action>)
    requires Enabling(Small(f, grace), Start(x, e + k), rest)
    ensures Enabling(Small(f, grace), Start(x, e), run)
    ensures ExecAll(Small(f, grace), Start(x, e), run) == ExecAll(Small(f, grace), Start(x, e + k), rest)
    decreases k
  {
    hide Enabling, ExecAll, Moves, Enabled, Exec;
    if k == 0 {
      run := rest;
    } else {
      var c := Small(f, grace);
      var later := EarlyPolls(f, grace, x, e + 1, k - 1, rest);
      EarlyCheck(f, grace, x, e + 1);
      Prepend(c, StartPolled(x, e + 1), Check(1), Start(x, e + 1), later);
      EarlyPoll(f, grace, x, e);
      Prepend(c, Start(x, e), Poll(1), StartPolled(x, e + 1), [Check(1)] + later);
      run := [Poll(1)] + ([Check(1)] + later);
    }
  }

  // Two states of the small pipeline that agree part by part are equal.
  predicate Alike(m: State, n: State) {
    && |m.workers| == |n.workers| == 2 && m.workers[0] == n.workers[0] && m.workers[1] == n.workers[1]
    && |m.queues| == |n.queues| == 2 && m.queues[0] == n.queues[0] && m.queues[1] == n.queues[1]
    && |m.finished| == |n.finished| == 2 && m.finished[0] == n.finished[0] && m.finished[1] == n.finished[1]
    && |m.done| == |n.done| == 2 && m.done[0] == n.done[0] && m.done[1] == n.done[1]
    && |m.readers| == |n.readers| == 1 && m.readers[0] == n.readers[0]
    && m.clean == n.clean && m.lostEnd == n.lostEnd
  }

  lemma AlikeIsEqual(m: State, n: State)
    requires Alike(m, n)
    ensures m == n
  {
    assert m.workers == n.workers && m.queues == n.queues && m.readers == n.readers;
    assert m.finished == n.finished && m.done == n.done;
  }

  lemma RootStep(f: Calls, grace: nat, x: Item, e: nat, k: nat)
    requires k < 3
    ensures Moves(Small(f, grace), RootStory(x, e, k), ROOT_STEPS[k], RootStory(x, e, k + 1))
  {
    hide NextReader, Items;
    AlikeIsEqual(Exec(Small(f, grace), RootStory(x, e, k), ROOT_STEPS[k]), RootStory(x, e, k + 1));
  }

  lemma RootLateStep(f: Calls, grace: nat, x: Item, e: nat, k: nat)
    requires 3 <= k < 6
    ensures Moves(Small(f, grace), RootStory(x, e, k), ROOT_STEPS[k], RootStory(x, e, k + 1))
  {
    hide NextReader, Items;
    AlikeIsEqual(Exec(Small(f, grace), RootStory(x, e, k), ROOT_STEPS[k]), RootStory(x, e, k + 1));
  }

  lemma {:induction false} RootRuns(f: Calls, grace: nat, x: Item, e: nat, k: nat, rest: seq<Action>)
    requires k <= 6 && Enabling(Small(f, grace), RootStory(x, e, 6), rest)
    ensures Enabling(Small(f, grace), RootStory(x, e, k), ROOT_STEPS[k..] + rest)
    ensures ExecAll(Small(f, grace), RootStory(x, e, k), ROOT_STEPS[k..] + rest)
         == ExecAll(Small(f, grace), RootStory(x, e, 6), rest)
    decreases 6 - k
  {
    hide Enabling, ExecAll, Moves, Enabled, Exec, RootStory;
    if k == 6 {
      assert ROOT_STEPS[k..] + rest == rest;
    } else {
      RootRuns(f, grace, x, e, k + 1, rest);
      if k < 3 { RootStep(f, grace, x, e, k); } else { RootLateStep(f, grace, x, e, k); }
      Prepend(Small(f, grace), RootStory(x, e, k), ROOT_STEPS[k], RootStory(x, e, k + 1), ROOT_STEPS[k + 1..] + rest);
      assert ROOT_STEPS[k..] + rest == [ROOT_STEPS[k]] + (ROOT_STEPS[k + 1..] + rest);
    }
  }

  lemma OtherStep(f: Calls, grace: nat, x: Item, e: nat, k: nat)
    requires grace <= e && k < 3
    ensures Moves(Small(f, grace), OtherStory(x, e, k), OTHER_STEPS[k], OtherStory(x, e, k + 1))
  {
    hide NextReader, Items;
    QueuedItem(x);
    AlikeIsEqual(Exec(Small(f, grace), OtherStory(x, e, k), OTHER_STEPS[k]), OtherStory(x, e, k + 1));
  }

  lemma QueuedItem(x: Item)
    ensures Items([Bare(x), End]) == [x]
  {
    assert [Bare(x), End][1..] == [End] && [End][1..] == [];
    assert [x] + ([] + []) == [x];
  }

  lemma OtherLateStep(f: Calls, grace: nat, x: Item, e: nat, k: nat)
    requires 3 <= k < 6
    ensures Moves(Small(f, grace), OtherStory(x, e, k), OTHER_STEPS[k], OtherStory(x, e, k + 1))
  {
    hide Items;
    AlikeIsEqual(Exec(Small(f, grace), OtherStory(x, e, k), OTHER_STEPS[k]), OtherStory(x, e, k + 1));
  }

  lemma {:induction false} OtherRuns(f: Calls, grace: nat, x: Item, e: nat, k: nat)
    requires grace <= e && k <= 6
    ensures Enabling(Small(f, grace), OtherStory(x, e, k), OTHER_STEPS[k..])
    ensures ExecAll(Small(f, grace), OtherStory(x, e, k), OTHER_STEPS[k..]) == OtherStory(x, e, 6)
    decreases 6 - k
  {
    hide Enabled, Exec, OtherStory;
    if k < 6 {
      hide Enabling, ExecAll, Moves;
      OtherRuns(f, grace, x, e, k + 1);
      if k < 3 { OtherStep(f, grace, x, e, k); } else { OtherLateStep(f, grace, x, e, k); }
      Prepend(Small(f, grace), OtherStory(x, e, k), OTHER_STEPS[k], OtherStory(x, e, k + 1), OTHER_STEPS[k + 1..]);
      assert OTHER_STEPS[k..] == [OTHER_STEPS[k]] + OTHER_STEPS[k + 1..];
    }
  }

  lemma StartIsInitial(f: Calls, grace: nat, x: Item)
    ensures Initial(Small(f, grace), Start(x, 0)) && Source(Start(x, 0).workers) == [x]
  {
    var ws := Start(x, 0).workers;
    var root, other := ws[0], ws[1];
    assert ws[1..] == [other] && [other][1..] == [];
    assert Sum(Staff, [other][1..], 0) == 0 && Sum(Staff, [other][1..], 1) == 0;
    assert Sum(Staff, [other], 0) == 0 && Sum(Staff, [other], 1) == 1;
    assert Sum(Staff, ws, 0) == 1 && Sum(Staff, ws, 1) == 1;
    assert Source([other]) == [];
    assert Source(ws) == root.todo + Source([other]) == [x];
  }

  lemma StoryEnds(f: Calls, grace: nat, x: Item, e: nat, y: Item)
    ensures var n := OtherStory(x, e, 6);
            && AllStopped(n) && Delivered(n.readers) == multiset{}
            && Stranded(Small(f, grace), n, y) == multiset(f(1, x))[y]
  {
    hide Items, FlatMap;
    var c, n := Small(f, grace), OtherStory(x, e, 6);
    assert n.readers[1..] == [] && Delivered(n.readers) == multiset(n.readers[0].out) + multiset{};
    QueuedItem(x);
    FlatMapOne(f, 1, x);
    assert Composed(f, 2, 1, [x]) == Composed(f, 2, 2, f(1, x)) == f(1, x);
    var qs := n.queues[..1];
    assert qs == [[Bare(x), End]] && qs[1..] == [];
    assert QueuesShare(c, qs, 0, y) == Share(c, 1, [x], y) + QueuesShare(c, [], 1, y);
  }

  // However many empty polls a worker waits for, there is a run in which it
  // leaves an item behind: the readers stop without it.
  lemma LateItemIsStranded(f: Calls, grace: nat, x: Item) returns (run: seq<Action>)
    ensures var c, s := Small(f, grace), Start(x, 0);
            && Initial(c, s) && Source(s.workers) == [x] && Enabling(c, s, run)
            && var n := ExecAll(c, s, run);
               && AllStopped(n) && Delivered(n.readers) == multiset{}
               && (forall y :: Stranded(c, n, y) == multiset(f(1, x))[y])
  {
    hide Enabling, ExecAll, Moves, Enabled, Exec, Initial, AllStopped, Delivered, Stranded, Source;
    var c := Small(f, grace);
    var e := if grace == 0 then 1 else grace;
    OtherRuns(f, grace, x, e, 0);
    RootRuns(f, grace, x, e, 0, OTHER_STEPS);
    assert ROOT_STEPS[0..] == ROOT_STEPS && OTHER_STEPS[0..] == OTHER_STEPS;
    EarlyPoll(f, grace, x, e - 1);
    Prepend(c, Start(x, e - 1), Poll(1), StartPolled(x, e), ROOT_STEPS + OTHER_STEPS);
    run := EarlyPolls(f, grace, x, 0, e - 1, [Poll(1)] + (ROOT_STEPS + OTHER_STEPS));
    StartIsInitial(f, grace, x);
    forall y ensures Stranded(c, ExecAll(c, Start(x, 0), run), y) == multiset(f(1, x))[y] {
      StoryEnds(f, grace, x, e, y);
    }
    StoryEnds(f, grace, x, e, 0);
  }
}
