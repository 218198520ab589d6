/** The channels over a queue (src/pipe/queues.py: _OutputChannel, _InputChannel,
    _put_retry, putter) and what a ShmQueue sends (src/pipe/shmqueue.py: encode,
    put_encoded, _load). Time is an input: whether a deadline has passed, and
    what other processes take off the queue between two tries of a put. */
module Channels {
  import opened Wrappers

  type Item = int

  datatype Msg = Bare(x: Item) | Chunk(xs: seq<Item>)

  function ItemsOf(m: Msg): seq<Item> {
    match m
    case Bare(x) => [x]
    case Chunk(xs) => xs
  }

  function Items(q: seq<Msg>): seq<Item> {
    if q == [] then [] else ItemsOf(q[0]) + Items(q[1..])
  }

  lemma {:induction false} ItemsConcat(a: seq<Msg>, b: seq<Msg>)
    ensures Items(a + b) == Items(a) + Items(b)
  {
    if a == [] {
      assert a + b == b;
    } else {
      assert (a + b)[1..] == a[1..] + b;
      ItemsConcat(a[1..], b);
    }
  }

  lemma ItemsOne(m: Msg)
    ensures Items([m]) == ItemsOf(m)
  {
    assert [m][1..] == [];
  }

  // No empty chunk is sent (flush returns early when nothing is pending).
  predicate Sendable(q: seq<Msg>) {
    forall i :: 0 <= i < |q| && q[i].Chunk? ==> q[i].xs != []
  }

  // ---------- the queue and the retrying put ----------

  // A message as encoded: made once, it holds the store references it took.
  datatype Encoded = Encoded(msg: Msg, refs: nat)

  class Queue {
    const maxsize: nat          // 0: no bound
    const shares: Msg -> nat    // the store references one encoding takes
    var msgs: seq<Msg>
    var taken: seq<Msg>         // what readers took off, in order
    var refs: nat               // store references taken by encodings

    constructor (maxsize: nat, shares: Msg -> nat)
      ensures this.maxsize == maxsize && this.shares == shares && msgs == [] && taken == [] && refs == 0
    {
      this.maxsize, this.shares := maxsize, shares;
      msgs, taken, refs := [], [], 0;
    }

    predicate Full()
      reads this
    {
      0 < maxsize <= |msgs|
    }

    method Encode(msg: Msg) returns (e: Encoded)
      modifies this`refs
      ensures e == Encoded(msg, shares(msg)) && refs == old(refs) + e.refs
    {
      e := Encoded(msg, shares(msg));
      refs := refs + e.refs;
    }

    method PutEncoded(e: Encoded) returns (ok: bool)
      modifies this`msgs
      ensures ok == !old(Full())
      ensures msgs == if ok then old(msgs) + [e.msg] else old(msgs)
    {
      ok := !Full();
      if ok {
        msgs := msgs + [e.msg];
      }
    }

    // Other processes take up to n messages.
    method OthersTake(n: nat)
      modifies this`msgs, this`taken
      ensures taken + msgs == old(taken + msgs)
      ensures |msgs| == if n < |old(msgs)| then |old(msgs)| - n else 0
    {
      var k := if n < |msgs| then n else |msgs|;
      assert taken + msgs == (taken + msgs[..k]) + msgs[k..];
      msgs, taken := msgs[k..], taken + msgs[..k];
    }
  }

  // _put_retry: encodes once and tries until there is room. `takes` says what
  // others take between the first tries; after those they take one each time.
  method PutRetry(q: Queue, msg: Msg, takes: seq<nat>)
    modifies q
    ensures q.taken + q.msgs == old(q.taken + q.msgs) + [msg]
    ensures q.refs == old(q.refs) + q.shares(msg)
    ensures old(q.taken) <= q.taken && q.msgs != [] && q.msgs[|q.msgs| - 1] == msg
    ensures !old(q.Full()) ==> q.taken == old(q.taken) && q.msgs == old(q.msgs) + [msg]
  {
    var e := q.Encode(msg);
    var i := 0;
    var ok := q.PutEncoded(e);
    while !ok
      invariant 0 <= i
      invariant ok ==> q.msgs != [] && q.msgs[|q.msgs| - 1] == msg
      invariant q.taken + q.msgs == old(q.taken + q.msgs) + if ok then [msg] else []
      invariant old(q.taken) <= q.taken
      invariant q.refs == old(q.refs) + q.shares(msg)
      invariant !ok ==> 0 < q.maxsize && old(q.Full())
      invariant !old(q.Full()) ==> q.taken == old(q.taken) && q.msgs == old(q.msgs) + [msg]
      decreases !ok, if i < |takes| then |takes| - i else 0, |q.msgs|
    {
      ghost var before, taken := q.msgs, q.taken;
      q.OthersTake(if i < |takes| then takes[i] else 1);
      assert taken <= q.taken by { TakenGrows(taken, before, q.taken, q.msgs); }
      i := i + 1;
      ghost var all := q.taken + q.msgs;
      ok := q.PutEncoded(e);
      assert ok ==> q.taken + q.msgs == all + [msg];
    }
  }

  lemma TakenGrows(t: seq<Msg>, m: seq<Msg>, t': seq<Msg>, m': seq<Msg>)
    requires t + m == t' + m' && |m'| <= |m|
    ensures t <= t'
  {
    assert t == (t + m)[..|t|] == t'[..|t|];
  }

  // ---------- the two ends ----------

  class OutputChannel {
    const queue: Queue
    const chunkSize: nat
    var pending: seq<Item>

    constructor (queue: Queue, chunkSize: nat)
      ensures this.queue == queue && this.chunkSize == chunkSize && pending == []
    {
      this.queue, this.chunkSize := queue, chunkSize;
      pending := [];
    }

    predicate Valid()
      reads this
    {
      (chunkSize == 0 ==> pending == []) && (chunkSize > 0 ==> |pending| < chunkSize)
    }

    // Every item sent, in order: taken off the queue, on it, or pending.
    function Sent(): seq<Item>
      reads this, queue
    {
      Items(queue.taken + queue.msgs) + pending
    }

    // `late`: the oldest pending item is chunk_ms old.
    method Send(x: Item, late: bool, takes: seq<nat>)
      requires Valid()
      modifies this`pending, queue
      ensures Valid() && Sent() == old(Sent()) + [x]
      ensures old(Sendable(queue.taken + queue.msgs)) ==> Sendable(queue.taken + queue.msgs)
      // A plain put; or one more pending; or the chunk it fills or completes late.
      ensures chunkSize == 0 ==> queue.taken + queue.msgs == old(queue.taken + queue.msgs) + [Bare(x)]
      ensures |old(pending)| + 1 < chunkSize && !late ==>
        && pending == old(pending) + [x] && queue.msgs == old(queue.msgs) && queue.taken == old(queue.taken)
        && queue.refs == old(queue.refs)
      ensures 0 < chunkSize && (late || |old(pending)| + 1 == chunkSize) ==>
        && pending == [] && queue.taken + queue.msgs == old(queue.taken + queue.msgs) + [Chunk(old(pending) + [x])]
    {
      if chunkSize == 0 {
        ghost var all := queue.taken + queue.msgs;
        PutRetry(queue, Bare(x), takes);
        ItemsConcat(all, [Bare(x)]);
        ItemsOne(Bare(x));
        return;
      }
      ghost var before := pending;
      pending := pending + [x];
      assert Sent() == old(Sent()) + [x];
      if |pending| >= chunkSize || late {
        Flush(takes);
      }
    }

    method MaybeFlush(late: bool, takes: seq<nat>)
      modifies this`pending, queue
      ensures Sent() == old(Sent()) && pending == (if late then [] else old(pending))
      ensures queue.taken + queue.msgs
           == old(queue.taken + queue.msgs) + if late && old(pending) != [] then [Chunk(old(pending))] else []
      ensures !late ==> queue.msgs == old(queue.msgs) && queue.taken == old(queue.taken)
      ensures old(Sendable(queue.taken + queue.msgs)) ==> Sendable(queue.taken + queue.msgs)
    {
      if pending != [] && late {
        Flush(takes);
      } else {
        assert queue.taken + queue.msgs == (queue.taken + queue.msgs) + [];
      }
    }

    method Flush(takes: seq<nat>)
      modifies this`pending, queue
      ensures Sent() == old(Sent()) && pending == []
      ensures queue.taken + queue.msgs
           == old(queue.taken + queue.msgs) + if old(pending) != [] then [Chunk(old(pending))] else []
      ensures old(pending) == [] ==> queue.msgs == old(queue.msgs) && queue.taken == old(queue.taken)
      ensures old(Sendable(queue.taken + queue.msgs)) ==> Sendable(queue.taken + queue.msgs)
    {
      if pending == [] {
        assert queue.taken + queue.msgs == (queue.taken + queue.msgs) + [];
        return;
      }
      var chunk := Chunk(pending);
      pending := [];
      ghost var all := queue.taken + queue.msgs;
      PutRetry(queue, chunk, takes);
      ItemsConcat(all, [chunk]);
      ItemsOne(chunk);
    }
  }

  class InputChannel {
    const queue: Queue
    var buf: seq<Item>

    constructor (queue: Queue)
      ensures this.queue == queue && buf == []
    {
      this.queue := queue;
      buf := [];
    }

    // What this reader still has to come, in order.
    function Coming(): seq<Item>
      reads this, queue
    {
      buf + Items(queue.msgs)
    }

    // get_nowait, or a get whose wait found nothing.
    method Get() returns (r: Option<Item>)
      requires Sendable(queue.msgs)
      modifies this`buf, queue`msgs, queue`taken
      ensures r.None? <==> old(Coming()) == []
      ensures r.None? ==> buf == old(buf) && queue.msgs == old(queue.msgs) && queue.taken == old(queue.taken)
      ensures r.Some? ==> old(Coming()) == [r.value] + Coming()
      ensures queue.taken + queue.msgs == old(queue.taken + queue.msgs)
      ensures Sendable(queue.msgs)
    {
      if buf != [] {
        r := Some(buf[0]);
        assert buf + Items(queue.msgs) == [buf[0]] + (buf[1..] + Items(queue.msgs));
        buf := buf[1..];
        return;
      }
      if queue.msgs == [] {
        return None;
      }
      var m := queue.msgs[0];
      assert queue.taken + queue.msgs == (queue.taken + [m]) + queue.msgs[1..];
      queue.msgs, queue.taken := queue.msgs[1..], queue.taken + [m];
      match m {
        case Chunk(xs) =>
          assert xs + Items(queue.msgs) == [xs[0]] + (xs[1..] + Items(queue.msgs));
          r, buf := Some(xs[0]), xs[1..];
        case Bare(x) =>
          r := Some(x);
      }
    }

    // Buffered items go back to the queue as one chunk: none is lost or doubled,
    // but they move behind what was queued.
    method RequeueBuffered(takes: seq<nat>)
      modifies this`buf, queue
      ensures buf == []
      ensures queue.taken + queue.msgs
           == old(queue.taken + queue.msgs) + if old(buf) != [] then [Chunk(old(buf))] else []
      ensures Items(queue.taken + queue.msgs) == old(Items(queue.taken + queue.msgs)) + old(buf)
      ensures !old(queue.Full()) ==> Coming() == old(Items(queue.msgs)) + old(buf)
      ensures !old(queue.Full()) ==> multiset(Coming()) == multiset(old(Coming()))
    {
      if buf == [] {
        assert Items(queue.msgs) == buf + Items(queue.msgs);
        assert queue.taken + queue.msgs == (queue.taken + queue.msgs) + [];
        return;
      }
      var chunk := Chunk(buf);
      buf := [];
      ghost var all, msgs := queue.taken + queue.msgs, queue.msgs;
      PutRetry(queue, chunk, takes);
      ItemsConcat(all, [chunk]);
      ItemsConcat(msgs, [chunk]);
      ItemsOne(chunk);
    }
  }

  // ---------- one writer and one reader, in any interleaving ----------

  // `stuck` is the message a blocking put is trying to get in.
  datatype Edge = Edge(
    maxsize: nat, chunkSize: nat, sent: seq<Item>, pending: seq<Item>, stuck: Option<Msg>,
    msgs: seq<Msg>, buf: seq<Item>, received: seq<Item>)

  datatype Action = Send(x: Item, late: bool) | Flush | TryPut | Get

  function Stuck(m: Option<Msg>): seq<Msg> {
    if m.Some? then [m.value] else []
  }

  // A send leaves pending, or hands a put, what OutputChannel.Send does.
  lemma SendIsChunked(e: Edge, x: Item, late: bool)
    requires Enabled(e, Send(x, late))
    ensures var n := Exec(e, Send(x, late));
      && n == e.(sent := e.sent + [x], pending := n.pending, stuck := n.stuck)
      && (e.chunkSize == 0 ==> n.pending == e.pending && n.stuck == Some(Bare(x)))
      && (|e.pending| + 1 < e.chunkSize && !late ==> n.pending == e.pending + [x] && n.stuck == None)
      && (0 < e.chunkSize && (late || |e.pending| + 1 == e.chunkSize) ==>
            n.pending == [] && n.stuck == Some(Chunk(e.pending + [x])))
  {
  }

  predicate Enabled(e: Edge, a: Action) {
    match a
    case Send(_, _) => e.stuck.None?
    case Flush => e.stuck.None? && e.pending != []
    case TryPut => e.stuck.Some?
    case Get => e.buf != [] || (e.msgs != [] && Sendable(e.msgs))
  }

  function Exec(e: Edge, a: Action): Edge
    requires Enabled(e, a)
  {
    match a
    case Send(x, late) =>
      var n := e.(sent := e.sent + [x]);
      if e.chunkSize == 0 then n.(stuck := Some(Bare(x)))
      else if |e.pending| + 1 >= e.chunkSize || late then n.(pending := [], stuck := Some(Chunk(e.pending + [x])))
      else n.(pending := e.pending + [x])
    case Flush => e.(pending := [], stuck := Some(Chunk(e.pending)))
    case TryPut =>
      if 0 < e.maxsize <= |e.msgs| then e else e.(msgs := e.msgs + [e.stuck.value], stuck := None)
    case Get =>
      if e.buf != [] then e.(received := e.received + [e.buf[0]], buf := e.buf[1..])
      else
        match e.msgs[0]
        case Bare(x) => e.(received := e.received + [x], msgs := e.msgs[1..])
        case Chunk(xs) => e.(received := e.received + [xs[0]], buf := xs[1..], msgs := e.msgs[1..])
  }

  ghost predicate Enabling(e: Edge, run: seq<Action>)
    decreases |run|
  {
    run == [] || (Enabled(e, run[0]) && Enabling(Exec(e, run[0]), run[1..]))
  }

  function ExecAll(e: Edge, run: seq<Action>): Edge
    requires Enabling(e, run)
    decreases |run|
  {
    if run == [] then e else ExecAll(Exec(e, run[0]), run[1..])
  }

  predicate InOrder(e: Edge) {
    && (e.chunkSize == 0 ==> e.pending == [])
    && Sendable(e.msgs) && Sendable(Stuck(e.stuck))
    && e.sent == e.received + e.buf + Items(e.msgs) + Items(Stuck(e.stuck)) + e.pending
  }

  lemma SendKeepsOrder(e: Edge, a: Action)
    requires InOrder(e) && Enabled(e, a) && (a.Send? || a.Flush?)
    ensures InOrder(Exec(e, a))
  {
    var front := e.received + e.buf + Items(e.msgs);
    assert front + Items([]) + e.pending == front + e.pending;
    if Exec(e, a).stuck.Some? {
      ItemsOne(Exec(e, a).stuck.value);
    }
  }

  lemma PutKeepsOrder(e: Edge)
    requires InOrder(e) && Enabled(e, TryPut)
    ensures InOrder(Exec(e, TryPut))
  {
    ItemsConcat(e.msgs, [e.stuck.value]);
    var front := e.received + e.buf;
    assert front + (Items(e.msgs) + Items([e.stuck.value])) + Items([]) == front + Items(e.msgs) + Items([e.stuck.value]);
  }

  lemma GetKeepsOrder(e: Edge)
    requires InOrder(e) && Enabled(e, Get)
    ensures InOrder(Exec(e, Get))
  {
    if e.buf != [] {
      hide Items, Stuck;
      assert e.received + e.buf == (e.received + [e.buf[0]]) + e.buf[1..];
    } else {
      hide Stuck;
      var xs := ItemsOf(e.msgs[0]);
      var after := Items(e.msgs[1..]);
      assert Items(e.msgs) == xs + after;
      hide Items;
      assert e.received + [] + (xs + after) == (e.received + [xs[0]]) + xs[1..] + after;
    }
  }

  // However sends, flushes, tries and gets interleave, and however long the
  // queue is full: what was sent is what was received, buffered, queued, about
  // to be put and pending, in that order.
  lemma {:induction false} StreamSurvivesChunking(e: Edge, run: seq<Action>)
    requires InOrder(e) && Enabling(e, run)
    ensures InOrder(ExecAll(e, run))
    decreases |run|
  {
    hide InOrder, Enabled, Exec;
    if run != [] {
      match run[0] {
        case Send(_, _) => SendKeepsOrder(e, run[0]);
        case Flush => SendKeepsOrder(e, run[0]);
        case TryPut => PutKeepsOrder(e);
        case Get => GetKeepsOrder(e);
      }
      StreamSurvivesChunking(Exec(e, run[0]), run[1..]);
    }
  }

  // ---------- what travels for a message ----------

  type Bytes = seq<bv8>

  // Pickling of messages and of store handles. Pickles start with PROTO.
  datatype Codec<!Obj> = Codec(dumps: Obj -> Bytes, loads: Bytes -> Obj, dumpHandle: nat -> Bytes, loadHandle: Bytes -> nat)

  ghost predicate Lawful<Obj(!new)>(c: Codec<Obj>) {
    && (forall x: Obj :: c.loads(c.dumps(x)) == x)
    && (forall x: Obj :: c.dumps(x) != [] && c.dumps(x)[0] != 0)
    && (forall h: nat :: c.loadHandle(c.dumpHandle(h)) == h)
  }

  // The store's blocks by handle; `room` is the block an alloc would give.
  datatype Wire = Wire(data: Bytes, disk: bool, blocks: map<nat, Bytes>)

  function Encode<Obj>(
    c: Codec<Obj>, x: Obj, spillAt: nat, hasStore: bool, room: Option<nat>, blocks: map<nat, Bytes>): Wire
  {
    var data := c.dumps(x);
    if |data| > spillAt && hasStore then
      match room
      case Some(h) => Wire([0] + c.dumpHandle(h), false, blocks[h := data])
      case None => Wire(data, true, blocks)
    else Wire(data, false, blocks)
  }

  // What a receiver makes of the data, and the blocks left: load_spilled's
  // adopted reference to a parked message's block is its only one, and goes.
  function Load<Obj>(c: Codec<Obj>, b: Bytes, blocks: map<nat, Bytes>): (Option<Obj>, map<nat, Bytes>) {
    if b != [] && b[0] == 0 then
      var h := c.loadHandle(b[1..]);
      if h in blocks then (Some(c.loads(blocks[h])), blocks - {h}) else (None, blocks)
    else (Some(c.loads(b)), blocks)
  }

  // Inline, parked in a store block or spilled to disk: the receiver loads what
  // was put. A store block is taken exactly for an oversized message when there
  // is room, leaves the others alone, and is gone again once it is loaded.
  lemma LoadsWhatWasEncoded<Obj(!new)>(
    c: Codec<Obj>, x: Obj, spillAt: nat, hasStore: bool, room: Option<nat>, blocks: map<nat, Bytes>)
    requires Lawful(c) && (room.Some? ==> room.value !in blocks)
    ensures var w := Encode(c, x, spillAt, hasStore, room, blocks);
            && Load(c, w.data, w.blocks) == (Some(x), blocks)
            && (w.blocks != blocks <==> |c.dumps(x)| > spillAt && hasStore && room.Some?)
            && (forall h :: h in blocks ==> h in w.blocks && w.blocks[h] == blocks[h])
            && (w.disk <==> |c.dumps(x)| > spillAt && hasStore && room.None?)
  {
    var data := c.dumps(x);
    if |data| > spillAt && hasStore && room.Some? {
      var h := room.value;
      assert ([0] + c.dumpHandle(h))[1..] == c.dumpHandle(h);
      assert h in blocks[h := data];
      assert blocks[h := data] - {h} == blocks;
    }
  }
}
