/** Numpy arrays over the payload store as processes use it (src/pipe/shmstore.py:
    reduce_ndarray, _rebuild_ndarray): threads hold arrays whose bytes are in store
    blocks, send them by handle or by copy, and take sub-views, while the store
    allocates, frees and recycles blocks and threads are killed. */
module SharedArrays {
  import opened PayloadStore
  import PayloadRuns
  import Views

  // What a receiver knows of an array: its block, where in it the data starts,
  // shape and strides. History: the array's value, the first sender's array, and
  // how one came from the other.
  datatype Arr = Arr(
    b: Ref, off: int, shape: seq<nat>, strides: seq<int>, item: nat,
    value: Views.Array, root: Views.Array, moves: seq<Views.Move>)

  // `held` are the arrays of each thread, `sent` those in messages nobody has
  // loaded yet.
  datatype World = World(s: State, held: seq<seq<Arr>>, sent: seq<Arr>)

  datatype Act =
    | Plain(a: Action)                                           // anything else in the store
    | First(t: nat, root: Views.Array, item: nat)                // a private array, copied in
    | Copy(t: nat, i: nat)                                       // a held array, copied again
    | Send(t: nat, i: nat)                                       // forwarded by handle
    | Load(t: nat, i: nat)                                       // the receiver adopts and rebuilds
    | Lose(t: nat, i: nat)                                       // attaching fails, or the message is dropped
    | SubView(t: nat, i: nat, cut: Views.Cut)
    | Forget(t: nat, i: nat)

  predicate WorldOk(w: World) {
    WellFormed(w.s) && |w.held| == |w.s.pcs| == |w.s.own.objs|
  }

  function InMessages(sent: seq<Arr>, b: Ref): nat {
    if sent == [] then 0 else (if sent[0].b == b then 1 else 0) + InMessages(sent[1..], b)
  }

  predicate NoneOf(arrays: seq<Arr>, b: Ref) {
    forall i :: 0 <= i < |arrays| ==> arrays[i].b != b
  }

  // A thread lets go of a Block object, to drop it or to pass it on, only if no
  // array of its own is left without one; and an array's handle is adopted, or
  // lost, with the array's message.
  predicate Allowed(w: World, a: Action)
    requires WorldOk(w) && Enabled(w.s, a)
  {
    match a
    case Drop(t, b) => w.s.own.objs[t][b] > 1 || NoneOf(w.held[t], b)
    case Pass(t, _, b) => w.s.own.objs[t][b] > 1 || NoneOf(w.held[t], b)
    case Adopt(_, b) => w.s.own.handles[b] > InMessages(w.sent, b)
    case LoseHandle(_, b) => w.s.own.handles[b] > InMessages(w.sent, b)
    case _ => true
  }

  // The bytes of a new array are in the thread's new block, element by element.
  predicate CopiedIn(s: State, t: nat, a: Views.Array, item: nat)
    requires |a.shape| == |a.strides|
  {
    && t < |s.pcs| && s.pcs[t].Filling? && s.pcs[t].b in s.blk.mem
    && s.blk.mem[s.pcs[t].b] == Views.Packed(a.block, a.data - a.addr, a.shape, a.strides, item)
  }

  // The store's part of a step.
  function StoreStep(w: World, x: Act): (r: seq<Action>)
    requires WorldOk(w)
    ensures |r| <= 1
  {
    match x
    case Plain(a) => [a]
    case First(t, _, _) => [Publish(t)]
    case Copy(t, _) => [Publish(t)]
    case Send(t, i) => if t < |w.held| && i < |w.held[t]| then [Share(t, w.held[t][i].b)] else []
    case Load(t, i) => if i < |w.sent| then [Adopt(t, w.sent[i].b)] else []
    case Lose(t, i) => if i < |w.sent| then [LoseHandle(t, w.sent[i].b)] else []
    case _ => []
  }

  predicate Possible(w: World, x: Act)
    requires WorldOk(w)
  {
    && (StoreStep(w, x) != [] ==> Enabled(w.s, StoreStep(w, x)[0]))
    && match x
       case Plain(a) => Allowed(w, a)
       case First(t, root, item) => |root.shape| == |root.strides| && CopiedIn(w.s, t, root, item)
       case Copy(t, i) =>
         t < |w.held| && i < |w.held[t]| && var h := w.held[t][i];
         |h.value.shape| == |h.value.strides| && CopiedIn(w.s, t, h.value, h.item)
       case Send(t, i) =>
         t < |w.held| && i < |w.held[t]| && var h := w.held[t][i];
         |h.shape| == |h.strides| && h.b in w.s.blk.mem
         && Views.MapsBack(h.off, h.shape, h.strides, h.item, |w.s.blk.mem[h.b]|)
       case Load(t, i) => i < |w.sent| && t < |w.held|
       case Lose(t, i) => i < |w.sent| && t < |w.held|
       case SubView(t, i, cut) =>
         t < |w.held| && i < |w.held[t]| && w.s.pcs[t].Idle? && var h := w.held[t][i];
         |h.shape| == |h.strides| && Views.Legal(cut, h.shape)
       case Forget(t, i) => t < |w.held| && i < |w.held[t]|
  }

  // A fresh block's array, in C order.
  function Fresh(b: Ref, from: Views.Array, item: nat, root: Views.Array, moves: seq<Views.Move>): Arr
    requires |from.shape| == |from.strides|
  {
    var v := Views.Hop(from, item, false, 0);
    Arr(b, 0, v.shape, v.strides, item, v, root, moves + [Views.Send(false, 0)])
  }

  function NextHeld(w: World, x: Act): (held: seq<seq<Arr>>)
    requires WorldOk(w) && Possible(w, x)
    ensures |held| == |w.held|
  {
    match x
    case Plain(a) => if a.Kill? then w.held[a.t := []] else w.held
    case First(t, root, item) => w.held[t := w.held[t] + [Fresh(w.s.pcs[t].b, root, item, root, [])]]
    case Copy(t, i) =>
      var h := w.held[t][i];
      w.held[t := w.held[t] + [Fresh(w.s.pcs[t].b, h.value, h.item, h.root, h.moves)]]
    case Send(_, _) => w.held
    case Load(t, i) => w.held[t := w.held[t] + [w.sent[i]]]
    case Lose(_, _) => w.held
    case SubView(t, i, cut) =>
      var h := w.held[t][i];
      var v := Views.Apply(Views.Array(0, [], h.off, h.shape, h.strides), cut);
      w.held[t := w.held[t] + [h.(off := v.data, shape := v.shape, strides := v.strides,
                                  value := v.(block := h.value.block), moves := h.moves + [Views.View(cut)])]]
    case Forget(t, i) => w.held[t := w.held[t][..i] + w.held[t][i + 1..]]
  }

  // The array as it is in the message.
  function Outgoing(h: Arr): Arr {
    h.(moves := h.moves + [Views.Send(true, 0)])
  }

  function NextMessages(w: World, x: Act): seq<Arr>
    requires WorldOk(w) && Possible(w, x)
  {
    match x
    case Send(t, i) => w.sent + [Outgoing(w.held[t][i])]
    case Load(_, i) => w.sent[..i] + w.sent[i + 1..]
    case Lose(_, i) => w.sent[..i] + w.sent[i + 1..]
    case _ => w.sent
  }

  function Exec(w: World, x: Act): (n: World)
    requires WorldOk(w) && Possible(w, x)
    ensures WorldOk(n) && |n.held| == |w.held|
  {
    var s := if StoreStep(w, x) != [] then PayloadStore.Exec(w.s, StoreStep(w, x)[0]) else w.s;
    World(s, NextHeld(w, x), NextMessages(w, x))
  }

  ghost predicate Running(w: World, run: seq<Act>)
    requires WorldOk(w)
    decreases |run|
  {
    run == [] || (Possible(w, run[0]) && Running(Exec(w, run[0]), run[1..]))
  }

  function ExecAll(w: World, run: seq<Act>): (n: World)
    requires WorldOk(w) && Running(w, run)
    ensures WorldOk(n) && |n.held| == |w.held|
    decreases |run|
  {
    if run == [] then w else ExecAll(Exec(w, run[0]), run[1..])
  }

  ghost predicate Initial(w: World) {
    && WorldOk(w) && PayloadStore.Initial(w.s) && w.sent == []
    && forall t :: 0 <= t < |w.held| ==> w.held[t] == []
  }

  // What the array shows when its bytes are read from the store now.
  function Now(s: State, h: Arr): Views.Array
    requires h.b in s.blk.mem
  {
    Views.Array(0, s.blk.mem[h.b], h.off, h.shape, h.strides)
  }

  // The store still holds the array's value, and that is what the chain of hops
  // and sub-views from the first sender makes of its array.
  ghost predicate ArrOk(s: State, h: Arr) {
    && |h.root.shape| == |h.root.strides| && |h.shape| == |h.strides|
    && h.b in s.blk.mem && h.value == Now(s, h)
    && Views.Possible(h.root, h.item, h.moves) && h.value == Views.After(h.root, h.item, h.moves)
  }

  ghost predicate HeldOk(w: World, t: nat, i: nat)
    requires WorldOk(w) && t < |w.held| && i < |w.held[t]|
  {
    ArrOk(w.s, w.held[t][i]) && w.s.own.objs[t][w.held[t][i].b] > 0
  }

  ghost predicate Inv(w: World) {
    && WorldOk(w) && PayloadStore.Inv(w.s)
    && (forall t, i :: 0 <= t < |w.held| && 0 <= i < |w.held[t]| ==> HeldOk(w, t, i))
    && (forall i :: 0 <= i < |w.sent| ==> ArrOk(w.s, w.sent[i]))
    && (forall b :: InMessages(w.sent, b) <= w.s.own.handles[b])
  }

  // ---------- what a step keeps ----------

  lemma {:induction false} MessagesWithout(sent: seq<Arr>, i: nat, b: Ref)
    requires i < |sent|
    ensures InMessages(sent[..i] + sent[i + 1..], b) + (if sent[i].b == b then 1 else 0) == InMessages(sent, b)
  {
    if i == 0 {
      assert sent[..0] + sent[1..] == sent[1..];
    } else {
      assert (sent[..i] + sent[i + 1..])[1..] == sent[1..][..i - 1] + sent[1..][i..];
      MessagesWithout(sent[1..], i - 1, b);
    }
  }

  lemma {:induction false} MessagesWith(sent: seq<Arr>, h: Arr, b: Ref)
    ensures InMessages(sent + [h], b) == InMessages(sent, b) + if h.b == b then 1 else 0
  {
    if sent == [] {
      assert (sent + [h])[1..] == [];
    } else {
      assert (sent + [h])[1..] == sent[1..] + [h];
      MessagesWith(sent[1..], h, b);
    }
  }

  lemma {:induction false} OneInMessages(sent: seq<Arr>, i: nat)
    requires i < |sent|
    ensures InMessages(sent, sent[i].b) > 0
  {
    if i > 0 {
      OneInMessages(sent[1..], i - 1);
    }
  }

  // An array whose block stays referenced stays as it is.
  lemma ArrKept(s: State, a: Action, h: Arr)
    requires PayloadStore.Inv(s) && Enabled(s, a) && ArrOk(s, h) && RefCount(s.own, h.b) > 0
    ensures ArrOk(PayloadStore.Exec(s, a), h)
  {
    PayloadRuns.ReferencedPayloadIsStable(s, a, h.b);
    hide PayloadStore.Inv, PayloadStore.Exec, RefCount;
  }

  // Every array held or in a message is an owned reference to its block.
  lemma ArrReferenced(w: World, t: nat, i: nat)
    requires Inv(w) && t < |w.held| && i < |w.held[t]|
    ensures RefCount(w.s.own, w.held[t][i].b) > 0
  {
    assert HeldOk(w, t, i);
    PayloadRuns.HolderIsReference(w.s, t, w.held[t][i].b);
  }

  lemma MessageReferenced(w: World, i: nat, t: nat)
    requires Inv(w) && i < |w.sent| && t < |w.held|
    ensures RefCount(w.s.own, w.sent[i].b) > 0
  {
    OneInMessages(w.sent, i);
    PayloadRuns.HolderIsReference(w.s, t, w.sent[i].b);
  }

  // What the store's part of a step leaves of an array that stays held.
  lemma HeldKept(w: World, a: Action, t: nat, i: nat)
    requires Inv(w) && Enabled(w.s, a) && t < |w.held| && i < |w.held[t]|
    requires !(a.Kill? && a.t == t)
    requires a.Drop? || a.Pass? ==> Allowed(w, a)
    ensures ArrOk(PayloadStore.Exec(w.s, a), w.held[t][i])
    ensures PayloadStore.Exec(w.s, a).own.objs[t][w.held[t][i].b] > 0
  {
    var h := w.held[t][i];
    ArrReferenced(w, t, i);
    assert HeldOk(w, t, i);
    ArrKept(w.s, a, h);
    assert !NoneOf(w.held[t], h.b);
    hide PayloadStore.Inv, ArrOk, Inv, PayloadStore.Exec;
    ObjsKept(w.s, a, t, h.b);
  }

  lemma ObjsKept(s: State, a: Action, t: nat, b: Ref)
    requires WellFormed(s) && Enabled(s, a) && t < |s.own.objs| && s.own.objs[t][b] > 0 && !(a.Kill? && a.t == t)
    requires (a.Drop? || a.Pass?) && a.t == t && a.b == b ==> s.own.objs[t][b] > 1
    ensures t < |PayloadStore.Exec(s, a).own.objs| && PayloadStore.Exec(s, a).own.objs[t][b] > 0
  {
    hide NextBlocks, NextCtl, NextPc, NextLists, NextStatus, NextCarved, NextLock;
  }

  lemma MessagesKept(w: World, a: Action, i: nat)
    requires Inv(w) && Enabled(w.s, a) && i < |w.sent|
    ensures ArrOk(PayloadStore.Exec(w.s, a), w.sent[i])
  {
    hide ArrOk, PayloadStore.Inv, PayloadStore.Exec, RefCount;
    assert ArrOk(w.s, w.sent[i]);
    MessageReferenced(w, i, a.t);
    ArrKept(w.s, a, w.sent[i]);
  }

  // The handles a store action leaves.
  lemma HandlesAfter(s: State, a: Action, b: Ref)
    requires WellFormed(s) && Enabled(s, a)
    ensures PayloadStore.Exec(s, a).own.handles[b]
         == s.own.handles[b] + (if a.Share? && a.b == b then 1 else 0)
          - (if (a.Adopt? || a.LoseHandle?) && a.b == b then 1 else 0)
  {
    hide NextOwners, NextBlocks, NextCtl, NextPc, NextLists, NextStatus, NextCarved, NextLock;
    HandlesMove(s, a, b);
  }

  lemma PlainKeepsInv(w: World, x: Act)
    requires Inv(w) && Possible(w, x) && x.Plain?
    ensures Inv(Exec(w, x))
  {
    var n, a := Exec(w, x), x.a;
    StepKeepsInv(w.s, a);
    forall t, i | 0 <= t < |n.held| && 0 <= i < |n.held[t]| ensures HeldOk(n, t, i) {
      HeldKept(w, a, t, i);
    }
    forall i | 0 <= i < |n.sent| ensures ArrOk(n.s, n.sent[i]) {
      MessagesKept(w, a, i);
    }
    forall b ensures InMessages(n.sent, b) <= n.s.own.handles[b] {
      HandlesAfter(w.s, a, b);
    }
    hide PayloadStore.Inv, ArrOk, PayloadStore.Exec, HeldOk;
  }

  // A first copy or another one: the new array shows what was copied.
  lemma FreshOk(s: State, t: nat, from: Views.Array, item: nat, root: Views.Array, moves: seq<Views.Move>)
    requires WellFormed(s) && |from.shape| == |from.strides| && |root.shape| == |root.strides|
    requires Enabled(s, Publish(t)) && CopiedIn(s, t, from, item)
    requires Views.Possible(root, item, moves) && from == Views.After(root, item, moves)
    ensures ArrOk(PayloadStore.Exec(s, Publish(t)), Fresh(s.pcs[t].b, from, item, root, moves))
    ensures PayloadStore.Exec(s, Publish(t)).own.objs[t][s.pcs[t].b] > 0
  {
    Views.OneMoreMove(root, item, moves, Views.Send(false, 0));
    var n := PayloadStore.Exec(s, Publish(t));
    assert n.blk == s.blk && n.own.objs[t] == s.own.objs[t] + multiset{s.pcs[t].b};
    hide PayloadStore.Exec, Views.Possible, Views.After, Views.Packed, Views.PackedStrides;
  }

  lemma PublishKeepsInv(w: World, x: Act, from: Views.Array, item: nat, root: Views.Array, moves: seq<Views.Move>)
    requires Inv(w) && Possible(w, x) && (x.First? || x.Copy?)
    requires |from.shape| == |from.strides| && |root.shape| == |root.strides|
    requires Views.Possible(root, item, moves) && from == Views.After(root, item, moves)
    requires CopiedIn(w.s, x.t, from, item)
    requires x.t < |w.held| && NextHeld(w, x) == w.held[x.t := w.held[x.t] + [Fresh(w.s.pcs[x.t].b, from, item, root, moves)]]
    ensures Inv(Exec(w, x))
  {
    var n, a := Exec(w, x), Publish(x.t);
    StepKeepsInv(w.s, a);
    FreshOk(w.s, x.t, from, item, root, moves);
    hide CopiedIn, Fresh, NextHeld, Possible, PayloadStore.Exec, ArrOk, PayloadStore.Inv;
    forall t, i | 0 <= t < |n.held| && 0 <= i < |n.held[t]| ensures HeldOk(n, t, i) {
      if i < |w.held[t]| {
        HeldKept(w, a, t, i);
      }
    }
    forall i | 0 <= i < |n.sent| ensures ArrOk(n.s, n.sent[i]) {
      MessagesKept(w, a, i);
    }
    forall b ensures InMessages(n.sent, b) <= n.s.own.handles[b] {
      HandlesAfter(w.s, a, b);
    }
  }

  lemma FirstKeepsInv(w: World, x: Act)
    requires Inv(w) && Possible(w, x) && x.First?
    ensures Inv(Exec(w, x))
  {
    PublishKeepsInv(w, x, x.root, x.item, x.root, []);
  }

  lemma CopyKeepsInv(w: World, x: Act)
    requires Inv(w) && Possible(w, x) && x.Copy?
    ensures Inv(Exec(w, x))
  {
    assert HeldOk(w, x.t, x.i);
    var h := w.held[x.t][x.i];
    PublishKeepsInv(w, x, h.value, h.item, h.root, h.moves);
  }

  lemma SentOk(w: World, x: Act)
    requires Inv(w) && Possible(w, x) && x.Send?
    ensures Enabled(w.s, Share(x.t, w.held[x.t][x.i].b))
    ensures ArrOk(Exec(w, x).s, Outgoing(w.held[x.t][x.i]))
  {
    var h := w.held[x.t][x.i];
    assert HeldOk(w, x.t, x.i);
    hide PayloadStore.Inv, ArrOk, Enabled, PayloadStore.Exec, RefCount;
    Forwarded(w.s, h);
    ArrReferenced(w, x.t, x.i);
    ArrKept(w.s, Share(x.t, h.b), Outgoing(h));
  }

  lemma SentHandles(w: World, x: Act, b: Ref)
    requires Inv(w) && Possible(w, x) && x.Send?
    ensures InMessages(Exec(w, x).sent, b) <= Exec(w, x).s.own.handles[b]
  {
    var h := w.held[x.t][x.i];
    assert InMessages(w.sent, b) <= w.s.own.handles[b];
    hide Inv, PayloadStore.Inv, PayloadStore.Exec, Enabled, InMessages, Allowed;
    HandlesAfter(w.s, Share(x.t, h.b), b);
    MessagesWith(w.sent, Outgoing(h), b);
  }

  lemma SendKeepsInv(w: World, x: Act)
    requires Inv(w) && Possible(w, x) && x.Send?
    ensures Inv(Exec(w, x))
  {
    hide ArrOk, HeldOk, PayloadStore.Inv, PayloadStore.Exec, Enabled, InMessages;
    var n, a := Exec(w, x), Share(x.t, w.held[x.t][x.i].b);
    SentOk(w, x);
    StepKeepsInv(w.s, a);
    forall t, i | 0 <= t < |n.held| && 0 <= i < |n.held[t]| ensures HeldOk(n, t, i) {
      SentLeavesHeld(w, x, t, i);
    }
    forall i | 0 <= i < |n.sent| ensures ArrOk(n.s, n.sent[i]) {
      if i < |w.sent| { MessagesKept(w, a, i); }
    }
    forall b ensures InMessages(n.sent, b) <= n.s.own.handles[b] {
      SentHandles(w, x, b);
    }
  }

  lemma SentLeavesHeld(w: World, x: Act, t: nat, i: nat)
    requires Inv(w) && Possible(w, x) && x.Send? && t < |w.held| && i < |w.held[t]|
    ensures HeldOk(Exec(w, x), t, i)
  {
    hide ArrOk, PayloadStore.Inv, PayloadStore.Exec, Enabled;
    HeldKept(w, Share(x.t, w.held[x.t][x.i].b), t, i);
  }

  // A view that maps back is forwarded as it is.
  lemma Forwarded(s: State, h: Arr)
    requires ArrOk(s, h) && Views.MapsBack(h.off, h.shape, h.strides, h.item, |s.blk.mem[h.b]|)
    ensures ArrOk(s, Outgoing(h))
  {
    Views.OneMoreMove(h.root, h.item, h.moves, Views.Send(true, 0));
    hide Views.MapsBack, Views.Possible, Views.After;
  }

  lemma AdoptGives(s: State, t: nat, b: Ref)
    requires WellFormed(s) && Enabled(s, Adopt(t, b))
    ensures PayloadStore.Exec(s, Adopt(t, b)).own.objs[t][b] > 0
  {
    hide NextBlocks, NextCtl, NextPc, NextLists, NextStatus, NextCarved, NextLock;
  }

  lemma LoadedOk(w: World, x: Act, t: nat, i: nat)
    requires Inv(w) && Possible(w, x) && x.Load? && t < |Exec(w, x).held| && i < |Exec(w, x).held[t]|
    ensures HeldOk(Exec(w, x), t, i)
  {
    var n, h := Exec(w, x), w.sent[x.i];
    var a := Adopt(x.t, h.b);
    hide ArrOk, PayloadStore.Inv, PayloadStore.Exec, Enabled;
    if i < |w.held[t]| {
      HeldKept(w, a, t, i);
    } else {
      MessagesKept(w, a, x.i);
      AdoptGives(w.s, x.t, h.b);
    }
  }

  lemma TakenOff(w: World, x: Act, i: nat)
    requires Inv(w) && Possible(w, x) && (x.Load? || x.Lose?) && i < |Exec(w, x).sent|
    ensures WorldOk(w) && x.i < |w.sent| && StoreStep(w, x) != [] && Enabled(w.s, StoreStep(w, x)[0])
    ensures var k := if i < x.i then i else i + 1; k < |w.sent| && Exec(w, x).sent[i] == w.sent[k]
    ensures Exec(w, x).s == PayloadStore.Exec(w.s, StoreStep(w, x)[0])
  {
    hide PayloadStore.Inv, ArrOk, HeldOk, PayloadStore.Exec, Enabled, NextHeld;
  }

  // A message taken off, loaded or lost: the others stay as they were.
  lemma LeftInMessages(w: World, x: Act, i: nat)
    requires Inv(w) && Possible(w, x) && (x.Load? || x.Lose?) && i < |Exec(w, x).sent|
    ensures ArrOk(Exec(w, x).s, Exec(w, x).sent[i])
  {
    hide Inv, ArrOk, PayloadStore.Exec, Enabled, Possible, NextMessages, StoreStep, Exec;
    TakenOff(w, x, i);
    MessagesKept(w, StoreStep(w, x)[0], if i < x.i then i else i + 1);
  }

  lemma HandlesLeft(w: World, x: Act, b: Ref)
    requires Inv(w) && Possible(w, x) && (x.Load? || x.Lose?)
    ensures InMessages(Exec(w, x).sent, b) <= Exec(w, x).s.own.handles[b]
  {
    var a := StoreStep(w, x)[0];
    assert InMessages(w.sent, b) <= w.s.own.handles[b];
    hide Inv, PayloadStore.Inv, PayloadStore.Exec, Enabled, NextHeld, InMessages, Allowed;
    HandlesAfter(w.s, a, b);
    MessagesWithout(w.sent, x.i, b);
  }

  lemma LoadKeepsInv(w: World, x: Act)
    requires Inv(w) && Possible(w, x) && x.Load?
    ensures Inv(Exec(w, x))
  {
    hide ArrOk, HeldOk, PayloadStore.Inv, PayloadStore.Exec, Enabled, NextHeld, InMessages;
    var n := Exec(w, x);
    StepKeepsInv(w.s, Adopt(x.t, w.sent[x.i].b));
    forall t, i | 0 <= t < |n.held| && 0 <= i < |n.held[t]| ensures HeldOk(n, t, i) {
      LoadedOk(w, x, t, i);
    }
    forall i | 0 <= i < |n.sent| ensures ArrOk(n.s, n.sent[i]) {
      LeftInMessages(w, x, i);
    }
    forall b ensures InMessages(n.sent, b) <= n.s.own.handles[b] {
      HandlesLeft(w, x, b);
    }
  }

  lemma LoseKeepsInv(w: World, x: Act)
    requires Inv(w) && Possible(w, x) && x.Lose?
    ensures Inv(Exec(w, x))
  {
    hide ArrOk, HeldOk, PayloadStore.Inv, PayloadStore.Exec, Enabled, InMessages;
    var n := Exec(w, x);
    StepKeepsInv(w.s, LoseHandle(x.t, w.sent[x.i].b));
    forall t, i | 0 <= t < |n.held| && 0 <= i < |n.held[t]| ensures HeldOk(n, t, i) {
      LostLeavesHeld(w, x, t, i);
    }
    forall i | 0 <= i < |n.sent| ensures ArrOk(n.s, n.sent[i]) {
      LeftInMessages(w, x, i);
    }
    forall b ensures InMessages(n.sent, b) <= n.s.own.handles[b] {
      HandlesLeft(w, x, b);
    }
  }

  lemma LostLeavesHeld(w: World, x: Act, t: nat, i: nat)
    requires Inv(w) && Possible(w, x) && x.Lose? && t < |w.held| && i < |w.held[t]|
    ensures HeldOk(Exec(w, x), t, i)
  {
    hide ArrOk, PayloadStore.Inv, PayloadStore.Exec, Enabled;
    HeldKept(w, LoseHandle(x.t, w.sent[x.i].b), t, i);
  }

  lemma SubViewOk(s: State, h: Arr, cut: Views.Cut)
    requires ArrOk(s, h) && Views.Legal(cut, h.shape)
    ensures var v := Views.Apply(Views.Array(0, [], h.off, h.shape, h.strides), cut);
            ArrOk(s, h.(off := v.data, shape := v.shape, strides := v.strides,
                        value := v.(block := h.value.block), moves := h.moves + [Views.View(cut)]))
  {
    Views.OneMoreMove(h.root, h.item, h.moves, Views.View(cut));
    var v := Views.Apply(Views.Array(0, [], h.off, h.shape, h.strides), cut);
    assert v.(block := h.value.block) == Views.Apply(h.value, cut);
    assert |v.shape| == |v.strides|;
    hide Views.Possible, Views.After, Views.Legal, Views.Apply;
  }

  lemma LocalHeld(w: World, x: Act, t: nat, i: nat)
    requires Inv(w) && Possible(w, x) && (x.SubView? || x.Forget?) && t < |Exec(w, x).held| && i < |Exec(w, x).held[t]|
    ensures HeldOk(Exec(w, x), t, i)
  {
    hide ArrOk, PayloadStore.Inv, PayloadStore.Exec, Views.Apply, Views.Legal;
    assert HeldOk(w, x.t, x.i);
    if x.SubView? {
      if i < |w.held[t]| {
        assert HeldOk(w, t, i);
      } else {
        SubViewOk(w.s, w.held[x.t][x.i], x.cut);
      }
    } else {
      assert HeldOk(w, t, if t != x.t || i < x.i then i else i + 1);
    }
  }

  lemma LocalKeepsInv(w: World, x: Act)
    requires Inv(w) && Possible(w, x) && (x.SubView? || x.Forget?)
    ensures Inv(Exec(w, x))
  {
    hide ArrOk, HeldOk, PayloadStore.Inv, PayloadStore.Exec, Views.Apply, Views.Legal, NextHeld;
    var n := Exec(w, x);
    forall t, i | 0 <= t < |n.held| && 0 <= i < |n.held[t]| ensures HeldOk(n, t, i) {
      LocalHeld(w, x, t, i);
    }
  }

  lemma WorldStepKeepsInv(w: World, x: Act)
    requires Inv(w) && Possible(w, x)
    ensures Inv(Exec(w, x))
  {
    match x {
      case Plain(_) => PlainKeepsInv(w, x);
      case First(_, _, _) => FirstKeepsInv(w, x);
      case Copy(_, _) => CopyKeepsInv(w, x);
      case Send(_, _) => SendKeepsInv(w, x);
      case Load(_, _) => LoadKeepsInv(w, x);
      case Lose(_, _) => LoseKeepsInv(w, x);
      case SubView(_, _, _) => LocalKeepsInv(w, x);
      case Forget(_, _) => LocalKeepsInv(w, x);
    }
  }

  lemma {:induction false} WorldRunKeepsInv(w: World, run: seq<Act>)
    requires Inv(w) && Running(w, run)
    ensures Inv(ExecAll(w, run))
    decreases |run|
  {
    if run != [] {
      var n := Exec(w, run[0]);
      WorldStepKeepsInv(w, run[0]);
      hide Inv, Possible, Exec;
      WorldRunKeepsInv(n, run[1..]);
    }
  }

  /** In every reachable state, whatever has been allocated, freed, recycled or
      killed: every array somebody holds shows, read from the store's memory as it
      is now, the first sender's elements. */
  lemma ArraysShowWhatWasSent(w: World, run: seq<Act>, t: nat, i: nat, idx: Views.Index)
    requires Initial(w) && Running(w, run)
    requires t < |ExecAll(w, run).held| && i < |ExecAll(w, run).held[t]|
    requires Views.Inside(idx, ExecAll(w, run).held[t][i].shape)
    ensures var n, h := ExecAll(w, run), ExecAll(w, run).held[t][i];
            && h.b in n.s.blk.mem && |h.shape| == |h.strides|
            && |h.root.shape| == |h.root.strides| && Views.Possible(h.root, h.item, h.moves)
            && Views.Inside(Views.Origin(h.root, h.item, h.moves, idx), h.root.shape)
            && Views.Read(Now(n.s, h), h.item, idx)
               == Views.Read(h.root, h.item, Views.Origin(h.root, h.item, h.moves, idx))
  {
    StartsOk(w);
    WorldRunKeepsInv(w, run);
    var n := ExecAll(w, run);
    assert HeldOk(n, t, i);
    var h := n.held[t][i];
    hide Running, ExecAll, Inv, Initial, Views.Read, Views.Inside, Views.Origin;
    Views.ChainReads(h.root, h.item, h.moves, idx);
  }

  lemma StartsOk(w: World)
    requires Initial(w)
    ensures Inv(w)
  {
    PayloadRuns.InitialInv(w.s);
  }

  /** And those are the elements it would show had every hop copied. */
  lemma HandlesAreLikeCopies(w: World, run: seq<Act>, t: nat, i: nat, idx: Views.Index)
    requires Initial(w) && Running(w, run)
    requires t < |ExecAll(w, run).held| && i < |ExecAll(w, run).held[t]|
    requires Views.Inside(idx, ExecAll(w, run).held[t][i].shape)
    ensures var n, h := ExecAll(w, run), ExecAll(w, run).held[t][i];
            var copies := Views.ByCopy(h.moves);
            && h.b in n.s.blk.mem && |h.shape| == |h.strides| && |h.root.shape| == |h.root.strides|
            && Views.Possible(h.root, h.item, copies) && Views.Inside(idx, Views.After(h.root, h.item, copies).shape)
            && Views.Read(Now(n.s, h), h.item, idx) == Views.Read(Views.After(h.root, h.item, copies), h.item, idx)
  {
    StartsOk(w);
    WorldRunKeepsInv(w, run);
    var n := ExecAll(w, run);
    assert HeldOk(n, t, i);
    var h := n.held[t][i];
    hide Running, ExecAll, Inv, Initial, Views.Read, Views.Inside;
    Views.HandlesRefineCopies(h.root, h.item, h.moves, idx);
  }
}
