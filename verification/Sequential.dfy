/** The single-process runner (src/pipe/sequential.py): one list of pending
    (stage, item) pairs, popped at the front and appended at the back, with root
    calls in between, batches, run() stages and pushes back to earlier stages. */
module Sequential {
  import opened Flow

  // What a worker returns or yields: an item, None or End, alone or in a list or
  // generator.
  datatype Cell = NoneCell | EndCell | ItemCell(x: Item)
  datatype Result =
    | ReturnNone | ReturnEnd | ReturnOne(x: Item) | ReturnList(cells: seq<Cell>) | ReturnGenerator(cells: seq<Cell>)

  type Entry = (nat, Item)

  // `call` is what a stage returns for a batch, `f` and `push` what one item
  // leads to: results for the next stage and items pushed back to (stage, item).
  // `budget` bounds an item's retries. `script` is what the root's calls return.
  datatype Program = Program(
    n: nat, batch: seq<nat>, runs: set<nat>,
    call: (nat, seq<Item>) -> Result, f: Calls, push: (nat, Item) -> seq<Entry>,
    budget: Item -> nat, script: seq<Result>)

  function Kept(cells: seq<Cell>): seq<Item> {
    if cells == [] then []
    else if cells[0].ItemCell? then [cells[0].x] + Kept(cells[1..])
    else Kept(cells[1..])
  }

  function KeptResult(r: Result): seq<Item> {
    match r
    case ReturnNone => []
    case ReturnEnd => []
    case ReturnOne(x) => [x]
    case ReturnList(cells) => Kept(cells)
    case ReturnGenerator(cells) => Kept(cells)
  }

  // Stages are stateless: a batch leads to what its items lead to one by one.
  ghost predicate Stateless(p: Program) {
    forall s, b :: KeptResult(p.call(s, b)) == FlatMap(p.f, s, b)
  }

  predicate Retries(p: Program, s: nat, x: Item, e: Entry) {
    1 <= e.0 < p.n && p.budget(e.1) < p.budget(x)
  }

  // A push goes to a stage with an input and spends some of its item's budget.
  ghost predicate Converges(p: Program) {
    forall s, x :: 1 <= s < p.n ==>
      && (forall i :: 0 <= i < |p.push(s, x)| ==> Retries(p, s, x, p.push(s, x)[i]))
      && (forall i :: 0 <= i < |p.f(s, x)| ==> p.budget(p.f(s, x)[i]) <= p.budget(x))
  }

  ghost predicate Good(p: Program) {
    p.n > 0 && |p.batch| == p.n && Stateless(p) && Converges(p)
  }

  function At(s: nat, xs: seq<Item>): (es: seq<Entry>)
    ensures |es| == |xs| && forall i :: 0 <= i < |es| ==> es[i] == (s, xs[i])
  {
    if xs == [] then [] else [(s, xs[0])] + At(s, xs[1..])
  }

  // What popping (s, x) appends: its pushes, then its results.
  function Next(p: Program, s: nat, x: Item): seq<Entry> {
    p.push(s, x) + At(s + 1, p.f(s, x))
  }

  // ---------- the recursive reference ----------

  function Distance(p: Program, s: nat): nat {
    if s < p.n then p.n - s else 0
  }

  ghost predicate Under(p: Program, es: seq<Entry>, budget: nat, distance: nat) {
    forall i :: 0 <= i < |es| ==>
      1 <= es[i].0 <= p.n
      && (p.budget(es[i].1) < budget || (p.budget(es[i].1) == budget && Distance(p, es[i].0) < distance))
  }

  lemma NextIsUnder(p: Program, s: nat, x: Item)
    requires Good(p) && 1 <= s < p.n
    ensures Under(p, Next(p, s, x), p.budget(x), Distance(p, s))
  {
  }

  // Every pop (s, x) leads to, depth first. A pop at stage n is a yield.
  ghost function Trace(p: Program, s: nat, x: Item): seq<Entry>
    requires Good(p) && 1 <= s <= p.n
    decreases p.budget(x), Distance(p, s), |Next(p, s, x)| + 1
  {
    if s >= p.n then [(s, x)]
    else
      NextIsUnder(p, s, x);
      [(s, x)] + TraceAll(p, Next(p, s, x), p.budget(x), Distance(p, s))
  }

  ghost function TraceAll(p: Program, es: seq<Entry>, budget: nat, distance: nat): seq<Entry>
    requires Good(p) && Under(p, es, budget, distance)
    decreases budget, distance, |es|
  {
    if es == [] then [] else Trace(p, es[0].0, es[0].1) + TraceAll(p, es[1..], budget, distance)
  }

  ghost predicate Placed(p: Program, es: seq<Entry>) {
    forall i :: 0 <= i < |es| ==> 1 <= es[i].0 <= p.n
  }

  ghost function Traces(p: Program, es: seq<Entry>): seq<Entry>
    requires Good(p) && Placed(p, es)
  {
    if es == [] then [] else Trace(p, es[0].0, es[0].1) + Traces(p, es[1..])
  }

  lemma {:induction false} TraceAllIsTraces(p: Program, es: seq<Entry>, budget: nat, distance: nat)
    requires Good(p) && Under(p, es, budget, distance)
    ensures Placed(p, es) && TraceAll(p, es, budget, distance) == Traces(p, es)
    decreases |es|
  {
    if es != [] {
      TraceAllIsTraces(p, es[1..], budget, distance);
    }
  }

  lemma {:induction false} TracesConcat(p: Program, a: seq<Entry>, b: seq<Entry>)
    requires Good(p) && Placed(p, a) && Placed(p, b)
    ensures Placed(p, a + b) && Traces(p, a + b) == Traces(p, a) + Traces(p, b)
  {
    hide Good;
    if a == [] {
      assert a + b == b;
    } else {
      TracesConcat(p, a[1..], b);
      assert (a + b)[1..] == a[1..] + b;
    }
  }

  // What the items yielded are, in the order of the pops.
  function Yielded(n: nat, es: seq<Entry>): seq<Item> {
    if es == [] then []
    else if es[0].0 >= n then [es[0].1] + Yielded(n, es[1..])
    else Yielded(n, es[1..])
  }

  // ---------- what one call moves ----------

  function Pushes(p: Program, s: nat, b: seq<Item>): seq<Entry> {
    if b == [] then [] else p.push(s, b[0]) + Pushes(p, s, b[1..])
  }

  // What calling stage s on the batch b appends.
  function After(p: Program, s: nat, b: seq<Item>): seq<Entry> {
    Pushes(p, s, b) + At(s + 1, FlatMap(p.f, s, b))
  }

  // What a run() worker appends that pulls n items at a time until none is left.
  function Pulled(p: Program, s: nat, xs: seq<Item>, n: nat): seq<Entry>
    requires n > 0
  {
    if |xs| <= n then After(p, s, xs) else After(p, s, xs[..n]) + Pulled(p, s, xs[n..], n)
  }

  function Level(es: seq<Entry>, k: nat): seq<Item> {
    if es == [] then []
    else if es[0].0 == k then [es[0].1] + Level(es[1..], k)
    else Level(es[1..], k)
  }

  function Others(es: seq<Entry>, k: nat): seq<Entry> {
    if es == [] then []
    else if es[0].0 == k then Others(es[1..], k)
    else [es[0]] + Others(es[1..], k)
  }

  lemma {:induction false} AtConcat(s: nat, a: seq<Item>, b: seq<Item>)
    ensures At(s, a + b) == At(s, a) + At(s, b)
  {
    if a == [] {
      assert a + b == b;
    } else {
      assert (a + b)[1..] == a[1..] + b;
      AtConcat(s, a[1..], b);
    }
  }

  lemma {:induction false} PushesPlaced(p: Program, s: nat, b: seq<Item>)
    requires Converges(p) && 1 <= s < p.n
    ensures Placed(p, Pushes(p, s, b))
  {
    if b != [] {
      PushesPlaced(p, s, b[1..]);
      forall i | 0 <= i < |p.push(s, b[0])| ensures Retries(p, s, b[0], p.push(s, b[0])[i]) {}
    }
  }

  // All the pops that entries lead to, as a bag.
  ghost function Bag(p: Program, es: seq<Entry>): multiset<Entry>
    requires Good(p) && Placed(p, es)
  {
    multiset(Traces(p, es))
  }

  lemma BagConcat(p: Program, a: seq<Entry>, b: seq<Entry>)
    requires Good(p) && Placed(p, a) && Placed(p, b)
    ensures Placed(p, a + b) && Bag(p, a + b) == Bag(p, a) + Bag(p, b)
  {
    hide Traces, Good;
    TracesConcat(p, a, b);
  }

  lemma BagNothing(p: Program)
    requires Good(p)
    ensures Bag(p, []) == multiset{}
  {
  }

  lemma BagYield(p: Program, x: Item)
    requires Good(p)
    ensures Bag(p, [(p.n, x)]) == multiset{(p.n, x)}
  {
    var e := [(p.n, x)];
    assert e[1..] == [];
    assert Traces(p, e) == [(p.n, x)] + Traces(p, []);
  }

  lemma BagOne(p: Program, s: nat, x: Item)
    requires Good(p) && 1 <= s < p.n
    ensures Placed(p, Next(p, s, x)) && Bag(p, [(s, x)]) == multiset{(s, x)} + Bag(p, Next(p, s, x))
  {
    hide Good;
    var e := [(s, x)];
    NextIsUnder(p, s, x);
    TraceAllIsTraces(p, Next(p, s, x), p.budget(x), Distance(p, s));
    assert e[1..] == [];
    assert Traces(p, e) == Trace(p, s, x) + Traces(p, []) == e + Traces(p, Next(p, s, x));
  }

  lemma AfterPlaced(p: Program, s: nat, b: seq<Item>)
    requires Good(p) && 1 <= s < p.n
    ensures Placed(p, After(p, s, b)) && Placed(p, Pushes(p, s, b)) && Placed(p, At(s + 1, FlatMap(p.f, s, b)))
  {
    PushesPlaced(p, s, b);
  }

  lemma {:induction false} PushesConcat(p: Program, s: nat, a: seq<Item>, b: seq<Item>)
    ensures Pushes(p, s, a + b) == Pushes(p, s, a) + Pushes(p, s, b)
  {
    if a == [] {
      assert a + b == b;
    } else {
      assert (a + b)[1..] == a[1..] + b;
      PushesConcat(p, s, a[1..], b);
    }
  }

  lemma BagAfterConcat(p: Program, s: nat, a: seq<Item>, b: seq<Item>)
    requires Good(p) && 1 <= s < p.n
    requires Placed(p, After(p, s, a + b)) && Placed(p, After(p, s, a)) && Placed(p, After(p, s, b))
    ensures Bag(p, After(p, s, a + b)) == Bag(p, After(p, s, a)) + Bag(p, After(p, s, b))
  {
    hide Good, Bag, Pushes, FlatMap;
    AfterPlaced(p, s, a);
    AfterPlaced(p, s, b);
    var pa, pb, fa, fb := Pushes(p, s, a), Pushes(p, s, b), At(s + 1, FlatMap(p.f, s, a)), At(s + 1, FlatMap(p.f, s, b));
    PushesConcat(p, s, a, b);
    FlatMapConcat(p.f, s, a, b);
    AtConcat(s + 1, FlatMap(p.f, s, a), FlatMap(p.f, s, b));
    BagConcat(p, pa, pb);
    BagConcat(p, fa, fb);
    BagConcat(p, pa + pb, fa + fb);
    BagConcat(p, pa, fa);
    BagConcat(p, pb, fb);
  }
  // A call on a batch pops each of its items and leads on to what each leads to.
  lemma {:induction false} BagCall(p: Program, s: nat, b: seq<Item>)
    requires Good(p) && 1 <= s < p.n
    ensures Placed(p, At(s, b)) && Placed(p, After(p, s, b))
    ensures Bag(p, At(s, b)) == multiset(At(s, b)) + Bag(p, After(p, s, b))
  {
    hide Good, Bag, Pushes, FlatMap;
    AfterPlaced(p, s, b);
    if b == [] {
      NothingAfter(p, s);
      BagNothing(p);
    } else {
      BagCall(p, s, b[1..]);
      assert b == [b[0]] + b[1..];
      hide After, At, Placed;
      BagCallOne(p, s, b[0], b[1..]);
    }
  }

  lemma BagCallOne(p: Program, s: nat, x: Item, rest: seq<Item>)
    requires Good(p) && 1 <= s < p.n && Placed(p, At(s, rest)) && Placed(p, After(p, s, rest))
    requires Bag(p, At(s, rest)) == multiset(At(s, rest)) + Bag(p, After(p, s, rest))
    ensures Placed(p, At(s, [x] + rest)) && Placed(p, After(p, s, [x] + rest))
    ensures Bag(p, At(s, [x] + rest)) == multiset(At(s, [x] + rest)) + Bag(p, After(p, s, [x] + rest))
  {
    hide Good, Bag, Pushes, FlatMap, After, At, Next, Placed;
    AtFirst(p, s, x, rest);
    AfterPlaced(p, s, [x] + rest);
    AfterPlaced(p, s, [x]);
    BagOne(p, s, x);
    AfterOne(p, s, x);
    BagConcat(p, [(s, x)], At(s, rest));
    BagAfterConcat(p, s, [x], rest);
    assert multiset([(s, x)] + At(s, rest)) == multiset{(s, x)} + multiset(At(s, rest));
  }

  lemma AtFirst(p: Program, s: nat, x: Item, rest: seq<Item>)
    requires 1 <= s <= p.n
    ensures At(s, [x] + rest) == [(s, x)] + At(s, rest) && Placed(p, [(s, x)])
  {
    assert ([x] + rest)[1..] == rest;
  }

  lemma NothingAfter(p: Program, s: nat)
    ensures After(p, s, []) == []
  {
  }

  lemma AfterOne(p: Program, s: nat, x: Item)
    ensures After(p, s, [x]) == Next(p, s, x)
  {
    assert [x][1..] == [];
    FlatMapOne(p.f, s, x);
    assert Pushes(p, s, [x]) == p.push(s, x) + Pushes(p, s, []) == p.push(s, x);
  }

  lemma {:induction false} BagSplit(p: Program, es: seq<Entry>, k: nat)
    requires Good(p) && Placed(p, es) && 1 <= k <= p.n
    ensures Placed(p, At(k, Level(es, k))) && Placed(p, Others(es, k))
    ensures Bag(p, es) == Bag(p, At(k, Level(es, k))) + Bag(p, Others(es, k))
  {
    hide Good, Bag;
    if es == [] {
      BagNothing(p);
    } else {
      BagSplit(p, es[1..], k);
      assert es == [es[0]] + es[1..];
      BagConcat(p, [es[0]], es[1..]);
      if es[0].0 == k {
        AtConcat(k, [es[0].1], Level(es[1..], k));
        BagConcat(p, At(k, [es[0].1]), At(k, Level(es[1..], k)));
        assert At(k, [es[0].1]) == [es[0]];
      } else {
        BagConcat(p, [es[0]], Others(es[1..], k));
      }
    }
  }

  lemma {:induction false} BagPulled(p: Program, s: nat, xs: seq<Item>, n: nat)
    requires Good(p) && 1 <= s < p.n && n > 0
    ensures Placed(p, Pulled(p, s, xs, n)) && Placed(p, After(p, s, xs))
    ensures Bag(p, Pulled(p, s, xs, n)) == Bag(p, After(p, s, xs))
    decreases |xs|
  {
    hide Good, Bag, After;
    AfterPlaced(p, s, xs);
    if |xs| > n {
      var a, b := xs[..n], xs[n..];
      BagPulled(p, s, b, n);
      AfterPlaced(p, s, a);
      BagConcat(p, After(p, s, a), Pulled(p, s, b, n));
      assert xs == a + b;
      BagAfterConcat(p, s, a, b);
    }
  }


  // ---------- order, where nothing is pushed back ----------

  // What the pending items lead to, deepest stage first.
  function Later(p: Program, es: seq<Entry>, k: nat): seq<Item>
    decreases p.n + 1 - k
  {
    if k > p.n then [] else Later(p, es, k + 1) + Composed(p.f, p.n, k, Level(es, k))
  }

  lemma {:induction false} LevelConcat(a: seq<Entry>, b: seq<Entry>, k: nat)
    ensures Level(a + b, k) == Level(a, k) + Level(b, k)
  {
    if a == [] {
      assert a + b == b;
    } else {
      assert (a + b)[1..] == a[1..] + b;
      LevelConcat(a[1..], b, k);
    }
  }

  lemma {:induction false} LevelAt(s: nat, xs: seq<Item>, k: nat)
    ensures Level(At(s, xs), k) == if s == k then xs else []
  {
    if xs != [] {
      LevelAt(s, xs[1..], k);
    }
  }

  lemma {:induction false} LevelOthers(es: seq<Entry>, s: nat, k: nat)
    ensures Level(Others(es, s), k) == if s == k then [] else Level(es, k)
  {
    if es != [] {
      LevelOthers(es[1..], s, k);
      if es[0].0 != s {
        assert Others(es, s)[1..] == Others(es[1..], s);
      }
    }
  }

  // b left the front of stage s's items and what it leads to joined the end of
  // the next stage's; no other stage changed.
  ghost predicate Advanced(p: Program, before: seq<Entry>, after: seq<Entry>, s: nat, b: seq<Item>) {
    && Level(before, s) == b + Level(after, s)
    && Level(after, s + 1) == Level(before, s + 1) + FlatMap(p.f, s, b)
    && forall k: nat :: k != s && k != s + 1 ==> Level(after, k) == Level(before, k)
  }

  lemma {:induction false} LaterSame(p: Program, before: seq<Entry>, after: seq<Entry>, k: nat)
    requires forall i :: k <= i <= p.n ==> Level(after, i) == Level(before, i)
    ensures Later(p, after, k) == Later(p, before, k)
    decreases p.n + 1 - k
  {
    if k <= p.n {
      LaterSame(p, before, after, k + 1);
    }
  }

  lemma {:induction false} LaterAdvanced(p: Program, before: seq<Entry>, after: seq<Entry>, s: nat, b: seq<Item>, k: nat)
    requires k <= s < p.n && Advanced(p, before, after, s, b)
    ensures Later(p, after, k) == Later(p, before, k)
    decreases s - k
  {
    hide FlatMap;
    if k < s {
      LaterAdvanced(p, before, after, s, b, k + 1);
    } else {
      var out := FlatMap(p.f, s, b);
      LaterSame(p, before, after, s + 2);
      ComposedConcat(p.f, p.n, s, b, Level(after, s));
      ComposedConcat(p.f, p.n, s + 1, Level(before, s + 1), out);
      assert Composed(p.f, p.n, s, b) == Composed(p.f, p.n, s + 1, out);
      var deep, next := Later(p, before, s + 2), Composed(p.f, p.n, s + 1, Level(before, s + 1));
      var mine, rest := Composed(p.f, p.n, s + 1, out), Composed(p.f, p.n, s, Level(after, s));
      assert (deep + (next + mine)) + rest == (deep + next) + (mine + rest);
    }
  }

  lemma {:induction false} LaterYields(p: Program, before: seq<Entry>, after: seq<Entry>, x: Item, k: nat)
    requires k <= p.n && Level(before, p.n) == [x] + Level(after, p.n)
    requires forall i: nat :: i < p.n ==> Level(after, i) == Level(before, i)
    ensures Later(p, before, k) == [x] + Later(p, after, k)
    decreases p.n - k
  {
    if k < p.n {
      LaterYields(p, before, after, x, k + 1);
    } else {
      assert Composed(p.f, p.n, p.n, Level(before, p.n)) == Level(before, p.n);
    }
  }

  lemma LaterGrows(p: Program, before: seq<Entry>, xs: seq<Item>)
    requires p.n > 0
    ensures Later(p, before + At(1, xs), 1) == Later(p, before, 1) + Composed(p.f, p.n, 1, xs)
  {
    var after := before + At(1, xs);
    forall k: nat ensures Level(after, k) == Level(before, k) + if k == 1 then xs else [] {
      LevelConcat(before, At(1, xs), k);
      LevelAt(1, xs, k);
    }
    LaterSame(p, before, after, 2);
    ComposedConcat(p.f, p.n, 1, Level(before, 1), xs);
  }

  ghost predicate NoPushes(p: Program) {
    forall s: nat, x: Item :: |p.push(s, x)| == 0
  }

  lemma {:induction false} NothingPushed(p: Program, s: nat, b: seq<Item>)
    requires NoPushes(p)
    ensures Pushes(p, s, b) == [] && After(p, s, b) == At(s + 1, FlatMap(p.f, s, b))
  {
    if b != [] {
      NothingPushed(p, s, b[1..]);
      var x := b[0];
      assert |p.push(s, x)| == 0;
      assert Pushes(p, s, b) == p.push(s, b[0]) + Pushes(p, s, b[1..]) == [];
    }
    assert [] + At(s + 1, FlatMap(p.f, s, b)) == At(s + 1, FlatMap(p.f, s, b));
  }

  lemma {:induction false} PulledNoPushes(p: Program, s: nat, xs: seq<Item>, n: nat)
    requires NoPushes(p) && n > 0
    ensures Pulled(p, s, xs, n) == At(s + 1, FlatMap(p.f, s, xs))
    decreases |xs|
  {
    hide NoPushes;
    if |xs| <= n {
      NothingPushed(p, s, xs);
    } else {
      NothingPushed(p, s, xs[..n]);
      PulledNoPushes(p, s, xs[n..], n);
      FlatMapConcat(p.f, s, xs[..n], xs[n..]);
      assert xs[..n] + xs[n..] == xs;
      AtConcat(s + 1, FlatMap(p.f, s, xs[..n]), FlatMap(p.f, s, xs[n..]));
    }
  }

  // A batch taken from the front of the list.
  lemma CallAdvances(p: Program, s: nat, b: seq<Item>, rest: seq<Entry>)
    requires NoPushes(p)
    ensures Advanced(p, At(s, b) + rest, rest + After(p, s, b), s, b)
  {
    hide After, FlatMap, Level, At, NoPushes;
    NothingPushed(p, s, b);
    forall k: nat
      ensures Level(At(s, b) + rest, k) == (if k == s then b else []) + Level(rest, k)
      ensures Level(rest + After(p, s, b), k) == Level(rest, k) + if k == s + 1 then FlatMap(p.f, s, b) else []
    {
      LevelConcat(At(s, b), rest, k);
      LevelAt(s, b, k);
      LevelConcat(rest, After(p, s, b), k);
      LevelAt(s + 1, FlatMap(p.f, s, b), k);
    }
  }

  // A run() stage takes all its pending items, wherever they are in the list.
  lemma RunAdvances(p: Program, s: nat, es: seq<Entry>, n: nat)
    requires NoPushes(p) && n > 0
    ensures var b := Level(es, s); Advanced(p, es, Others(es, s) + Pulled(p, s, b, n), s, b)
  {
    var b := Level(es, s);
    hide Pulled, FlatMap, Level, At, Others, NoPushes;
    PulledNoPushes(p, s, b, n);
    forall k: nat
      ensures Level(Others(es, s) + Pulled(p, s, b, n), k)
           == (if k == s then [] else Level(es, k)) + if k == s + 1 then FlatMap(p.f, s, b) else []
    {
      LevelConcat(Others(es, s), Pulled(p, s, b, n), k);
      LevelOthers(es, s, k);
      LevelAt(s + 1, FlatMap(p.f, s, b), k);
    }
  }

  // ---------- the runner ----------

  // The items of one root result and whether it ends the source: of a list,
  // what comes after its first End is ignored.
  function UntilEnd(cells: seq<Cell>): seq<Cell> {
    if cells == [] || cells[0].EndCell? then [] else [cells[0]] + UntilEnd(cells[1..])
  }

  lemma {:induction false} FirstEnd(cells: seq<Cell>, j: nat)
    requires j <= |cells| && EndCell !in cells[..j] && (j < |cells| ==> cells[j] == EndCell)
    ensures UntilEnd(cells) == cells[..j]
  {
    if j > 0 {
      assert cells[..j] == [cells[0]] + cells[1..][..j - 1];
      assert cells[0] in cells[..j];
      FirstEnd(cells[1..], j - 1);
    }
  }

  function RootItems(r: Result): seq<Item> {
    if r.ReturnList? then Kept(UntilEnd(r.cells)) else KeptResult(r)
  }

  function RootEnds(r: Result): bool {
    r.ReturnEnd? || r.ReturnGenerator? || (r.ReturnList? && EndCell in r.cells)
  }

  // What the root's k-th call returns: its script, then End.
  function Scripted(p: Program, k: nat): Result {
    if k < |p.script| then p.script[k] else ReturnEnd
  }

  // All items the root emits from its k-th call on.
  function Source(p: Program, k: nat): seq<Item>
    decreases |p.script| - k
  {
    RootItems(Scripted(p, k)) + (if RootEnds(Scripted(p, k)) || k >= |p.script| then [] else Source(p, k + 1))
  }

  // The pops made, and those that the pending and the coming items lead to, are
  // those of the recursion on all the root's items.
  ghost predicate Balance(p: Program, history: seq<Entry>, es: seq<Entry>, left: seq<Item>, source: seq<Item>) {
    && Good(p) && Placed(p, es)
    && multiset(history) + Bag(p, es) + Bag(p, At(1, left)) == Bag(p, At(1, source))
  }

  ghost predicate Order(p: Program, out: seq<Item>, es: seq<Entry>, left: seq<Item>, source: seq<Item>) {
    NoPushes(p) ==>
      out + Later(p, es, 1) + Composed(p.f, p.n, 1, left) == Composed(p.f, p.n, 1, source)
  }

  lemma RootKeeps(p: Program, history: seq<Entry>, out: seq<Item>, es: seq<Entry>, xs: seq<Item>, left: seq<Item>,
                  source: seq<Item>)
    requires Balance(p, history, es, xs + left, source) && Order(p, out, es, xs + left, source)
    ensures Balance(p, history, es + At(1, xs), left, source) && Order(p, out, es + At(1, xs), left, source)
  {
    hide Bag, At, Order;
    RootKeepsOrder(p, out, es, xs, left, source);
    AtPlaced(p, xs);
    AtPlaced(p, left);
    AtConcat(1, xs, left);
    BagConcat(p, At(1, xs), At(1, left));
    BagConcat(p, es, At(1, xs));
  }

  lemma RootKeepsOrder(p: Program, out: seq<Item>, es: seq<Entry>, xs: seq<Item>, left: seq<Item>, source: seq<Item>)
    requires p.n > 0 && Order(p, out, es, xs + left, source)
    ensures Order(p, out, es + At(1, xs), left, source)
  {
    hide At, Later, Composed, NoPushes;
    LaterGrows(p, es, xs);
    ComposedConcat(p.f, p.n, 1, xs, left);
    var a, b, c := Later(p, es, 1), Composed(p.f, p.n, 1, xs), Composed(p.f, p.n, 1, left);
    assert out + (a + b) + c == out + a + (b + c);
  }

  lemma AtPlaced(p: Program, xs: seq<Item>)
    requires Good(p)
    ensures Placed(p, At(1, xs))
  {
  }

  lemma CallKeeps(p: Program, history: seq<Entry>, out: seq<Item>, s: nat, b: seq<Item>, rest: seq<Entry>,
                  left: seq<Item>, source: seq<Item>)
    requires b != [] && 1 <= s < p.n && Placed(p, rest)
    requires Balance(p, history, At(s, b) + rest, left, source) && Order(p, out, At(s, b) + rest, left, source)
    ensures Balance(p, history + At(s, b), rest + After(p, s, b), left, source)
    ensures Order(p, out, rest + After(p, s, b), left, source)
    ensures |Bag(p, rest + After(p, s, b))| < |Bag(p, At(s, b) + rest)|
  {
    hide Bag, At, Later, Composed, Good, NoPushes, After, Placed, Advanced;
    BagCall(p, s, b);
    BagConcat(p, At(s, b), rest);
    BagConcat(p, rest, After(p, s, b));
    assert multiset(history + At(s, b)) == multiset(history) + multiset(At(s, b));
    CallKeepsOrder(p, out, s, b, rest, left, source);
    hide Order;
  }

  lemma CallKeepsOrder(p: Program, out: seq<Item>, s: nat, b: seq<Item>, rest: seq<Entry>, left: seq<Item>, source: seq<Item>)
    requires 1 <= s < p.n && Order(p, out, At(s, b) + rest, left, source)
    ensures Order(p, out, rest + After(p, s, b), left, source)
  {
    hide At, Later, Composed, NoPushes, After, Advanced;
    if NoPushes(p) {
      CallAdvances(p, s, b, rest);
      LaterAdvanced(p, At(s, b) + rest, rest + After(p, s, b), s, b, 1);
    }
  }

  lemma RunKeeps(p: Program, history: seq<Entry>, out: seq<Item>, s: nat, es: seq<Entry>, n: nat,
                 left: seq<Item>, source: seq<Item>)
    requires n > 0 && 1 <= s < p.n && Level(es, s) != []
    requires Balance(p, history, es, left, source) && Order(p, out, es, left, source)
    ensures var b := Level(es, s);
            var after := Others(es, s) + Pulled(p, s, b, n);
            && Balance(p, history + At(s, b), after, left, source) && Order(p, out, after, left, source)
            && |Bag(p, after)| < |Bag(p, es)|
  {
    hide Bag, At, Later, Composed, Good, NoPushes, After, Placed, Advanced, Pulled, Level, Others;
    var b := Level(es, s);
    BagSplit(p, es, s);
    BagCall(p, s, b);
    BagPulled(p, s, b, n);
    BagConcat(p, Others(es, s), Pulled(p, s, b, n));
    assert multiset(history + At(s, b)) == multiset(history) + multiset(At(s, b));
    if NoPushes(p) {
      RunAdvances(p, s, es, n);
      LaterAdvanced(p, es, Others(es, s) + Pulled(p, s, b, n), s, b, 1);
    }
  }

  lemma YieldKeeps(p: Program, history: seq<Entry>, out: seq<Item>, x: Item, rest: seq<Entry>,
                   left: seq<Item>, source: seq<Item>)
    requires Placed(p, rest)
    requires Balance(p, history, [(p.n, x)] + rest, left, source) && Order(p, out, [(p.n, x)] + rest, left, source)
    ensures Balance(p, history + [(p.n, x)], rest, left, source) && Order(p, out + [x], rest, left, source)
    ensures |Bag(p, rest)| < |Bag(p, [(p.n, x)] + rest)|
  {
    hide Bag, At, Order;
    var e := [(p.n, x)];
    YieldKeepsOrder(p, out, x, rest, left, source);
    BagYield(p, x);
    BagConcat(p, e, rest);
    hide Good, Placed;
    assert multiset(history + e) == multiset(history) + multiset{(p.n, x)};
  }

  lemma YieldKeepsOrder(p: Program, out: seq<Item>, x: Item, rest: seq<Entry>, left: seq<Item>, source: seq<Item>)
    requires p.n > 0 && Order(p, out, [(p.n, x)] + rest, left, source)
    ensures Order(p, out + [x], rest, left, source)
  {
    var e := [(p.n, x)];
    hide Later, Composed, NoPushes;
    forall k: nat ensures Level(e + rest, k) == (if k == p.n then [x] else []) + Level(rest, k) {
      assert (e + rest)[1..] == rest;
    }
    LaterYields(p, e + rest, rest, x, 1);
    assert out + ([x] + Later(p, rest, 1)) == (out + [x]) + Later(p, rest, 1);
  }

  lemma {:induction false} YieldedConcat(n: nat, a: seq<Entry>, b: seq<Entry>)
    ensures Yielded(n, a + b) == Yielded(n, a) + Yielded(n, b)
  {
    if a == [] {
      assert a + b == b;
    } else {
      assert (a + b)[1..] == a[1..] + b;
      YieldedConcat(n, a[1..], b);
    }
  }

  // Calls yield nothing themselves.
  lemma {:induction false} YieldedCalls(n: nat, s: nat, b: seq<Item>)
    requires s < n
    ensures Yielded(n, At(s, b)) == []
  {
    if b != [] {
      YieldedCalls(n, s, b[1..]);
    }
  }

  lemma {:induction false} CellsUntilEnd(cells: seq<Cell>)
    ensures EndCell !in cells ==> UntilEnd(cells) == cells
  {
    if cells != [] && !cells[0].EndCell? {
      CellsUntilEnd(cells[1..]);
    }
  }

  lemma CellAdded(es: seq<Entry>, cells: seq<Cell>, i: nat, next: nat)
    requires i < |cells|
    ensures es + At(next, Kept(cells[i..]))
         == (if cells[i].ItemCell? then es + [(next, cells[i].x)] else es) + At(next, Kept(cells[i + 1..]))
  {
    assert cells[i..][1..] == cells[i + 1..];
    if cells[i].ItemCell? {
      var rest := Kept(cells[i + 1..]);
      AtConcat(next, [cells[i].x], rest);
      assert At(next, [cells[i].x]) == [(next, cells[i].x)];
      assert es + ([(next, cells[i].x)] + At(next, rest)) == (es + [(next, cells[i].x)]) + At(next, rest);
    }
  }

  lemma CellsAdded(es: seq<Entry>, cells: seq<Cell>, next: nat)
    ensures es + At(next, Kept(cells[|cells|..])) == es
  {
    assert cells[|cells|..] == [];
  }

  lemma FirstCells(es: seq<Entry>, cells: seq<Cell>, i: nat)
    requires i < |cells|
    ensures es + At(1, Kept(UntilEnd(cells[i..])))
         == if cells[i].EndCell? then es
            else (if cells[i].ItemCell? then es + [(1, cells[i].x)] else es) + At(1, Kept(UntilEnd(cells[i + 1..])))
  {
    assert cells[i..][1..] == cells[i + 1..];
    if !cells[i].EndCell? {
      var all := [cells[i]] + UntilEnd(cells[i + 1..]);
      CellAdded(es, all, 0, 1);
      assert all[0..] == all && all[1..] == UntilEnd(cells[i + 1..]);
    } else {
      assert es + At(1, []) == es;
    }
  }

  lemma NoMoreCells(es: seq<Entry>, cells: seq<Cell>)
    ensures es + At(1, Kept(UntilEnd(cells[|cells|..]))) == es && cells[..|cells|] == cells
  {
    assert cells[|cells|..] == [];
  }

  lemma FirstIsPlaced(p: Program, es: seq<Entry>, history: seq<Entry>, left: seq<Item>, source: seq<Item>)
    requires es != [] && Balance(p, history, es, left, source)
    ensures 1 <= es[0].0 <= p.n && p.n == |p.batch| && Stateless(p) && Placed(p, es[1..])
    ensures Level(es, es[0].0) == [es[0].1] + Level(es[1..], es[0].0)
    ensures Others(es, es[0].0) == Others(es[1..], es[0].0)
  {
  }

  lemma YieldedOne(n: nat, x: Item)
    ensures Yielded(n, [(n, x)]) == [x]
  {
    assert [(n, x)][1..] == [];
  }

  lemma BatchInFront(s: nat, item: Item, b: seq<Item>, es: seq<Entry>, rest: seq<Entry>)
    requires es != [] && es[0] == (s, item) && b != [] && b[0] == item && es[1..] == At(s, b[1..]) + rest
    ensures es == At(s, b) + rest
  {
    assert es == [es[0]] + es[1..];
    assert At(s, b) == [(s, item)] + At(s, b[1..]);
  }

  lemma SourceStep(p: Program, k: nat)
    requires k <= |p.script|
    ensures Source(p, k)
         == RootItems(Scripted(p, k)) + if RootEnds(Scripted(p, k)) then [] else Source(p, k + 1)
    ensures k == |p.script| ==> RootEnds(Scripted(p, k))
  {
  }

  lemma StartsBalanced(p: Program, source: seq<Item>)
    requires Good(p)
    ensures Balance(p, [], [], source, source) && Order(p, [], [], source, source)
  {
    hide Good, At, Composed;
    BagNothing(p);
    NothingLater(p, 1);
  }

  lemma {:induction false} NothingLater(p: Program, k: nat)
    ensures Later(p, [], k) == []
    decreases p.n + 1 - k
  {
    if k <= p.n {
      NothingLater(p, k + 1);
      NothingComposed(p, k);
    }
  }

  lemma {:induction false} NothingComposed(p: Program, k: nat)
    ensures Composed(p.f, p.n, k, []) == []
    decreases p.n - k
  {
    if k < p.n {
      NothingComposed(p, k + 1);
    }
  }

  lemma EndsBalanced(p: Program, history: seq<Entry>, out: seq<Item>, source: seq<Item>)
    requires p.n > 0 && Balance(p, history, [], [], source) && Order(p, out, [], [], source)
    ensures multiset(history) == Bag(p, At(1, source))
    ensures NoPushes(p) ==> out == Composed(p.f, p.n, 1, source)
  {
    hide Good, Composed, NoPushes;
    BagNothing(p);
    NothingLater(p, 1);
    NothingComposed(p, 1);
  }

  lemma BatchGrows(s: nat, b: seq<Item>, es: seq<Entry>)
    requires b != [] && es != [] && es[0].0 == s
    ensures At(s, b[1..]) + es == At(s, (b + [es[0].1])[1..]) + es[1..]
  {
    var x := es[0].1;
    AtConcat(s, b[1..], [x]);
    assert (b + [x])[1..] == b[1..] + [x];
    assert At(s, [x]) == [es[0]];
  }

  lemma NothingSorted(es: seq<Entry>, s: nat)
    ensures Level(es[|es|..], s) == [] && Others(es[|es|..], s) == []
  {
  }

  lemma PullStep(p: Program, s: nat, buffer: seq<Item>, n: nat, put: seq<Entry>)
    requires buffer != [] && n > 0
    ensures var take := if |buffer| < n then |buffer| else n;
            var rest := buffer[take..];
            put + Pulled(p, s, buffer, n)
            == (put + After(p, s, buffer[..take])) + if rest == [] then [] else Pulled(p, s, rest, n)
  {
    hide After;
    if |buffer| <= n {
      assert buffer[..|buffer|] == buffer;
    } else {
      var a, b := After(p, s, buffer[..n]), Pulled(p, s, buffer[n..], n);
      assert put + (a + b) == (put + a) + b;
    }
  }

  lemma CallAppends(p: Program, s: nat, b: seq<Item>, es: seq<Entry>)
    requires Stateless(p)
    ensures (es + Pushes(p, s, b)) + At(s + 1, KeptResult(p.call(s, b))) == es + After(p, s, b)
  {
    CallKept(p, s, b);
  }

  lemma NothingAt(s: nat)
    ensures forall x: Item :: At(s, [x][1..]) == []
  {
  }

  lemma CallKept(p: Program, s: nat, b: seq<Item>)
    requires Stateless(p)
    ensures KeptResult(p.call(s, b)) == FlatMap(p.f, s, b)
  {
  }

  lemma SortedOut(es: seq<Entry>, i: nat, s: nat)
    requires i < |es|
    ensures Level(es[i..], s) == (if es[i].0 == s then [es[i].1] else []) + Level(es[i + 1..], s)
    ensures Others(es[i..], s) == (if es[i].0 == s then [] else [es[i]]) + Others(es[i + 1..], s)
  {
    assert es[i..][1..] == es[i + 1..];
  }

  // ---------- the run, turn by turn ----------

  // A call of the root, or a pop of a batch b at the front for stage s (a yield
  // if there is no such stage).
  datatype Event = Root(k: nat) | Pop(s: nat, b: seq<Item>)

  function BatchSize(p: Program, s: nat): (n: nat)
    ensures n > 0
  {
    if s < |p.batch| && p.batch[s] > 0 then p.batch[s] else 1
  }

  // How many entries of stage s, up to `most`, are at the front.
  function InFront(es: seq<Entry>, s: nat, most: nat): (k: nat)
    ensures k <= |es| && k <= most
  {
    if most == 0 || es == [] || es[0].0 != s then 0 else 1 + InFront(es[1..], s, most - 1)
  }

  // What a turn takes from the list, for the stage of its first entry, and what it
  // leaves there.
  function Popped(p: Program, es: seq<Entry>): seq<Item>
    requires es != []
  {
    var s := es[0].0;
    if s >= p.n then [es[0].1]
    else if s in p.runs then Level(es, s)
    else Level(es[..InFront(es, s, BatchSize(p, s))], s)
  }

  function Remaining(p: Program, es: seq<Entry>): seq<Entry>
    requires es != []
  {
    var s := es[0].0;
    if s >= p.n then es[1..]
    else if s in p.runs then Others(es, s) + Pulled(p, s, Level(es, s), BatchSize(p, s))
    else es[InFront(es, s, BatchSize(p, s))..] + After(p, s, Popped(p, es))
  }

  // All that happens from a list of pending entries on, with the root's k-th call
  // to come unless the source has ended: each turn calls the root, while there is
  // one, and then pops once, if there is anything to pop.
  ghost function Turns(p: Program, es: seq<Entry>, k: nat, ended: bool): seq<Event>
    requires Good(p) && Placed(p, es) && (ended || k <= |p.script|)
    decreases if ended then 0 else |p.script| + 1 - k, |Bag(p, es)|
  {
    if ended then
      if es == [] then []
      else
        PopShrinks(p, es);
        [Pop(es[0].0, Popped(p, es))] + Turns(p, Remaining(p, es), k, true)
    else
      var all := es + At(1, RootItems(Scripted(p, k)));
      [Root(k)] +
      if all == [] then Turns(p, all, k + 1, RootEnds(Scripted(p, k)))
      else
        PopShrinks(p, all);
        [Pop(all[0].0, Popped(p, all))] + Turns(p, Remaining(p, all), k + 1, RootEnds(Scripted(p, k)))
  }

  // The entries popped, in order.
  function Pops(log: seq<Event>): seq<Entry> {
    if log == [] then [] else (if log[0].Pop? then At(log[0].s, log[0].b) else []) + Pops(log[1..])
  }

  lemma {:induction false} PopsConcat(a: seq<Event>, b: seq<Event>)
    ensures Pops(a + b) == Pops(a) + Pops(b)
  {
    if a == [] {
      assert a + b == b;
    } else {
      assert (a + b)[1..] == a[1..] + b;
      PopsConcat(a[1..], b);
    }
  }

  // A batch in front, as long as it may be, is what a turn takes.
  lemma {:induction false} FrontIs(s: nat, b: seq<Item>, rest: seq<Entry>, most: nat)
    requires |b| <= most && (|b| < most && rest != [] ==> rest[0].0 != s)
    ensures InFront(At(s, b) + rest, s, most) == |b|
    ensures (At(s, b) + rest)[|b|..] == rest && Level((At(s, b) + rest)[..|b|], s) == b
  {
    LevelAt(s, b, s);
    assert (At(s, b) + rest)[..|b|] == At(s, b);
    if b != [] {
      FrontIs(s, b[1..], rest, most - 1);
      assert (At(s, b) + rest)[1..] == At(s, b[1..]) + rest;
    }
  }

  lemma FrontGrows(es: seq<Entry>, s: nat, k: nat)
    requires 0 < k <= |es| && es[0].0 == s
    requires var b := Level(es[1..][..k - 1], s); |b| == k - 1 && es[1..] == At(s, b) + es[1..][k - 1..]
    ensures es[k..] == es[1..][k - 1..]
    ensures var b := Level(es[1..][..k - 1], s);
      Level(es[..k], s) == [es[0].1] + b && es == At(s, [es[0].1] + b) + es[k..]
  {
    var b := Level(es[1..][..k - 1], s);
    assert es[..k][1..] == es[1..][..k - 1];
    assert At(s, [es[0].1] + b) == [es[0]] + At(s, b) by { assert ([es[0].1] + b)[1..] == b; }
    assert es == [es[0]] + es[1..];
  }

  // The front of any list is such a batch.
  lemma {:induction false} FrontOf(es: seq<Entry>, s: nat, most: nat)
    ensures var k := InFront(es, s, most);
      var b := Level(es[..k], s);
      && |b| == k && es == At(s, b) + es[k..] && (k < most && k < |es| ==> es[k].0 != s)
      && (most > 0 && es != [] && es[0].0 == s ==> k > 0 && b[0] == es[0].1)
  {
    if most > 0 && es != [] && es[0].0 == s {
      FrontOf(es[1..], s, most - 1);
      FrontGrows(es, s, InFront(es, s, most));
      hide At, Level;
    } else {
      assert es[..0] == [] && es[0..] == es;
    }
  }

  lemma PopShrinks(p: Program, es: seq<Entry>)
    requires Good(p) && Placed(p, es) && es != []
    ensures Placed(p, Remaining(p, es)) && |Bag(p, Remaining(p, es))| < |Bag(p, es)|
  {
    hide Bag, Good, After, Pulled, At, Level, Others, InFront;
    var s := es[0].0;
    if s >= p.n {
      YieldShrinks(p, es);
    } else if s in p.runs {
      RunShrinks(p, es);
    } else {
      CallShrinks(p, es);
    }
  }

  lemma YieldShrinks(p: Program, es: seq<Entry>)
    requires Good(p) && Placed(p, es) && es != [] && es[0].0 >= p.n
    ensures Placed(p, es[1..]) && |Bag(p, es[1..])| < |Bag(p, es)|
  {
    hide Bag, Good;
    var x := es[0].1;
    BagYield(p, x);
    BagConcat(p, [(p.n, x)], es[1..]);
    assert es == [(p.n, x)] + es[1..];
  }

  lemma RunShrinks(p: Program, es: seq<Entry>)
    requires Good(p) && Placed(p, es) && es != [] && es[0].0 < p.n
    ensures var s := es[0].0;
      var after := Others(es, s) + Pulled(p, s, Level(es, s), BatchSize(p, s));
      Placed(p, after) && |Bag(p, after)| < |Bag(p, es)|
  {
    hide Bag, Good, After, Pulled, Others;
    var s, n := es[0].0, BatchSize(p, es[0].0);
    var b := Level(es, s);
    BagSplit(p, es, s);
    BagCall(p, s, b);
    BagPulled(p, s, b, n);
    BagConcat(p, Others(es, s), Pulled(p, s, b, n));
  }

  lemma CallShrinks(p: Program, es: seq<Entry>)
    requires Good(p) && Placed(p, es) && es != [] && es[0].0 < p.n
    ensures var s := es[0].0;
      var k := InFront(es, s, BatchSize(p, s));
      var after := es[k..] + After(p, s, Level(es[..k], s));
      Placed(p, after) && |Bag(p, after)| < |Bag(p, es)|
  {
    hide Bag, Good, After, Level, InFront, At;
    var s := es[0].0;
    var k := InFront(es, s, BatchSize(p, s));
    var b := Level(es[..k], s);
    FrontOf(es, s, BatchSize(p, s));
    BagCall(p, s, b);
    BagConcat(p, At(s, b), es[k..]);
    BagConcat(p, es[k..], After(p, s, b));
  }

  // One pop after the source has ended.
  lemma TurnEnded(p: Program, es: seq<Entry>, k: nat)
    requires Good(p) && Placed(p, es) && es != []
    ensures Placed(p, Remaining(p, es))
    ensures Turns(p, es, k, true) == [Pop(es[0].0, Popped(p, es))] + Turns(p, Remaining(p, es), k, true)
  {
    PopShrinks(p, es);
  }

  // A root call, and a pop unless there is nothing.
  lemma TurnWithRoot(p: Program, es: seq<Entry>, k: nat)
    requires Good(p) && Placed(p, es) && k <= |p.script|
    ensures var all, ended := es + At(1, RootItems(Scripted(p, k))), RootEnds(Scripted(p, k));
      && Placed(p, all) && (ended || k + 1 <= |p.script|)
      && (all == [] ==> Turns(p, es, k, false) == [Root(k)] + Turns(p, all, k + 1, ended))
      && (all != [] ==>
            && Placed(p, Remaining(p, all))
            && Turns(p, es, k, false)
               == [Root(k)] + ([Pop(all[0].0, Popped(p, all))] + Turns(p, Remaining(p, all), k + 1, ended)))
  {
    hide Bag, At, Good, Remaining, Popped, RootItems, RootEnds;
    AtPlaced(p, RootItems(Scripted(p, k)));
    SourceStep(p, k);
    var all := es + At(1, RootItems(Scripted(p, k)));
    if all != [] {
      PopShrinks(p, all);
    }
  }

  lemma CallTakes(p: Program, s: nat, b: seq<Item>, es: seq<Entry>, behind: seq<Entry>)
    requires s < p.n && s !in p.runs && 0 < |b| <= BatchSize(p, s) && es == At(s, b) + behind
    requires |b| < BatchSize(p, s) && behind != [] ==> behind[0].0 != s
    ensures es != [] && es[0].0 == s && Popped(p, es) == b && Remaining(p, es) == behind + After(p, s, b)
  {
    hide After, InFront, Level;
    FrontIs(s, b, behind, BatchSize(p, s));
  }

  // What one turn adds to the pops.
  lemma TurnMade(p: Program, es: seq<Entry>, k: nat, ended: bool, history: seq<Entry>)
    requires Good(p) && Placed(p, es) && (ended || k <= |p.script|) && !(ended && es == [])
    ensures var all := if ended then es else es + At(1, RootItems(Scripted(p, k)));
      var k1, ended1 := if ended then k else k + 1, ended || RootEnds(Scripted(p, k));
      && Placed(p, all) && (ended1 || k1 <= |p.script|)
      && (all == [] ==> history + Pops(Turns(p, es, k, ended)) == history + Pops(Turns(p, all, k1, ended1)))
      && (all != [] ==>
            && Placed(p, Remaining(p, all))
            && history + Pops(Turns(p, es, k, ended))
               == (history + At(all[0].0, Popped(p, all))) + Pops(Turns(p, Remaining(p, all), k1, ended1)))
  {
    hide Bag, At, Good, Placed, Remaining, Popped, RootItems, RootEnds, Turns;
    if ended {
      TurnEnded(p, es, k);
      PopsOfPop(es[0].0, Popped(p, es), Turns(p, Remaining(p, es), k, true), history);
    } else {
      TurnWithRoot(p, es, k);
      var all, ended1 := es + At(1, RootItems(Scripted(p, k))), RootEnds(Scripted(p, k));
      if all == [] {
        PopsOfRoot(k, Turns(p, all, k + 1, ended1));
      } else {
        var rest := Turns(p, Remaining(p, all), k + 1, ended1);
        PopsOfRoot(k, [Pop(all[0].0, Popped(p, all))] + rest);
        PopsOfPop(all[0].0, Popped(p, all), rest, history);
      }
    }
  }

  lemma PopsOfPop(s: nat, b: seq<Item>, rest: seq<Event>, history: seq<Entry>)
    ensures history + Pops([Pop(s, b)] + rest) == (history + At(s, b)) + Pops(rest)
  {
    hide At;
    assert ([Pop(s, b)] + rest)[1..] == rest;
  }

  lemma PopsOfRoot(k: nat, rest: seq<Event>)
    ensures Pops([Root(k)] + rest) == Pops(rest)
  {
    assert ([Root(k)] + rest)[1..] == rest;
  }

  lemma NothingToCome(p: Program, k: nat, history: seq<Entry>)
    requires Good(p) && Placed(p, [])
    ensures history + Pops(Turns(p, [], k, true)) == history
  {
  }

  lemma BalanceHas(p: Program, history: seq<Entry>, es: seq<Entry>, left: seq<Item>, source: seq<Item>)
    requires Balance(p, history, es, left, source)
    ensures Good(p) && Placed(p, es)
  {
  }

  class Runner {
    const p: Program
    var pending: seq<Entry>
    var rootEnded: bool
    var called: nat
    var out: seq<Item>
    ghost var history: seq<Entry>   // every pop so far

    constructor (p: Program)
      ensures this.p == p && pending == [] && !rootEnded && called == 0 && out == [] && history == []
    {
      this.p := p;
      pending, rootEnded, called, out, history := [], false, 0, [], [];
    }

    ghost function Left(): seq<Item>
      reads this
    {
      if rootEnded then [] else Source(p, called)
    }

    ghost predicate Valid()
      reads this
    {
      && Balance(p, history, pending, Left(), Source(p, 0)) && Order(p, out, pending, Left(), Source(p, 0))
      && out == Yielded(p.n, history) && (rootEnded || called <= |p.script|)
    }

    method AddCells(cells: seq<Cell>, next: nat)
      modifies this`pending
      ensures pending == old(pending) + At(next, Kept(cells))
    {
      hide At, Kept;
      var i := 0;
      assert cells[0..] == cells;
      while i < |cells|
        invariant 0 <= i <= |cells|
        invariant pending + At(next, Kept(cells[i..])) == old(pending) + At(next, Kept(cells))
      {
        CellAdded(pending, cells, i, next);
        if cells[i].ItemCell? {
          pending := pending + [(next, cells[i].x)];
        }
        i := i + 1;
      }
      CellsAdded(pending, cells, next);
    }

    method AddResult(result: Result, next: nat)
      modifies this`pending
      ensures pending == old(pending) + At(next, KeptResult(result))
    {
      match result {
        case ReturnNone =>
        case ReturnGenerator(cells) => AddCells(cells, next);
        case ReturnEnd =>
        case ReturnList(cells) => AddCells(cells, next);
        case ReturnOne(x) =>
          assert At(next, [x]) == [(next, x)];
          pending := pending + [(next, x)];
      }
    }

    // Calls stage s on a batch: the popped item and those of its stage right
    // behind it in the list, up to the batch size.
    method ProcessCallable(s: nat, item: Item) returns (b: seq<Item>)
      requires s < |p.batch| && Stateless(p)
      modifies this`pending
      ensures 1 <= |b| <= (if p.batch[s] > 0 then p.batch[s] else 1) && b[0] == item
      ensures |b| - 1 <= |old(pending)|
      ensures var rest := old(pending)[|b| - 1..];
              && old(pending) == At(s, b[1..]) + rest && pending == rest + After(p, s, b)
              && (|b| < p.batch[s] && rest != [] ==> rest[0].0 != s)
    {
      hide At, Pushes, FlatMap, Stateless, After, KeptResult;
      b := [item];
      NothingAt(s);
      while |b| < p.batch[s] && pending != [] && pending[0].0 == s
        invariant 1 <= |b| <= (if p.batch[s] > 0 then p.batch[s] else 1) && b[0] == item
        invariant |b| - 1 <= |old(pending)| && pending == old(pending)[|b| - 1..]
        invariant old(pending) == At(s, b[1..]) + pending
        decreases |pending|
      {
        var x := pending[0].1;
        BatchGrows(s, b, pending);
        pending := pending[1..];
        b := b + [x];
      }
      ghost var rest := pending;
      pending := pending + Pushes(p, s, b);
      AddResult(p.call(s, b), s + 1);
      CallAppends(p, s, b, rest);
    }

    // A run() stage takes every pending item of its stage, pulls them in
    // batches until there is none, and puts what they lead to.
    method RunStage(s: nat, item: Item)
      requires s < |p.batch| && Stateless(p)
      modifies this`pending
      ensures var size := if p.batch[s] > 0 then p.batch[s] else 1;
              pending == Others(old(pending), s) + Pulled(p, s, [item] + Level(old(pending), s), size)
    {
      var buffer := Collect(s, item);
      PullAll(s, buffer);
    }

    method Collect(s: nat, item: Item) returns (buffer: seq<Item>)
      modifies this`pending
      ensures buffer == [item] + Level(old(pending), s) && pending == Others(old(pending), s)
    {
      hide Level, Others;
      var remaining, i := [], 0;
      buffer := [item];
      assert pending[0..] == pending;
      while i < |pending|
        invariant 0 <= i <= |pending| && pending == old(pending)
        invariant buffer + Level(pending[i..], s) == [item] + Level(old(pending), s)
        invariant remaining + Others(pending[i..], s) == Others(old(pending), s)
      {
        SortedOut(pending, i, s);
        if pending[i].0 == s {
          buffer := buffer + [pending[i].1];
        } else {
          remaining := remaining + [pending[i]];
        }
        i := i + 1;
      }
      NothingSorted(pending, s);
      pending := remaining;
    }

    method PullAll(s: nat, all: seq<Item>)
      requires s < |p.batch| && Stateless(p) && all != []
      modifies this`pending
      ensures pending == old(pending) + Pulled(p, s, all, if p.batch[s] > 0 then p.batch[s] else 1)
    {
      hide Stateless, Pushes, FlatMap, At, Pulled, After;
      var size := if p.batch[s] > 0 then p.batch[s] else 1;
      var buffer := all;
      ghost var put: seq<Entry> := [];
      while buffer != []
        invariant pending == old(pending) + put
        invariant put + (if buffer == [] then [] else Pulled(p, s, buffer, size)) == Pulled(p, s, all, size)
        decreases |buffer|
      {
        var take := if |buffer| < size then |buffer| else size;
        var items := buffer[..take];
        PullStep(p, s, buffer, size, put);
        buffer := buffer[take..];
        ghost var before := pending;
        pending := pending + Pushes(p, s, items);
        pending := pending + At(s + 1, KeptResult(p.call(s, items)));
        CallAppends(p, s, items, before);
        put := put + After(p, s, items);
      }
    }

    method AddUntilEnd(cells: seq<Cell>) returns (ended: bool)
      modifies this`pending
      ensures ended == (EndCell in cells)
      ensures pending == old(pending) + At(1, Kept(UntilEnd(cells)))
    {
      hide At, Kept, UntilEnd;
      var i := 0;
      ended := false;
      assert cells[0..] == cells;
      while i < |cells|
        invariant 0 <= i <= |cells| && EndCell !in cells[..i]
        invariant pending + At(1, Kept(UntilEnd(cells[i..]))) == old(pending) + At(1, Kept(UntilEnd(cells)))
      {
        FirstCells(pending, cells, i);
        if cells[i].EndCell? {
          ended := true;
          return;
        }
        if cells[i].ItemCell? {
          pending := pending + [(1, cells[i].x)];
        }
        i := i + 1;
      }
      NoMoreCells(pending, cells);
    }

    method CallRoot()
      requires !rootEnded
      modifies this`pending, this`called, this`rootEnded
      ensures called == old(called) + 1 && rootEnded == RootEnds(Scripted(p, old(called)))
      ensures pending == old(pending) + At(1, RootItems(Scripted(p, old(called))))
      ensures var k := old(called);
        && (k >= |p.script| ==> rootEnded && pending == old(pending))
        && (k < |p.script| ==>
              match p.script[k]
              case ReturnNone => !rootEnded && pending == old(pending)
              case ReturnEnd => rootEnded && pending == old(pending)
              case ReturnOne(x) => !rootEnded && pending == old(pending) + [(1, x)]
              case ReturnGenerator(cells) => rootEnded && pending == old(pending) + At(1, Kept(cells))
              case ReturnList(cells) =>
                && rootEnded == (EndCell in cells)
                && forall j :: 0 <= j <= |cells| && EndCell !in cells[..j] && (j < |cells| ==> cells[j] == EndCell) ==>
                     pending == old(pending) + At(1, Kept(cells[..j])))
    {
      var result := if called < |p.script| then p.script[called] else ReturnEnd;
      called := called + 1;
      match result {
        case ReturnGenerator(cells) =>
          AddCells(cells, 1);
          rootEnded := true;
        case ReturnNone =>
        case ReturnEnd => rootEnded := true;
        case ReturnList(cells) =>
          rootEnded := AddUntilEnd(cells);
          forall j | 0 <= j <= |cells| && EndCell !in cells[..j] && (j < |cells| ==> cells[j] == EndCell)
            ensures UntilEnd(cells) == cells[..j]
          {
            FirstEnd(cells, j);
          }
        case ReturnOne(x) =>
          assert At(1, [x]) == [(1, x)];
          pending := pending + [(1, x)];
      }
    }

    method RootTurn()
      requires Valid() && !rootEnded
      modifies this`pending, this`called, this`rootEnded
      ensures Valid() && called == old(called) + 1 && rootEnded == RootEnds(Scripted(p, old(called)))
      ensures pending == old(pending) + At(1, RootItems(Scripted(p, old(called))))
    {
      hide Bag, Balance, Order, Source, RootItems, RootEnds, At, Scripted;
      ghost var left := if RootEnds(Scripted(p, called)) then [] else Source(p, called + 1);
      SourceStep(p, called);
      RootKeeps(p, history, out, pending, RootItems(Scripted(p, called)), left, Source(p, 0));
      CallRoot();
    }

    method PopYield()
      requires Valid() && pending != [] && pending[0].0 >= p.n
      modifies this`pending, this`out, this`history
      ensures Valid() && |Bag(p, pending)| < |old(Bag(p, pending))|
      ensures pending == Remaining(p, old(pending))
      ensures history == old(history) + At(old(pending)[0].0, Popped(p, old(pending)))
    {
      hide Bag, Balance, Order, Source, Yielded, Placed, Good;
      ghost var es := pending;
      var item := pending[0].1;
      FirstIsPlaced(p, es, history, Left(), Source(p, 0));
      pending := pending[1..];
      assert es == [(p.n, item)] + pending;
      YieldKeeps(p, history, out, item, pending, Left(), Source(p, 0));
      YieldedConcat(p.n, history, [(p.n, item)]);
      YieldedOne(p.n, item);
      out := out + [item];
      assert At(p.n, [item]) == [(p.n, item)];
      history := history + [(p.n, item)];
    }

    method PopRun()
      requires Valid() && pending != [] && pending[0].0 < p.n && pending[0].0 in p.runs
      modifies this`pending, this`out, this`history
      ensures Valid() && |Bag(p, pending)| < |old(Bag(p, pending))|
      ensures pending == Remaining(p, old(pending))
      ensures history == old(history) + At(old(pending)[0].0, Popped(p, old(pending)))
    {
      hide Bag, Balance, Order, Source, Yielded, Placed, Good, Level, Others, Pulled, At, Stateless;
      ghost var es := pending;
      var s, item := pending[0].0, pending[0].1;
      FirstIsPlaced(p, es, history, Left(), Source(p, 0));
      ghost var b := Level(es, s);
      RunKeeps(p, history, out, s, es, if p.batch[s] > 0 then p.batch[s] else 1, Left(), Source(p, 0));
      pending := pending[1..];
      RunStage(s, item);
      YieldedConcat(p.n, history, At(s, b));
      YieldedCalls(p.n, s, b);
      history := history + At(s, b);
    }

    method PopCall()
      requires Valid() && pending != [] && pending[0].0 < p.n && pending[0].0 !in p.runs
      modifies this`pending, this`out, this`history
      ensures Valid() && |Bag(p, pending)| < |old(Bag(p, pending))|
      ensures pending == Remaining(p, old(pending))
      ensures history == old(history) + At(old(pending)[0].0, Popped(p, old(pending)))
    {
      hide Bag, Balance, Order, Source, Yielded, Good, At, After, Stateless, Level, InFront, Popped, Remaining;
      ghost var es := pending;
      var s, item := pending[0].0, pending[0].1;
      FirstIsPlaced(p, es, history, Left(), Source(p, 0));
      pending := pending[1..];
      var b := ProcessCallable(s, item);
      ghost var behind := es[1..][|b| - 1..];
      BatchInFront(s, item, b, es, behind);
      CallTakes(p, s, b, es, behind);
      CallKeeps(p, history, out, s, b, behind, Left(), Source(p, 0));
      YieldedConcat(p.n, history, At(s, b));
      YieldedCalls(p.n, s, b);
      history := history + At(s, b);
    }

    // Pops the first entry and does what it asks for.
    method PopOne()
      requires Valid() && pending != []
      modifies this`pending, this`out, this`history
      ensures Valid() && |Bag(p, pending)| < |old(Bag(p, pending))|
      ensures pending == Remaining(p, old(pending))
      ensures history == old(history) + At(old(pending)[0].0, Popped(p, old(pending)))
    {
      hide Bag, Balance, Order, Source, Remaining, Popped;
      if pending[0].0 >= p.n {
        PopYield();
      } else if pending[0].0 in p.runs {
        PopRun();
      } else {
        PopCall();
      }
    }

    // What is still to be popped.
    ghost function Coming(): seq<Entry>
      requires Valid()
      reads this
    {
      Pops(Turns(p, pending, called, rootEnded))
    }

    method Loop()
      requires Valid()
      modifies this`pending, this`out, this`history, this`called, this`rootEnded
      ensures Valid() && rootEnded && pending == []
      ensures history == old(history + Coming())
    {
      hide Bag, Order, Source, Yielded, At, Traces, Turns, Pops, Remaining, Popped, RootItems, RootEnds, Good, Placed;
      while !rootEnded || pending != []
        invariant Valid() && history + Coming() == old(history + Coming())
        decreases if rootEnded then 0 else |p.script| + 1 - called, |Bag(p, pending)|
      {
        BalanceHas(p, history, pending, Left(), Source(p, 0));
        TurnMade(p, pending, called, rootEnded, history);
        if !rootEnded {
          RootTurn();
        }
        if pending != [] {
          PopOne();
        }
      }
      BalanceHas(p, history, pending, Left(), Source(p, 0));
      NothingToCome(p, called, history);
    }

    // The whole run makes exactly the pops of the recursion on the root's items
    // and yields what they yield; where nothing is pushed back it yields the
    // composed flat-map, in order. The pops are made turn by turn.
    method Run()
      requires p.n > 0 ==> Good(p)
      requires pending == [] && !rootEnded && called == 0 && out == [] && history == []
      modifies this
      ensures p.n == 0 ==> out == []
      ensures p.n > 0 ==> multiset(history) == Bag(p, At(1, Source(p, 0))) && out == Yielded(p.n, history)
      ensures p.n > 0 ==> history == Pops(Turns(p, [], 0, false))
      ensures p.n > 0 && NoPushes(p) ==> out == Composed(p.f, p.n, 1, Source(p, 0))
    {
      if p.n == 0 {
        return;
      }
      hide Bag, At, Balance, Order, Composed, NoPushes, Source, Stateless;
      StartsBalanced(p, Source(p, 0));
      Loop();
      EndsBalanced(p, history, out, Source(p, 0));
    }
  }

  // ---------- retries ----------

  function Passes(es: seq<Entry>, s: nat): nat {
    |Level(es, s)|
  }

  // One stage sends an item back to an earlier one until its budget is spent;
  // every other call has exactly one result.
  ghost predicate RetryLoop(p: Program, target: nat, check: nat) {
    && 1 <= target <= check < p.n
    && forall s, x :: 1 <= s < p.n ==>
         if s == check && p.budget(x) > 0 then
           && p.f(s, x) == [] && |p.push(s, x)| == 1
           && p.push(s, x)[0].0 == target && p.budget(p.push(s, x)[0].1) == p.budget(x) - 1
         else
           p.push(s, x) == [] && |p.f(s, x)| == 1 && p.budget(p.f(s, x)[0]) == p.budget(x)
  }

  // An item is yielded exactly once, after 1 + retries passes through each
  // stage of the loop.
  lemma {:induction false} RetriesExact(p: Program, target: nat, check: nat, s: nat, x: Item, t: nat)
    requires Good(p) && RetryLoop(p, target, check) && 1 <= s <= p.n && target <= t <= check
    ensures |Yielded(p.n, Trace(p, s, x))| == 1
    ensures Passes(Trace(p, s, x), t) == if s <= t then 1 + p.budget(x) else if s <= check then p.budget(x) else 0
    decreases p.budget(x), Distance(p, s)
  {
    hide Good, Converges, Stateless;
    if s < p.n {
      var next := Next(p, s, x);
      NextIsUnder(p, s, x);
      TraceAllIsTraces(p, next, p.budget(x), Distance(p, s));
      OnlyNext(p, target, check, s, x);
      var e := next[0];
      RetriesExact(p, target, check, e.0, e.1, t);
      assert next[1..] == [];
      var rest := Trace(p, e.0, e.1);
      assert Traces(p, next) == rest + [];
      assert Trace(p, s, x) == [(s, x)] + rest && Trace(p, s, x)[1..] == rest;
      assert Level(Trace(p, s, x), t) == if s == t then [x] + Level(rest, t) else Level(rest, t);
      assert Yielded(p.n, Trace(p, s, x)) == Yielded(p.n, rest);
    } else {
      var es := Trace(p, s, x);
      assert es == [(s, x)] && es[1..] == [];
      assert Level(es, t) == Level(es[1..], t) == [];
    }
  }

  lemma OnlyNext(p: Program, target: nat, check: nat, s: nat, x: Item)
    requires RetryLoop(p, target, check) && 1 <= s < p.n
    ensures |Next(p, s, x)| == 1
    ensures var e := Next(p, s, x)[0];
            if s == check && p.budget(x) > 0 then e.0 == target && p.budget(e.1) == p.budget(x) - 1
            else e.0 == s + 1 && p.budget(e.1) == p.budget(x)
  {
  }

  // ---------- what the run's pops add up to ----------

  lemma {:induction false} Reordered(n: nat, a: seq<Entry>, b: seq<Entry>, s: nat)
    requires multiset(a) == multiset(b)
    ensures multiset(Level(a, s)) == multiset(Level(b, s)) && multiset(Yielded(n, a)) == multiset(Yielded(n, b))
  {
    hide Level, Yielded;
    if a == [] {
      assert |multiset(a)| == |multiset(b)|;
    } else {
      var e := a[0];
      assert e in multiset(b);
      var i :| 0 <= i < |b| && b[i] == e;
      var front, behind := b[..i], b[i + 1..];
      assert a == [e] + a[1..] && b == front + ([e] + behind);
      SameRest(a, b, i);
      Reordered(n, a[1..], front + behind, s);
      MovedToFront(n, front, e, behind, s);
      LevelConcat([e], a[1..], s);
      YieldedConcat(n, [e], a[1..]);
    }
  }

  lemma SameRest(a: seq<Entry>, b: seq<Entry>, i: nat)
    requires a != [] && i < |b| && b[i] == a[0] && multiset(a) == multiset(b)
    ensures multiset(a[1..]) == multiset(b[..i] + b[i + 1..])
  {
    var e := a[0];
    assert a == [e] + a[1..] && b == b[..i] + ([e] + b[i + 1..]);
    calc {
      multiset(a[1..]);
      multiset(a) - multiset{e};
      multiset(b) - multiset{e};
      multiset(b[..i]) + multiset(b[i + 1..]);
    }
  }

  lemma MovedToFront(n: nat, front: seq<Entry>, e: Entry, behind: seq<Entry>, s: nat)
    ensures multiset(Level(front + ([e] + behind), s)) == multiset(Level([e], s)) + multiset(Level(front + behind, s))
    ensures multiset(Yielded(n, front + ([e] + behind)))
         == multiset(Yielded(n, [e])) + multiset(Yielded(n, front + behind))
  {
    hide Level, Yielded;
    LevelConcat(front, [e] + behind, s);
    LevelConcat(front, behind, s);
    LevelConcat([e], behind, s);
    YieldedConcat(n, front, [e] + behind);
    YieldedConcat(n, front, behind);
    YieldedConcat(n, [e], behind);
  }

  function TotalPasses(p: Program, xs: seq<Item>): nat {
    if xs == [] then 0 else 1 + p.budget(xs[0]) + TotalPasses(p, xs[1..])
  }

  lemma {:induction false} RetriesOfAll(p: Program, target: nat, check: nat, xs: seq<Item>, t: nat)
    requires Good(p) && RetryLoop(p, target, check) && target <= t <= check
    ensures |Yielded(p.n, Traces(p, At(1, xs)))| == |xs|
    ensures Passes(Traces(p, At(1, xs)), t) == TotalPasses(p, xs)
  {
    hide RetryLoop, Stateless, Converges;
    if xs != [] {
      var first, rest := Trace(p, 1, xs[0]), Traces(p, At(1, xs[1..]));
      RetriesOfAll(p, target, check, xs[1..], t);
      RetryBounds(p, target, check);
      RetriesExact(p, target, check, 1, xs[0], t);
      assert At(1, xs)[1..] == At(1, xs[1..]);
      assert Traces(p, At(1, xs)) == first + rest;
      LevelConcat(first, rest, t);
      YieldedConcat(p.n, first, rest);
    }
  }

  lemma RetryBounds(p: Program, target: nat, check: nat)
    requires RetryLoop(p, target, check)
    ensures 1 <= target <= check < p.n
  {
  }

  // A finished run (see Runner.Run) of a retry loop yields one output for each
  // root item and makes 1 + retries passes for each through every loop stage.
  lemma RetryRun(p: Program, target: nat, check: nat, history: seq<Entry>, t: nat)
    requires Good(p) && RetryLoop(p, target, check) && target <= t <= check
    requires multiset(history) == Bag(p, At(1, Source(p, 0)))
    ensures |Yielded(p.n, history)| == |Source(p, 0)| && Passes(history, t) == TotalPasses(p, Source(p, 0))
  {
    hide RetryLoop, Level, Yielded, Traces, Source, Stateless, Converges;
    var traces := Traces(p, At(1, Source(p, 0)));
    RetriesOfAll(p, target, check, Source(p, 0), t);
    Reordered(p.n, history, traces, t);
    assert |multiset(Level(history, t))| == |multiset(Level(traces, t))|;
    assert |multiset(Yielded(p.n, history))| == |multiset(Yielded(p.n, traces))|;
  }

  // ---------- against the parallel runner ----------

  // What a root worker process sends of one result, and whether it leaves its
  // loop (src/pipe/workers.py:750-806).
  function ParallelRootItems(r: Result): seq<Item> {
    KeptResult(r)
  }

  // The two runners agree on a root result unless it is a list with an item
  // behind an End: the parallel one sends that item, the sequential one drops it.
  lemma RootsAgree(r: Result)
    ensures RootItems(r) == ParallelRootItems(r) <==> !(r.ReturnList? && ItemAfterEnd(r.cells))
  {
    if r.ReturnList? {
      CutIsShorter(r.cells);
    }
  }

  predicate ItemAfterEnd(cells: seq<Cell>) {
    exists i, j :: 0 <= i < j < |cells| && cells[i].EndCell? && cells[j].ItemCell?
  }

  lemma {:induction false} KeptIsEmpty(cells: seq<Cell>)
    ensures Kept(cells) == [] <==> forall i :: 0 <= i < |cells| ==> !cells[i].ItemCell?
  {
    if cells != [] {
      KeptIsEmpty(cells[1..]);
      forall i | 0 < i < |cells| ensures cells[i] == cells[1..][i - 1] {}
    }
  }

  lemma {:induction false} CutIsShorter(cells: seq<Cell>)
    ensures |Kept(UntilEnd(cells))| <= |Kept(cells)|
    ensures Kept(UntilEnd(cells)) == Kept(cells) <==> !ItemAfterEnd(cells)
  {
    if cells != [] {
      var c, rest := cells[0], cells[1..];
      if c.EndCell? {
        KeptIsEmpty(rest);
        assert forall j :: 0 < j < |cells| ==> cells[j] == rest[j - 1];
        assert Kept(cells) == Kept(rest);
        if j :| 0 <= j < |rest| && rest[j].ItemCell? {
          assert cells[0].EndCell? && cells[j + 1].ItemCell?;
          assert ItemAfterEnd(cells);
        } else {
          assert Kept(rest) == [];
        }
      } else {
        CutIsShorter(rest);
        assert UntilEnd(cells) == [c] + UntilEnd(rest) && UntilEnd(cells)[1..] == UntilEnd(rest);
        assert forall j :: 0 < j < |cells| ==> cells[j] == rest[j - 1];
        if ItemAfterEnd(rest) {
          var i, j :| 0 <= i < j < |rest| && rest[i].EndCell? && rest[j].ItemCell?;
          assert cells[i + 1].EndCell? && cells[j + 1].ItemCell?;
          assert ItemAfterEnd(cells);
        }
        if ItemAfterEnd(cells) {
          var i, j :| 0 <= i < j < |cells| && cells[i].EndCell? && cells[j].ItemCell?;
          assert rest[i - 1].EndCell? && rest[j - 1].ItemCell?;
          assert ItemAfterEnd(rest);
        }
        assert ItemAfterEnd(cells) <==> ItemAfterEnd(rest);
        if c.ItemCell? {
          assert Kept(cells)[1..] == Kept(rest) && Kept(UntilEnd(cells))[1..] == Kept(UntilEnd(rest));
        }
      }
    }
  }
}
