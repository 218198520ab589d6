/** What a pipeline of stateless stages computes: each stage maps an item to a
    list of items, and the pipeline is their composition. */
module Flow {
  type Item = int

  // The items stage `s` emits for one input, None and End results left out.
  type Calls = (nat, Item) -> seq<Item>

  function FlatMap(f: Calls, s: nat, xs: seq<Item>): seq<Item> {
    if xs == [] then [] else f(s, xs[0]) + FlatMap(f, s, xs[1..])
  }

  // The final outputs of items that enter at stage `s` of `n`, in order.
  function Composed(f: Calls, n: nat, s: nat, xs: seq<Item>): seq<Item>
    decreases n - s
  {
    if s >= n then xs else Composed(f, n, s + 1, FlatMap(f, s, xs))
  }

  lemma {:induction false} FlatMapConcat(f: Calls, s: nat, xs: seq<Item>, ys: seq<Item>)
    ensures FlatMap(f, s, xs + ys) == FlatMap(f, s, xs) + FlatMap(f, s, ys)
  {
    if xs == [] {
      assert [] + ys == ys;
    } else {
      assert (xs + ys)[1..] == xs[1..] + ys;
      FlatMapConcat(f, s, xs[1..], ys);
      assert f(s, xs[0]) + (FlatMap(f, s, xs[1..]) + FlatMap(f, s, ys))
          == (f(s, xs[0]) + FlatMap(f, s, xs[1..])) + FlatMap(f, s, ys);
    }
  }

  lemma FlatMapOne(f: Calls, s: nat, x: Item)
    ensures FlatMap(f, s, [x]) == f(s, x)
  {
    assert FlatMap(f, s, [x][1..]) == [];
    assert f(s, x) + [] == f(s, x);
  }

  lemma {:induction false} ComposedConcat(f: Calls, n: nat, s: nat, xs: seq<Item>, ys: seq<Item>)
    ensures Composed(f, n, s, xs + ys) == Composed(f, n, s, xs) + Composed(f, n, s, ys)
    decreases n - s
  {
    if s < n {
      FlatMapConcat(f, s, xs, ys);
      ComposedConcat(f, n, s + 1, FlatMap(f, s, xs), FlatMap(f, s, ys));
    }
  }

  // What items at stage `s` will have contributed to the output in the end.
  function Worth(f: Calls, n: nat, s: nat, xs: seq<Item>): multiset<Item> {
    multiset(Composed(f, n, s, xs))
  }

  lemma WorthConcat(f: Calls, n: nat, s: nat, xs: seq<Item>, ys: seq<Item>)
    ensures Worth(f, n, s, xs + ys) == Worth(f, n, s, xs) + Worth(f, n, s, ys)
  {
    ComposedConcat(f, n, s, xs, ys);
  }

  lemma {:induction false} WorthNothing(f: Calls, n: nat, s: nat)
    ensures Worth(f, n, s, []) == multiset{}
    decreases n - s
  {
    if s < n {
      WorthNothing(f, n, s + 1);
    }
  }

  lemma WorthCall(f: Calls, n: nat, s: nat, xs: seq<Item>)
    requires s < n
    ensures Worth(f, n, s, xs) == Worth(f, n, s + 1, FlatMap(f, s, xs))
  {
  }
}
