/** Sequence operations shared by the codec and the protocol. */
module Sequences {

  lemma Associative<T>(a: seq<T>, b: seq<T>, c: seq<T>)
    ensures a + b + c == a + (b + c)
  {
  }

  lemma NothingAdded<T>(a: seq<T>)
    ensures [] + a == a && a + [] == a
  {
  }

  lemma FirstAndRest<T>(a: seq<T>, b: seq<T>)
    requires a != []
    ensures a + b == [a[0]] + (a[1..] + b)
  {
  }

  function FlatMap<A, B>(f: A -> seq<B>, xs: seq<A>): seq<B> {
    if xs == [] then [] else f(xs[0]) + FlatMap(f, xs[1..])
  }

  function Map<A, B>(f: A -> B, xs: seq<A>): (ys: seq<B>)
    ensures |ys| == |xs|
    ensures forall i :: 0 <= i < |xs| ==> ys[i] == f(xs[i])
  {
    if xs == [] then [] else [f(xs[0])] + Map(f, xs[1..])
  }

  lemma {:induction false} FlatMapAppend<A, B>(f: A -> seq<B>, xs: seq<A>, ys: seq<A>)
    ensures FlatMap(f, xs + ys) == FlatMap(f, xs) + FlatMap(f, ys)
  {
    if xs == [] {
      assert xs + ys == ys;
    } else {
      assert (xs + ys)[1..] == xs[1..] + ys;
      FlatMapAppend(f, xs[1..], ys);
    }
  }

  lemma FlatMapOne<A, B>(f: A -> seq<B>, x: A)
    ensures FlatMap(f, [x]) == f(x)
  {
    assert [x][1..] == [];
  }

  // Every element of the result comes from some element of the argument.
  lemma {:induction false} FlatMapMember<A, B>(f: A -> seq<B>, xs: seq<A>, y: B)
    requires y in FlatMap(f, xs)
    ensures exists x :: x in xs && y in f(x)
  {
    if y in f(xs[0]) {
      assert xs[0] in xs;
    } else {
      FlatMapMember(f, xs[1..], y);
    }
  }

  function RemoveAt<T>(xs: seq<T>, i: nat): seq<T>
    requires i < |xs|
  {
    xs[..i] + xs[i + 1..]
  }

  lemma UpdatedWithSame<T>(xs: seq<T>, i: nat)
    requires i < |xs|
    ensures xs[i := xs[i]] == xs
  {
  }

  function SumBy<A>(f: A -> nat, xs: seq<A>): nat {
    if xs == [] then 0 else f(xs[0]) + SumBy(f, xs[1..])
  }

  lemma {:induction false} SumByAppend<A>(f: A -> nat, xs: seq<A>, ys: seq<A>)
    ensures SumBy(f, xs + ys) == SumBy(f, xs) + SumBy(f, ys)
  {
    if xs == [] {
      assert xs + ys == ys;
    } else {
      assert (xs + ys)[1..] == xs[1..] + ys;
      SumByAppend(f, xs[1..], ys);
    }
  }

  lemma SumByOne<A>(f: A -> nat, x: A)
    ensures SumBy(f, [x]) == f(x)
  {
    assert [x][1..] == [];
  }

  lemma SumByInsert<A>(f: A -> nat, front: seq<A>, x: A, back: seq<A>)
    ensures SumBy(f, front + [x] + back) == SumBy(f, front + back) + f(x)
  {
    SumByAppend(f, front + [x], back);
    SumByAppend(f, front, [x]);
    SumByOne(f, x);
    SumByAppend(f, front, back);
  }

  lemma SumByRemove<A>(f: A -> nat, xs: seq<A>, i: nat)
    requires i < |xs|
    ensures SumBy(f, RemoveAt(xs, i)) + f(xs[i]) == SumBy(f, xs)
  {
    assert xs == xs[..i] + [xs[i]] + xs[i + 1..];
    SumByInsert(f, xs[..i], xs[i], xs[i + 1..]);
  }

  lemma SumByUpdate<A>(f: A -> nat, xs: seq<A>, i: nat, y: A)
    requires i < |xs|
    ensures SumBy(f, xs[i := y]) + f(xs[i]) == SumBy(f, xs) + f(y)
  {
    SumByRemove(f, xs, i);
    SumByRemove(f, xs[i := y], i);
    assert RemoveAt(xs[i := y], i) == RemoveAt(xs, i);
  }

  lemma {:induction false} SumByTwos<A>(f: A -> nat, xs: seq<A>)
    requires forall i :: 0 <= i < |xs| ==> f(xs[i]) == 2
    ensures SumBy(f, xs) == 2 * |xs|
  {
    if xs != [] {
      SumByTwos(f, xs[1..]);
    }
  }
}
