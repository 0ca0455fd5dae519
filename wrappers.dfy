/**
 * The optional value used wherever the handlers return `null` or
 * `undefined`, and the ways the handlers walk an array element by
 * element: `map` with a callback that may throw, a loop that pushes
 * zero or more items per element, and a loop that counts elements with a
 * test that may throw.
 */
module Wrappers {
  datatype Option<+T> = None | Some(value: T)

  /** `xs.map(f)` where `f` may throw (`None`): every result in order, or nothing at the first throw. */
  function MapAll<A, B>(f: A -> Option<B>, xs: seq<A>): (r: Option<seq<B>>)
    ensures r.None? <==> exists i :: 0 <= i < |xs| && f(xs[i]).None?
    ensures r.Some? ==> |r.value| == |xs| && forall i :: 0 <= i < |xs| ==> f(xs[i]) == Some(r.value[i])
  {
    if xs == [] then Some([])
    else
      match f(xs[0])
      case None => None
      case Some(y) =>
        var rest := MapAll(f, xs[1..]);
        assert forall i :: 1 <= i < |xs| ==> xs[i] == xs[1..][i - 1];
        if rest.None? then None else Some([y] + rest.value)
  }

  /** The items a push-per-element loop collects, in order. */
  function FlatMap<A, B>(f: A -> seq<B>, xs: seq<A>): seq<B> {
    if xs == [] then [] else FlatMap(f, xs[..|xs| - 1]) + f(xs[|xs| - 1])
  }

  lemma FlatMapStep<A, B>(f: A -> seq<B>, xs: seq<A>, x: A)
    ensures FlatMap(f, xs + [x]) == FlatMap(f, xs) + f(x)
  {
    assert (xs + [x])[..|xs|] == xs;
  }

  /** One more element of a push-per-element loop over `xs` that started from `acc`. */
  lemma FlatMapPush<A, B>(f: A -> seq<B>, acc: seq<B>, xs: seq<A>, j: nat, out: seq<B>)
    requires j < |xs| && out == acc + FlatMap(f, xs[..j])
    ensures out + f(xs[j]) == acc + FlatMap(f, xs[..j + 1])
  {
    assert xs[..j + 1] == xs[..j] + [xs[j]];
    FlatMapStep(f, xs[..j], xs[j]);
  }

  lemma {:induction false} FlatMapAppend<A, B>(f: A -> seq<B>, xs: seq<A>, ys: seq<A>)
    ensures FlatMap(f, xs + ys) == FlatMap(f, xs) + FlatMap(f, ys)
    decreases |ys|
  {
    if ys != [] {
      var y0 := ys[..|ys| - 1];
      var y := ys[|ys| - 1];
      assert xs + ys == (xs + y0) + [y];
      assert ys == y0 + [y];
      FlatMapAppend(f, xs, y0);
      FlatMapStep(f, xs + y0, y);
      FlatMapStep(f, y0, y);
    } else {
      assert xs + ys == xs;
    }
  }

  /** Everything collected comes from some element, and every element's items are collected. */
  lemma {:induction false} FlatMapMembers<A, B>(f: A -> seq<B>, xs: seq<A>)
    ensures forall y :: y in FlatMap(f, xs) ==> exists x :: x in xs && y in f(x)
    ensures forall x, y :: x in xs && y in f(x) ==> y in FlatMap(f, xs)
    decreases |xs|
  {
    if xs != [] {
      var x0 := xs[..|xs| - 1];
      FlatMapMembers(f, x0);
      assert xs == x0 + [xs[|xs| - 1]];
      assert forall x :: x in xs <==> x in x0 || x == xs[|xs| - 1];
    }
  }

  /** The number of elements `f` accepts, or `None` when `f` throws for one of them. */
  function CountWhere<A>(f: A -> Option<bool>, xs: seq<A>): (r: Option<nat>)
    ensures r.None? <==> exists i :: 0 <= i < |xs| && f(xs[i]).None?
    ensures r.Some? ==> r.value <= |xs|
  {
    if xs == [] then Some(0)
    else
      var rest := CountWhere(f, xs[..|xs| - 1]);
      var last := f(xs[|xs| - 1]);
      assert forall i :: 0 <= i < |xs| - 1 ==> xs[..|xs| - 1][i] == xs[i];
      if rest.None? || last.None? then None
      else Some(rest.value + if last.value then 1 else 0)
  }

  lemma CountWhereStep<A>(f: A -> Option<bool>, xs: seq<A>, x: A)
    ensures var r := CountWhere(f, xs + [x]);
      && (CountWhere(f, xs).None? || f(x).None? ==> r.None?)
      && (CountWhere(f, xs).Some? && f(x).Some? ==>
            r == Some(CountWhere(f, xs).value + if f(x).value then 1 else 0))
  {
    assert (xs + [x])[..|xs|] == xs;
  }
}
