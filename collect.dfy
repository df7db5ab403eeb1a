/** Concatenating the triples produced for each element of a section, in
    document order. Both folds are built from the last element backwards, so
    that a loop extending a prefix by one element extends the result by what
    that element contributes. */
module Collect {
  import opened Wrappers

  /** The concatenation of f(x) for every x of xs, in order. */
  function FlatMap<X, T>(xs: seq<X>, f: X -> seq<T>): seq<T>
    decreases |xs|
  {
    if |xs| == 0 then [] else FlatMap(xs[..|xs| - 1], f) + f(xs[|xs| - 1])
  }

  lemma FlatMapStep<X, T>(xs: seq<X>, i: nat, f: X -> seq<T>)
    requires i < |xs|
    ensures FlatMap(xs[..i + 1], f) == FlatMap(xs[..i], f) + f(xs[i])
  {
    assert xs[..i + 1][..i] == xs[..i];
  }

  /** An element is in the concatenation exactly when some x of xs contributes it. */
  lemma {:induction false} FlatMapMembers<X, T>(xs: seq<X>, f: X -> seq<T>, t: T)
    ensures t in FlatMap(xs, f) <==> exists x :: x in xs && t in f(x)
    decreases |xs|
  {
    if |xs| > 0 {
      var init, last := xs[..|xs| - 1], xs[|xs| - 1];
      FlatMapMembers(init, f, t);
      assert xs == init + [last];
      assert forall x :: x in xs <==> x in init || x == last;
    }
  }

  lemma AppendAssoc<T>(a: seq<T>, b: seq<T>, c: seq<T>)
    ensures (a + b) + c == a + (b + c)
  {
  }

  /** Sequential composition of two fallible steps: the first error wins. */
  function Then<T, E>(a: Result<seq<T>, E>, b: Result<seq<T>, E>): Result<seq<T>, E>
  {
    match a
    case Err(e) => Err(e)
    case Ok(u) => (match b
                   case Err(e) => Err(e)
                   case Ok(v) => Ok(u + v))
  }

  /** The concatenation of f(x) for every x of xs, or the error of the first
      x, in order, for which f fails. */
  function CollectAll<X, T, E>(xs: seq<X>, f: X -> Result<seq<T>, E>): Result<seq<T>, E>
    decreases |xs|
  {
    if |xs| == 0 then Ok([]) else Then(CollectAll(xs[..|xs| - 1], f), f(xs[|xs| - 1]))
  }

  lemma CollectStep<X, T, E>(xs: seq<X>, i: nat, f: X -> Result<seq<T>, E>)
    requires i < |xs|
    ensures CollectAll(xs[..i + 1], f) == Then(CollectAll(xs[..i], f), f(xs[i]))
  {
    assert xs[..i + 1][..i] == xs[..i];
  }

  /** Extending a successful prefix by a successful element. */
  lemma CollectOkStep<X, T, E>(xs: seq<X>, i: nat, f: X -> Result<seq<T>, E>)
    requires i < |xs|
    requires CollectAll(xs[..i], f).Ok? && f(xs[i]).Ok?
    ensures CollectAll(xs[..i + 1], f) == Ok(CollectAll(xs[..i], f).value + f(xs[i]).value)
  {
    CollectStep(xs, i, f);
  }

  /** A collection of one element is that element's result. */
  lemma CollectOne<X, T, E>(a: X, f: X -> Result<seq<T>, E>)
    requires f(a).Ok?
    ensures CollectAll([a], f) == f(a)
  {
    assert [a][..0] == [];
    assert [] + f(a).value == f(a).value;
  }

  /** A collection of two successful elements joins their results. */
  lemma CollectTwo<X, T, E>(a: X, b: X, f: X -> Result<seq<T>, E>)
    requires f(a).Ok? && f(b).Ok?
    ensures CollectAll([a, b], f) == Ok(f(a).value + f(b).value)
  {
    assert [a, b][..1] == [a];
    CollectOne(a, f);
  }

  /** The first failing element decides the whole collection. */
  lemma CollectErrStep<X, T, E>(xs: seq<X>, i: nat, f: X -> Result<seq<T>, E>)
    requires i < |xs|
    requires CollectAll(xs[..i], f).Ok? && f(xs[i]).Err?
    ensures CollectAll(xs, f) == f(xs[i])
  {
    CollectStep(xs, i, f);
    CollectErrSticky(xs, i + 1, f);
  }

  /** Once a prefix has failed, the whole fails with the same error. */
  lemma {:induction false} CollectErrSticky<X, T, E>(xs: seq<X>, n: nat, f: X -> Result<seq<T>, E>)
    requires n <= |xs|
    requires CollectAll(xs[..n], f).Err?
    ensures CollectAll(xs, f) == CollectAll(xs[..n], f)
    decreases |xs|
  {
    if n < |xs| {
      var init := xs[..|xs| - 1];
      assert init[..n] == xs[..n];
      CollectErrSticky(init, n, f);
    } else {
      assert xs[..n] == xs;
    }
  }

  /** The collection succeeds exactly when every element succeeds. */
  lemma {:induction false} CollectOkIff<X, T, E>(xs: seq<X>, f: X -> Result<seq<T>, E>)
    ensures CollectAll(xs, f).Ok? <==> forall x :: x in xs ==> f(x).Ok?
    decreases |xs|
  {
    if |xs| > 0 {
      var init, last := xs[..|xs| - 1], xs[|xs| - 1];
      CollectOkIff(init, f);
      assert xs == init + [last];
      assert forall x :: x in xs <==> x in init || x == last;
    }
  }

  /** A failed collection reports the error of its first failing element. */
  lemma {:induction false} CollectFirstErr<X, T, E>(xs: seq<X>, f: X -> Result<seq<T>, E>)
    requires CollectAll(xs, f).Err?
    ensures exists i :: 0 <= i < |xs| && f(xs[i]) == CollectAll(xs, f) &&
                        forall j :: 0 <= j < i ==> f(xs[j]).Ok?
    decreases |xs|
  {
    var init, last := xs[..|xs| - 1], xs[|xs| - 1];
    if CollectAll(init, f).Err? {
      CollectFirstErr(init, f);
      var i :| 0 <= i < |init| && f(init[i]) == CollectAll(init, f) &&
               forall j :: 0 <= j < i ==> f(init[j]).Ok?;
      assert forall j :: 0 <= j < |init| ==> init[j] == xs[j];
    } else {
      CollectOkIff(init, f);
      assert forall j :: 0 <= j < |init| ==> init[j] == xs[j] && init[j] in init;
      assert f(xs[|xs| - 1]) == CollectAll(xs, f);
    }
  }

  /** The triples of a successful collection are exactly those contributed by its elements. */
  lemma {:induction false} CollectOkMembers<X, T, E>(xs: seq<X>, f: X -> Result<seq<T>, E>, t: T)
    requires CollectAll(xs, f).Ok?
    ensures t in CollectAll(xs, f).value <==> exists x :: x in xs && f(x).Ok? && t in f(x).value
    decreases |xs|
  {
    if |xs| > 0 {
      var init, last := xs[..|xs| - 1], xs[|xs| - 1];
      CollectOkMembers(init, f, t);
      assert xs == init + [last];
      assert forall x :: x in xs <==> x in init || x == last;
    }
  }
}
