/** Options and the few facts about sequences that the other modules share. */
module Common {

  datatype Option<+T> = None | Some(value: T)

  /** The elements of `xs` that are in `keep`, in their original order. */
  function Filter<T(!new)>(xs: seq<T>, keep: set<T>): (r: seq<T>)
    ensures forall x :: x in r <==> x in xs && x in keep
  {
    if xs == [] then []
    else if xs[0] in keep then [xs[0]] + Filter(xs[1..], keep)
    else Filter(xs[1..], keep)
  }

  lemma {:induction false} FilterSnoc<T(!new)>(xs: seq<T>, x: T, keep: set<T>)
    ensures Filter(xs + [x], keep) == Filter(xs, keep) + (if x in keep then [x] else [])
  {
    if xs == [] {
      assert xs + [x] == [x];
    } else {
      assert (xs + [x])[1..] == xs[1..] + [x];
      FilterSnoc(xs[1..], x, keep);
    }
  }

  /** The loop by which the program collects the members of a pool into a slice. */
  method Collect<T(==,!new)>(xs: seq<T>, keep: set<T>) returns (r: seq<T>)
    ensures r == Filter(xs, keep)
  {
    r := [];
    for i := 0 to |xs|
      invariant r == Filter(xs[..i], keep)
    {
      assert xs[..i + 1] == xs[..i] + [xs[i]];
      FilterSnoc(xs[..i], xs[i], keep);
      if xs[i] in keep {
        r := r + [xs[i]];
      }
    }
    assert xs[..|xs|] == xs;
  }

  predicate NoDup<T(==)>(xs: seq<T>) {
    forall i, j :: 0 <= i < j < |xs| ==> xs[i] != xs[j]
  }

  lemma {:induction false} OnceEach<T(!new)>(xs: seq<T>, x: T)
    requires NoDup(xs)
    ensures multiset(xs)[x] <= 1
  {
    if xs != [] {
      assert xs == [xs[0]] + xs[1..];
      OnceEach(xs[1..], x);
      assert xs[0] == x ==> x !in xs[1..];
    }
  }

  lemma NoDupPermuted<T(!new)>(xs: seq<T>, ys: seq<T>)
    requires NoDup(xs) && multiset(xs) == multiset(ys)
    ensures NoDup(ys)
  {
    forall i, j | 0 <= i < j < |ys|
      ensures ys[i] != ys[j]
    {
      if ys[i] == ys[j] {
        assert ys == ys[..i] + [ys[i]] + ys[i + 1..j] + [ys[j]] + ys[j + 1..];
        assert multiset(ys)[ys[i]] >= 2;
        OnceEach(xs, ys[i]);
      }
    }
  }

  /** A random shuffle: whatever rearrangement of `xs` the generator proposes. */
  function Shuffled<T(==,!new)>(xs: seq<T>, proposal: seq<T>): (r: seq<T>)
    ensures multiset(r) == multiset(xs) && |r| == |xs|
    ensures forall x :: x in r <==> x in xs
  {
    if multiset(proposal) == multiset(xs) then
      SameMembers(proposal, xs);
      proposal
    else xs
  }

  lemma SameMembers<T(!new)>(xs: seq<T>, ys: seq<T>)
    requires multiset(xs) == multiset(ys)
    ensures |xs| == |ys|
    ensures forall x :: x in xs <==> x in ys
  {
    assert |multiset(xs)| == |multiset(ys)|;
    forall x
      ensures x in xs <==> x in ys
    {
      assert x in xs <==> x in multiset(xs);
      assert x in ys <==> x in multiset(ys);
    }
  }

  /** The random pick `xs[rng.Intn(len(xs))]`. */
  function Pick<T>(xs: seq<T>, die: nat): (r: T)
    requires xs != []
    ensures r in xs
  {
    xs[die % |xs|]
  }

  lemma SubsetSize<T>(a: set<T>, b: set<T>)
    requires a <= b
    ensures |a| <= |b|
  {
    if a != {} {
      var x :| x in a;
      SubsetSize(a - {x}, b - {x});
    }
  }
}
