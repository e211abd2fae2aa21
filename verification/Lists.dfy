/** Lists without repetition, sums, images and concatenations of lists. */
module Lists {
  predicate NoDup<T(==)>(xs: seq<T>) {
    forall i, j | 0 <= i < j < |xs| :: xs[i] != xs[j]
  }

  function Elems<T(==)>(xs: seq<T>): set<T> {
    set x | x in xs
  }

  lemma {:induction false} NoDupCount<T(!new)>(xs: seq<T>, x: T)
    requires NoDup(xs)
    ensures multiset(xs)[x] == if x in xs then 1 else 0
  {
    if xs != [] {
      var n := |xs| - 1;
      assert xs == xs[..n] + [xs[n]];
      NoDupCount(xs[..n], x);
    }
  }

  lemma {:induction false} CountNoDup<T(!new)>(xs: seq<T>)
    requires forall x :: multiset(xs)[x] <= 1
    ensures NoDup(xs)
  {
    forall i, j | 0 <= i < j < |xs| ensures xs[i] != xs[j] {
      assert xs == xs[..j] + [xs[j]] + xs[j + 1..];
      assert xs[i] == xs[..j][i] && xs[i] in multiset(xs[..j]);
      assert multiset(xs) == multiset(xs[..j]) + multiset{xs[j]} + multiset(xs[j + 1..]);
      assert multiset(xs)[xs[j]] == multiset(xs[..j])[xs[j]] + 1 + multiset(xs[j + 1..])[xs[j]];
    }
  }

  lemma {:induction false} ElemsSize<T(!new)>(xs: seq<T>)
    requires NoDup(xs)
    ensures |Elems(xs)| == |xs|
  {
    if xs != [] {
      var n := |xs| - 1;
      ElemsSize(xs[..n]);
      assert Elems(xs) == Elems(xs[..n]) + {xs[n]};
    }
  }

  /** A permutation of a repetition-free list. */
  lemma PermutationNoDup<T(!new)>(xs: seq<T>, ys: seq<T>)
    requires NoDup(xs) && multiset(ys) == multiset(xs)
    ensures NoDup(ys) && Elems(ys) == Elems(xs)
  {
    forall x ensures multiset(ys)[x] <= 1 {
      NoDupCount(xs, x);
    }
    CountNoDup(ys);
    forall x ensures x in Elems(ys) <==> x in Elems(xs) {
      assert x in ys <==> x in multiset(ys);
      assert x in xs <==> x in multiset(xs);
    }
  }

  lemma NoDupPermutation<T(!new)>(xs: seq<T>, ys: seq<T>)
    requires NoDup(xs) && NoDup(ys) && Elems(ys) == Elems(xs)
    ensures multiset(ys) == multiset(xs)
  {
    forall x ensures multiset(ys)[x] == multiset(xs)[x] {
      NoDupCount(xs, x);
      NoDupCount(ys, x);
      assert x in ys <==> x in Elems(ys);
      assert x in xs <==> x in Elems(xs);
    }
  }

  function SumOf<T>(xs: seq<T>, f: T -> nat): nat {
    if xs == [] then 0 else SumOf(xs[..|xs| - 1], f) + f(xs[|xs| - 1])
  }

  lemma {:induction false} SumOfUpdate<T>(xs: seq<T>, f: T -> nat, i: nat, x: T)
    requires i < |xs|
    ensures SumOf(xs[i := x], f) == SumOf(xs, f) - f(xs[i]) + f(x)
  {
    var n := |xs| - 1;
    if i == n {
      assert xs[i := x][..n] == xs[..n];
    } else {
      assert xs[i := x][..n] == xs[..n][i := x];
      SumOfUpdate(xs[..n], f, i, x);
    }
  }

  function Map<T, U>(xs: seq<T>, f: T -> U): (r: seq<U>)
    ensures |r| == |xs| && forall i | 0 <= i < |xs| :: r[i] == f(xs[i])
  {
    seq(|xs|, i requires 0 <= i < |xs| => f(xs[i]))
  }

  function Omit<T>(xs: seq<T>, k: nat): (r: seq<T>)
    requires k < |xs|
    ensures |r| == |xs| - 1
  {
    xs[..k] + xs[k + 1..]
  }

  lemma OmitOne<T>(xs: seq<T>, k: nat)
    requires k < |xs|
    ensures multiset(xs) == multiset(Omit(xs, k)) + multiset{xs[k]}
  {
    assert xs == xs[..k] + [xs[k]] + xs[k + 1..];
  }

  lemma OmitMap<T, U>(xs: seq<T>, f: T -> U, k: nat)
    requires k < |xs|
    ensures multiset(Map(xs, f)) == multiset(Map(Omit(xs, k), f)) + multiset{f(xs[k])}
  {
    OmitOne(Map(xs, f), k);
    assert Omit(Map(xs, f), k) == Map(Omit(xs, k), f);
  }

  /** The images of two lists with the same elements have the same elements. */
  lemma {:induction false} MapPermutation<T, U>(xs: seq<T>, ys: seq<T>, f: T -> U)
    requires multiset(xs) == multiset(ys)
    ensures multiset(Map(xs, f)) == multiset(Map(ys, f))
  {
    if xs != [] {
      assert xs[0] in multiset(ys);
      var k :| 0 <= k < |ys| && ys[k] == xs[0];
      var xs', ys' := Omit(xs, 0), Omit(ys, k);
      OmitOne(xs, 0);
      OmitOne(ys, k);
      OmitMap(xs, f, 0);
      OmitMap(ys, f, k);
      hide Map, Omit;
      assert multiset(xs') == multiset(ys') by {
        assert multiset(xs') == multiset(xs) - multiset{xs[0]} && multiset(ys') == multiset(ys) - multiset{xs[0]};
      }
      MapPermutation(xs', ys', f);
    } else {
      assert |multiset(ys)| == |ys|;
    }
  }

  function Concat<T>(parts: seq<seq<T>>): seq<T> {
    if parts == [] then [] else Concat(parts[..|parts| - 1]) + parts[|parts| - 1]
  }

  lemma {:induction false} ConcatTwo<T>(a: seq<seq<T>>, b: seq<seq<T>>)
    ensures Concat(a + b) == Concat(a) + Concat(b)
  {
    if b == [] {
      assert a + b == a;
    } else {
      var n := |b| - 1;
      assert (a + b)[..|a| + n] == a + b[..n];
      ConcatTwo(a, b[..n]);
    }
  }

  lemma ConcatAppend<T>(parts: seq<seq<T>>, last: seq<T>)
    ensures Concat(parts + [last]) == Concat(parts) + last
  {
    assert (parts + [last])[..|parts|] == parts;
  }

  lemma ConcatFirst<T>(part: seq<T>, parts: seq<seq<T>>)
    ensures Concat([part] + parts) == part + Concat(parts)
  {
    assert [part][..0] == [] && Concat([part]) == part;
    ConcatTwo([part], parts);
  }

  lemma {:induction false} ConcatHas<T>(parts: seq<seq<T>>, part: seq<T>, x: T)
    requires part in parts && x in part
    ensures x in Concat(parts)
  {
    var init, last := parts[..|parts| - 1], parts[|parts| - 1];
    assert parts == init + [last];
    if x !in last {
      ConcatHas(init, part, x);
    }
  }
}
