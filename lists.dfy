/** List operations shared by the components: `xs.filter(x => x !== v)`. */
module Lists {

  /** The elements of `xs` different from `v`, in their original order. */
  function RemoveAll<T(==)>(xs: seq<T>, v: T): (r: seq<T>)
    ensures |r| <= |xs|
    ensures v !in r
    ensures forall x | x in r :: x in xs
  {
    if xs == [] then []
    else if xs[0] == v then RemoveAll(xs[1..], v)
    else [xs[0]] + RemoveAll(xs[1..], v)
  }

  /** Removal distributes over concatenation: the survivors keep their relative order. */
  lemma {:induction false} RemoveAllConcat<T>(a: seq<T>, b: seq<T>, v: T)
    ensures RemoveAll(a + b, v) == RemoveAll(a, v) + RemoveAll(b, v)
  {
    if a == [] {
      assert a + b == b;
    } else {
      assert (a + b)[1..] == a[1..] + b;
      RemoveAllConcat(a[1..], b, v);
    }
  }

  /** Every element different from `v` occurs as often as before; `v` no longer occurs. */
  lemma {:induction false} RemoveAllCounts<T>(xs: seq<T>, v: T, w: T)
    ensures multiset(RemoveAll(xs, v))[w] == if w == v then 0 else multiset(xs)[w]
  {
    if xs != [] {
      assert xs == [xs[0]] + xs[1..];
      RemoveAllCounts(xs[1..], v, w);
    }
  }

  /** A list without `v` is left as it is. */
  lemma {:induction false} RemoveAllAbsent<T>(xs: seq<T>, v: T)
    requires v !in xs
    ensures RemoveAll(xs, v) == xs
  {
    if xs != [] {
      assert v !in xs[1..];
      RemoveAllAbsent(xs[1..], v);
    }
  }

  /** Removing twice is removing once. */
  lemma RemoveAllIdempotent<T>(xs: seq<T>, v: T)
    ensures RemoveAll(RemoveAll(xs, v), v) == RemoveAll(xs, v)
  {
  }
}
