/** Sequence operations that stand for the Redis list commands used by the queue.
    A Redis list is a `seq` whose index 0 is the head (the `LPUSH` end) and whose
    last index is the tail (the `RPOP` end). */
module Lists {

  /** The elements of `s` that are not in `drop`, in their original order.
      `Without(s, {x})` is `LREM key 0 x`: a count of 0 removes every copy of `x`. */
  function Without<T(==)>(s: seq<T>, drop: set<T>): (r: seq<T>)
    ensures |r| <= |s|
  {
    if s == [] then []
    else if s[0] in drop then Without(s[1..], drop)
    else [s[0]] + Without(s[1..], drop)
  }

  /** An element survives exactly when it was there and was not dropped. */
  lemma {:induction false} WithoutMembers<T>(s: seq<T>, drop: set<T>, x: T)
    ensures x in Without(s, drop) <==> x in s && x !in drop
  {
    if s != [] {
      WithoutMembers(s[1..], drop, x);
    }
  }

  /** Dropped elements lose every copy; every other element keeps all of its copies.
      In particular `multiset(s)[x]`, the number `LREM key 0 x` replies with, is
      exactly the number of elements that `Without(s, {x})` takes away. */
  lemma {:induction false} WithoutCount<T>(s: seq<T>, drop: set<T>, y: T)
    ensures multiset(Without(s, drop))[y] == if y in drop then 0 else multiset(s)[y]
  {
    if s != [] {
      WithoutCount(s[1..], drop, y);
      assert s == [s[0]] + s[1..];
    }
  }

  /** Removal keeps the relative order of what remains: it distributes over `+`. */
  lemma {:induction false} WithoutConcat<T>(a: seq<T>, b: seq<T>, drop: set<T>)
    ensures Without(a + b, drop) == Without(a, drop) + Without(b, drop)
  {
    if a == [] {
      assert a + b == b;
    } else {
      assert (a + b)[1..] == a[1..] + b;
      WithoutConcat(a[1..], b, drop);
    }
  }

  /** Two removals in a row are one removal of both sets. */
  lemma {:induction false} WithoutTwice<T>(s: seq<T>, d: set<T>, e: set<T>)
    ensures Without(Without(s, d), e) == Without(s, d + e)
  {
    if s != [] {
      WithoutTwice(s[1..], d, e);
    }
  }

  /** Removing values that do not occur changes nothing. */
  lemma {:induction false} WithoutAbsent<T>(s: seq<T>, drop: set<T>)
    requires forall i :: 0 <= i < |s| ==> s[i] !in drop
    ensures Without(s, drop) == s
  {
    if s != [] {
      WithoutAbsent(s[1..], drop);
    }
  }

  /** `s` read from its last element to its first. */
  function Reverse<T>(s: seq<T>): (r: seq<T>)
    ensures |r| == |s|
  {
    if s == [] then [] else [s[|s| - 1]] + Reverse(s[..|s| - 1])
  }

  lemma {:induction false} ReverseConcat<T>(a: seq<T>, b: seq<T>)
    ensures Reverse(a + b) == Reverse(b) + Reverse(a)
  {
    if b == [] {
      assert a + b == a;
    } else {
      assert (a + b)[..|a + b| - 1] == a + b[..|b| - 1];
      ReverseConcat(a, b[..|b| - 1]);
    }
  }

  lemma {:induction false} ReverseReverse<T>(s: seq<T>)
    ensures Reverse(Reverse(s)) == s
  {
    if s != [] {
      var last, rest := s[|s| - 1], s[..|s| - 1];
      ReverseConcat([last], Reverse(rest));
      ReverseReverse(rest);
      assert Reverse([last]) == [last];
      assert s == rest + [last];
    }
  }
}
