/** Values shared by every component: optional values, results, and order-free sums over sequences. */
module Common {

  datatype Option<+T> = None | Some(value: T)

  /** The outcome of a request handler: a value, or the exception it throws. */
  datatype Result<+T> = Ok(value: T) | Err(error: string)

  // Identifiers are UUIDs; a canonical lower-case UUID orders like the 128-bit number it writes.
  type AgentId = nat
  type UserId = nat
  type JobId = nat
  type Pubkey = nat

  ghost predicate NoDuplicates<T>(xs: seq<T>) {
    forall i, j :: 0 <= i < j < |xs| ==> xs[i] != xs[j]
  }

  /** Counts a trait of the elements, weighing each one by `f`. */
  function Tally<T>(f: T -> nat, xs: seq<T>): nat {
    if xs == [] then 0 else Tally(f, xs[..|xs| - 1]) + f(xs[|xs| - 1])
  }

  function SumOf<T>(f: T -> real, xs: seq<T>): real {
    if xs == [] then 0.0 else SumOf(f, xs[..|xs| - 1]) + f(xs[|xs| - 1])
  }

  lemma {:induction false} TallyAppend<T>(f: T -> nat, a: seq<T>, b: seq<T>)
    ensures Tally(f, a + b) == Tally(f, a) + Tally(f, b)
  {
    if b == [] {
      assert a + b == a;
    } else {
      assert (a + b)[..|a + b| - 1] == a + b[..|b| - 1];
      TallyAppend(f, a, b[..|b| - 1]);
    }
  }

  lemma {:induction false} SumOfAppend<T>(f: T -> real, a: seq<T>, b: seq<T>)
    ensures SumOf(f, a + b) == SumOf(f, a) + SumOf(f, b)
  {
    if b == [] {
      assert a + b == a;
    } else {
      assert (a + b)[..|a + b| - 1] == a + b[..|b| - 1];
      SumOfAppend(f, a, b[..|b| - 1]);
    }
  }

  lemma MultisetWithout<T>(s: seq<T>, i: nat)
    requires i < |s|
    ensures s == s[..i] + [s[i]] + s[i + 1..]
    ensures multiset(s[..i] + s[i + 1..]) == multiset(s) - multiset{s[i]}
  {
    assert s == s[..i] + [s[i]] + s[i + 1..];
  }

  /** Removing the last element of `a` from a permutation `b` of `a`. */
  lemma RemoveLast<T>(a: seq<T>, b: seq<T>) returns (i: nat)
    requires a != [] && multiset(a) == multiset(b)
    ensures i < |b| && b[i] == a[|a| - 1]
    ensures b == b[..i] + [b[i]] + b[i + 1..]
    ensures multiset(a[..|a| - 1]) == multiset(b[..i] + b[i + 1..])
  {
    var n := |a| - 1;
    assert a[n] in multiset(b);
    i :| 0 <= i < |b| && b[i] == a[n];
    MultisetWithout(a, n);
    MultisetWithout(b, i);
    assert a[..n] + a[n + 1..] == a[..n];
  }

  /** A count does not depend on the order of the elements. */
  lemma {:induction false} TallyPermutation<T>(f: T -> nat, a: seq<T>, b: seq<T>)
    requires multiset(a) == multiset(b)
    ensures Tally(f, a) == Tally(f, b)
    decreases |a|
  {
    if a == [] {
      assert |multiset(b)| == 0;
    } else {
      var i := RemoveLast(a, b);
      TallyPermutation(f, a[..|a| - 1], b[..i] + b[i + 1..]);
      TallyAppend(f, b[..i] + [b[i]], b[i + 1..]);
      TallyAppend(f, b[..i], [b[i]]);
      TallyAppend(f, b[..i], b[i + 1..]);
    }
  }

  /** Neither does a sum. */
  lemma {:induction false} SumOfPermutation<T>(f: T -> real, a: seq<T>, b: seq<T>)
    requires multiset(a) == multiset(b)
    ensures SumOf(f, a) == SumOf(f, b)
    decreases |a|
  {
    if a == [] {
      assert |multiset(b)| == 0;
    } else {
      var i := RemoveLast(a, b);
      SumOfPermutation(f, a[..|a| - 1], b[..i] + b[i + 1..]);
      SumOfAppend(f, b[..i] + [b[i]], b[i + 1..]);
      SumOfAppend(f, b[..i], [b[i]]);
      SumOfAppend(f, b[..i], b[i + 1..]);
    }
  }

  /** A sum of values between `lo` and `hi` lies between `n * lo` and `n * hi`. */
  lemma {:induction false} SumOfBounds<T>(f: T -> real, xs: seq<T>, lo: real, hi: real)
    requires forall x :: x in xs ==> lo <= f(x) <= hi
    ensures |xs| as real * lo <= SumOf(f, xs) <= |xs| as real * hi
  {
    if xs != [] {
      assert forall x :: x in xs[..|xs| - 1] ==> x in xs;
      SumOfBounds(f, xs[..|xs| - 1], lo, hi);
      assert xs[|xs| - 1] in xs;
      OneMore(|xs| - 1, lo);
      OneMore(|xs| - 1, hi);
    }
  }

  lemma OneMore(n: nat, x: real)
    ensures (n + 1) as real * x == n as real * x + x
  {
  }

  /** Stand-in for a database query: the selected items, in an order of the database's choosing. */
  method Listing<T>(items: set<T>) returns (rows: seq<T>)
    ensures NoDuplicates(rows)
    ensures forall x :: x in rows <==> x in items
  {
    rows := [];
    var left := items;
    while left != {}
      invariant left <= items && NoDuplicates(rows)
      invariant forall x :: x in rows <==> x in items && x !in left
      decreases |left|
    {
      var x :| x in left;
      rows := rows + [x];
      left := left - {x};
    }
  }
}
