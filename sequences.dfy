/** Sequence operations that the organiser's LINQ queries and chunked loops
    are built from: first occurrence, Distinct, Except, Skip/Take, flattening
    (SelectMany) and splitting into consecutive batches. */
module Sequences {

  predicate NoDuplicates<T(==)>(s: seq<T>) {
    forall i, j | 0 <= i < j < |s| :: s[i] != s[j]
  }

  /** `a` can be obtained from `b` by deleting elements (order is kept). */
  predicate IsSubsequence<T(==)>(a: seq<T>, b: seq<T>)
    decreases |b|
  {
    if a == [] then true
    else if b == [] then false
    else if a[|a| - 1] == b[|b| - 1] then IsSubsequence(a[..|a| - 1], b[..|b| - 1])
    else IsSubsequence(a, b[..|b| - 1])
  }

  /** Position of the first occurrence of `x` in `s`. */
  function FirstIndex<T(==)>(s: seq<T>, x: T): (r: nat)
    requires x in s
    ensures r < |s| && s[r] == x
    ensures forall k :: 0 <= k < r ==> s[k] != x
  {
    if s[0] == x then 0 else 1 + FirstIndex(s[1..], x)
  }

  /** Position of the first element satisfying `p`, or `|s|` when there is none. */
  function FirstWhere<T>(s: seq<T>, p: T -> bool): (r: nat)
    ensures r <= |s|
  {
    if s == [] then 0
    else if p(s[0]) then 0
    else 1 + FirstWhere(s[1..], p)
  }

  /** `FirstWhere` finds the first element satisfying `p`, if there is one. */
  lemma {:induction false} FirstWhereSpec<T>(s: seq<T>, p: T -> bool)
    ensures FirstWhere(s, p) < |s| ==> p(s[FirstWhere(s, p)])
    ensures forall k | 0 <= k < FirstWhere(s, p) :: !p(s[k])
  {
    if s != [] && !p(s[0]) {
      FirstWhereSpec(s[1..], p);
      assert forall k | 1 <= k <= |s[1..]| :: s[k] == s[1..][k - 1];
    }
  }

  /** A first occurrence inside a prefix is the first occurrence in the whole sequence. */
  lemma FirstIndexInPrefix<T>(p: seq<T>, s: seq<T>, x: T)
    requires p <= s && x in p
    ensures FirstIndex(s, x) == FirstIndex(p, x)
  {
    assert s[FirstIndex(p, x)] == x;
  }

  /** LINQ `Distinct`: each element once, kept where it first occurs. */
  function Distinct<T(==)>(s: seq<T>): (r: seq<T>)
    ensures |r| <= |s|
  {
    if s == [] then []
    else
      var d := Distinct(s[..|s| - 1]);
      var last := s[|s| - 1];
      if last in d then d else d + [last]
  }

  /** `Distinct` keeps every element, adds none, and repeats none. */
  lemma {:induction false} DistinctSpec<T>(s: seq<T>)
    ensures forall x | x in Distinct(s) :: x in s
    ensures forall x | x in s :: x in Distinct(s)
    ensures NoDuplicates(Distinct(s))
  {
    if s != [] {
      var p, last := s[..|s| - 1], s[|s| - 1];
      DistinctSpec(p);
      assert s == p + [last];
    }
  }

  /** The elements of `Distinct(s)` are listed in the order of their first
      occurrence in `s`. */
  lemma {:induction false} DistinctKeepsFirstOccurrenceOrder<T>(s: seq<T>)
    ensures forall x | x in Distinct(s) :: x in s
    ensures forall i, j | 0 <= i < j < |Distinct(s)| ::
      FirstIndex(s, Distinct(s)[i]) < FirstIndex(s, Distinct(s)[j])
  {
    if s != [] {
      var p, z := s[..|s| - 1], s[|s| - 1];
      DistinctKeepsFirstOccurrenceOrder(p);
      DistinctSpec(s);
      DistinctSpec(p);
      var d := Distinct(p);
      forall x | x in p
        ensures FirstIndex(s, x) == FirstIndex(p, x)
      {
        FirstIndexInPrefix(p, s, x);
      }
      if z !in d {
        assert z !in p;
        assert FirstIndex(s, z) == |p| by {
          assert s[|p|] == z;
          assert forall k :: 0 <= k < |p| ==> s[k] == p[k];
        }
        assert Distinct(s) == d + [z];
      }
    }
  }

  /** `Distinct` leaves a duplicate-free sequence unchanged. */
  lemma {:induction false} DistinctOfNoDuplicates<T>(s: seq<T>)
    requires NoDuplicates(s)
    ensures Distinct(s) == s
  {
    if s != [] {
      var p, z := s[..|s| - 1], s[|s| - 1];
      DistinctOfNoDuplicates(p);
      assert z !in p;
      assert z !in Distinct(p);
      assert s == p + [z];
    }
  }

  /** `Distinct` removes nothing exactly when nothing repeats. */
  lemma {:induction false} DistinctLengthIff<T>(s: seq<T>)
    ensures |Distinct(s)| == |s| <==> NoDuplicates(s)
  {
    if s != [] {
      var p, z := s[..|s| - 1], s[|s| - 1];
      DistinctLengthIff(p);
      DistinctSpec(p);
      assert s == p + [z];
      if NoDuplicates(s) {
        assert NoDuplicates(p);
        assert z !in p;
      }
      if |Distinct(s)| == |s| {
        assert z !in Distinct(p) && |Distinct(p)| == |p|;
        assert z !in p;
        assert NoDuplicates(s);
      }
    }
  }

  /** The elements of `s` not in `excluded`, in order, duplicates kept. */
  function Without<T(==)>(s: seq<T>, excluded: seq<T>): (r: seq<T>)
    ensures |r| <= |s|
  {
    if s == [] then []
    else
      var w := Without(s[..|s| - 1], excluded);
      var last := s[|s| - 1];
      if last in excluded then w else w + [last]
  }

  /** `Without` keeps exactly the elements that are not excluded. */
  lemma {:induction false} WithoutSpec<T>(s: seq<T>, excluded: seq<T>)
    ensures forall x | x in Without(s, excluded) :: x in s && x !in excluded
    ensures forall x | x in s && x !in excluded :: x in Without(s, excluded)
  {
    if s != [] {
      var p, last := s[..|s| - 1], s[|s| - 1];
      WithoutSpec(p, excluded);
      assert s == p + [last];
    }
  }

  /** LINQ `a.Except(b)`: the elements of `a` that are not in `b`, each once. */
  function Except<T(==)>(a: seq<T>, b: seq<T>): seq<T>
  {
    Distinct(Without(a, b))
  }

  /** `Except` returns exactly the elements of `a` missing from `b`, without repeats. */
  lemma ExceptSpec<T>(a: seq<T>, b: seq<T>)
    ensures forall x | x in Except(a, b) :: x in a && x !in b
    ensures forall x | x in a && x !in b :: x in Except(a, b)
    ensures NoDuplicates(Except(a, b))
  {
    DistinctSpec(Without(a, b));
    WithoutSpec(a, b);
  }

  /** Removing the excluded elements and then the repeats gives the same
      sequence as removing the repeats first: `Except` keeps the order in
      which the surviving elements first occur in `a`. */
  lemma {:induction false} ExceptIsDistinctWithout<T>(a: seq<T>, b: seq<T>)
    ensures Except(a, b) == Without(Distinct(a), b)
  {
    if a != [] {
      var p, z := a[..|a| - 1], a[|a| - 1];
      ExceptIsDistinctWithout(p, b);
      DistinctSpec(p);
      WithoutSpec(p, b);
      DistinctSpec(Without(p, b));
      var dp := Distinct(p);
      if z in dp {
        assert Distinct(a) == dp;
      } else {
        assert Distinct(a) == dp + [z];
        assert (dp + [z])[..|dp|] == dp;
      }
    }
  }

  /** The `Distinct()` applied after `Except` changes nothing. */
  lemma ExceptThenDistinct<T>(a: seq<T>, b: seq<T>)
    ensures Distinct(Except(a, b)) == Except(a, b)
  {
    ExceptSpec(a, b);
    DistinctOfNoDuplicates(Except(a, b));
  }

  /** Once everything `Except` returned has been added to `b`, the same
      query returns nothing. */
  lemma ExceptAfterAdding<T>(a: seq<T>, b: seq<T>, added: seq<T>)
    requires forall x :: x in Except(a, b) ==> x in added
    ensures Except(a, b + added) == []
  {
    ExceptSpec(a, b);
    assert forall x | x in a :: x in b + added;
    WithoutEverything(a, b + added);
  }

  lemma {:induction false} WithoutEverything<T>(s: seq<T>, excluded: seq<T>)
    requires forall x | x in s :: x in excluded
    ensures Without(s, excluded) == []
  {
    if s != [] {
      WithoutEverything(s[..|s| - 1], excluded);
    }
  }

  /** LINQ `SelectMany` over a sequence of sequences. */
  function Flatten<T>(ss: seq<seq<T>>): seq<T>
  {
    if ss == [] then [] else Flatten(ss[..|ss| - 1]) + ss[|ss| - 1]
  }

  lemma AppendAssoc<T>(a: seq<T>, b: seq<T>, c: seq<T>)
    ensures a + (b + c) == (a + b) + c
  {
  }

  /** One more element of a prefix. */
  lemma PrefixStep<T>(s: seq<T>, i: nat)
    requires i < |s|
    ensures s[..i + 1] == s[..i] + [s[i]]
  {
  }

  /** A prefix reaching into the second of two joined sequences. */
  lemma PrefixOfAppend<T>(a: seq<T>, b: seq<T>, k: nat)
    requires k <= |b|
    ensures (a + b)[..|a| + k] == a + b[..k]
  {
  }

  /** One more part of a prefix of parts. */
  lemma FlattenPrefixStep<T>(ss: seq<seq<T>>, i: nat)
    requires i < |ss|
    ensures Flatten(ss[..i + 1]) == Flatten(ss[..i]) + ss[i]
  {
    assert ss[..i + 1][..i] == ss[..i];
  }

  /** Appending one more part appends its elements. */
  lemma FlattenSnoc<T>(ss: seq<seq<T>>, s: seq<T>)
    ensures Flatten(ss + [s]) == Flatten(ss) + s
  {
    assert (ss + [s])[..|ss|] == ss;
  }

  lemma {:induction false} FlattenAppend<T>(a: seq<seq<T>>, b: seq<seq<T>>)
    ensures Flatten(a + b) == Flatten(a) + Flatten(b)
  {
    if b != [] {
      var b', z := b[..|b| - 1], b[|b| - 1];
      assert (a + b)[..|a + b| - 1] == a + b';
      FlattenAppend(a, b');
      assert Flatten(a + b) == Flatten(a + b') + z;
      assert Flatten(b) == Flatten(b') + z;
    } else {
      assert a + b == a;
    }
  }

  /** LINQ `Skip(k)`. */
  function Skip<T>(s: seq<T>, k: nat): seq<T>
  {
    if k <= |s| then s[k..] else []
  }

  /** LINQ `Take(k)`. */
  function Take<T>(s: seq<T>, k: nat): seq<T>
  {
    if k <= |s| then s[..k] else s
  }

  /** The consecutive batches of at most `n` elements that `s` is sent in. */
  function Chunks<T>(s: seq<T>, n: nat): seq<seq<T>>
    requires n > 0
    decreases |s|
  {
    if s == [] then []
    else if |s| <= n then [s]
    else [s[..n]] + Chunks(s[n..], n)
  }

  /** Batch `i` is what `Skip(i * n).Take(n)` selects. */
  lemma {:induction false} ChunkAt<T>(s: seq<T>, n: nat, i: nat)
    requires n > 0 && i < |Chunks(s, n)|
    ensures Chunks(s, n)[i] == Take(Skip(s, i * n), n)
    decreases |s|
  {
    if i == 0 {
      assert i * n == 0;
      assert Skip(s, 0) == s;
      if |s| > n {
        assert Chunks(s, n)[0] == s[..n];
      } else {
        assert Chunks(s, n) == [s];
      }
    } else {
      assert |s| > n;
      var rest := Chunks(s[n..], n);
      assert Chunks(s, n)[i] == rest[i - 1];
      ChunkAt(s[n..], n, i - 1);
      var j := (i - 1) * n;
      MulStep(i - 1, n);
      assert i * n == n + j;
      SkipSkip(s, n, j);
    }
  }

  lemma MulStep(i: nat, n: nat)
    ensures (i + 1) * n == n + i * n
  {
  }

  lemma SkipSkip<T>(s: seq<T>, a: nat, b: nat)
    requires a <= |s|
    ensures Skip(s[a..], b) == Skip(s, a + b)
  {
    if a + b <= |s| {
      assert s[a..][b..] == s[a + b..];
    }
  }

  /** Every batch holds between 1 and `n` elements. */
  lemma {:induction false} ChunkSizes<T>(s: seq<T>, n: nat)
    requires n > 0
    ensures forall c | c in Chunks(s, n) :: 0 < |c| <= n
    decreases |s|
  {
    if |s| > n {
      ChunkSizes(s[n..], n);
    }
  }

  /** The batches, concatenated in order, give back the original sequence. */
  lemma {:induction false} ChunksReassemble<T>(s: seq<T>, n: nat)
    requires n > 0
    ensures Flatten(Chunks(s, n)) == s
    decreases |s|
  {
    if |s| > n {
      var head, rest := s[..n], Chunks(s[n..], n);
      assert Chunks(s, n) == [head] + rest;
      ChunksReassemble(s[n..], n);
      FlattenAppend([head], rest);
      FlattenSingle(head);
      assert head + s[n..] == s;
    } else if s != [] {
      assert Chunks(s, n) == [s];
      FlattenSingle(s);
    }
  }

  lemma FlattenSingle<T>(s: seq<T>)
    ensures Flatten([s]) == s
  {
    assert [s][..0] == [];
  }

  /** There are no batches for an empty sequence, otherwise the smallest
      number of batches of size `n` that can hold it. */
  lemma {:induction false} ChunkCountBounds<T>(s: seq<T>, n: nat)
    requires n > 0
    ensures |Chunks(s, n)| == 0 <==> s == []
    ensures s != [] ==> (|Chunks(s, n)| - 1) * n < |s| <= |Chunks(s, n)| * n
    decreases |s|
  {
    if |s| > n {
      ChunkCountBounds(s[n..], n);
      var c := |Chunks(s[n..], n)|;
      assert |Chunks(s, n)| == c + 1;
      assert (c + 1) * n == c * n + n;
    }
  }

  /** A loop that runs while `|s| > i * n` makes exactly one pass per batch. */
  lemma ChunkGuard<T>(s: seq<T>, n: nat, i: nat)
    requires n > 0
    ensures |s| > i * n <==> i < |Chunks(s, n)|
  {
    ChunkCountBounds(s, n);
    var c := |Chunks(s, n)|;
    if i < c {
      MulMonotone(i, c - 1, n);
    } else {
      MulMonotone(c, i, n);
    }
  }

  lemma {:induction false} MulMonotone(a: nat, b: nat, n: nat)
    requires a <= b
    ensures a * n <= b * n
    decreases b - a
  {
    if a < b {
      MulMonotone(a, b - 1, n);
      assert b * n == (b - 1) * n + n;
    }
  }
}
