/** Shared vocabulary: optional and failing results, machine-word limits, and the few list
    operations the relayer leans on (`flatten`, `filter`, `flat_map`, `chunks`). */
module Prelude {

  datatype Option<+T> = None | Some(value: T)

  datatype Result<+T, +E> = Ok(value: T) | Err(error: E)

  const U64_LIMIT: nat := 0x1_0000_0000_0000_0000
  const U256_LIMIT: nat :=
    0x1_0000_0000_0000_0000_0000_0000_0000_0000_0000_0000_0000_0000_0000_0000_0000_0000

  function Max(a: nat, b: nat): nat { if a < b then b else a }

  function Min(a: nat, b: nat): nat { if a < b then a else b }

  /** Rust's `saturating_sub`. */
  function SaturatingSub(a: nat, b: nat): nat { if a < b then 0 else a - b }

  // ----- flatten -----

  function Flatten<T>(ss: seq<seq<T>>): seq<T> {
    if ss == [] then [] else ss[0] + Flatten(ss[1..])
  }

  lemma {:induction false} FlattenConcat<T>(a: seq<seq<T>>, b: seq<seq<T>>)
    ensures Flatten(a + b) == Flatten(a) + Flatten(b)
  {
    if a == [] {
      assert a + b == b;
    } else {
      assert (a + b)[1..] == a[1..] + b;
      FlattenConcat(a[1..], b);
    }
  }

  lemma FlattenCons<T>(x: seq<T>, rest: seq<seq<T>>)
    ensures Flatten([x] + rest) == x + Flatten(rest)
  {
    assert ([x] + rest)[1..] == rest;
  }

  lemma FlattenSnoc<T>(a: seq<seq<T>>, x: seq<T>)
    ensures Flatten(a + [x]) == Flatten(a) + x
  {
    FlattenConcat(a, [x]);
    assert Flatten([x]) == x + Flatten<T>([]);
  }

  // ----- map -----

  function Map<T, U>(f: T -> U, s: seq<T>): (r: seq<U>)
    ensures |r| == |s|
    ensures forall i :: 0 <= i < |s| ==> r[i] == f(s[i])
  {
    seq(|s|, i requires 0 <= i < |s| => f(s[i]))
  }

  lemma MapConcat<T, U>(f: T -> U, a: seq<T>, b: seq<T>)
    ensures Map(f, a + b) == Map(f, a) + Map(f, b)
  {
  }

  lemma WithoutAt<T>(s: seq<T>, i: nat)
    requires i < |s|
    ensures multiset(s[..i] + s[i + 1..]) == multiset(s) - multiset{s[i]}
  {
    assert s == s[..i] + [s[i]] + s[i + 1..];
  }

  lemma MapWithoutAt<T, U>(f: T -> U, s: seq<T>, i: nat, rest: seq<T>)
    requires i < |s| && rest == s[..i] + s[i + 1..]
    ensures multiset(Map(f, s)) == multiset(Map(f, rest)) + multiset{f(s[i])}
  {
    var all := Map(f, s);
    assert all == all[..i] + [f(s[i])] + all[i + 1..];
    assert Map(f, rest) == all[..i] + all[i + 1..];
  }

  lemma RestPermutes<T>(a: seq<T>, b: seq<T>, i: nat)
    requires a != [] && i < |b| && a[0] == b[i] && multiset(a) == multiset(b)
    ensures multiset(a[1..]) == multiset(b[..i] + b[i + 1..])
  {
    assert a == [a[0]] + a[1..];
    assert multiset(a[1..]) == multiset(a) - multiset{a[0]};
    WithoutAt(b, i);
  }

  /** Mapping permuted items permutes the results. */
  lemma {:induction false} MapPermutation<T, U>(f: T -> U, a: seq<T>, b: seq<T>)
    requires multiset(a) == multiset(b)
    ensures multiset(Map(f, a)) == multiset(Map(f, b))
    decreases |a|
  {
    if a == [] {
      assert |b| == |multiset(b)|;
    } else {
      assert a[0] in multiset(b);
      var i :| 0 <= i < |b| && b[i] == a[0];
      var rest := b[..i] + b[i + 1..];
      RestPermutes(a, b, i);
      MapPermutation(f, a[1..], rest);
      MapWithoutAt(f, a, 0, a[1..]);
      MapWithoutAt(f, b, i, rest);
    }
  }

  // ----- flat map -----

  /** Maps every item to a list and concatenates the lists. */
  function FlatMap<T, U>(f: T -> seq<U>, s: seq<T>): seq<U> {
    if s == [] then [] else f(s[0]) + FlatMap(f, s[1..])
  }

  lemma {:induction false} FlatMapSnoc<T, U>(f: T -> seq<U>, s: seq<T>, x: T)
    ensures FlatMap(f, s + [x]) == FlatMap(f, s) + f(x)
  {
    if s == [] {
      assert s + [x] == [x];
      assert FlatMap(f, [x]) == f(x) + FlatMap(f, []);
    } else {
      var all := s + [x];
      assert all[0] == s[0] && all[1..] == s[1..] + [x];
      FlatMapSnoc(f, s[1..], x);
      assert f(s[0]) + (FlatMap(f, s[1..]) + f(x)) == FlatMap(f, s) + f(x);
    }
  }

  lemma {:induction false} FlatMapMember<T, U>(f: T -> seq<U>, s: seq<T>, y: U)
    ensures y in FlatMap(f, s) <==> exists i :: 0 <= i < |s| && y in f(s[i])
  {
    if s == [] {
    } else {
      var rest := s[1..];
      FlatMapMember(f, rest, y);
      if i :| 0 <= i < |rest| && y in f(rest[i]) {
        assert y in f(s[i + 1]);
      }
      if i :| 0 <= i < |s| && y in f(s[i]) {
        assert i > 0 ==> y in f(rest[i - 1]);
      }
    }
  }

  lemma {:induction false} FlatMapConcat<T, U>(f: T -> seq<U>, a: seq<T>, b: seq<T>)
    ensures FlatMap(f, a + b) == FlatMap(f, a) + FlatMap(f, b)
  {
    if a == [] {
      assert a + b == b;
    } else {
      assert (a + b)[1..] == a[1..] + b;
      FlatMapConcat(f, a[1..], b);
    }
  }

  lemma {:induction false} FlatMapNothing<T, U>(f: T -> seq<U>, s: seq<T>)
    requires forall i :: 0 <= i < |s| ==> f(s[i]) == []
    ensures FlatMap(f, s) == []
  {
    if s == [] {
    } else {
      FlatMapNothing(f, s[1..]);
    }
  }

  // ----- filter -----

  function Filter<T>(p: T -> bool, s: seq<T>): (r: seq<T>)
    ensures |r| <= |s|
    ensures forall i :: 0 <= i < |r| ==> p(r[i]) && r[i] in s
    ensures forall i :: 0 <= i < |s| && p(s[i]) ==> s[i] in r
  {
    if s == [] then []
    else if p(s[0]) then [s[0]] + Filter(p, s[1..])
    else Filter(p, s[1..])
  }

  lemma {:induction false} FilterConcat<T>(p: T -> bool, a: seq<T>, b: seq<T>)
    ensures Filter(p, a + b) == Filter(p, a) + Filter(p, b)
  {
    if a == [] {
      assert a + b == b;
    } else {
      assert (a + b)[1..] == a[1..] + b;
      FilterConcat(p, a[1..], b);
    }
  }

  lemma FilterSnoc<T>(p: T -> bool, a: seq<T>, x: T)
    ensures Filter(p, a + [x]) == Filter(p, a) + (if p(x) then [x] else [])
  {
    FilterConcat(p, a, [x]);
  }

  /** Filtering keeps every copy of the items that pass. */
  lemma {:induction false} FilterCounts<T>(p: T -> bool, s: seq<T>, x: T)
    ensures multiset(Filter(p, s))[x] == if p(x) then multiset(s)[x] else 0
  {
    if s == [] {
    } else {
      FilterCounts(p, s[1..], x);
      assert s == [s[0]] + s[1..];
      assert p(s[0]) ==> Filter(p, s) == [s[0]] + Filter(p, s[1..]);
    }
  }

  lemma {:induction false} FilterAll<T>(p: T -> bool, s: seq<T>)
    requires forall i :: 0 <= i < |s| ==> p(s[i])
    ensures Filter(p, s) == s
  {
    if s == [] {
    } else {
      FilterAll(p, s[1..]);
      assert s == [s[0]] + s[1..];
    }
  }

  lemma {:induction false} FilterNone<T>(p: T -> bool, s: seq<T>)
    requires forall i :: 0 <= i < |s| ==> !p(s[i])
    ensures Filter(p, s) == []
  {
    if s == [] {
    } else {
      FilterNone(p, s[1..]);
    }
  }

  /** A filter that drops nothing another one keeps does not show through it. */
  lemma {:induction false} FilterThrough<T>(p: T -> bool, q: T -> bool, s: seq<T>)
    requires forall i :: 0 <= i < |s| && p(s[i]) ==> q(s[i])
    ensures Filter(p, Filter(q, s)) == Filter(p, s)
  {
    if s == [] {
    } else {
      FilterThrough(p, q, s[1..]);
      if q(s[0]) {
        assert Filter(q, s)[1..] == Filter(q, s[1..]);
      }
    }
  }

  /** A list splits into what passes a filter and what does not. */
  lemma {:induction false} FilterSplit<T>(p: T -> bool, q: T -> bool, s: seq<T>)
    requires forall i :: 0 <= i < |s| ==> p(s[i]) != q(s[i])
    ensures multiset(s) == multiset(Filter(p, s)) + multiset(Filter(q, s))
  {
    if s == [] {
    } else {
      FilterSplit(p, q, s[1..]);
      assert s == [s[0]] + s[1..];
    }
  }

  // ----- chunks -----

  /** Rust's `slice::chunks(n)`: consecutive pieces of length `n`, the last one possibly shorter. */
  function Chunks<T>(s: seq<T>, n: nat): seq<seq<T>>
    requires n > 0
  {
    if s == [] then []
    else if |s| <= n then [s]
    else [s[..n]] + Chunks(s[n..], n)
  }

  lemma {:induction false} ChunksFlatten<T>(s: seq<T>, n: nat)
    requires n > 0
    ensures Flatten(Chunks(s, n)) == s
    decreases |s|
  {
    if s == [] {
    } else if |s| <= n {
      FlattenCons(s, []);
    } else {
      ChunksFlatten(s[n..], n);
      FlattenCons(s[..n], Chunks(s[n..], n));
    }
  }

  lemma {:induction false} ChunkBounds<T>(s: seq<T>, n: nat, i: nat)
    requires n > 0 && i < |Chunks(s, n)|
    ensures 1 <= |Chunks(s, n)[i]| <= n
    decreases |s|
  {
    if |s| > n && i > 0 {
      ChunkBounds(s[n..], n, i - 1);
    }
  }

  /** The chunks of a list concatenate to the list, none is empty and none exceeds the size. */
  lemma {:induction false} ChunksPartition<T>(s: seq<T>, n: nat)
    requires n > 0
    ensures Flatten(Chunks(s, n)) == s
    ensures forall i :: 0 <= i < |Chunks(s, n)| ==> 1 <= |Chunks(s, n)[i]| <= n
  {
    ChunksFlatten(s, n);
    forall i | 0 <= i < |Chunks(s, n)| ensures 1 <= |Chunks(s, n)[i]| <= n { ChunkBounds(s, n, i); }
  }

  /** Every chunk but the last is full. */
  lemma {:induction false} ChunksFull<T>(s: seq<T>, n: nat, i: nat)
    requires n > 0 && i < |Chunks(s, n)| - 1
    ensures |Chunks(s, n)[i]| == n
    decreases |s|
  {
    if i > 0 {
      ChunksFull(s[n..], n, i - 1);
    }
  }

  /** Chunking commutes with mapping, so parallel lists stay aligned chunk by chunk. */
  lemma {:induction false} ChunksMap<T, U>(f: T -> U, s: seq<T>, n: nat)
    requires n > 0
    ensures Chunks(Map(f, s), n) == Map(c => Map(f, c), Chunks(s, n))
    decreases |s|
  {
    var g := c => Map(f, c);
    if |s| > n {
      assert Map(f, s)[..n] == Map(f, s[..n]);
      assert Map(f, s)[n..] == Map(f, s[n..]);
      ChunksMap(f, s[n..], n);
      assert Chunks(s, n) == [s[..n]] + Chunks(s[n..], n);
      MapConcat(g, [s[..n]], Chunks(s[n..], n));
      assert Map(g, [s[..n]]) == [Map(f, s[..n])];
    }
  }

  lemma ChunksMapAt<T, U>(f: T -> U, s: seq<T>, n: nat)
    requires n > 0
    ensures |Chunks(Map(f, s), n)| == |Chunks(s, n)|
    ensures forall i :: 0 <= i < |Chunks(s, n)| ==> Chunks(Map(f, s), n)[i] == Map(f, Chunks(s, n)[i])
  {
    ChunksMap(f, s, n);
  }

  lemma {:induction false} FlatMapLength<T, U>(f: T -> seq<U>, s: seq<T>)
    requires forall i :: 0 <= i < |s| ==> |f(s[i])| == 1
    ensures |FlatMap(f, s)| == |s|
  {
    if s == [] {
    } else {
      FlatMapLength(f, s[1..]);
    }
  }

  /** The same for a map to lists of one item each. */
  lemma {:induction false} ChunksFlatMap<T, U>(f: T -> seq<U>, s: seq<T>, n: nat)
    requires n > 0 && forall i :: 0 <= i < |s| ==> |f(s[i])| == 1
    ensures Chunks(FlatMap(f, s), n) == Map(c => FlatMap(f, c), Chunks(s, n))
    decreases |s|
  {
    var g := c => FlatMap(f, c);
    FlatMapLength(f, s);
    if |s| <= n {
      assert s != [] ==> Map(g, [s]) == [g(s)];
    } else {
      var head, rest := s[..n], s[n..];
      FlatMapLength(f, head);
      assert s == head + rest;
      FlatMapConcat(f, head, rest);
      assert FlatMap(f, s)[..n] == FlatMap(f, head) && FlatMap(f, s)[n..] == FlatMap(f, rest);
      ChunksFlatMap(f, rest, n);
      MapConcat(g, [head], Chunks(rest, n));
      assert Map(g, [head]) == [FlatMap(f, head)];
    }
  }

  // ----- fold -----

  function Fold<S, A>(step: (S, A) -> S, s: S, actions: seq<A>): S {
    if actions == [] then s else step(Fold(step, s, actions[..|actions| - 1]), actions[|actions| - 1])
  }

  lemma {:induction false} FoldConcat<S, A>(step: (S, A) -> S, s: S, a: seq<A>, b: seq<A>)
    ensures Fold(step, s, a + b) == Fold(step, Fold(step, s, a), b)
    decreases |b|
  {
    if b == [] {
      assert a + b == a;
    } else {
      var before := b[..|b| - 1];
      FoldConcat(step, s, a, before);
      assert (a + b)[..|a + b| - 1] == a + before;
    }
  }

  lemma FoldTwo<S, A>(step: (S, A) -> S, s: S, actions: seq<A>, a: A, b: A)
    ensures Fold(step, s, actions + [a, b]) == step(step(Fold(step, s, actions), a), b)
  {
    var all := actions + [a, b];
    assert all[..|all| - 1] == actions + [a] && (actions + [a])[..|actions|] == actions;
  }

  function Iterate<S>(f: S -> S, s: S, n: nat): S
    decreases n
  {
    if n == 0 then s else Iterate(f, f(s), n - 1)
  }

  lemma {:induction false} IterateSplit<S>(f: S -> S, s: S, m: nat, n: nat)
    ensures Iterate(f, s, m + n) == Iterate(f, Iterate(f, s, m), n)
    decreases m
  {
    if m == 0 {
    } else {
      IterateSplit(f, f(s), m - 1, n);
    }
  }

  /** Doing the same over and over is folding over equal steps. */
  lemma {:induction false} IterateIsFold<S(!new), A>(step: (S, A) -> S, f: S -> S, s: S, a: A, n: nat)
    requires forall x :: f(x) == step(x, a)
    ensures Iterate(f, s, n) == Fold(step, s, seq(n, _ => a))
  {
    if n == 0 {
    } else {
      IterateIsFold(step, f, s, a, n - 1);
      IterateSplit(f, s, n - 1, 1);
      var u := Iterate(f, s, n - 1);
      assert Iterate(f, u, 1) == Iterate(f, f(u), 0) == f(u);
      assert seq(n, _ => a)[..n - 1] == seq(n - 1, _ => a);
    }
  }

  // ----- prefixes -----

  /** All prefixes of a list have a property iff those of all but its last item do and the list itself. */
  lemma PrefixSplit<T>(p: seq<T> -> bool, s: seq<T>, before: seq<T>)
    requires s != [] && before == s[..|s| - 1]
    ensures (forall n :: 0 <= n <= |s| ==> p(s[..n])) <==> (forall n :: 0 <= n <= |before| ==> p(before[..n])) && p(s)
  {
    assert s[..|s|] == s;
    forall n | 0 <= n <= |before| ensures before[..n] == s[..n] {}
    if (forall n :: 0 <= n <= |before| ==> p(before[..n])) && p(s) {
      forall n | 0 <= n <= |s| ensures p(s[..n]) {
        if n < |s| { assert p(before[..n]); }
      }
    }
    if forall n :: 0 <= n <= |s| ==> p(s[..n]) {
      assert p(s[..|s|]);
      forall n | 0 <= n <= |before| ensures p(before[..n]) { assert p(s[..n]); }
    }
  }
}
