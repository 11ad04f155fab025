/** Generic sequence operations the source expresses with Array.prototype
    filter, slice and `[...new Set(xs)]`, with the facts the rest of the model
    needs about them. Everything recurses on the last element so that loops
    over a growing prefix can be tied to these definitions directly. */
module Seqs {

  /** `a` is obtained from `b` by deleting elements (relative order kept). */
  ghost predicate Subseq<T>(a: seq<T>, b: seq<T>)
    decreases |b|
  {
    if b == [] then a == []
    else
      (a != [] && a[|a| - 1] == b[|b| - 1] && Subseq(a[..|a| - 1], b[..|b| - 1]))
      || Subseq(a, b[..|b| - 1])
  }

  /** `c` is an interleaving of `a` and `b`: it can be split into the two
      sequences, each keeping its own order. */
  ghost predicate Interleaving<T>(a: seq<T>, b: seq<T>, c: seq<T>)
    decreases |c|
  {
    if c == [] then a == [] && b == []
    else
      (|a| > 0 && a[|a| - 1] == c[|c| - 1] && Interleaving(a[..|a| - 1], b, c[..|c| - 1]))
      || (|b| > 0 && b[|b| - 1] == c[|c| - 1] && Interleaving(a, b[..|b| - 1], c[..|c| - 1]))
  }

  /** No element occurs twice. */
  ghost predicate Distinct<T>(s: seq<T>)
  {
    forall i, j :: 0 <= i < j < |s| ==> s[i] != s[j]
  }

  /** Array.prototype.filter. */
  function Filter<T>(s: seq<T>, p: T -> bool): (r: seq<T>)
    ensures |r| <= |s|
    ensures forall i :: 0 <= i < |r| ==> r[i] in s && p(r[i])
    ensures forall i :: 0 <= i < |s| && p(s[i]) ==> s[i] in r
    decreases |s|
  {
    if s == [] then []
    else Filter(s[..|s| - 1], p) + (if p(s[|s| - 1]) then [s[|s| - 1]] else [])
  }

  lemma FilterAppend<T>(s: seq<T>, x: T, p: T -> bool)
    ensures Filter(s + [x], p) == Filter(s, p) + (if p(x) then [x] else [])
  {
    assert (s + [x])[..|s|] == s;
  }

  lemma SubseqSnoc<T>(a: seq<T>, b: seq<T>, x: T)
    requires Subseq(a, b)
    ensures Subseq(a, b + [x])
  {
    assert (b + [x])[..|b|] == b;
  }

  /** Extending `b` by `x` lets a subsequence keep or take `x`. */
  lemma SubseqSnocOption<T>(a: seq<T>, b: seq<T>, x: T, m: bool)
    requires Subseq(a, b)
    ensures Subseq(a + (if m then [x] else []), b + [x])
  {
    assert (b + [x])[..|b|] == b;
    if m {
      assert (a + [x])[..|a|] == a;
    } else {
      assert a + [] == a;
    }
  }

  lemma {:induction false} SubseqRefl<T>(a: seq<T>)
    ensures Subseq(a, a)
    decreases |a|
  {
    if a != [] {
      SubseqRefl(a[..|a| - 1]);
    }
  }

  /** Filtering keeps the surviving elements in their original order. */
  lemma {:induction false} FilterIsSubseq<T>(s: seq<T>, p: T -> bool)
    ensures Subseq(Filter(s, p), s)
    decreases |s|
  {
    if s != [] {
      var init, x := s[..|s| - 1], s[|s| - 1];
      FilterIsSubseq(init, p);
      var r := Filter(s, p);
      if p(x) {
        assert r[..|r| - 1] == Filter(init, p);
        assert r[|r| - 1] == s[|s| - 1];
      } else {
        assert r == Filter(init, p);
      }
    }
  }

  /** Every element of a subsequence occurs in the sequence. */
  lemma {:induction false} SubseqMembers<T>(a: seq<T>, b: seq<T>)
    requires Subseq(a, b)
    ensures forall i :: 0 <= i < |a| ==> a[i] in b
    decreases |b|
  {
    if b != [] {
      var b' := b[..|b| - 1];
      assert b == b' + [b[|b| - 1]];
      if a != [] && a[|a| - 1] == b[|b| - 1] && Subseq(a[..|a| - 1], b') {
        SubseqMembers(a[..|a| - 1], b');
        forall i | 0 <= i < |a| ensures a[i] in b {
          if i < |a| - 1 {
            assert a[i] == a[..|a| - 1][i];
          }
        }
      } else {
        SubseqMembers(a, b');
      }
    }
  }

  /** A subsequence of a subsequence is a subsequence. */
  lemma {:induction false} SubseqTrans<T>(a: seq<T>, b: seq<T>, c: seq<T>)
    requires Subseq(a, b) && Subseq(b, c)
    ensures Subseq(a, c)
    decreases |c|
  {
    if c != [] {
      var c' := c[..|c| - 1];
      if b != [] && b[|b| - 1] == c[|c| - 1] && Subseq(b[..|b| - 1], c') {
        var b' := b[..|b| - 1];
        if a != [] && a[|a| - 1] == b[|b| - 1] && Subseq(a[..|a| - 1], b') {
          SubseqTrans(a[..|a| - 1], b', c');
        } else {
          SubseqTrans(a, b', c');
        }
      } else {
        SubseqTrans(a, b, c');
      }
    }
  }

  /** Splitting a sequence by a predicate yields an interleaving of it: the
      elements that pass and the elements that fail, each in input order. */
  lemma {:induction false} FilterPartition<T>(s: seq<T>, p: T -> bool, q: T -> bool)
    requires forall x :: q(x) == !p(x)
    ensures Interleaving(Filter(s, p), Filter(s, q), s)
    decreases |s|
  {
    if s != [] {
      var init, x := s[..|s| - 1], s[|s| - 1];
      FilterPartition(init, p, q);
      var a, b := Filter(s, p), Filter(s, q);
      if p(x) {
        assert !q(x);
        assert b == Filter(init, q);
        assert a[..|a| - 1] == Filter(init, p);
        assert Interleaving(a[..|a| - 1], b, s[..|s| - 1]);
      } else {
        assert q(x);
        assert a == Filter(init, p);
        assert b[..|b| - 1] == Filter(init, q);
        assert Interleaving(a, b[..|b| - 1], s[..|s| - 1]);
      }
    }
  }

  /** Any interleaving accounts for every element exactly once. */
  lemma {:induction false} InterleavingLength<T>(a: seq<T>, b: seq<T>, c: seq<T>)
    requires Interleaving(a, b, c)
    ensures |a| + |b| == |c|
    decreases |c|
  {
    if c != [] {
      if |a| > 0 && a[|a| - 1] == c[|c| - 1] && Interleaving(a[..|a| - 1], b, c[..|c| - 1]) {
        InterleavingLength(a[..|a| - 1], b, c[..|c| - 1]);
      } else {
        InterleavingLength(a, b[..|b| - 1], c[..|c| - 1]);
      }
    }
  }

  /** Array.prototype.slice(0, n). */
  function Take<T>(s: seq<T>, n: nat): (r: seq<T>)
    ensures |r| == if |s| < n then |s| else n
    ensures r <= s
  {
    if |s| <= n then s else s[..n]
  }

  /** Index of the first occurrence of `x` in `s`. */
  function IndexOf<T(==)>(s: seq<T>, x: T): (k: nat)
    requires x in s
    ensures k < |s| && s[k] == x && x !in s[..k]
  {
    if s[0] == x then 0 else 1 + IndexOf(s[1..], x)
  }

  lemma {:induction false} IndexOfPrefix<T>(s: seq<T>, x: T, n: nat)
    requires n <= |s| && x in s[..n]
    ensures IndexOf(s, x) == IndexOf(s[..n], x)
    decreases n
  {
    if s[0] != x {
      assert s[..n][1..] == s[1..][..n - 1];
      IndexOfPrefix(s[1..], x, n - 1);
    }
  }

  /** `[...new Set(s)]`: each element once, at the place of its first occurrence. */
  function Dedupe<T(==,!new)>(s: seq<T>): (r: seq<T>)
    ensures forall x :: x in r <==> x in s
    ensures |r| <= |s|
    decreases |s|
  {
    if s == [] then []
    else
      var d := Dedupe(s[..|s| - 1]);
      if s[|s| - 1] in s[..|s| - 1] then d else d + [s[|s| - 1]]
  }

  /** Dedupe keeps one copy of each element. */
  lemma {:induction false} DedupeDistinct<T(!new)>(s: seq<T>)
    ensures Distinct(Dedupe(s))
    decreases |s|
  {
    if s != [] {
      DedupeDistinct(s[..|s| - 1]);
    }
  }

  /** Dedupe never invents or reorders anything. */
  lemma {:induction false} DedupeIsSubseq<T(!new)>(s: seq<T>)
    ensures Subseq(Dedupe(s), s)
    decreases |s|
  {
    if s != [] {
      var init, x := s[..|s| - 1], s[|s| - 1];
      DedupeIsSubseq(init);
      var r := Dedupe(s);
      if x in init {
        assert r == Dedupe(init);
      } else {
        assert r[..|r| - 1] == Dedupe(init);
      }
    }
  }

  /** An element that Dedupe appends after those of the prefix is the last
      one, new to the prefix. */
  lemma DedupeLastNew<T(!new)>(s: seq<T>, j: nat)
    requires s != [] && |Dedupe(s[..|s| - 1])| <= j < |Dedupe(s)|
    ensures Dedupe(s)[j] == s[|s| - 1] && IndexOf(s, s[|s| - 1]) == |s| - 1
  {
    var init := s[..|s| - 1];
    assert s[..|s| - 1] == init;
    assert s[|s| - 1] !in init;
    assert s[..|s| - 1] == init;
  }

  /** `Dedupe(s)` lists its elements in the order of their first occurrence in `s`. */
  ghost predicate FirstOccurrenceOrdered<T(!new)>(s: seq<T>) {
    forall i, j :: 0 <= i < j < |Dedupe(s)| ==> IndexOf(s, Dedupe(s)[i]) < IndexOf(s, Dedupe(s)[j])
  }

  /** One step of the order: two elements of `Dedupe(s)` keep the order of
      their first occurrences when those of `Dedupe` of the prefix do. */
  lemma DedupeOrderPair<T(!new)>(s: seq<T>, i: nat, j: nat)
    requires s != [] && i < j < |Dedupe(s)|
    requires FirstOccurrenceOrdered(s[..|s| - 1])
    ensures IndexOf(s, Dedupe(s)[i]) < IndexOf(s, Dedupe(s)[j])
  {
    var init := s[..|s| - 1];
    var d, r := Dedupe(init), Dedupe(s);
    assert r[i] == d[i] && d[i] in init;
    IndexOfPrefix(s, r[i], |s| - 1);
    if j < |d| {
      assert r[j] == d[j] && d[j] in init;
      IndexOfPrefix(s, r[j], |s| - 1);
    } else {
      DedupeLastNew(s, j);
    }
  }

  /** Dedupe lists the elements in the order of their first occurrence. */
  lemma {:induction false} DedupeFirstOccurrenceOrder<T(!new)>(s: seq<T>)
    ensures forall i, j :: 0 <= i < j < |Dedupe(s)| ==>
              IndexOf(s, Dedupe(s)[i]) < IndexOf(s, Dedupe(s)[j])
    decreases |s|
  {
    if s != [] {
      DedupeFirstOccurrenceOrder(s[..|s| - 1]);
      forall i, j | 0 <= i < j < |Dedupe(s)| ensures IndexOf(s, Dedupe(s)[i]) < IndexOf(s, Dedupe(s)[j]) {
        DedupeOrderPair(s, i, j);
      }
    }
  }

  /** Filtering a sequence without duplicates leaves one without duplicates. */
  lemma {:induction false} FilterDistinct<T>(s: seq<T>, p: T -> bool)
    requires Distinct(s)
    ensures Distinct(Filter(s, p))
    decreases |s|
  {
    if s != [] {
      var init := s[..|s| - 1];
      FilterDistinct(init, p);
    }
  }

  lemma TakeDistinct<T>(s: seq<T>, n: nat)
    requires Distinct(s)
    ensures Distinct(Take(s, n))
  {
  }

  /** A prefix is a subsequence. */
  lemma {:induction false} PrefixIsSubseq<T>(a: seq<T>, b: seq<T>)
    requires a <= b
    ensures Subseq(a, b)
    decreases |b|
  {
    if |a| == |b| {
      assert a == b;
      SubseqRefl(a);
    } else {
      PrefixIsSubseq(a, b[..|b| - 1]);
    }
  }

  /** Every element of `a` occurs in `s`, and `a` lists them in the order of
      their first occurrence in `s`. */
  ghost predicate InFirstOccurrenceOrder<T>(a: seq<T>, s: seq<T>)
  {
    (forall i :: 0 <= i < |a| ==> a[i] in s)
    && forall i, j :: 0 <= i < j < |a| ==> IndexOf(s, a[i]) < IndexOf(s, a[j])
  }

  /** A subsequence keeps the order of the sequence it is taken from. */
  lemma {:induction false} SubseqKeepsOrder<T>(a: seq<T>, b: seq<T>, s: seq<T>)
    requires Subseq(a, b) && InFirstOccurrenceOrder(b, s)
    ensures InFirstOccurrenceOrder(a, s)
    decreases |b|
  {
    SubseqMembers(a, b);
    if b != [] {
      var b' := b[..|b| - 1];
      assert InFirstOccurrenceOrder(b', s) by {
        forall i | 0 <= i < |b'| ensures b'[i] == b[i] { }
      }
      if a != [] && a[|a| - 1] == b[|b| - 1] && Subseq(a[..|a| - 1], b') {
        var a' := a[..|a| - 1];
        SubseqKeepsOrder(a', b', s);
        SubseqMembers(a', b');
        forall i, j | 0 <= i < j < |a| ensures IndexOf(s, a[i]) < IndexOf(s, a[j]) {
          assert a[i] == a'[i];
          if j < |a| - 1 {
            assert a[j] == a'[j];
          } else {
            var k :| 0 <= k < |b'| && b'[k] == a'[i];
            assert b[k] == a[i] && b[|b| - 1] == a[j];
          }
        }
      } else {
        SubseqKeepsOrder(a, b', s);
      }
    }
  }

  /** Taking the first `n` distinct elements that satisfy `p`: one that
      satisfies `p` is left out only when `n` were taken, all of which occur
      in `s` before it. */
  lemma KeptBeforeDropped<T(!new)>(s: seq<T>, p: T -> bool, n: nat, w: T)
    requires w in s && p(w)
    ensures var r := Take(Filter(Dedupe(s), p), n);
      && (w in r || |r| == n)
      && (w !in r ==> forall i :: 0 <= i < |r| ==> r[i] in s && IndexOf(s, r[i]) < IndexOf(s, w))
  {
    var u := Dedupe(s);
    var f := Filter(u, p);
    var r := Take(f, n);
    assert w in u;
    var j :| 0 <= j < |u| && u[j] == w;
    assert w in f;
    if w !in r {
      assert |f| > n && r == f[..n];
      forall i | 0 <= i < n ensures f[i] != w {
        assert f[i] == r[i];
      }
      var m :| 0 <= m < |f| && f[m] == w;
      DedupeInOrder(s);
      FilterIsSubseq(u, p);
      SubseqKeepsOrder(f, u, s);
      forall i | 0 <= i < |r| ensures r[i] in s && IndexOf(s, r[i]) < IndexOf(s, w) {
        assert r[i] == f[i];
      }
    }
  }

  /** Dedupe lists the elements of `s` in the order of their first occurrence. */
  lemma DedupeInOrder<T(!new)>(s: seq<T>)
    ensures InFirstOccurrenceOrder(Dedupe(s), s)
  {
    DedupeFirstOccurrenceOrder(s);
  }

  /** Filtering keeps everything exactly when everything passes. */
  lemma {:induction false} FilterKeepsAll<T>(s: seq<T>, p: T -> bool)
    ensures |Filter(s, p)| == |s| <==> forall i :: 0 <= i < |s| ==> p(s[i])
    decreases |s|
  {
    if s != [] {
      var init := s[..|s| - 1];
      FilterKeepsAll(init, p);
      assert forall i :: 0 <= i < |init| ==> init[i] == s[i];
    }
  }

  /** Filtering keeps nothing exactly when nothing passes. */
  lemma {:induction false} FilterKeepsNone<T>(s: seq<T>, p: T -> bool)
    ensures Filter(s, p) == [] <==> forall i :: 0 <= i < |s| ==> !p(s[i])
    decreases |s|
  {
    if s != [] {
      var init := s[..|s| - 1];
      FilterKeepsNone(init, p);
      assert forall i :: 0 <= i < |init| ==> init[i] == s[i];
    }
  }

  /** All elements pass: filtering keeps everything. */
  lemma {:induction false} FilterAllPass<T>(s: seq<T>, p: T -> bool)
    requires forall i :: 0 <= i < |s| ==> p(s[i])
    ensures Filter(s, p) == s
    decreases |s|
  {
    if s != [] {
      var init, x := s[..|s| - 1], s[|s| - 1];
      forall i | 0 <= i < |init| ensures p(init[i]) {
        assert init[i] == s[i];
      }
      FilterAllPass(init, p);
      assert Filter(s, p) == init + [x];
      assert init + [x] == s;
    }
  }

  /** `s.filter((_, j) => j !== i)`: the element at `i` is dropped and the
      rest close up; an index past the end drops nothing. */
  function RemoveAt<T>(s: seq<T>, i: nat): (r: seq<T>)
    ensures i >= |s| ==> r == s
    ensures i < |s| ==> |r| == |s| - 1
    ensures forall j :: 0 <= j < |r| ==> r[j] == if j < i then s[j] else s[j + 1]
  {
    if i < |s| then s[..i] + s[i + 1..] else s
  }

  /** `copy[index] = value` on a copy of the array: an existing element is
      replaced, the index just past the end appends `value`, and an index
      further out (which would leave a hole) keeps the sequence as it was. */
  function SetAt<T>(a: seq<T>, index: nat, value: T): (r: seq<T>)
    ensures |r| == if index == |a| then |a| + 1 else |a|
    ensures index <= |a| ==> r[index] == value
    ensures forall j :: 0 <= j < |a| && j != index ==> r[j] == a[j]
  {
    if index < |a| then a[index := value] else if index == |a| then a + [value] else a
  }

  /** `s.map(f)`. */
  function Map<T, U>(s: seq<T>, f: T -> U): (r: seq<U>)
    ensures |r| == |s| && forall i :: 0 <= i < |s| ==> r[i] == f(s[i])
  {
    seq(|s|, i requires 0 <= i < |s| => f(s[i]))
  }

  /** `s.map(x => p(x) ? g(x) : x)`: the elements that satisfy `p` become
      their image under `g`; the others, and the order, stay. */
  function UpdateWhere<T>(s: seq<T>, p: T -> bool, g: T -> T): (r: seq<T>)
    ensures |r| == |s|
    ensures forall i :: 0 <= i < |s| && !p(s[i]) ==> r[i] == s[i]
    ensures forall i :: 0 <= i < |s| && p(s[i]) ==> r[i] == g(s[i])
  {
    seq(|s|, i requires 0 <= i < |s| => if p(s[i]) then g(s[i]) else s[i])
  }

}
