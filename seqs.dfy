/** Sequence helpers: distinctness, order-preserving filtering, mapping and flattening. */
module Seqs {
  import opened Errors

  predicate Distinct<T(==)>(s: seq<T>) {
    forall i, j :: 0 <= i < j < |s| ==> s[i] != s[j]
  }

  /** `r` is `s` with some elements left out, the rest in their original order. */
  predicate Subsequence<T(==)>(r: seq<T>, s: seq<T>)
    decreases |s|
  {
    r == [] || (s != [] && (if r[0] == s[0] then Subsequence(r[1..], s[1..]) else Subsequence(r, s[1..])))
  }

  /** Every sequence is a subsequence of itself. */
  lemma {:induction false} SubsequenceRefl<T>(s: seq<T>)
    ensures Subsequence(s, s)
  {
    if s != [] { SubsequenceRefl(s[1..]); }
  }

  /** A subsequence of the tail is a subsequence of the whole. */
  lemma {:induction false} SubsequenceWeaken<T>(x: seq<T>, c: seq<T>)
    requires c != [] && Subsequence(x, c[1..])
    ensures Subsequence(x, c)
    decreases |c|, 0
  {
    if x != [] && x[0] == c[0] { SubsequenceDropHead(x, c[1..]); }
  }

  /** Dropping the first element keeps a subsequence a subsequence. */
  lemma {:induction false} SubsequenceDropHead<T>(x: seq<T>, d: seq<T>)
    requires x != [] && Subsequence(x, d)
    ensures Subsequence(x[1..], d)
    decreases |d|, 1
  {
    if x[0] == d[0] {
      SubsequenceWeaken(x[1..], d);
    } else {
      SubsequenceDropHead(x, d[1..]);
      SubsequenceWeaken(x[1..], d);
    }
  }

  lemma {:induction false} SubsequenceTransitive<T>(a: seq<T>, b: seq<T>, c: seq<T>)
    requires Subsequence(a, b) && Subsequence(b, c)
    ensures Subsequence(a, c)
    decreases |c|
  {
    if a != [] {
      if b[0] == c[0] {
        if a[0] == b[0] {
          SubsequenceTransitive(a[1..], b[1..], c[1..]);
        } else {
          SubsequenceTransitive(a, b[1..], c[1..]);
          SubsequenceWeaken(a, c);
        }
      } else {
        SubsequenceTransitive(a, b, c[1..]);
        SubsequenceWeaken(a, c);
      }
    }
  }

  /** The elements of a subsequence are elements of the whole. */
  lemma {:induction false} SubsequenceMembers<T>(a: seq<T>, b: seq<T>)
    requires Subsequence(a, b)
    ensures forall x :: x in a ==> x in b
    decreases |b|
  {
    if a != [] {
      assert forall x :: x in b[1..] ==> x in b;
      if a[0] == b[0] {
        SubsequenceMembers(a[1..], b[1..]);
        assert forall x :: x in a ==> x == a[0] || x in a[1..];
      } else {
        SubsequenceMembers(a, b[1..]);
      }
    }
  }

  /** The elements of `s` that satisfy `p`, in order (a Python list comprehension with a condition). */
  function Filter<T(==,!new)>(s: seq<T>, p: T -> bool): (r: seq<T>)
    ensures |r| <= |s|
    ensures forall x :: x in r <==> x in s && p(x)
    ensures forall i :: 0 <= i < |r| ==> p(r[i])
    ensures Subsequence(r, s)
  {
    if s == [] then []
    else if p(s[0]) then [s[0]] + Filter(s[1..], p)
    else Filter(s[1..], p)
  }

  /** A prefix of one part, after what came before, is a prefix of the whole. */
  lemma PrefixOfJoin<T>(a: seq<T>, b: seq<T>, c: seq<T>, d: seq<T>)
    requires b <= c
    ensures a + b <= a + c + d
  {
    assert (a + c + d)[..|a + b|] == a + c[..|b|];
  }

  /** An element at the end that satisfies the condition stays the last element. */
  lemma {:induction false} FilterLast<T(!new)>(s: seq<T>, p: T -> bool)
    requires s != [] && p(s[|s| - 1])
    ensures Filter(s, p) != [] && Filter(s, p)[|Filter(s, p)| - 1] == s[|s| - 1]
    decreases |s|
  {
    if |s| > 1 {
      FilterLast(s[1..], p);
      assert s[1..][|s| - 2] == s[|s| - 1];
    }
  }

  /** The first element kept is the first element of `s` that satisfies the condition. */
  lemma {:induction false} FilterFirst<T(!new)>(s: seq<T>, p: T -> bool)
    requires Filter(s, p) != []
    ensures exists i :: 0 <= i < |s| && p(s[i]) && s[i] == Filter(s, p)[0] && forall j :: 0 <= j < i ==> !p(s[j])
  {
    if !p(s[0]) {
      FilterFirst(s[1..], p);
      var i :| 0 <= i < |s[1..]| && p(s[1..][i]) && s[1..][i] == Filter(s[1..], p)[0]
               && forall j :: 0 <= j < i ==> !p(s[1..][j]);
      assert forall j :: 0 <= j < i + 1 ==> !p(s[j]) by {
        forall j | 0 <= j < i + 1 ensures !p(s[j]) {
          if j > 0 { assert s[j] == s[1..][j - 1]; }
        }
      }
      assert p(s[i + 1]) && s[i + 1] == Filter(s, p)[0];
    } else {
      assert p(s[0]) && s[0] == Filter(s, p)[0];
    }
  }

  lemma {:induction false} FilterDistinct<T(!new)>(s: seq<T>, p: T -> bool)
    requires Distinct(s)
    ensures Distinct(Filter(s, p))
  {
    if s != [] {
      FilterDistinct(s[1..], p);
      assert s[0] !in s[1..];
    }
  }

  /** Filtering by a condition that every element meets changes nothing. */
  lemma {:induction false} FilterAll<T(!new)>(s: seq<T>, p: T -> bool)
    requires forall x :: x in s ==> p(x)
    ensures Filter(s, p) == s
  {
    if s != [] {
      assert forall x :: x in s[1..] ==> x in s;
      FilterAll(s[1..], p);
    }
  }

  /** Filtering twice by the same condition is filtering once. */
  lemma FilterIdempotent<T(!new)>(s: seq<T>, p: T -> bool)
    ensures Filter(Filter(s, p), p) == Filter(s, p)
  {
    FilterAll(Filter(s, p), p);
  }

  function Map<T, R>(s: seq<T>, f: T -> R): (r: seq<R>)
    ensures |r| == |s|
    ensures forall i :: 0 <= i < |s| ==> r[i] == f(s[i])
  {
    seq(|s|, i requires 0 <= i < |s| => f(s[i]))
  }

  /** Concatenation of a list of lists (`pd.concat(results, axis=0)` order). */
  function Flatten<T>(ss: seq<seq<T>>): seq<T> {
    if ss == [] then [] else ss[0] + Flatten(ss[1..])
  }

  lemma {:induction false} FlattenAppend<T>(ss: seq<seq<T>>, t: seq<T>)
    ensures Flatten(ss + [t]) == Flatten(ss) + t
  {
    if ss == [] {
      assert [] + [t] == [t];
    } else {
      assert (ss + [t])[1..] == ss[1..] + [t];
      FlattenAppend(ss[1..], t);
    }
  }

  lemma {:induction false} FlattenConcat<T>(a: seq<seq<T>>, b: seq<seq<T>>)
    ensures Flatten(a + b) == Flatten(a) + Flatten(b)
  {
    if a == [] {
      assert a + b == b;
    } else {
      assert (a + b)[1..] == a[1..] + b;
      FlattenConcat(a[1..], b);
    }
  }

  /** `f` lifted to sequences: `lambda c: [f(x) for x in c]`. */
  function MapWith<T, R>(f: T -> R): seq<T> -> seq<R> {
    (c: seq<T>) => Map(c, f)
  }

  lemma MapAppend<T, R>(s: seq<T>, x: T, f: T -> R)
    ensures Map(s + [x], f) == Map(s, f) + [f(x)]
  {
  }

  /** Mapping chunk by chunk and concatenating is mapping the concatenation. */
  lemma {:induction false} FlattenMap<T, R>(ss: seq<seq<T>>, f: T -> R)
    ensures Flatten(Map(ss, MapWith(f))) == Map(Flatten(ss), f)
  {
    if ss != [] {
      assert Map(ss, MapWith(f)) == [Map(ss[0], f)] + Map(ss[1..], MapWith(f));
      FlattenMap(ss[1..], f);
    }
  }

  /** The first element of `s` that is not in `t`, if any. */
  function FirstNotIn<T(==,!new)>(s: seq<T>, t: seq<T>): (r: Option<T>)
    ensures r.None? <==> forall x :: x in s ==> x in t
    ensures r.Some? ==> r.value in s && r.value !in t
  {
    if s == [] then None
    else if s[0] !in t then Some(s[0])
    else FirstNotIn(s[1..], t)
  }

  /** The map sending each of the distinct `keys` to the value at the same position. */
  function ZipMap<K(==,!new), V>(keys: seq<K>, vals: seq<V>): (m: map<K, V>)
    requires Distinct(keys) && |vals| == |keys|
    ensures forall k :: k in m <==> k in keys
    ensures forall i :: 0 <= i < |keys| ==> keys[i] in m && m[keys[i]] == vals[i]
  {
    map i | 0 <= i < |keys| :: keys[i] := vals[i]
  }

  /** The distinct elements of `s` in order of first occurrence (`pd.unique`). */
  function Dedup<T(==,!new)>(s: seq<T>): (r: seq<T>)
    ensures Distinct(r) && |r| <= |s|
    ensures forall x :: x in r <==> x in s
  {
    if s == [] then []
    else
      var r := Dedup(s[..|s| - 1]);
      assert forall x :: x in s <==> x in s[..|s| - 1] || x == s[|s| - 1];
      if s[|s| - 1] in r then r else r + [s[|s| - 1]]
  }

  /** Deduplicating the images of a map that is injective on `s` is mapping the deduplicated `s`. */
  lemma {:induction false} DedupMapInjective<T(!new), R(!new)>(s: seq<T>, f: T -> R)
    requires forall x, y :: x in s && y in s && f(x) == f(y) ==> x == y
    ensures Dedup(Map(s, f)) == Map(Dedup(s), f)
  {
    if s != [] {
      var init := s[..|s| - 1];
      var x := s[|s| - 1];
      assert forall a :: a in init ==> a in s;
      DedupMapInjective(init, f);
      assert Map(s, f)[..|s| - 1] == Map(init, f);
      assert f(x) in Dedup(Map(init, f)) <==> x in Dedup(init) by {
        if f(x) in Map(Dedup(init), f) {
          var i :| 0 <= i < |Dedup(init)| && Map(Dedup(init), f)[i] == f(x);
          assert Dedup(init)[i] in s;
        }
        if x in Dedup(init) {
          var i :| 0 <= i < |Dedup(init)| && Dedup(init)[i] == x;
          assert Map(Dedup(init), f)[i] == f(x);
        }
      }
      if x !in Dedup(init) {
        MapAppend(Dedup(init), x, f);
      }
    }
  }

  /** The position of `x` in `s`: the first one, and the only one when `s` is distinct. */
  function IndexOf<T(==)>(s: seq<T>, x: T): (i: nat)
    requires x in s
    ensures i < |s| && s[i] == x
    ensures forall j :: 0 <= j < i ==> s[j] != x
  {
    if s[0] == x then 0 else 1 + IndexOf(s[1..], x)
  }

  /** Two distinct sequences with no element in common join into a distinct sequence. */
  lemma DistinctAppend<T>(a: seq<T>, b: seq<T>)
    requires Distinct(a) && Distinct(b) && forall x :: x in b ==> x !in a
    ensures Distinct(a + b)
  {
    forall i, j | 0 <= i < j < |a + b| ensures (a + b)[i] != (a + b)[j] {
      if j >= |a| {
        assert (a + b)[j] == b[j - |a|] && b[j - |a|] in b;
        if i >= |a| { assert (a + b)[i] == b[i - |a|]; } else { assert (a + b)[i] == a[i] && a[i] in a; }
      }
    }
  }

  /** The last position of `x` in `s`. */
  function LastIndexOf<T(==)>(s: seq<T>, x: T): (i: nat)
    requires x in s
    ensures i < |s| && s[i] == x
    ensures forall j :: i < j < |s| ==> s[j] != x
  {
    if s[|s| - 1] == x then |s| - 1 else LastIndexOf(s[..|s| - 1], x)
  }

  /** In a distinct sequence positions and elements determine each other. */
  lemma IndexOfDistinct<T>(s: seq<T>, i: nat)
    requires Distinct(s) && i < |s|
    ensures IndexOf(s, s[i]) == i
  {
  }
  /** An element occurs at most once in a distinct sequence. */
  lemma {:induction false} DistinctCount<T>(s: seq<T>, x: T)
    requires Distinct(s)
    ensures multiset(s)[x] <= 1
  {
    if s != [] {
      assert s == [s[0]] + s[1..];
      assert s[0] !in s[1..];
      DistinctCount(s[1..], x);
    }
  }

  /** Two equal elements at different positions occur at least twice. */
  lemma RepeatCount<T>(s: seq<T>, i: nat, j: nat)
    requires i < j < |s| && s[i] == s[j]
    ensures multiset(s)[s[i]] >= 2
  {
    assert s == s[..j] + [s[j]] + s[j + 1..];
    assert s[i] in s[..j];
  }

  /** A permutation of a distinct sequence is distinct. */
  lemma DistinctPermutation<T>(a: seq<T>, b: seq<T>)
    requires Distinct(a) && multiset(a) == multiset(b)
    ensures Distinct(b)
  {
    forall i, j | 0 <= i < j < |b| ensures b[i] != b[j] {
      if b[i] == b[j] {
        RepeatCount(b, i, j);
        DistinctCount(a, b[i]);
      }
    }
  }

  /** Positions agree in `a` exactly when they agree in `b`. */
  ghost predicate SamePattern<T(!new), U(!new)>(a: seq<T>, b: seq<U>) {
    && |a| == |b|
    && (forall i, j :: 0 <= i < |a| && 0 <= j < |a| ==> (a[i] == a[j] <==> b[i] == b[j]))
  }

  /**
   * Sequences with the same equality pattern (positions agree in one exactly when they agree in
   * the other) have the same number of distinct elements.
   */
  lemma {:induction false} DedupSameShape<T(!new), U(!new)>(a: seq<T>, b: seq<U>)
    requires |a| == |b|
    requires forall i, j :: 0 <= i < |a| && 0 <= j < |a| ==> (a[i] == a[j] <==> b[i] == b[j])
    ensures |Dedup(a)| == |Dedup(b)|
  {
    if a != [] {
      var n := |a| - 1;
      var a', b' := a[..n], b[..n];
      forall i, j | 0 <= i < n && 0 <= j < n ensures a'[i] == a'[j] <==> b'[i] == b'[j] {
        assert a'[i] == a[i] && a'[j] == a[j] && b'[i] == b[i] && b'[j] == b[j];
      }
      DedupSameShape(a', b');
      assert a[n] in a' <==> b[n] in b' by {
        if a[n] in a' {
          var i :| 0 <= i < n && a'[i] == a[n];
          assert b'[i] == b[i];
        }
        if b[n] in b' {
          var i :| 0 <= i < n && b'[i] == b[n];
          assert a'[i] == a[i];
        }
      }
      assert |Dedup(a)| == |Dedup(a')| + (if a[n] in a' then 0 else 1);
      assert |Dedup(b)| == |Dedup(b')| + (if b[n] in b' then 0 else 1);
    }
  }

  /** A distinct sequence drawn from a finite set is no longer than the set is large. */
  lemma {:induction false} DistinctBound<T>(s: seq<T>, values: set<T>)
    requires Distinct(s) && forall i :: 0 <= i < |s| ==> s[i] in values
    ensures |s| <= |values|
  {
    if s != [] {
      assert s[0] !in s[1..];
      assert forall i :: 0 <= i < |s[1..]| ==> s[1..][i] == s[i + 1];
      DistinctBound(s[1..], values - {s[0]});
    }
  }
}
