/** Generic operations on sequences that the reducers and services use:
    `Array.prototype.find`/`findIndex`, update of the first match, `filter`,
    and flattening of a list of strings. */
module Seqs {
  import opened Wrappers

  /** Concatenation of all elements, in order (`parts.join('')`). */
  function Flatten<T>(parts: seq<seq<T>>): seq<T>
  {
    if parts == [] then [] else Flatten(parts[..|parts| - 1]) + parts[|parts| - 1]
  }

  lemma {:induction false} FlattenAppend<T>(a: seq<seq<T>>, b: seq<seq<T>>)
    ensures Flatten(a + b) == Flatten(a) + Flatten(b)
    decreases |b|
  {
    if b == [] {
      assert a + b == a;
    } else {
      var b', last := b[..|b| - 1], b[|b| - 1];
      assert (a + b)[..|a + b| - 1] == a + b';
      assert (a + b)[|a + b| - 1] == last;
      FlattenAppend(a, b');
      ConcatAssoc(Flatten(a), Flatten(b'), last);
    }
  }

  lemma TakeSnoc<T>(s: seq<T>, n: nat)
    requires 0 < n <= |s|
    ensures s[..n] == s[..n - 1] + [s[n - 1]]
  {
  }

  lemma ConcatAssoc<T>(x: seq<T>, y: seq<T>, z: seq<T>)
    ensures (x + y) + z == x + (y + z)
  {
  }

  lemma FlattenSingle<T>(x: seq<T>)
    ensures Flatten([x]) == x
  {
    assert [x][..0] == [];
  }

  /** Index of the first element whose key is `id` (`findIndex`, or `find` when the
      element itself is wanted). */
  function FirstIndex<T>(s: seq<T>, key: T -> string, id: string): (r: Option<nat>)
    ensures r.Some? ==> r.value < |s| && key(s[r.value]) == id
    ensures r.Some? ==> forall j :: 0 <= j < r.value ==> key(s[j]) != id
    ensures r.None? <==> forall j :: 0 <= j < |s| ==> key(s[j]) != id
  {
    if s == [] then None
    else if key(s[0]) == id then Some(0)
    else match FirstIndex(s[1..], key, id)
      case None => None
      case Some(i) => Some(i + 1)
  }

  /** `s[0]?.id || null`: the key of the first element, unless the sequence is empty or
      that key is the empty string (which JavaScript treats as false). */
  function FirstKeyOrNull<T>(s: seq<T>, key: T -> string): (r: Option<string>)
    ensures r.Some? <==> s != [] && key(s[0]) != ""
    ensures r.Some? ==> r.value == key(s[0])
  {
    if s != [] && key(s[0]) != "" then Some(key(s[0])) else None
  }

  /** Replacing the element `findIndex` found by one with the same key leaves it the
      first element with that key. */
  lemma FirstIndexReplace<T>(s: seq<T>, key: T -> string, id: string, x: T)
    requires FirstIndex(s, key, id).Some? && key(x) == id
    ensures var i := FirstIndex(s, key, id).value;
      FirstIndex(s[i := x], key, id) == Some(i)
  {
    var i := FirstIndex(s, key, id).value;
    var t := s[i := x];
    assert forall j :: 0 <= j < i ==> key(t[j]) != id;
    assert key(t[i]) == id;
  }

  /** The elements of `s` that satisfy `p`, in their original order (`filter`). */
  function Filter<T>(s: seq<T>, p: T -> bool): (r: seq<T>)
    ensures |r| <= |s|
  {
    if s == [] then []
    else
      var rest := Filter(s[1..], p);
      if p(s[0]) then [s[0]] + rest else rest
  }

  /** `Filter` keeps exactly the elements that satisfy `p`, in their order, and leaves a
      sequence whose every element satisfies `p` as it is. */
  lemma {:induction false} FilterSpec<T>(s: seq<T>, p: T -> bool)
    ensures var r := Filter(s, p);
      && (forall k :: 0 <= k < |r| ==> p(r[k]) && r[k] in s)
      && (forall x :: x in s && p(x) ==> x in r)
      && ((forall k :: 0 <= k < |s| ==> p(s[k])) ==> r == s)
      && IsSubsequence(r, s)
  {
    if s != [] {
      FilterSpec(s[1..], p);
      var rest := Filter(s[1..], p);
      assert s == [s[0]] + s[1..];
      if p(s[0]) {
        assert ([s[0]] + rest)[1..] == rest;
        forall k | 0 <= k < |rest| + 1 ensures p(([s[0]] + rest)[k]) && ([s[0]] + rest)[k] in s {
          if k > 0 { assert ([s[0]] + rest)[k] == rest[k - 1]; }
        }
      }
      SubsequenceDrop(rest, s);
    }
  }

  /** Every element of a filtered sequence satisfies the filter. */
  lemma {:induction false} FilterAll<T>(s: seq<T>, p: T -> bool, k: nat)
    requires k < |Filter(s, p)|
    ensures p(Filter(s, p)[k])
  {
    if s != [] && p(s[0]) && k > 0 {
      FilterAll(s[1..], p, k - 1);
    } else if s != [] && !p(s[0]) {
      FilterAll(s[1..], p, k);
    }
  }

  /** Filtering one element: either it or nothing, and flattened, its own text or none. */
  lemma FilterSingle<T>(x: seq<T>, p: seq<T> -> bool)
    ensures Filter([x], p) == if p(x) then [x] else []
    ensures Flatten(Filter([x], p)) == if p(x) then x else []
  {
    assert [x][1..] == [];
    FlattenSingle(x);
  }

  /** A filter that every element passes changes nothing. */
  lemma {:induction false} FilterKeepsAll<T>(s: seq<T>, p: T -> bool)
    requires forall k :: 0 <= k < |s| ==> p(s[k])
    ensures Filter(s, p) == s
  {
    if s != [] {
      FilterKeepsAll(s[1..], p);
      assert s == [s[0]] + s[1..];
    }
  }

  lemma SubsequenceDrop<T>(a: seq<T>, s: seq<T>)
    requires s != [] && IsSubsequence(a, s[1..])
    ensures IsSubsequence(a, s) && IsSubsequence([s[0]] + a, s)
  {
    assert ([s[0]] + a)[1..] == a;
  }

  /** `a` can be obtained from `b` by deleting elements: same relative order. */
  predicate IsSubsequence<T(==)>(a: seq<T>, b: seq<T>)
  {
    if a == [] then true
    else if b == [] then false
    else (a[0] == b[0] && IsSubsequence(a[1..], b[1..])) || IsSubsequence(a, b[1..])
  }

  /** Filters by predicates that agree everywhere give the same elements. */
  lemma {:induction false} FilterSame<T>(s: seq<T>, p: T -> bool, q: T -> bool)
    requires forall x :: p(x) == q(x)
    ensures Filter(s, p) == Filter(s, q)
  {
    if s != [] {
      FilterSame(s[1..], p, q);
    }
  }

  lemma {:induction false} SubsequenceRefl<T>(s: seq<T>)
    ensures IsSubsequence(s, s)
  {
    if s != [] {
      SubsequenceRefl(s[1..]);
    }
  }

  lemma {:induction false} FilterAppend<T>(a: seq<T>, b: seq<T>, p: T -> bool)
    ensures Filter(a + b, p) == Filter(a, p) + Filter(b, p)
  {
    if a == [] {
      assert a + b == b;
    } else {
      assert (a + b)[1..] == a[1..] + b;
      FilterAppend(a[1..], b, p);
    }
  }

  /** Filtering by `p` and then by `q` keeps what satisfies both. */
  lemma {:induction false} FilterFilter<T>(s: seq<T>, p: T -> bool, q: T -> bool, pq: T -> bool)
    requires forall x :: pq(x) == (p(x) && q(x))
    ensures Filter(Filter(s, p), q) == Filter(s, pq)
  {
    if s != [] {
      FilterFilter(s[1..], p, q, pq);
    }
  }

  /** Filtering a permutation gives a permutation of the filtered input. */
  lemma {:induction false} FilterMultiset<T>(s: seq<T>, p: T -> bool)
    ensures multiset(Filter(s, p)) <= multiset(s)
  {
    if s != [] {
      FilterMultiset(s[1..], p);
      assert s == [s[0]] + s[1..];
    }
  }

  /** Filtering by `p` and by its negation splits the elements between the two results. */
  lemma {:induction false} FilterPartition<T>(s: seq<T>, p: T -> bool, q: T -> bool)
    requires forall x :: q(x) == !p(x)
    ensures multiset(Filter(s, p)) + multiset(Filter(s, q)) == multiset(s)
    ensures |Filter(s, p)| + |Filter(s, q)| == |s|
  {
    if s != [] {
      FilterPartition(s[1..], p, q);
      assert s == [s[0]] + s[1..];
    }
  }

  /** `s.map(f)`. */
  function Map<T, U>(s: seq<T>, f: T -> U): (r: seq<U>)
    ensures |r| == |s|
    ensures forall i :: 0 <= i < |s| ==> r[i] == f(s[i])
  {
    if s == [] then [] else [f(s[0])] + Map(s[1..], f)
  }
}
