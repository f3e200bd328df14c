/** `Array.prototype.sort` on a copy, with a comparator that orders by a rank, highest
    first: a pair compared lexicographically. The sort is stable (elements of equal
    rank keep their input order), as the language has required since ECMAScript 2019;
    it is given here as an insertion sort. */
module StableSort {
  import opened Seqs

  /** A sort key: `major` decides, `minor` breaks ties. */
  datatype Rank = Rank(major: int, minor: int)

  /** `a` sorts strictly before `b`. */
  predicate Above(a: Rank, b: Rank)
  {
    a.major > b.major || (a.major == b.major && a.minor > b.minor)
  }

  /** Highest rank first: no element is ranked above one that precedes it. */
  predicate Descending<T>(s: seq<T>, rank: T -> Rank)
  {
    forall i, j :: 0 <= i < j < |s| ==> !Above(rank(s[j]), rank(s[i]))
  }

  /** `x` placed before the first element it is not ranked below. */
  function Insert<T>(x: T, t: seq<T>, rank: T -> Rank): (r: seq<T>)
    ensures |r| == |t| + 1
    ensures multiset(r) == multiset(t) + multiset{x}
  {
    if t == [] || !Above(rank(t[0]), rank(x)) then [x] + t
    else
      assert t == [t[0]] + t[1..];
      [t[0]] + Insert(x, t[1..], rank)
  }

  function Sort<T>(s: seq<T>, rank: T -> Rank): (r: seq<T>)
    ensures |r| == |s|
    ensures multiset(r) == multiset(s)
  {
    if s == [] then []
    else
      assert s == [s[0]] + s[1..];
      Insert(s[0], Sort(s[1..], rank), rank)
  }

  lemma {:induction false} InsertDescending<T>(x: T, t: seq<T>, rank: T -> Rank)
    requires Descending(t, rank)
    ensures Descending(Insert(x, t, rank), rank)
  {
    if t != [] && Above(rank(t[0]), rank(x)) {
      var rest := Insert(x, t[1..], rank);
      InsertDescending(x, t[1..], rank);
      var r := [t[0]] + rest;
      forall j | 0 < j < |r|
        ensures !Above(rank(r[j]), rank(r[0]))
      {
        assert r[j] in multiset(rest);
        assert r[j] == x || r[j] in multiset(t[1..]);
        if r[j] != x {
          var k :| 0 <= k < |t[1..]| && t[1..][k] == r[j];
          assert t[k + 1] == r[j];
        }
      }
    }
  }

  /** The sorted sequence is ordered highest rank first. */
  lemma {:induction false} SortDescending<T>(s: seq<T>, rank: T -> Rank)
    ensures Descending(Sort(s, rank), rank)
  {
    if s != [] {
      SortDescending(s[1..], rank);
      InsertDescending(s[0], Sort(s[1..], rank), rank);
    }
  }

  /** Elements with a given rank. */
  function OfRank<T>(s: seq<T>, rank: T -> Rank, v: Rank): seq<T>
  {
    Filter(s, (y: T) => rank(y) == v)
  }

  lemma {:induction false} InsertStable<T>(x: T, t: seq<T>, rank: T -> Rank, v: Rank)
    ensures OfRank(Insert(x, t, rank), rank, v)
         == if rank(x) == v then [x] + OfRank(t, rank, v) else OfRank(t, rank, v)
  {
    var p := (y: T) => rank(y) == v;
    if t == [] || !Above(rank(t[0]), rank(x)) {
      assert ([x] + t)[1..] == t;
    } else {
      InsertStable(x, t[1..], rank, v);
      var r := [t[0]] + Insert(x, t[1..], rank);
      assert r[1..] == Insert(x, t[1..], rank);
      if rank(x) == v {
        assert !p(t[0]);
      }
    }
  }

  /** Stability: the elements of each rank come out in the order they went in. */
  lemma {:induction false} SortStable<T>(s: seq<T>, rank: T -> Rank, v: Rank)
    ensures OfRank(Sort(s, rank), rank, v) == OfRank(s, rank, v)
  {
    if s != [] {
      SortStable(s[1..], rank, v);
      InsertStable(s[0], Sort(s[1..], rank), rank, v);
    }
  }

  /** Sorting a sorted sequence changes nothing. */
  lemma {:induction false} SortSorted<T>(s: seq<T>, rank: T -> Rank)
    requires Descending(s, rank)
    ensures Sort(s, rank) == s
  {
    if s != [] {
      assert Descending(s[1..], rank);
      SortSorted(s[1..], rank);
      var t := s[1..];
      assert t == [] || !Above(rank(t[0]), rank(s[0]));
    }
  }
}
