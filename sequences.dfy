/** Sequence operations the updater is built from: Python's clamped slices, list
    comprehensions with a condition, and the in-place `list.reverse()`. */
module Sequences {
  import opened Wrappers

  function Min(a: nat, b: nat): nat { if a <= b then a else b }

  /** The start index Python uses for `s[cursor:]`: a cursor past the end clamps to
      the end, and a cursor of `None` (a failed row count) means the start. */
  function Start(cursor: Option<nat>, len: nat): (k: nat)
    ensures k <= len
    ensures cursor.None? ==> k == 0
    ensures cursor.Some? ==> k == Min(cursor.value, len)
  {
    match cursor
    case None => 0
    case Some(n) => Min(n, len)
  }

  /** `s[cursor:]`: the rows not yet transmitted. */
  function Drop<T>(s: seq<T>, cursor: Option<nat>): (r: seq<T>)
    ensures |r| == |s| - Start(cursor, |s|)
  {
    s[Start(cursor, |s|)..]
  }

  /** `s[:n]`, clamped. */
  function Take<T>(s: seq<T>, n: nat): (r: seq<T>)
    ensures |r| == Min(n, |s|)
    ensures r <= s
  {
    s[..Min(n, |s|)]
  }

  /** `[x for x in s if p(x)]` */
  function Filter<T>(s: seq<T>, p: T -> bool): seq<T>
  {
    if s == [] then [] else (if p(s[0]) then [s[0]] else []) + Filter(s[1..], p)
  }

  function Reversed<T>(s: seq<T>): seq<T>
  {
    if s == [] then [] else Reversed(s[1..]) + [s[0]]
  }

  /** `a` is `b` with some elements removed, the rest kept in order. */
  ghost predicate IsSubsequence<T>(a: seq<T>, b: seq<T>)
    decreases |b|
  {
    if a == [] then true
    else if b == [] then false
    else (a[0] == b[0] && IsSubsequence(a[1..], b[1..])) || IsSubsequence(a, b[1..])
  }

  /** Every element of `s` goes, in order, to exactly one of `a` and `b`. */
  ghost predicate Interleaves<T>(s: seq<T>, a: seq<T>, b: seq<T>)
    decreases |s|
  {
    if s == [] then a == [] && b == []
    else
      || (a != [] && a[0] == s[0] && Interleaves(s[1..], a[1..], b))
      || (b != [] && b[0] == s[0] && Interleaves(s[1..], a, b[1..]))
  }

  // ---------------------------------------------------------------- cursor

  /** If the destination holds exactly the first `|committed|` source rows, appending
      the delta makes it hold the whole source, and a second run with the new row
      count has nothing left to send. */
  lemma {:induction false} DeltaCompletesAndIsIdempotent<T>(s: seq<T>, committed: seq<T>)
    requires committed <= s
    ensures committed + Drop(s, Some(|committed|)) == s
    ensures Drop(s, Some(|committed + Drop(s, Some(|committed|))|)) == []
  {
    assert s == s[..|committed|] + s[|committed|..];
    assert s[..|committed|] == committed;
  }

  /** A row count at or past the end leaves nothing to send; one short of the end
      leaves exactly the missing rows. */
  lemma DropEmptyIff<T>(s: seq<T>, n: nat)
    ensures Drop(s, Some(n)) == [] <==> n >= |s|
    ensures n < |s| ==> Drop(s, Some(n))[0] == s[n]
  {
  }

  // ---------------------------------------------------------------- filter

  lemma {:induction false} FilterMembers<T>(s: seq<T>, p: T -> bool)
    ensures forall x :: x in Filter(s, p) <==> x in s && p(x)
  {
    if s != [] {
      FilterMembers(s[1..], p);
      assert s == [s[0]] + s[1..];
    }
  }

  /** The comprehension keeps every copy of an element it keeps and none of the others. */
  lemma {:induction false} FilterCount<T>(s: seq<T>, p: T -> bool)
    ensures forall x :: multiset(Filter(s, p))[x] == if p(x) then multiset(s)[x] else 0
  {
    if s != [] {
      FilterCount(s[1..], p);
      assert s == [s[0]] + s[1..];
      assert multiset(s) == multiset([s[0]]) + multiset(s[1..]);
    }
  }

  lemma {:induction false} FilterIsSubsequence<T>(s: seq<T>, p: T -> bool)
    ensures IsSubsequence(Filter(s, p), s)
  {
    if s != [] {
      FilterIsSubsequence(s[1..], p);
      var f := Filter(s, p);
      if p(s[0]) {
        assert f == [s[0]] + Filter(s[1..], p);
        assert f[1..] == Filter(s[1..], p);
      } else {
        assert f == Filter(s[1..], p);
        if f != [] {
          assert IsSubsequence(f, s[1..]);
        }
      }
    }
  }

  /** A condition and its negation split `s` into two order-preserving parts. */
  lemma {:induction false} FilterInterleaves<T>(s: seq<T>, p: T -> bool, q: T -> bool)
    requires forall x :: q(x) == !p(x)
    ensures Interleaves(s, Filter(s, p), Filter(s, q))
  {
    if s != [] {
      FilterInterleaves(s[1..], p, q);
      if p(s[0]) {
        assert Filter(s, p) == [s[0]] + Filter(s[1..], p);
        assert Filter(s, q) == Filter(s[1..], q);
      } else {
        assert Filter(s, q) == [s[0]] + Filter(s[1..], q);
        assert Filter(s, p) == Filter(s[1..], p);
      }
    }
  }

  /** The converse: an interleaving that sends the `p` elements one way and the `q`
      elements the other way is the pair of comprehensions. */
  lemma {:induction false} InterleavesByIsFilter<T>(s: seq<T>, a: seq<T>, b: seq<T>, p: T -> bool, q: T -> bool)
    requires forall x :: q(x) == !p(x)
    requires Interleaves(s, a, b)
    requires forall x | x in a :: p(x)
    requires forall x | x in b :: q(x)
    ensures a == Filter(s, p) && b == Filter(s, q)
  {
    if s != [] {
      if a != [] && a[0] == s[0] && Interleaves(s[1..], a[1..], b) {
        assert a[0] in a;
        InterleavesByIsFilter(s[1..], a[1..], b, p, q);
        assert a == [a[0]] + a[1..];
      } else {
        assert b[0] in b;
        InterleavesByIsFilter(s[1..], a, b[1..], p, q);
        assert b == [b[0]] + b[1..];
      }
    }
  }

  lemma InterleavesConsLeft<T>(x: T, s: seq<T>, a: seq<T>, b: seq<T>)
    requires Interleaves(s, a, b)
    ensures Interleaves([x] + s, [x] + a, b)
  {
    assert ([x] + s)[1..] == s && ([x] + a)[1..] == a;
  }

  lemma InterleavesConsRight<T>(x: T, s: seq<T>, a: seq<T>, b: seq<T>)
    requires Interleaves(s, a, b)
    ensures Interleaves([x] + s, a, [x] + b)
  {
    assert ([x] + s)[1..] == s && ([x] + b)[1..] == b;
  }

  lemma FilterCons<T>(x: T, s: seq<T>, p: T -> bool)
    ensures Filter([x] + s, p) == if p(x) then [x] + Filter(s, p) else Filter(s, p)
  {
    assert ([x] + s)[0] == x && ([x] + s)[1..] == s;
  }

  /** Filtering an interleaving filters both of its parts. */
  lemma {:induction false} InterleavesFilter<T>(s: seq<T>, a: seq<T>, b: seq<T>, p: T -> bool)
    requires Interleaves(s, a, b)
    ensures Interleaves(Filter(s, p), Filter(a, p), Filter(b, p))
  {
    if s != [] {
      assert s == [s[0]] + s[1..];
      FilterCons(s[0], s[1..], p);
      if a != [] && a[0] == s[0] && Interleaves(s[1..], a[1..], b) {
        InterleavesFilter(s[1..], a[1..], b, p);
        assert a == [s[0]] + a[1..];
        FilterCons(s[0], a[1..], p);
        if p(s[0]) {
          InterleavesConsLeft(s[0], Filter(s[1..], p), Filter(a[1..], p), Filter(b, p));
        }
      } else {
        InterleavesFilter(s[1..], a, b[1..], p);
        assert b == [s[0]] + b[1..];
        FilterCons(s[0], b[1..], p);
        if p(s[0]) {
          InterleavesConsRight(s[0], Filter(s[1..], p), Filter(a, p), Filter(b[1..], p));
        }
      }
    }
  }

  lemma {:induction false} InterleavesMultiset<T>(s: seq<T>, a: seq<T>, b: seq<T>)
    requires Interleaves(s, a, b)
    ensures multiset(a) + multiset(b) == multiset(s)
    ensures |a| + |b| == |s|
  {
    if s != [] {
      assert s == [s[0]] + s[1..];
      if a != [] && a[0] == s[0] && Interleaves(s[1..], a[1..], b) {
        InterleavesMultiset(s[1..], a[1..], b);
        assert a == [a[0]] + a[1..];
      } else {
        InterleavesMultiset(s[1..], a, b[1..]);
        assert b == [b[0]] + b[1..];
      }
    }
  }

  // ---------------------------------------------------------------- reverse

  lemma {:induction false} ReversedAt<T>(s: seq<T>, k: nat)
    requires k < |s|
    ensures |Reversed(s)| == |s|
    ensures Reversed(s)[k] == s[|s| - 1 - k]
  {
    if k < |s| - 1 {
      ReversedAt(s[1..], k);
    } else {
      ReversedLength(s[1..]);
    }
  }

  lemma {:induction false} ReversedLength<T>(s: seq<T>)
    ensures |Reversed(s)| == |s|
  {
    if s != [] { ReversedLength(s[1..]); }
  }

  /** Two sequences that are back-to-front copies of each other are related by Reversed. */
  lemma ReversedFromIndices<T>(s: seq<T>, r: seq<T>)
    requires |r| == |s|
    requires forall k :: 0 <= k < |s| ==> r[k] == s[|s| - 1 - k]
    ensures r == Reversed(s)
  {
    ReversedLength(s);
    forall k | 0 <= k < |s| ensures r[k] == Reversed(s)[k] {
      ReversedAt(s, k);
    }
  }

  /** `list.reverse()`: the array is turned back to front in place. */
  method ReverseInPlace<T>(a: array<T>)
    modifies a
    ensures a[..] == Reversed(old(a[..]))
  {
    var lo, hi := 0, a.Length;
    while lo + 1 < hi
      invariant 0 <= lo <= hi <= a.Length && lo + hi == a.Length
      invariant forall k :: 0 <= k < lo ==> a[k] == old(a[a.Length - 1 - k])
      invariant forall k :: hi <= k < a.Length ==> a[k] == old(a[a.Length - 1 - k])
      invariant forall k :: lo <= k < hi ==> a[k] == old(a[k])
    {
      a[lo], a[hi - 1] := a[hi - 1], a[lo];
      lo, hi := lo + 1, hi - 1;
    }
    ReversedFromIndices(old(a[..]), a[..]);
  }
}
