/** Order-preserving sequence operations shared by both allocators: filter, map,
    the subsequence relation and the stable descending sort that the web client
    gets from Array.prototype.sort and the server from java.util.List.sort.
    Both library sorts are stable; SortDesc is an insertion sort that places each
    element after every element whose key is at least as large, so it is stable too. */
module Sequences {

  /** The elements of s that satisfy keep, in their original order. */
  function Filter<T>(s: seq<T>, keep: T -> bool): (r: seq<T>)
    ensures |r| <= |s|
    ensures forall i :: 0 <= i < |r| ==> keep(r[i])
  {
    if |s| == 0 then [] else if keep(s[0]) then [s[0]] + Filter(s[1..], keep) else Filter(s[1..], keep)
  }

  /** The image of s under f, element by element. */
  function MapSeq<T, U>(s: seq<T>, f: T -> U): (r: seq<U>)
    ensures |r| == |s|
    ensures forall i :: 0 <= i < |s| ==> r[i] == f(s[i])
  {
    seq(|s|, i requires 0 <= i < |s| => f(s[i]))
  }

  lemma MapSeqSnoc<T, U>(s: seq<T>, x: T, f: T -> U)
    ensures MapSeq(s + [x], f) == MapSeq(s, f) + [f(x)]
  {
  }

  /** The elements of s whose key is v, in their original order. */
  function WithKey<T>(s: seq<T>, key: T -> int, v: int): (r: seq<T>)
    ensures forall i :: 0 <= i < |r| ==> key(r[i]) == v
  {
    if |s| == 0 then [] else if key(s[0]) == v then [s[0]] + WithKey(s[1..], key, v) else WithKey(s[1..], key, v)
  }

  /** a can be obtained from b by deleting elements. */
  ghost predicate Subseq<T>(a: seq<T>, b: seq<T>)
    decreases |b|
  {
    |a| == 0 || (|b| > 0 && ((a[0] == b[0] && Subseq(a[1..], b[1..])) || Subseq(a, b[1..])))
  }

  /** Keys never increase from left to right. */
  ghost predicate SortedDesc<T>(s: seq<T>, key: T -> int)
  {
    forall i, j :: 0 <= i < j < |s| ==> key(s[i]) >= key(s[j])
  }

  /** Inserts x after every element whose key is at least key(x). */
  function Insert<T>(x: T, s: seq<T>, key: T -> int): (r: seq<T>)
    ensures |r| == |s| + 1
  {
    if |s| == 0 then [x]
    else if key(x) > key(s[0]) then [x] + s
    else [s[0]] + Insert(x, s[1..], key)
  }

  /** The stable sort by key, largest key first. */
  function SortDesc<T>(s: seq<T>, key: T -> int): (r: seq<T>)
    ensures |r| == |s|
  {
    if |s| == 0 then [] else Insert(s[|s| - 1], SortDesc(s[..|s| - 1], key), key)
  }

  lemma {:induction false} InsertMultiset<T>(x: T, s: seq<T>, key: T -> int)
    ensures multiset(Insert(x, s, key)) == multiset(s) + multiset{x}
  {
    if |s| > 0 && key(x) <= key(s[0]) {
      InsertMultiset(x, s[1..], key);
      assert s == [s[0]] + s[1..];
    }
  }

  lemma {:induction false} InsertSorted<T>(x: T, s: seq<T>, key: T -> int)
    requires SortedDesc(s, key)
    ensures multiset(Insert(x, s, key)) == multiset(s) + multiset{x}
    ensures SortedDesc(Insert(x, s, key), key)
  {
    InsertMultiset(x, s, key);
    if |s| > 0 && key(x) <= key(s[0]) {
      var rest := Insert(x, s[1..], key);
      assert SortedDesc(s[1..], key);
      InsertSorted(x, s[1..], key);
      forall i | 0 <= i < |rest| ensures key(s[0]) >= key(rest[i]) {
        assert rest[i] in multiset(rest);
        if rest[i] != x {
          assert rest[i] in multiset(s[1..]);
          var j :| 0 <= j < |s[1..]| && s[1..][j] == rest[i];
          assert s[j + 1] == rest[i];
        }
      }
    }
  }

  /** The sort returns a permutation of its input, ordered by non-increasing key. */
  lemma {:induction false} SortSorted<T>(s: seq<T>, key: T -> int)
    ensures multiset(SortDesc(s, key)) == multiset(s)
    ensures SortedDesc(SortDesc(s, key), key)
  {
    if |s| > 0 {
      var init := s[..|s| - 1];
      SortSorted(init, key);
      InsertSorted(s[|s| - 1], SortDesc(init, key), key);
      assert s == init + [s[|s| - 1]];
    }
  }

  lemma {:induction false} FilterMultiset<T>(s: seq<T>, keep: T -> bool)
    ensures multiset(Filter(s, keep)) <= multiset(s)
  {
    if |s| > 0 {
      FilterMultiset(s[1..], keep);
      assert s == [s[0]] + s[1..];
    }
  }

  // ---------------------------------------------------------------------------
  // Subsequences

  lemma {:induction false} SubseqRefl<T>(a: seq<T>)
    ensures Subseq(a, a)
  {
    if |a| > 0 {
      SubseqRefl(a[1..]);
    }
  }

  lemma {:induction false} SubseqTrans<T>(a: seq<T>, b: seq<T>, c: seq<T>)
    requires Subseq(a, b) && Subseq(b, c)
    ensures Subseq(a, c)
    decreases |c|
  {
    if |a| > 0 {
      if b[0] == c[0] && Subseq(b[1..], c[1..]) {
        if a[0] == b[0] && Subseq(a[1..], b[1..]) {
          SubseqTrans(a[1..], b[1..], c[1..]);
        } else {
          SubseqTrans(a, b[1..], c[1..]);
        }
      } else {
        SubseqTrans(a, b, c[1..]);
      }
    }
  }

  lemma {:induction false} SubseqConcat<T>(a1: seq<T>, b1: seq<T>, a2: seq<T>, b2: seq<T>)
    requires Subseq(a1, b1) && Subseq(a2, b2)
    ensures Subseq(a1 + a2, b1 + b2)
    decreases |b1|
  {
    if |a1| == 0 {
      if |b1| == 0 {
        assert a1 + a2 == a2 && b1 + b2 == b2;
      } else {
        SubseqConcat(a1, b1[1..], a2, b2);
        assert (b1 + b2)[1..] == b1[1..] + b2;
      }
    } else if a1[0] == b1[0] && Subseq(a1[1..], b1[1..]) {
      SubseqConcat(a1[1..], b1[1..], a2, b2);
      assert (a1 + a2)[1..] == a1[1..] + a2;
      assert (b1 + b2)[1..] == b1[1..] + b2;
    } else {
      SubseqConcat(a1, b1[1..], a2, b2);
      assert (b1 + b2)[1..] == b1[1..] + b2;
    }
  }

  lemma {:induction false} SubseqMembers<T>(a: seq<T>, b: seq<T>)
    requires Subseq(a, b)
    ensures forall x :: x in a ==> x in b
    decreases |b|
  {
    if |a| > 0 {
      if a[0] == b[0] && Subseq(a[1..], b[1..]) {
        SubseqMembers(a[1..], b[1..]);
        assert a == [a[0]] + a[1..];
        assert b == [b[0]] + b[1..];
      } else {
        SubseqMembers(a, b[1..]);
        assert b == [b[0]] + b[1..];
      }
    }
  }

  lemma {:induction false} SubseqSorted<T>(a: seq<T>, b: seq<T>, key: T -> int)
    requires Subseq(a, b) && SortedDesc(b, key)
    ensures SortedDesc(a, key)
    decreases |b|
  {
    if |a| > 0 {
      assert SortedDesc(b[1..], key);
      if a[0] == b[0] && Subseq(a[1..], b[1..]) {
        SubseqSorted(a[1..], b[1..], key);
        SubseqMembers(a[1..], b[1..]);
        forall j | 0 < j < |a| ensures key(a[0]) >= key(a[j]) {
          assert a[j] == a[1..][j - 1];
          assert a[j] in b[1..];
        }
      } else {
        SubseqSorted(a, b[1..], key);
      }
    }
  }

  lemma {:induction false} SubseqWithKey<T>(a: seq<T>, b: seq<T>, key: T -> int, v: int)
    requires Subseq(a, b)
    ensures Subseq(WithKey(a, key, v), WithKey(b, key, v))
    decreases |b|
  {
    if |a| == 0 {
    } else if a[0] == b[0] && Subseq(a[1..], b[1..]) {
      SubseqWithKey(a[1..], b[1..], key, v);
    } else {
      SubseqWithKey(a, b[1..], key, v);
      if key(b[0]) == v {
        var w := WithKey(b, key, v);
        assert w[1..] == WithKey(b[1..], key, v);
        SubseqDropHead(WithKey(a, key, v), w);
      }
    }
  }

  lemma SubseqDropHead<T>(a: seq<T>, b: seq<T>)
    requires |b| > 0 && Subseq(a, b[1..])
    ensures Subseq(a, b)
  {
  }

  lemma {:induction false} FilterSubseq<T>(s: seq<T>, keep: T -> bool)
    ensures Subseq(Filter(s, keep), s)
  {
    if |s| > 0 {
      FilterSubseq(s[1..], keep);
    }
  }

  /** Filter drops nothing that satisfies keep. */
  lemma {:induction false} FilterComplete<T>(s: seq<T>, keep: T -> bool)
    ensures forall x :: x in s && keep(x) ==> x in Filter(s, keep)
  {
    if |s| > 0 {
      FilterComplete(s[1..], keep);
      forall x | x in s && keep(x) ensures x in Filter(s, keep) {
        if x != s[0] {
          assert x in s[1..];
        }
      }
    }
  }

  // ---------------------------------------------------------------------------
  // Append laws

  lemma {:induction false} FilterAppend<T>(a: seq<T>, b: seq<T>, keep: T -> bool)
    ensures Filter(a + b, keep) == Filter(a, keep) + Filter(b, keep)
  {
    if |a| > 0 {
      FilterAppend(a[1..], b, keep);
      assert (a + b)[1..] == a[1..] + b;
    } else {
      assert a + b == b;
    }
  }

  lemma {:induction false} WithKeyAppend<T>(a: seq<T>, b: seq<T>, key: T -> int, v: int)
    ensures WithKey(a + b, key, v) == WithKey(a, key, v) + WithKey(b, key, v)
  {
    if |a| > 0 {
      WithKeyAppend(a[1..], b, key, v);
      assert (a + b)[1..] == a[1..] + b;
    } else {
      assert a + b == b;
    }
  }

  lemma {:induction false} WithKeyNone<T>(s: seq<T>, key: T -> int, v: int)
    requires forall i :: 0 <= i < |s| ==> key(s[i]) < v
    ensures WithKey(s, key, v) == []
  {
    if |s| > 0 {
      WithKeyNone(s[1..], key, v);
    }
  }

  // ---------------------------------------------------------------------------
  // The sort: stability and commuting with filter and map

  lemma {:induction false} InsertWithKey<T>(x: T, s: seq<T>, key: T -> int, v: int)
    requires SortedDesc(s, key)
    ensures WithKey(Insert(x, s, key), key, v) == WithKey(s, key, v) + WithKey([x], key, v)
  {
    if |s| == 0 {
    } else if key(x) > key(s[0]) {
      if key(x) == v {
        WithKeyNone(s, key, v);
      }
      assert Insert(x, s, key)[1..] == s;
    } else {
      assert SortedDesc(s[1..], key);
      InsertWithKey(x, s[1..], key, v);
      assert Insert(x, s, key)[1..] == Insert(x, s[1..], key);
    }
  }

  /** Stability: for every key value, the elements carrying it keep their input order. */
  lemma {:induction false} SortStable<T>(s: seq<T>, key: T -> int, v: int)
    ensures WithKey(SortDesc(s, key), key, v) == WithKey(s, key, v)
  {
    if |s| > 0 {
      var init, x := s[..|s| - 1], s[|s| - 1];
      SortStable(init, key, v);
      SortSorted(init, key);
      InsertWithKey(x, SortDesc(init, key), key, v);
      assert s == init + [x];
      WithKeyAppend(init, [x], key, v);
    }
  }

  lemma {:induction false} InsertFilter<T>(x: T, s: seq<T>, key: T -> int, keep: T -> bool)
    requires SortedDesc(s, key)
    ensures Filter(Insert(x, s, key), keep) == if keep(x) then Insert(x, Filter(s, keep), key) else Filter(s, keep)
  {
    if |s| == 0 {
    } else if key(x) > key(s[0]) {
      assert Insert(x, s, key)[1..] == s;
      var f := Filter(s, keep);
      if keep(x) && |f| > 0 {
        FilterMultiset(s, keep);
        assert f[0] in multiset(f);
        assert f[0] in s;
        assert key(f[0]) <= key(s[0]);
      }
    } else {
      assert SortedDesc(s[1..], key);
      InsertFilter(x, s[1..], key, keep);
      assert Insert(x, s, key)[1..] == Insert(x, s[1..], key);
      if keep(x) && keep(s[0]) {
        var f := Filter(s, keep);
        assert f[0] == s[0] && f[1..] == Filter(s[1..], keep);
      }
    }
  }

  /** Filtering before or after the stable sort gives the same sequence. */
  lemma {:induction false} SortFilter<T>(s: seq<T>, key: T -> int, keep: T -> bool)
    ensures Filter(SortDesc(s, key), keep) == SortDesc(Filter(s, keep), key)
  {
    if |s| > 0 {
      var init, x := s[..|s| - 1], s[|s| - 1];
      SortLast(s, key);
      SortFilter(init, key, keep);
      SortSorted(init, key);
      InsertFilter(x, SortDesc(init, key), key, keep);
      FilterLast(s, keep);
      if keep(x) {
        var fs := Filter(s, keep);
        assert fs == Filter(init, keep) + [x];
        assert fs[..|fs| - 1] == Filter(init, keep);
        SortLast(fs, key);
        calc {
          Filter(SortDesc(s, key), keep);
          Filter(Insert(x, SortDesc(init, key), key), keep);
          Insert(x, Filter(SortDesc(init, key), keep), key);
          Insert(x, SortDesc(Filter(init, keep), key), key);
          SortDesc(fs, key);
        }
      } else {
        assert Filter(s, keep) == Filter(init, keep);
        calc {
          Filter(SortDesc(s, key), keep);
          Filter(Insert(x, SortDesc(init, key), key), keep);
          Filter(SortDesc(init, key), keep);
          SortDesc(Filter(init, keep), key);
        }
      }
    }
  }

  lemma FilterLast<T>(s: seq<T>, keep: T -> bool)
    requires |s| > 0
    ensures Filter(s, keep) == Filter(s[..|s| - 1], keep) + (if keep(s[|s| - 1]) then [s[|s| - 1]] else [])
  {
    var x := s[|s| - 1];
    assert s == s[..|s| - 1] + [x];
    FilterAppend(s[..|s| - 1], [x], keep);
    assert [x][1..] == [];
    assert Filter([x], keep) == if keep(x) then [x] else [];
  }

  lemma SortLast<T>(s: seq<T>, key: T -> int)
    requires |s| > 0
    ensures SortDesc(s, key) == Insert(s[|s| - 1], SortDesc(s[..|s| - 1], key), key)
  {
  }

  lemma {:induction false} InsertMap<T, U>(x: T, s: seq<T>, keyT: T -> int, f: T -> U, keyU: U -> int)
    requires forall y :: keyU(f(y)) == keyT(y)
    ensures MapSeq(Insert(x, s, keyT), f) == Insert(f(x), MapSeq(s, f), keyU)
  {
    var ms := MapSeq(s, f);
    if |s| == 0 {
      assert MapSeq([x], f) == [f(x)];
    } else {
      assert keyU(f(x)) == keyT(x) && keyU(ms[0]) == keyT(s[0]);
      if keyT(x) > keyT(s[0]) {
        assert Insert(f(x), ms, keyU) == [f(x)] + ms;
        assert MapSeq([x] + s, f) == [f(x)] + ms;
      } else {
        var rest := Insert(x, s[1..], keyT);
        InsertMap(x, s[1..], keyT, f, keyU);
        assert ms[1..] == MapSeq(s[1..], f);
        assert Insert(f(x), ms, keyU) == [ms[0]] + Insert(f(x), ms[1..], keyU);
        assert MapSeq([s[0]] + rest, f) == [f(s[0])] + MapSeq(rest, f);
      }
    }
  }

  /** Mapping with a key-preserving function commutes with the stable sort. */
  lemma {:induction false} SortMap<T, U>(s: seq<T>, keyT: T -> int, f: T -> U, keyU: U -> int)
    requires forall y :: keyU(f(y)) == keyT(y)
    ensures MapSeq(SortDesc(s, keyT), f) == SortDesc(MapSeq(s, f), keyU)
  {
    if |s| > 0 {
      var init, x := s[..|s| - 1], s[|s| - 1];
      var sortedInit := SortDesc(init, keyT);
      assert SortDesc(s, keyT) == Insert(x, sortedInit, keyT);
      SortMap(init, keyT, f, keyU);
      InsertMap(x, sortedInit, keyT, f, keyU);
      var ms := MapSeq(s, f);
      assert ms[..|ms| - 1] == MapSeq(init, f);
      assert ms[|ms| - 1] == f(x);
      assert SortDesc(ms, keyU) == Insert(f(x), SortDesc(MapSeq(init, f), keyU), keyU);
    }
  }

  /** Mapping with a function that preserves the filter's verdict commutes with the filter. */
  lemma {:induction false} FilterMap<T, U>(s: seq<T>, keepT: T -> bool, f: T -> U, keepU: U -> bool)
    requires forall y :: keepU(f(y)) == keepT(y)
    ensures Filter(MapSeq(s, f), keepU) == MapSeq(Filter(s, keepT), f)
  {
    if |s| > 0 {
      FilterMap(s[1..], keepT, f, keepU);
      var ms := MapSeq(s, f);
      assert ms[1..] == MapSeq(s[1..], f);
      if keepT(s[0]) {
        var fs := Filter(s, keepT);
        assert MapSeq(fs, f) == [f(s[0])] + MapSeq(fs[1..], f);
      }
    }
  }
}
