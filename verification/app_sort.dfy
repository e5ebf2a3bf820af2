/**
 * The rows of the scraper's info file as the data set builder sees them, and
 * `sort_values(by=["app_id"])`: ordering the rows by app id, with Python's string order.
 */
module AppSort {

  /** One row of the scraper's info file: an app and its (scraped, lower-cased) category. */
  datatype AppRow = AppRow(appId: string, category: string)

  /**
   * Python's `<=` on strings: lexicographic by code point, a proper prefix coming first.
   */
  predicate Below(a: string, b: string)
    decreases |a|
  {
    a == [] || (b != [] && (a[0] < b[0] || (a[0] == b[0] && Below(a[1..], b[1..]))))
  }

  lemma {:induction false} BelowTotal(a: string, b: string)
    ensures Below(a, b) || Below(b, a)
    decreases |a|
  {
    if a != [] && b != [] && a[0] == b[0] {
      BelowTotal(a[1..], b[1..]);
    }
  }

  lemma {:induction false} BelowReflexive(a: string)
    ensures Below(a, a)
    decreases |a|
  {
    if a != [] {
      BelowReflexive(a[1..]);
    }
  }

  lemma {:induction false} BelowAntisymmetric(a: string, b: string)
    requires Below(a, b) && Below(b, a)
    ensures a == b
    decreases |a|
  {
    if a != [] {
      BelowAntisymmetric(a[1..], b[1..]);
      assert a == [a[0]] + a[1..] && b == [b[0]] + b[1..];
    }
  }

  lemma {:induction false} BelowTransitive(a: string, b: string, c: string)
    requires Below(a, b) && Below(b, c)
    ensures Below(a, c)
    decreases |a|
  {
    if a != [] && a[0] == b[0] && b[0] == c[0] {
      BelowTransitive(a[1..], b[1..], c[1..]);
    }
  }

  /** Ordered by app id. */
  predicate Sorted(s: seq<AppRow>)
  {
    forall i, j :: 0 <= i < j < |s| ==> Below(s[i].appId, s[j].appId)
  }

  /** No two rows share an app id. */
  predicate DistinctIds(s: seq<AppRow>)
  {
    forall i, j :: 0 <= i < |s| && 0 <= j < |s| && i != j ==> s[i].appId != s[j].appId
  }

  /** Places `x` in front of the first row whose id it is below. */
  function Insert(x: AppRow, s: seq<AppRow>): (r: seq<AppRow>)
    requires Sorted(s)
    ensures Sorted(r)
    ensures |r| == |s| + 1
    ensures multiset(r) == multiset(s) + multiset{x}
    decreases |s|
  {
    if s == [] then [x]
    else if Below(x.appId, s[0].appId) then
      forall j | 0 < j < |s|
        ensures Below(x.appId, s[j].appId)
      {
        BelowTransitive(x.appId, s[0].appId, s[j].appId);
      }
      ConsSorted(x, s);
      [x] + s
    else
      BelowTotal(x.appId, s[0].appId);
      SortedTail(s);
      var rest := Insert(x, s[1..]);
      assert multiset(s[1..] + [x]) == multiset(s[1..]) + multiset{x};
      BelowAllRows(s[0], rest, s[1..] + [x]);
      ConsSorted(s[0], rest);
      assert multiset(s) == multiset{s[0]} + multiset(s[1..]) by {
        assert s == [s[0]] + s[1..];
      }
      [s[0]] + rest
  }

  /** The first row is below the others, and the others are sorted. */
  lemma SortedTail(s: seq<AppRow>)
    requires Sorted(s) && s != []
    ensures Sorted(s[1..])
    ensures forall j :: 0 <= j < |s[1..]| ==> Below(s[0].appId, s[1..][j].appId)
  {
    forall i, j | 0 <= i < j < |s[1..]|
      ensures Below(s[1..][i].appId, s[1..][j].appId)
    {
      assert s[1..][i] == s[i + 1] && s[1..][j] == s[j + 1];
    }
    forall j | 0 <= j < |s[1..]|
      ensures Below(s[0].appId, s[1..][j].appId)
    {
      assert s[1..][j] == s[j + 1];
    }
  }

  /** A row below every row of a sorted list can be put in front of it. */
  lemma ConsSorted(h: AppRow, t: seq<AppRow>)
    requires Sorted(t)
    requires forall j :: 0 <= j < |t| ==> Below(h.appId, t[j].appId)
    ensures Sorted([h] + t)
  {
    var r := [h] + t;
    forall i, j | 0 <= i < j < |r|
      ensures Below(r[i].appId, r[j].appId)
    {
      assert r[j] == t[j - 1];
      if i > 0 {
        assert r[i] == t[i - 1];
      }
    }
  }

  /** A row below every row of `u` is below every row of a rearrangement of `u`. */
  lemma BelowAllRows(h: AppRow, t: seq<AppRow>, u: seq<AppRow>)
    requires multiset(t) == multiset(u)
    requires forall j :: 0 <= j < |u| ==> Below(h.appId, u[j].appId)
    ensures forall j :: 0 <= j < |t| ==> Below(h.appId, t[j].appId)
  {
    forall j | 0 <= j < |t|
      ensures Below(h.appId, t[j].appId)
    {
      assert t[j] in multiset(u);
      var k :| 0 <= k < |u| && u[k] == t[j];
    }
  }

  /**
   * `_sort`: the rows ordered by app id, as a permutation of the input. The model sorts stably;
   * rows with equal ids may come out in another order in pandas, whose default sort is not stable.
   */
  function SortByAppId(s: seq<AppRow>): (r: seq<AppRow>)
    ensures Sorted(r)
    ensures |r| == |s|
    ensures multiset(r) == multiset(s)
    decreases |s|
  {
    if s == [] then []
    else
      assert s == [s[0]] + s[1..];
      Insert(s[0], SortByAppId(s[1..]))
  }

  /** A row occurring twice in a sequence is at two positions. */
  lemma {:induction false} TwoPositions(s: seq<AppRow>, x: AppRow)
    requires multiset(s)[x] >= 2
    ensures exists i, j :: 0 <= i < j < |s| && s[i] == x && s[j] == x
    decreases |s|
  {
    assert s == [s[0]] + s[1..];
    if s[0] == x {
      assert x in multiset(s[1..]);
      var j :| 0 <= j < |s[1..]| && s[1..][j] == x;
      assert s[0] == x && s[j + 1] == x;
    } else {
      TwoPositions(s[1..], x);
      var i, j :| 0 <= i < j < |s[1..]| && s[1..][i] == x && s[1..][j] == x;
      assert s[i + 1] == x && s[j + 1] == x;
    }
  }

  /** An element at two positions occurs at least twice. */
  lemma TwiceCounted(t: seq<AppRow>, lo: nat, hi: nat)
    requires lo < hi < |t| && t[lo] == t[hi]
    ensures multiset(t)[t[lo]] >= 2
  {
    assert t == t[..lo] + [t[lo]] + t[lo + 1..hi] + [t[hi]] + t[hi + 1..];
  }

  /** A row of `t` at position `i` is at some position of `s`, when the two hold the same rows. */
  lemma PositionIn(s: seq<AppRow>, t: seq<AppRow>, i: nat) returns (p: nat)
    requires multiset(s) == multiset(t) && i < |t|
    ensures p < |s| && s[p] == t[i]
  {
    assert t[i] in multiset(s);
    p :| 0 <= p < |s| && s[p] == t[i];
  }

  /** Reordering keeps ids distinct. */
  lemma DistinctIdsReordered(s: seq<AppRow>, t: seq<AppRow>)
    requires multiset(s) == multiset(t)
    requires DistinctIds(s)
    ensures DistinctIds(t)
  {
    forall i, j | 0 <= i < |t| && 0 <= j < |t| && i != j
      ensures t[i].appId != t[j].appId
    {
      if t[i] == t[j] {
        if i < j { TwiceCounted(t, i, j); } else { TwiceCounted(t, j, i); }
        TwoPositions(s, t[i]);
      } else {
        var p := PositionIn(s, t, i);
        var q := PositionIn(s, t, j);
        assert p != q;
      }
    }
  }

  /** Equal multisets with equal first elements have equal tails. */
  lemma SameTails<T>(s: seq<T>, t: seq<T>)
    requires s != [] && t != [] && s[0] == t[0]
    requires multiset(s) == multiset(t)
    ensures multiset(s[1..]) == multiset(t[1..])
  {
    assert s == [s[0]] + s[1..] && t == [t[0]] + t[1..];
    forall x
      ensures multiset(s[1..])[x] == multiset(t[1..])[x]
    {
      assert multiset(s)[x] == multiset{s[0]}[x] + multiset(s[1..])[x];
      assert multiset(t)[x] == multiset{s[0]}[x] + multiset(t[1..])[x];
    }
  }

  /** Rows with distinct ids have one order only: two sorted arrangements of them are equal. */
  lemma {:induction false} SortedUnique(s: seq<AppRow>, t: seq<AppRow>)
    requires Sorted(s) && Sorted(t)
    requires DistinctIds(s) && DistinctIds(t)
    requires multiset(s) == multiset(t)
    ensures s == t
    decreases |s|
  {
    if s == [] {
      assert |multiset(t)| == 0;
    } else {
      assert |t| == |multiset(t)| == |s|;
      assert s[0] in multiset(t) && t[0] in multiset(s);
      var j :| 0 <= j < |t| && t[j] == s[0];
      var i :| 0 <= i < |s| && s[i] == t[0];
      assert Below(t[0].appId, s[0].appId) by {
        if j != 0 { assert Below(t[0].appId, t[j].appId); } else { BelowReflexive(s[0].appId); }
      }
      assert Below(s[0].appId, t[0].appId) by {
        if i != 0 { assert Below(s[0].appId, s[i].appId); } else { BelowReflexive(s[0].appId); }
      }
      BelowAntisymmetric(s[0].appId, t[0].appId);
      assert i == 0;
      assert s[0] == t[0];
      SameTails(s, t);
      SortedUnique(s[1..], t[1..]);
    }
  }

  /** With distinct ids, sorting forgets the input order. */
  lemma SortIgnoresOrder(a: seq<AppRow>, b: seq<AppRow>)
    requires DistinctIds(a)
    requires multiset(a) == multiset(b)
    ensures SortByAppId(a) == SortByAppId(b)
  {
    var sa, sb := SortByAppId(a), SortByAppId(b);
    DistinctIdsReordered(a, sa);
    DistinctIdsReordered(a, sb);
    SortedUnique(sa, sb);
  }

  /** The rows of the builder's tests come out in id order. */
  lemma SortExample()
    ensures SortByAppId([AppRow("com.test", "example"), AppRow("com.page", "page")])
      == [AppRow("com.page", "page"), AppRow("com.test", "example")]
  {
  }
}
