/**
 * The deterministic three-way split of the data set builder (betel/data_set_builder.py):
 * sort by app id, apply the permutation fixed by the seed, cut at 70% and 85%.
 */
module DataSetBuilder {
  import opened AppSort
  import opened Shuffling

  /**
   * The fixed seed handed to the random permutation. The permutation it selects for a list of
   * `n` rows is given to the model as Fisher–Yates draws for `n` elements: the same for every
   * list of that length.
   */
  const RandomSeed: nat := 2579

  /** One named part of the split, as an entry of the returned dictionary. */
  datatype Part = Part(name: string, rows: seq<AppRow>)

  /** `int(0.7 * n)`, read as the exact decimal product. */
  function Index1(n: nat): nat
  {
    7 * n / 10
  }

  /** `int(0.85 * n)`, read as the exact decimal product. */
  function Index2(n: nat): nat
  {
    17 * n / 20
  }

  /** The cut points are ordered and within the list, so the three sizes add up to `n`. */
  lemma BoundsOrdered(n: nat)
    ensures 0 <= Index1(n) <= Index2(n) <= n
  {
    assert 7 * n / 10 == 14 * n / 20;
  }

  /** The sorted list after the seeded permutation. */
  function Permuted(data: seq<AppRow>, draws: seq<nat>): (rows: seq<AppRow>)
    requires ValidDraws(draws, |data|)
    ensures |rows| == |data|
    ensures multiset(rows) == multiset(data)
  {
    Shuffle(SortByAppId(data), draws)
  }

  /** The slices at the two cut points, under their names; concatenated they give the list back. */
  function Cut(rows: seq<AppRow>): (parts: seq<Part>)
    ensures |parts| == 3
    ensures parts[0].name == "train" && parts[1].name == "validation" && parts[2].name == "test"
    ensures parts[0].rows + parts[1].rows + parts[2].rows == rows
    ensures |parts[0].rows| == Index1(|rows|)
    ensures |parts[1].rows| == Index2(|rows|) - Index1(|rows|)
    ensures |parts[2].rows| == |rows| - Index2(|rows|)
  {
    BoundsOrdered(|rows|);
    var i1, i2 := Index1(|rows|), Index2(|rows|);
    assert rows[..i1] + rows[i1..i2] + rows[i2..] == rows;
    [Part("train", rows[..i1]), Part("validation", rows[i1..i2]), Part("test", rows[i2..])]
  }

  /**
   * `split`: the permuted list cut into train, validation and test; concatenated in that order
   * the parts give the permuted list back, with sizes `i1`, `i2 - i1` and `n - i2`.
   */
  function Split(data: seq<AppRow>, draws: seq<nat>): (parts: seq<Part>)
    requires ValidDraws(draws, |data|)
    ensures |parts| == 3
    ensures parts[0].name == "train" && parts[1].name == "validation" && parts[2].name == "test"
    ensures parts[0].rows + parts[1].rows + parts[2].rows == Permuted(data, draws)
    ensures |parts[0].rows| == Index1(|data|)
    ensures |parts[1].rows| == Index2(|data|) - Index1(|data|)
    ensures |parts[2].rows| == |data| - Index2(|data|)
  {
    Cut(Permuted(data, draws))
  }

  /** The parts together hold exactly the input rows, with their multiplicities. */
  lemma SplitIsPermutation(data: seq<AppRow>, draws: seq<nat>)
    requires ValidDraws(draws, |data|)
    ensures var parts := Split(data, draws);
      multiset(parts[0].rows) + multiset(parts[1].rows) + multiset(parts[2].rows) == multiset(data)
  {
    var parts := Split(data, draws);
    assert multiset(parts[0].rows + parts[1].rows + parts[2].rows)
      == multiset(parts[0].rows) + multiset(parts[1].rows) + multiset(parts[2].rows);
  }

  /** The cut points of a list of `n` rows, with 0 and `n` at the ends. */
  function Bound(n: nat, r: nat): (b: nat)
    requires r <= 3
    ensures b <= n
  {
    BoundsOrdered(n);
    if r == 0 then 0 else if r == 1 then Index1(n) else if r == 2 then Index2(n) else n
  }

  /** Part `r` is the slice between cut points `r` and `r + 1`. */
  lemma CutPart(rows: seq<AppRow>, r: nat)
    requires r < 3
    ensures Bound(|rows|, r) <= Bound(|rows|, r + 1)
    ensures Cut(rows)[r].rows == rows[Bound(|rows|, r)..Bound(|rows|, r + 1)]
  {
    BoundsOrdered(|rows|);
  }

  /** A row of a slice is at a position within the slice's bounds. */
  lemma InSlice(rows: seq<AppRow>, lo: nat, hi: nat, y: AppRow) returns (j: nat)
    requires lo <= hi <= |rows| && y in rows[lo..hi]
    ensures lo <= j < hi && rows[j] == y
  {
    var k :| 0 <= k < hi - lo && rows[lo..hi][k] == y;
    j := lo + k;
  }

  /** The slices of two different parts do not overlap. */
  lemma BoundsApart(n: nat, p: nat, q: nat)
    requires p < 3 && q < 3 && p != q
    ensures Bound(n, p + 1) <= Bound(n, q) || Bound(n, q + 1) <= Bound(n, p)
  {
    BoundsOrdered(n);
  }

  /** Rows cut into different parts never share an app id, when the ids are distinct. */
  lemma CutDisjoint(rows: seq<AppRow>, p: nat, q: nat, x: AppRow, y: AppRow)
    requires DistinctIds(rows)
    requires p < 3 && q < 3 && p != q
    requires x in Cut(rows)[p].rows && y in Cut(rows)[q].rows
    ensures x.appId != y.appId
  {
    var n := |rows|;
    CutPart(rows, p);
    CutPart(rows, q);
    var i := InSlice(rows, Bound(n, p), Bound(n, p + 1), x);
    var j := InSlice(rows, Bound(n, q), Bound(n, q + 1), y);
    BoundsApart(n, p, q);
  }

  /** Two rows placed in different parts never share an app id, when the input ids are distinct. */
  lemma SplitDisjoint(data: seq<AppRow>, draws: seq<nat>, p: nat, q: nat, x: AppRow, y: AppRow)
    requires ValidDraws(draws, |data|)
    requires DistinctIds(data)
    requires p < 3 && q < 3 && p != q
    requires x in Split(data, draws)[p].rows && y in Split(data, draws)[q].rows
    ensures x.appId != y.appId
  {
    var rows := Permuted(data, draws);
    DistinctIdsReordered(data, rows);
    CutDisjoint(rows, p, q, x, y);
  }

  /**
   * With distinct app ids the split does not depend on the order of the input rows: sorting
   * comes first, and the permutation depends only on the fixed seed and the length.
   */
  lemma SplitIgnoresOrder(a: seq<AppRow>, b: seq<AppRow>, draws: seq<nat>)
    requires DistinctIds(a)
    requires multiset(a) == multiset(b)
    requires ValidDraws(draws, |a|)
    ensures |b| == |a|
    ensures Split(a, draws) == Split(b, draws)
  {
    assert |a| == |multiset(a)| == |multiset(b)| == |b|;
    SortIgnoresOrder(a, b);
  }

  /** The dictionary has exactly the keys train, validation and test. */
  lemma CutKeys(rows: seq<AppRow>)
    ensures (set p | p in Cut(rows) :: p.name) == {"train", "validation", "test"}
  {
    var parts := Cut(rows);
    assert parts == [parts[0], parts[1], parts[2]];
  }

  /** The dictionary returned by `split` has exactly the keys train, validation and test. */
  lemma SplitKeys(data: seq<AppRow>, draws: seq<nat>)
    requires ValidDraws(draws, |data|)
    ensures (set p | p in Split(data, draws) :: p.name) == {"train", "validation", "test"}
  {
    CutKeys(Permuted(data, draws));
  }

  /** `_build_set`: the hook calls for one part, each of its rows in order with the part's name. */
  function PartCalls(p: Part): (calls: seq<(AppRow, string)>)
    ensures |calls| == |p.rows|
    ensures forall k :: 0 <= k < |p.rows| ==> calls[k] == (p.rows[k], p.name)
  {
    seq(|p.rows|, k requires 0 <= k < |p.rows| => (p.rows[k], p.name))
  }

  /** The hook calls of `split_and_build_data_sets`: those of every part, in key order. */
  function Calls(parts: seq<Part>): (calls: seq<(AppRow, string)>)
    decreases |parts|
  {
    if parts == [] then [] else var n := |parts| - 1; Calls(parts[..n]) + PartCalls(parts[n])
  }

  lemma CallsOfThree(parts: seq<Part>)
    requires |parts| == 3
    ensures Calls(parts) == PartCalls(parts[0]) + PartCalls(parts[1]) + PartCalls(parts[2])
  {
    assert parts[..2][..1] == parts[..1];
    assert parts[..1][..0] == [];
    assert Calls(parts[..1]) == PartCalls(parts[0]);
    assert Calls(parts[..2]) == PartCalls(parts[0]) + PartCalls(parts[1]);
  }

  /** The name of the part that position `k` of a list of `n` rows is cut into. */
  function PartName(n: nat, k: nat): string
  {
    if k < Index1(n) then "train" else if k < Index2(n) then "validation" else "test"
  }

  /** Call `k` of a cut list passes row `k` with the name of the part that position falls in. */
  lemma CutCalls(rows: seq<AppRow>)
    ensures |Calls(Cut(rows))| == |rows|
    ensures forall k :: 0 <= k < |rows| ==>
      (Calls(Cut(rows))[k].0 == rows[k] && Calls(Cut(rows))[k].1 == PartName(|rows|, k))
  {
    CallsOfThree(Cut(rows));
    forall k | 0 <= k < |rows|
      ensures Calls(Cut(rows))[k] == (rows[k], PartName(|rows|, k))
    {
      CutCallAt(rows, k);
    }
  }

  lemma CutCallAt(rows: seq<AppRow>, k: nat)
    requires k < |rows|
    ensures var parts := Cut(rows);
      (PartCalls(parts[0]) + PartCalls(parts[1]) + PartCalls(parts[2]))[k] == (rows[k], PartName(|rows|, k))
  {
    var parts := Cut(rows);
    var i1, i2 := Index1(|rows|), Index2(|rows|);
    var a, b, c := PartCalls(parts[0]), PartCalls(parts[1]), PartCalls(parts[2]);
    if k < i1 {
      assert (a + b + c)[k] == a[k];
      CutPart(rows, 0);
    } else if k < i2 {
      assert (a + b + c)[k] == b[k - i1];
      CutPart(rows, 1);
    } else {
      assert (a + b + c)[k] == c[k - i2];
      CutPart(rows, 2);
    }
  }

  /**
   * `split_and_build_data_sets` calls the hook once per row of the split, in the permuted order,
   * passing each row with the name of the part that holds it.
   */
  lemma SplitCalls(data: seq<AppRow>, draws: seq<nat>)
    requires ValidDraws(draws, |data|)
    ensures |Calls(Split(data, draws))| == |data|
    ensures forall k :: 0 <= k < |data| ==>
      (Calls(Split(data, draws))[k].0 == Permuted(data, draws)[k] &&
       Calls(Split(data, draws))[k].1 == PartName(|data|, k))
  {
    CutCalls(Permuted(data, draws));
  }
}
