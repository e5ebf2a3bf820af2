/**
 * The batch sequencer of the classifier's training input (src/classifier_sequence.py): the
 * icons of every category directory, served in batches of a fixed size, the last one padded
 * from the front of the list, each icon labelled by the id of its category.
 */
module ClassifierSequence {
  import opened Wrappers
  import opened Shuffling

  /** An icon file and the category (directory) it was found in. */
  type Icon = (string, string)

  /** One category directory of the input directory, with its icon files in listing order. */
  datatype CategoryDir = CategoryDir(name: string, icons: seq<string>)

  // ---------------------------------------------------------------------------------------------
  // Categories and their ids

  /** The category names, in listing order. */
  function Names(dirs: seq<CategoryDir>): (names: seq<string>)
    ensures |names| == |dirs|
    ensures forall i :: 0 <= i < |dirs| ==> names[i] == dirs[i].name
  {
    seq(|dirs|, i requires 0 <= i < |dirs| => dirs[i].name)
  }

  /** `_add_icons`: the icons of one directory, paired with its name. */
  function IconsIn(dir: CategoryDir): (icons: seq<Icon>)
    ensures |icons| == |dir.icons|
    ensures forall k :: 0 <= k < |icons| ==> icons[k] == (dir.icons[k], dir.name)
  {
    seq(|dir.icons|, k requires 0 <= k < |dir.icons| => (dir.icons[k], dir.name))
  }

  /** The icons of all directories, directory after directory. */
  function IconsOf(dirs: seq<CategoryDir>): (icons: seq<Icon>)
    ensures forall k :: 0 <= k < |icons| ==> icons[k].1 in Names(dirs)
    decreases |dirs|
  {
    if dirs == [] then []
    else
      var n := |dirs| - 1;
      var icons := IconsOf(dirs[..n]) + IconsIn(dirs[n]);
      assert forall k :: 0 <= k < |IconsOf(dirs[..n])| ==> IconsOf(dirs[..n])[k].1 in Names(dirs[..n]);
      assert forall name :: name in Names(dirs[..n]) ==> name in Names(dirs);
      icons
  }

  /** `dict(enumerate(categories))`: the id of a category is its position. */
  function IdToName(categories: seq<string>): (m: map<nat, string>)
    ensures forall i: nat :: i in m <==> i < |categories|
    ensures forall i :: 0 <= i < |categories| ==> m[i] == categories[i]
  {
    map i | 0 <= i < |categories| :: categories[i]
  }

  /**
   * `{y: x for x, y in enumerate(categories)}`: every name maps to a position holding it, the
   * last one when a name repeats.
   */
  function NameToId(categories: seq<string>): (m: map<string, nat>)
    ensures m.Keys == set name | name in categories
    ensures forall name :: name in m ==> m[name] < |categories| && categories[m[name]] == name
    ensures forall name, j :: name in m && m[name] < j < |categories| ==> categories[j] != name
    decreases |categories|
  {
    if categories == [] then map[]
    else
      var n := |categories| - 1;
      var init := NameToId(categories[..n]);
      NameToIdStep(categories[..n], categories[n], init);
      assert categories == categories[..n] + [categories[n]];
      init[categories[n] := n]
  }

  /** The step of `NameToId`: a name added at the end takes the last position. */
  lemma NameToIdStep(init: seq<string>, last: string, m: map<string, nat>)
    requires m.Keys == set name | name in init
    requires forall name :: name in m ==> m[name] < |init| && init[m[name]] == name
    requires forall name, j :: name in m && m[name] < j < |init| ==> init[j] != name
    ensures var all, r := init + [last], m[last := |init|];
      r.Keys == (set name | name in all) &&
      (forall name :: name in r ==> r[name] < |all| && all[r[name]] == name) &&
      (forall name, j :: name in r && r[name] < j < |all| ==> all[j] != name)
  {
    var all, r := init + [last], m[last := |init|];
    assert forall name :: name in all <==> name in init || name == last;
    forall name | name in r
      ensures r[name] < |all| && all[r[name]] == name
    {
      if name != last {
        assert all[m[name]] == init[m[name]];
      }
    }
    forall name, j | name in r && r[name] < j < |all|
      ensures all[j] != name
    {
      if j < |init| {
        assert all[j] == init[j];
      }
    }
  }

  /** The name of a name's id is that name, whatever the listing. */
  lemma IdOfNameNamesIt(categories: seq<string>, name: string)
    requires name in categories
    ensures name in NameToId(categories) && NameToId(categories)[name] in IdToName(categories)
    ensures IdToName(categories)[NameToId(categories)[name]] == name
  {
  }

  /** With distinct directory names, the id of an id's name is that id: the two maps are inverse. */
  lemma NameOfIdIdentifiesIt(categories: seq<string>, i: nat)
    requires forall a, b :: 0 <= a < b < |categories| ==> categories[a] != categories[b]
    requires i < |categories|
    ensures IdToName(categories)[i] in NameToId(categories)
    ensures NameToId(categories)[IdToName(categories)[i]] == i
  {
    assert categories[i] in categories;
  }

  // ---------------------------------------------------------------------------------------------
  // Batches

  /** `math.ceil(n / b)`: the number of batches, the least count whose batches hold all `n` icons. */
  function BatchCount(n: nat, b: nat): (r: nat)
    requires b > 0
    ensures r * b >= n
    ensures r == 0 || (r - 1) * b < n
  {
    var r := (n + b - 1) / b;
    assert r * b + (n + b - 1) % b == n + b - 1;
    r
  }

  /** The examples of the sequencer's tests: 6, 7 and 5 icons in batches of 3. */
  lemma BatchCountExamples()
    ensures BatchCount(6, 3) == 2 && BatchCount(7, 3) == 3 && BatchCount(5, 3) == 2
  {
  }

  /** `s[lo:hi]` for `0 <= lo <= hi`: the bounds are clipped to the length. */
  function Slice<T>(s: seq<T>, lo: nat, hi: nat): (r: seq<T>)
    requires lo <= hi
    ensures |r| == (if hi <= |s| then hi - lo else if lo <= |s| then |s| - lo else 0)
    ensures forall k :: 0 <= k < |r| ==> r[k] == s[lo + k]
  {
    if lo >= |s| then [] else if hi >= |s| then s[lo..] else s[lo..hi]
  }

  /**
   * The first `m` items of the endless repetition of `s`: its first `|s|` items are those of `s`,
   * and every later item repeats the one `|s|` places before it.
   */
  function Cycle<T>(s: seq<T>, m: nat): (r: seq<T>)
    requires m == 0 || |s| > 0
    ensures |r| == m
    ensures forall k :: 0 <= k < m && k < |s| ==> r[k] == s[k]
    ensures forall k :: |s| <= k < m ==> r[k] == r[k - |s|]
    ensures forall k :: 0 <= k < m ==> r[k] in s
    decreases m
  {
    if m <= |s| then s[..m]
    else
      var rest := Cycle(s, m - |s|);
      var r := s + rest;
      assert forall k :: |s| <= k < m ==> r[k] == rest[k - |s|];
      r
  }

  /** `t` whole copies of `s`. */
  function Repeat<T>(s: seq<T>, t: nat): (r: seq<T>)
    decreases t
  {
    if t == 0 then [] else s + Repeat(s, t - 1)
  }

  lemma {:induction false} RepeatCommutes<T>(s: seq<T>, t: nat)
    ensures Repeat(s, t) + s == s + Repeat(s, t)
    decreases t
  {
    if t > 0 {
      RepeatCommutes(s, t - 1);
    }
  }

  /** Whole copies followed by a prefix are the start of the repetition. */
  lemma {:induction false} CycleAfterRepeat<T>(s: seq<T>, t: nat, m: nat)
    requires |s| > 0 && m <= |s|
    ensures Cycle(s, |Repeat(s, t)| + m) == Repeat(s, t) + s[..m]
    decreases t
  {
    if t > 0 {
      CycleAfterRepeat(s, t - 1, m);
      if |Repeat(s, t - 1)| + m == 0 {
        assert Repeat(s, t - 1) == [];
      }
    }
  }

  /**
   * Batch `idx`: the slice `[idx * b, (idx + 1) * b)` of the icons, padded to `b` items by
   * repeating the icon list from its front.
   */
  function BatchItems(icons: seq<Icon>, b: nat, idx: nat): (items: seq<Icon>)
    requires b > 0 && |icons| > 0
    ensures |items| == b
    ensures forall k :: 0 <= k < b ==> items[k] in icons
  {
    var lo := idx * b;
    var slice := Slice(icons, lo, lo + b);
    slice + Cycle(icons, b - |slice|)
  }

  /** A batch inside the list is the slice itself, unpadded. */
  lemma FullBatch(icons: seq<Icon>, b: nat, idx: nat)
    requires b > 0 && |icons| > 0
    requires idx * b + b <= |icons|
    ensures BatchItems(icons, b, idx) == icons[idx * b..idx * b + b]
  {
  }

  /** Seven icons in batches of three: batch 2 wraps around to icons 6, 0 and 1. */
  lemma PaddingExample(icons: seq<Icon>)
    requires |icons| == 7
    ensures BatchItems(icons, 3, 2) == [icons[6], icons[0], icons[1]]
  {
    assert Slice(icons, 6, 9) == [icons[6]];
    assert Cycle(icons, 2) == [icons[0], icons[1]];
  }

  /** The batches `0 .. count - 1`, concatenated. */
  function AllBatches(icons: seq<Icon>, b: nat, count: nat): (items: seq<Icon>)
    requires b > 0 && |icons| > 0
    ensures |items| == count * b
    decreases count
  {
    if count == 0 then [] else AllBatches(icons, b, count - 1) + BatchItems(icons, b, count - 1)
  }

  lemma PrefixSplit<T>(s: seq<T>, lo: nat, hi: nat)
    requires lo <= hi <= |s|
    ensures s[..hi] == s[..lo] + s[lo..hi]
  {
  }

  lemma MulStep(c: nat, b: nat)
    requires c > 0
    ensures (c - 1) * b + b == c * b
  {
  }

  lemma {:induction false} FullBatchesArePrefix(icons: seq<Icon>, b: nat, count: nat)
    requires b > 0 && |icons| > 0
    requires count * b <= |icons|
    ensures AllBatches(icons, b, count) == icons[..count * b]
    decreases count
  {
    if count > 0 {
      var lo := (count - 1) * b;
      MulStep(count, b);
      FullBatchesArePrefix(icons, b, count - 1);
      FullBatch(icons, b, count - 1);
      PrefixSplit(icons, lo, lo + b);
    }
  }

  /**
   * Iterating over the sequence once, without shuffling, serves every icon exactly once and in
   * order before the padding: the first `n` items of all batches are the icons.
   */
  lemma AllBatchesCoverIcons(icons: seq<Icon>, b: nat)
    requires b > 0 && |icons| > 0
    ensures AllBatches(icons, b, BatchCount(|icons|, b))[..|icons|] == icons
  {
    var n := |icons|;
    var count := BatchCount(n, b);
    var last := count - 1;
    var lo := last * b;
    assert lo + b == count * b;
    FullBatchesArePrefix(icons, b, last);
    LastBatchStartsWithRest(icons, b, last);
    assert AllBatches(icons, b, count) == icons[..lo] + BatchItems(icons, b, last);
    assert icons == icons[..lo] + icons[lo..];
  }

  /** The batch holding the last icons begins with them. */
  lemma LastBatchStartsWithRest(icons: seq<Icon>, b: nat, idx: nat)
    requires b > 0 && |icons| > 0
    requires idx * b < |icons| <= idx * b + b
    ensures BatchItems(icons, b, idx)[..|icons| - idx * b] == icons[idx * b..]
  {
    var lo := idx * b;
    assert Slice(icons, lo, lo + b) == icons[lo..];
  }

  /** `category_name_to_id[category]` for every item. */
  function Labels(nameToId: map<string, nat>, items: seq<Icon>): (labels: seq<nat>)
    requires forall k :: 0 <= k < |items| ==> items[k].1 in nameToId
    ensures |labels| == |items|
    ensures forall k :: 0 <= k < |items| ==> labels[k] == nameToId[items[k].1]
  {
    seq(|items|, k requires 0 <= k < |items| => nameToId[items[k].1])
  }

  /** The labels of all batches, cut to the number of icons, are the labels of the icons in order. */
  lemma AllLabelsCountIcons(nameToId: map<string, nat>, icons: seq<Icon>, b: nat)
    requires b > 0 && |icons| > 0
    requires forall k :: 0 <= k < |icons| ==> icons[k].1 in nameToId
    ensures var items := AllBatches(icons, b, BatchCount(|icons|, b))[..|icons|];
      (forall k :: 0 <= k < |items| ==> items[k].1 in nameToId) &&
      Labels(nameToId, items) == Labels(nameToId, icons)
  {
    AllBatchesCoverIcons(icons, b);
  }

  /** The labels of two runs of items, one after the other. */
  lemma LabelsConcat(nameToId: map<string, nat>, a: seq<Icon>, b: seq<Icon>)
    requires forall k :: 0 <= k < |a| ==> a[k].1 in nameToId
    requires forall k :: 0 <= k < |b| ==> b[k].1 in nameToId
    ensures forall k :: 0 <= k < |a + b| ==> (a + b)[k].1 in nameToId
    ensures Labels(nameToId, a + b) == Labels(nameToId, a) + Labels(nameToId, b)
  {
    forall k | 0 <= k < |a + b|
      ensures (a + b)[k].1 in nameToId
    {
      if k < |a| {
        assert (a + b)[k] == a[k];
      } else {
        assert (a + b)[k] == b[k - |a|];
      }
    }
  }

  /** A sequence holding one value only counts it once per position, and nothing else. */
  lemma {:induction false} CountConstant(s: seq<nat>, v: nat, w: nat)
    requires forall k :: 0 <= k < |s| ==> s[k] == v
    ensures multiset(s)[w] == if w == v then |s| else 0
    decreases |s|
  {
    if s != [] {
      var n := |s| - 1;
      CountConstant(s[..n], v, w);
      assert s == s[..n] + [s[n]];
    }
  }

  /**
   * When every directory's name has its position as id, id `i` occurs among the labels of all
   * icons as often as directory `i` holds icons, and an id past the directories never occurs.
   */
  lemma {:induction false} LabelCountsOfDirs(nameToId: map<string, nat>, dirs: seq<CategoryDir>, i: nat)
    requires forall j :: 0 <= j < |dirs| ==> dirs[j].name in nameToId && nameToId[dirs[j].name] == j
    ensures forall k :: 0 <= k < |IconsOf(dirs)| ==> IconsOf(dirs)[k].1 in nameToId
    ensures multiset(Labels(nameToId, IconsOf(dirs)))[i] == if i < |dirs| then |dirs[i].icons| else 0
    decreases |dirs|
  {
    forall k | 0 <= k < |IconsOf(dirs)|
      ensures IconsOf(dirs)[k].1 in nameToId
    {
      var j :| 0 <= j < |Names(dirs)| && Names(dirs)[j] == IconsOf(dirs)[k].1;
    }
    if dirs != [] {
      var n := |dirs| - 1;
      var init, d := dirs[..n], dirs[n];
      assert forall j :: 0 <= j < n ==> init[j] == dirs[j];
      LabelCountsOfDirs(nameToId, init, i);
      var a, b := IconsOf(init), IconsIn(d);
      assert IconsOf(dirs) == a + b;
      LabelsConcat(nameToId, a, b);
      CountConstant(Labels(nameToId, b), n, i);
      assert multiset(Labels(nameToId, a) + Labels(nameToId, b))
        == multiset(Labels(nameToId, a)) + multiset(Labels(nameToId, b));
    }
  }

  /**
   * Iterating over the sequence once, without shuffling, and keeping the first `n` labels: with
   * distinct directory names, id `i` occurs exactly as often as directory `i` holds icons.
   */
  lemma LabelCountsAreCategorySizes(dirs: seq<CategoryDir>, b: nat, i: nat)
    requires forall x, y :: 0 <= x < y < |dirs| ==> dirs[x].name != dirs[y].name
    requires b > 0 && |IconsOf(dirs)| > 0
    ensures var nameToId, icons := NameToId(Names(dirs)), IconsOf(dirs);
      var items := AllBatches(icons, b, BatchCount(|icons|, b))[..|icons|];
      (forall k :: 0 <= k < |items| ==> items[k].1 in nameToId) &&
      multiset(Labels(nameToId, items))[i] == if i < |dirs| then |dirs[i].icons| else 0
  {
    var names := Names(dirs);
    var nameToId := NameToId(names);
    forall j | 0 <= j < |dirs|
      ensures dirs[j].name in nameToId && nameToId[dirs[j].name] == j
    {
      NameOfIdIdentifiesIt(names, j);
    }
    LabelCountsOfDirs(nameToId, dirs, i);
    AllLabelsCountIcons(nameToId, IconsOf(dirs), b);
  }

  // ---------------------------------------------------------------------------------------------
  // Resizing an icon to the target size

  /** Width and height, in pixels. */
  datatype Size = Size(width: int, height: int)

  /** `np.floor_divide(target - size, 2)` per dimension (Dafny's `/` by 2 rounds down as well). */
  function Border(target: Size, size: Size): (border: Size)
    ensures 2 * border.width <= target.width - size.width < 2 * border.width + 2
    ensures 2 * border.height <= target.height - size.height < 2 * border.height + 2
  {
    Size((target.width - size.width) / 2, (target.height - size.height) / 2)
  }

  /** The two ways `_resize_input` brings an icon to the target size. */
  datatype Resize =
    | Expand(border: Size)                                // pad with black on every side
    | Crop(left: int, upper: int, right: int, lower: int) // cut out (or pad to) a box

  /** `_resize_input`: pad when both borders are positive, otherwise crop the centred box. */
  function ResizeOf(target: Size, size: Size): (r: Resize)
    ensures r.Expand? <==> (size.width + 2 <= target.width && size.height + 2 <= target.height)
    ensures r.Expand? ==> r.border == Border(target, size)
    ensures r.Crop? ==> r.right - r.left == target.width && r.lower - r.upper == target.height
  {
    var border := Border(target, size);
    if border.width > 0 && border.height > 0 then Expand(border)
    else Crop(-border.width, -border.height, -border.width + target.width, -border.height + target.height)
  }

  /** The size of the image the resize produces, as written: padding adds the border twice. */
  function ResizedSizeAsWritten(target: Size, size: Size): (result: Size)
  {
    match ResizeOf(target, size)
    case Expand(border) => Size(size.width + 2 * border.width, size.height + 2 * border.height)
    case Crop(left, upper, right, lower) => Size(right - left, lower - upper)
  }

  /** An icon three pixels short of 192 in both dimensions comes out 191 pixels wide and high. */
  lemma ResizeOddDifferenceFallsShort()
    ensures ResizedSizeAsWritten(Size(192, 192), Size(189, 189)) == Size(191, 191)
  {
  }

  /** As written, padding reaches the target exactly when the differences are even. */
  lemma ResizedSizeAsWrittenReachesTarget(target: Size, size: Size)
    requires ResizeOf(target, size).Expand?
    ensures ResizedSizeAsWritten(target, size) == target <==>
      ((target.width - size.width) % 2 == 0 && (target.height - size.height) % 2 == 0)
  {
  }

  /**
   * The intended resize: padding puts the floor of half the difference on the left and top and
   * the rest on the right and bottom, so every icon comes out at the target size.
   */
  function ResizedSize(target: Size, size: Size): (result: Size)
    ensures result == target
  {
    match ResizeOf(target, size)
    case Expand(border) =>
      var right := target.width - size.width - border.width;
      var lower := target.height - size.height - border.height;
      Size(border.width + size.width + right, border.height + size.height + lower)
    case Crop(left, upper, right, lower) => Size(right - left, lower - upper)
  }

  /** The icons of the sequencer's tests (180 pixels, target 192) are padded to the target either way. */
  lemma TestIconsReachTarget()
    ensures ResizeOf(Size(192, 192), Size(180, 180)) == Expand(Size(6, 6))
    ensures ResizedSizeAsWritten(Size(192, 192), Size(180, 180)) == Size(192, 192)
  {
  }

  // ---------------------------------------------------------------------------------------------
  // The sequencer

  class Sequencer {
    /** The category directories of the input directory, in listing order. */
    const inputDir: seq<CategoryDir>
    const batchSize: nat
    const targetSize: Size
    const shuffle: bool
    /** `_app_icons`: every icon with its category. */
    var appIcons: seq<Icon>
    var idToName: map<nat, string>
    var nameToId: map<string, nat>

    /** Batches are non-empty and every icon's category has an id. */
    predicate Valid()
      reads this
    {
      batchSize > 0 && forall k :: 0 <= k < |appIcons| ==> appIcons[k].1 in nameToId
    }

    /** `__init__` on an existing input directory. */
    constructor (inputDir: seq<CategoryDir>, batchSize: nat, targetDim: int, shuffle: bool)
      requires batchSize > 0
      ensures Valid()
      ensures this.inputDir == inputDir && this.batchSize == batchSize && this.shuffle == shuffle
      ensures targetSize == Size(targetDim, targetDim)
      ensures appIcons == IconsOf(inputDir)
      ensures idToName == IdToName(Names(inputDir)) && nameToId == NameToId(Names(inputDir))
    {
      this.inputDir := inputDir;
      this.batchSize := batchSize;
      this.shuffle := shuffle;
      targetSize := Size(targetDim, targetDim);
      appIcons := [];
      new;
      var categories := GetCategories();
      idToName := IdToName(categories);
      nameToId := NameToId(categories);
    }

    /** `_get_categories`: lists the directories, adding the icons of each. */
    method GetCategories() returns (categories: seq<string>)
      requires appIcons == []
      modifies this
      ensures categories == Names(inputDir)
      ensures appIcons == IconsOf(inputDir)
      ensures idToName == old(idToName) && nameToId == old(nameToId)
    {
      categories := [];
      for i := 0 to |inputDir|
        invariant categories == Names(inputDir[..i])
        invariant appIcons == IconsOf(inputDir[..i])
        invariant idToName == old(idToName) && nameToId == old(nameToId)
      {
        assert inputDir[..i + 1][..i] == inputDir[..i];
        categories := categories + [inputDir[i].name];
        AddIcons(inputDir[i]);
      }
      assert inputDir[..|inputDir|] == inputDir;
    }

    /** `_add_icons`: appends the icons of one directory. */
    method AddIcons(dir: CategoryDir)
      modifies this
      ensures appIcons == old(appIcons) + IconsIn(dir)
      ensures idToName == old(idToName) && nameToId == old(nameToId)
    {
      appIcons := appIcons + IconsIn(dir);
    }

    /** `__len__`. */
    function Len(): (r: nat)
      reads this
      requires batchSize > 0
      ensures r * batchSize >= |appIcons| && (r == 0 || (r - 1) * batchSize < |appIcons|)
    {
      BatchCount(|appIcons|, batchSize)
    }

    /**
     * `_fit_to_batch_size`: extends the batch with the front of the icon list, as often as
     * needed, until it holds `batchSize` items.
     */
    method FitToBatchSize(batch: seq<Icon>) returns (r: seq<Icon>)
      requires |batch| <= batchSize
      requires |batch| == batchSize || |appIcons| > 0
      ensures r == batch + Cycle(appIcons, batchSize - |batch|)
    {
      r := batch;
      ghost var rounds := 0;
      while batchSize != |r|
        invariant |batch| <= |r| <= batchSize
        invariant |r| < batchSize ==> r == batch + Repeat(appIcons, rounds)
        invariant |r| == batchSize ==> r == batch + Cycle(appIcons, batchSize - |batch|)
        decreases batchSize - |r|
      {
        var missing := batchSize - |r|;
        if missing <= |appIcons| {
          CycleAfterRepeat(appIcons, rounds, missing);
          r := r + appIcons[..missing];
        } else {
          RepeatCommutes(appIcons, rounds);
          r := r + appIcons;
          rounds := rounds + 1;
        }
      }
    }

    /**
     * `__getitem__`, without loading the images: the items of batch `idx` and their labels.
     * The list must hold an icon: on an empty one the padding never ends.
     */
    method GetItem(idx: nat) returns (items: seq<Icon>, labels: seq<nat>)
      requires Valid()
      requires |appIcons| > 0
      ensures items == BatchItems(appIcons, batchSize, idx)
      ensures |labels| == batchSize
      ensures forall k :: 0 <= k < batchSize ==> items[k].1 in nameToId && labels[k] == nameToId[items[k].1]
    {
      var lo := idx * batchSize;
      var batch := Slice(appIcons, lo, lo + batchSize);
      items := FitToBatchSize(batch);
      assert items == BatchItems(appIcons, batchSize, idx);
      ItemsKnown(appIcons, nameToId, items);
      labels := [];
      for k := 0 to |items|
        invariant |labels| == k
        invariant forall j :: 0 <= j < k ==> items[j].1 in nameToId && labels[j] == nameToId[items[j].1]
      {
        labels := labels + [nameToId[items[k].1]];
      }
    }

    /** `on_epoch_end`: with shuffling on, the icons are shuffled in place with the given draws. */
    method OnEpochEnd(draws: seq<nat>)
      requires Valid()
      requires ValidDraws(draws, |appIcons|)
      modifies this
      ensures Valid()
      ensures appIcons == if shuffle then Shuffle(old(appIcons), draws) else old(appIcons)
      ensures idToName == old(idToName) && nameToId == old(nameToId)
    {
      if shuffle {
        ShuffleKeepsCategories(appIcons, draws, nameToId);
        appIcons := Shuffle(appIcons, draws);
      }
    }
  }

  /** Items drawn from the icons have categories with ids when the icons do. */
  lemma ItemsKnown(icons: seq<Icon>, nameToId: map<string, nat>, items: seq<Icon>)
    requires forall k :: 0 <= k < |icons| ==> icons[k].1 in nameToId
    requires forall k :: 0 <= k < |items| ==> items[k] in icons
    ensures forall k :: 0 <= k < |items| ==> items[k].1 in nameToId
  {
    forall k | 0 <= k < |items|
      ensures items[k].1 in nameToId
    {
      assert items[k] in icons;
      var j :| 0 <= j < |icons| && icons[j] == items[k];
    }
  }

  /** Shuffling the icons keeps every icon's category among those with an id. */
  lemma ShuffleKeepsCategories(icons: seq<Icon>, draws: seq<nat>, nameToId: map<string, nat>)
    requires ValidDraws(draws, |icons|)
    requires forall k :: 0 <= k < |icons| ==> icons[k].1 in nameToId
    ensures forall k :: 0 <= k < |icons| ==> Shuffle(icons, draws)[k].1 in nameToId
  {
    var shuffled := Shuffle(icons, draws);
    forall k | 0 <= k < |icons|
      ensures shuffled[k].1 in nameToId
    {
      ShuffleSameElements(icons, draws, shuffled[k]);
      var j :| 0 <= j < |icons| && icons[j] == shuffled[k];
    }
  }

  /**
   * `__init__`: a missing input directory raises ValueError; an existing one gives a sequencer
   * over its category directories.
   */
  method Open(inputDir: Option<seq<CategoryDir>>, batchSize: nat, targetDim: int, shuffle: bool)
    returns (r: Result<Sequencer, string>)
    requires batchSize > 0
    ensures inputDir.None? <==> r.Failure?
    ensures r.Failure? ==> r.error == "Input directory does not exist."
    ensures r.Success? ==> fresh(r.value) && r.value.Valid() && r.value.appIcons == IconsOf(inputDir.value)
  {
    if inputDir.None? {
      return Failure("Input directory does not exist.");
    }
    var sequencer := new Sequencer(inputDir.value, batchSize, targetDim, shuffle);
    return Success(sequencer);
  }
}
