/**
 * The classifier data set builder (betel/classifier_data_set_builder.py): every row of the split
 * becomes, at most once per app, a record `app_id,data_set` in the info file of its (remapped)
 * category and a copy of the app's icon under `<data_set>/<category>/`.
 */
module ClassifierDataSetBuilder {
  import opened Wrappers
  import opened InfoFiles
  import opened Utils
  import opened AppSort
  import opened Shuffling
  import opened DataSetBuilder

  /** The columns of a category's info file. */
  const InfoHeader: Line := ["app_id", "data_set"]

  /** The category of apps whose category is not on the allow-list. */
  const Others: string := "others"

  /**
   * The category an app is filed under: without an allow-list its own; with one, its own when
   * listed and `Others` when not.
   */
  function Remap(category: string, classes: Option<seq<string>>): (c: string)
    ensures classes.None? ==> c == category
    ensures classes.Some? ==> (c in classes.value || c == Others)
    ensures classes.Some? && category in classes.value ==> c == category
    ensures c != category ==> classes.Some? && c == Others
  {
    if classes.Some? && category !in classes.value then Others else category
  }

  /** The allow-list of the builder's tests files `page` and `store` under `others`. */
  lemma RemapExample()
    ensures Remap("example", Some(["example", "play"])) == "example"
    ensures Remap("play", Some(["example", "play"])) == "play"
    ensures Remap("page", Some(["example", "play"])) == Others
    ensures Remap("page", None) == "page"
  {
  }

  /** `_build_app_info_data_frame`: the record `{app_id, data_set}`, written as `<id>,<data set>`. */
  function InfoRecord(appId: string, dataSet: string): (d: Record)
    ensures d.keys == InfoHeader
    ensures d.entries["app_id"] == appId && d.entries["data_set"] == dataSet
    ensures Values(d) == [appId, dataSet]
    ensures AsRow(d)["app_id"] == Some(appId)
  {
    Dict(InfoHeader, map["app_id" := appId, "data_set" := dataSet])
  }

  /** A path below the storage directory, one component per element. */
  type Path = seq<string>

  /** Where an app's icon is copied: `<data_set>/<category>/icon_<id>`. */
  function IconPath(dataSet: string, category: string, appId: string): (p: Path)
    ensures |p| == 3 && p[0] == dataSet && p[1] == category && p[2] == IconName(appId)
  {
    [dataSet, category, IconName(appId)]
  }

  /** What the builder has written: the info file of each category, and the copied icons. */
  datatype Output = Output(info: map<string, FileState>, icons: set<Path>)

  /** The info file of a category; one never written is missing. */
  function InfoFile(out: Output, category: string): FileState
  {
    if category in out.info then out.info[category] else Missing
  }

  /** The file is missing, empty, or headed by the info columns. */
  predicate HeaderOk(f: FileState)
  {
    f.Missing? || f.lines == [] || f.lines[0] == InfoHeader
  }

  /** Every info file written so far has the info columns as its header. */
  predicate WellFormed(out: Output)
  {
    forall c :: c in out.info ==> HeaderOk(out.info[c])
  }

  /** In a well-formed output the probe on `app_id` never raises. */
  lemma ProbeDefined(out: Output, appId: string, category: string)
    requires WellFormed(out)
    ensures Contains(InfoFile(out, category), Probe("app_id", appId)) ==
      Success(HasApp(RowsIn(InfoFile(out, category)), appId))
  {
    assert HeaderOk(InfoFile(out, category));
    ProbeOnAppId(InfoFile(out, category), appId);
  }

  /**
   * The category's info file already lists the app: what `part_of_data_set(info_file, {app_id})`
   * answers on a well-formed output (`ProbeDefined`).
   */
  predicate Known(out: Output, appId: string, category: string)
  {
    HasApp(RowsIn(InfoFile(out, category)), appId)
  }

  /**
   * `_add_to_data_set` on the output: unless the remapped category's info file already lists
   * the app or its icon is not among the input icons, append its record to that file and copy
   * the icon.
   */
  function Added(out: Output, inputIcons: set<string>, classes: Option<seq<string>>, row: AppRow, dataSet: string): (r: Output)
    requires WellFormed(out)
    ensures WellFormed(r)
  {
    var category := Remap(row.category, classes);
    if !Known(out, row.appId, category) && IconName(row.appId) in inputIcons then
      Output(out.info[category := Appended(InfoFile(out, category), InfoRecord(row.appId, dataSet))],
             out.icons + {IconPath(dataSet, category, row.appId)})
    else
      out
  }

  /** Appending a record keyed by the info columns adds its row after the file's rows. */
  lemma RowsInAppended(f: FileState, d: Record)
    requires HeaderOk(f) && d.keys == InfoHeader
    ensures RowsIn(Appended(f, d)) == RowsIn(f) + [AsRow(d)]
  {
    assert Appended(f, d) == Appended(Present(LinesOf(f)), d);
    RowsAfterAppend(LinesOf(f), d);
  }

  /** A row whose icon is not in the input directory changes nothing. */
  lemma AddedSkipsMissingIcon(out: Output, inputIcons: set<string>, classes: Option<seq<string>>, row: AppRow, dataSet: string)
    requires WellFormed(out)
    requires IconName(row.appId) !in inputIcons
    ensures Added(out, inputIcons, classes, row, dataSet) == out
  {
  }

  /** A row whose app the category's info file already lists changes nothing. */
  lemma AddedSkipsKnown(out: Output, inputIcons: set<string>, classes: Option<seq<string>>, row: AppRow, dataSet: string)
    requires WellFormed(out)
    requires HasApp(RowsIn(InfoFile(out, Remap(row.category, classes))), row.appId)
    ensures Added(out, inputIcons, classes, row, dataSet) == out
  {
  }

  /**
   * Otherwise the category's info file reads back as its earlier rows plus exactly the record
   * `{app_id, data_set}`, the icon is copied to `<data_set>/<category>/icon_<id>`, and nothing
   * else changes.
   */
  lemma AddedNew(out: Output, inputIcons: set<string>, classes: Option<seq<string>>, row: AppRow, dataSet: string)
    requires WellFormed(out)
    requires !HasApp(RowsIn(InfoFile(out, Remap(row.category, classes))), row.appId)
    requires IconName(row.appId) in inputIcons
    ensures var c := Remap(row.category, classes); var r := Added(out, inputIcons, classes, row, dataSet);
      ReadAll(InfoFile(r, c)) == Success(RowsIn(InfoFile(out, c)) + [AsRow(InfoRecord(row.appId, dataSet))]) &&
      r.icons == out.icons + {IconPath(dataSet, c, row.appId)} &&
      (forall other :: other != c ==> InfoFile(r, other) == InfoFile(out, other))
  {
    var c := Remap(row.category, classes);
    var f := InfoFile(out, c);
    assert HeaderOk(f);
    RowsInAppended(f, InfoRecord(row.appId, dataSet));
  }

  /** Whatever the row, the info files of the other categories are untouched. */
  lemma AddedOthersUntouched(out: Output, inputIcons: set<string>, classes: Option<seq<string>>, row: AppRow, dataSet: string, other: string)
    requires WellFormed(out)
    requires other != Remap(row.category, classes)
    ensures InfoFile(Added(out, inputIcons, classes, row, dataSet), other) == InfoFile(out, other)
  {
  }

  /** After the row is handled, the category's info file lists the app if its icon exists. */
  lemma AddedKnows(out: Output, inputIcons: set<string>, classes: Option<seq<string>>, row: AppRow, dataSet: string)
    requires WellFormed(out)
    requires IconName(row.appId) in inputIcons
    ensures Known(Added(out, inputIcons, classes, row, dataSet), row.appId, Remap(row.category, classes))
  {
    var c := Remap(row.category, classes);
    var f := InfoFile(out, c);
    if !Known(out, row.appId, c) {
      var d := InfoRecord(row.appId, dataSet);
      assert HeaderOk(f);
      RowsInAppended(f, d);
      var after := RowsIn(Appended(f, d));
      assert after[|after| - 1] == AsRow(d);
    }
  }

  /** Idempotence: handling the same row again, even for another data set, changes nothing. */
  lemma AddedIdempotent(out: Output, inputIcons: set<string>, classes: Option<seq<string>>, row: AppRow, dataSet: string, dataSet2: string)
    requires WellFormed(out)
    ensures var r := Added(out, inputIcons, classes, row, dataSet);
      Added(r, inputIcons, classes, row, dataSet2) == r
  {
    if IconName(row.appId) in inputIcons {
      AddedKnows(out, inputIcons, classes, row, dataSet);
    }
  }

  /** A listed app stays listed: the builder only appends. */
  lemma AddedKeepsKnown(out: Output, inputIcons: set<string>, classes: Option<seq<string>>, row: AppRow, dataSet: string, appId: string, category: string)
    requires WellFormed(out)
    requires Known(out, appId, category)
    ensures Known(Added(out, inputIcons, classes, row, dataSet), appId, category)
  {
    var c := Remap(row.category, classes);
    var r := Added(out, inputIcons, classes, row, dataSet);
    if category == c && r != out {
      var f := InfoFile(out, c);
      assert HeaderOk(f);
      RowsInAppended(f, InfoRecord(row.appId, dataSet));
      var rows, after := RowsIn(f), RowsIn(InfoFile(r, c));
      var i :| 0 <= i < |rows| && "app_id" in rows[i] && rows[i]["app_id"] == Some(appId);
      assert after[i] == rows[i];
    }
  }

  /** No info file lists an app twice. */
  predicate UniqueApps(out: Output)
  {
    forall c :: c in out.info ==> UniqueOn(RowsIn(out.info[c]), "app_id")
  }

  /** The deduplication keeps every info file free of repeated apps. */
  lemma AddedKeepsUnique(out: Output, inputIcons: set<string>, classes: Option<seq<string>>, row: AppRow, dataSet: string)
    requires WellFormed(out) && UniqueApps(out)
    ensures UniqueApps(Added(out, inputIcons, classes, row, dataSet))
  {
    var c := Remap(row.category, classes);
    var r := Added(out, inputIcons, classes, row, dataSet);
    if r != out {
      var f := InfoFile(out, c);
      var d := InfoRecord(row.appId, dataSet);
      assert HeaderOk(f);
      assert Appended(f, d) == Appended(Present(LinesOf(f)), d);
      assert UniqueOn(Rows(LinesOf(f)), "app_id");
      ProbeDefined(out, row.appId, c);
      assert Contains(Present(LinesOf(f)), Probe("app_id", d.entries["app_id"])) == Success(false);
      AppendAbsentKeepsUnique(LinesOf(f), d, "app_id");
    }
  }

  /** `Added` applied to the calls in order. */
  function Built(out: Output, inputIcons: set<string>, classes: Option<seq<string>>, calls: seq<(AppRow, string)>): (r: Output)
    requires WellFormed(out)
    ensures WellFormed(r)
    decreases |calls|
  {
    if calls == [] then out
    else
      var n := |calls| - 1;
      Added(Built(out, inputIcons, classes, calls[..n]), inputIcons, classes, calls[n].0, calls[n].1)
  }

  /** However many rows are handled, no info file lists an app twice. */
  lemma {:induction false} BuiltKeepsUnique(out: Output, inputIcons: set<string>, classes: Option<seq<string>>, calls: seq<(AppRow, string)>)
    requires WellFormed(out) && UniqueApps(out)
    ensures UniqueApps(Built(out, inputIcons, classes, calls))
    decreases |calls|
  {
    if calls != [] {
      var n := |calls| - 1;
      BuiltKeepsUnique(out, inputIcons, classes, calls[..n]);
      AddedKeepsUnique(Built(out, inputIcons, classes, calls[..n]), inputIcons, classes, calls[n].0, calls[n].1);
    }
  }

  /** After the build, every handled app whose icon exists is listed in its category's info file. */
  lemma {:induction false} BuiltKnowsEveryApp(out: Output, inputIcons: set<string>, classes: Option<seq<string>>, calls: seq<(AppRow, string)>, k: nat)
    requires WellFormed(out)
    requires k < |calls| && IconName(calls[k].0.appId) in inputIcons
    ensures Known(Built(out, inputIcons, classes, calls), calls[k].0.appId, Remap(calls[k].0.category, classes))
    decreases |calls|
  {
    var n := |calls| - 1;
    var before := Built(out, inputIcons, classes, calls[..n]);
    if k == n {
      AddedKnows(before, inputIcons, classes, calls[n].0, calls[n].1);
    } else {
      BuiltKnowsEveryApp(out, inputIcons, classes, calls[..n], k);
      AddedKeepsKnown(before, inputIcons, classes, calls[n].0, calls[n].1, calls[k].0.appId, Remap(calls[k].0.category, classes));
    }
  }

  /** Neither an info file nor a copied icon mentions the app. */
  predicate NoTrace(out: Output, appId: string)
  {
    (forall c :: c in out.info ==> !HasApp(RowsIn(out.info[c]), appId)) &&
    (forall p :: p in out.icons && |p| == 3 ==> p[2] != IconName(appId))
  }

  /** Appending the record of another app does not list the app. */
  lemma AppendedOtherApp(f: FileState, otherApp: string, dataSet: string, appId: string)
    requires HeaderOk(f)
    requires otherApp != appId
    requires !HasApp(RowsIn(f), appId)
    ensures !HasApp(RowsIn(Appended(f, InfoRecord(otherApp, dataSet))), appId)
  {
    var d := InfoRecord(otherApp, dataSet);
    RowsInAppended(f, d);
    var rows, after := RowsIn(f), RowsIn(Appended(f, d));
    forall i | 0 <= i < |after| && "app_id" in after[i]
      ensures after[i]["app_id"] != Some(appId)
    {
      if i < |rows| {
        assert after[i] == rows[i];
      }
    }
  }

  /** A row of another app leaves the app unmentioned if its own icon is what gets copied. */
  lemma AddedLeavesNoTrace(out: Output, inputIcons: set<string>, classes: Option<seq<string>>, row: AppRow, dataSet: string, appId: string)
    requires WellFormed(out)
    requires IconName(appId) !in inputIcons
    requires NoTrace(out, appId)
    ensures NoTrace(Added(out, inputIcons, classes, row, dataSet), appId)
  {
    var c := Remap(row.category, classes);
    var r := Added(out, inputIcons, classes, row, dataSet);
    if r != out {
      IconNameInjective(row.appId, appId);
      var f := InfoFile(out, c);
      assert HeaderOk(f) && !HasApp(RowsIn(f), appId);
      AppendedOtherApp(f, row.appId, dataSet, appId);
      forall other | other in r.info
        ensures !HasApp(RowsIn(r.info[other]), appId)
      {
        if other != c {
          assert r.info[other] == out.info[other];
        }
      }
      forall p | p in r.icons && |p| == 3
        ensures p[2] != IconName(appId)
      {
        if p !in out.icons {
          assert p == IconPath(dataSet, c, row.appId);
        }
      }
    }
  }

  /** An app without an input icon is never recorded nor copied, however many rows are handled. */
  lemma {:induction false} BuiltLeavesNoTrace(out: Output, inputIcons: set<string>, classes: Option<seq<string>>, calls: seq<(AppRow, string)>, appId: string)
    requires WellFormed(out)
    requires IconName(appId) !in inputIcons
    requires NoTrace(out, appId)
    ensures NoTrace(Built(out, inputIcons, classes, calls), appId)
    decreases |calls|
  {
    if calls != [] {
      var n := |calls| - 1;
      BuiltLeavesNoTrace(out, inputIcons, classes, calls[..n], appId);
      AddedLeavesNoTrace(Built(out, inputIcons, classes, calls[..n]), inputIcons, classes, calls[n].0, calls[n].1, appId);
    }
  }

  /** A listed app stays listed however many rows are handled. */
  lemma {:induction false} BuiltKeepsKnown(out: Output, inputIcons: set<string>, classes: Option<seq<string>>, calls: seq<(AppRow, string)>, appId: string, category: string)
    requires WellFormed(out)
    requires Known(out, appId, category)
    ensures Known(Built(out, inputIcons, classes, calls), appId, category)
    decreases |calls|
  {
    if calls != [] {
      var n := |calls| - 1;
      BuiltKeepsKnown(out, inputIcons, classes, calls[..n], appId, category);
      AddedKeepsKnown(Built(out, inputIcons, classes, calls[..n]), inputIcons, classes, calls[n].0, calls[n].1, appId, category);
    }
  }

  /** `split_and_build_data_sets` on the output: `_build_set` for each part in turn. */
  function BuiltParts(out: Output, inputIcons: set<string>, classes: Option<seq<string>>, parts: seq<Part>): (r: Output)
    requires WellFormed(out)
    ensures WellFormed(r)
    decreases |parts|
  {
    if parts == [] then out
    else
      var n := |parts| - 1;
      Built(BuiltParts(out, inputIcons, classes, parts[..n]), inputIcons, classes, PartCalls(parts[n]))
  }

  /** Handling two runs of calls one after the other is handling their concatenation. */
  lemma {:induction false} BuiltConcat(out: Output, inputIcons: set<string>, classes: Option<seq<string>>, a: seq<(AppRow, string)>, b: seq<(AppRow, string)>)
    requires WellFormed(out)
    ensures Built(out, inputIcons, classes, a + b) == Built(Built(out, inputIcons, classes, a), inputIcons, classes, b)
    decreases |b|
  {
    if b == [] {
      assert a + b == a;
    } else {
      var n := |b| - 1;
      var init, last := b[..n], b[n];
      BuiltConcat(out, inputIcons, classes, a, init);
      SnocAssoc(a, init, last);
      DropLast(b);
      BuiltSnoc(out, inputIcons, classes, a + init, last);
      BuiltSnoc(Built(out, inputIcons, classes, a), inputIcons, classes, init, last);
    }
  }

  /** A non-empty sequence is its front followed by its last element. */
  lemma DropLast<T>(s: seq<T>)
    requires s != []
    ensures s[..|s| - 1] + [s[|s| - 1]] == s
  {
  }

  /** One more call handles one more row. */
  lemma BuiltSnoc(out: Output, inputIcons: set<string>, classes: Option<seq<string>>, calls: seq<(AppRow, string)>, last: (AppRow, string))
    requires WellFormed(out)
    ensures Built(out, inputIcons, classes, calls + [last])
      == Added(Built(out, inputIcons, classes, calls), inputIcons, classes, last.0, last.1)
  {
    assert (calls + [last])[..|calls|] == calls;
  }

  /**
   * Building the parts in turn is handling the hook calls of `split_and_build_data_sets`, one
   * after the other: the per-row calls of every part, in part order.
   */
  lemma {:induction false} BuiltPartsIsBuiltOfCalls(out: Output, inputIcons: set<string>, classes: Option<seq<string>>, parts: seq<Part>)
    requires WellFormed(out)
    ensures BuiltParts(out, inputIcons, classes, parts) == Built(out, inputIcons, classes, Calls(parts))
    decreases |parts|
  {
    if parts != [] {
      var n := |parts| - 1;
      BuiltPartsIsBuiltOfCalls(out, inputIcons, classes, parts[..n]);
      BuiltConcat(out, inputIcons, classes, Calls(parts[..n]), PartCalls(parts[n]));
    }
  }

  /** Building all the parts never lists an app twice in an info file. */
  lemma {:induction false} BuiltPartsKeepsUnique(out: Output, inputIcons: set<string>, classes: Option<seq<string>>, parts: seq<Part>)
    requires WellFormed(out) && UniqueApps(out)
    ensures UniqueApps(BuiltParts(out, inputIcons, classes, parts))
    decreases |parts|
  {
    if parts != [] {
      var n := |parts| - 1;
      BuiltPartsKeepsUnique(out, inputIcons, classes, parts[..n]);
      BuiltKeepsUnique(BuiltParts(out, inputIcons, classes, parts[..n]), inputIcons, classes, PartCalls(parts[n]));
    }
  }

  /**
   * After building all the parts, every row of every part whose icon exists is listed in the
   * info file of its remapped category.
   */
  lemma {:induction false} BuiltPartsKnowEveryApp(out: Output, inputIcons: set<string>, classes: Option<seq<string>>, parts: seq<Part>, p: nat, k: nat)
    requires WellFormed(out)
    requires p < |parts| && k < |parts[p].rows|
    requires IconName(parts[p].rows[k].appId) in inputIcons
    ensures Known(BuiltParts(out, inputIcons, classes, parts), parts[p].rows[k].appId, Remap(parts[p].rows[k].category, classes))
    decreases |parts|
  {
    var n := |parts| - 1;
    var row := parts[p].rows[k];
    var before := BuiltParts(out, inputIcons, classes, parts[..n]);
    assert BuiltParts(out, inputIcons, classes, parts) == Built(before, inputIcons, classes, PartCalls(parts[n]));
    if p == n {
      BuiltKnowsEveryApp(before, inputIcons, classes, PartCalls(parts[n]), k);
    } else {
      assert parts[..n][p] == parts[p];
      BuiltPartsKnowEveryApp(out, inputIcons, classes, parts[..n], p, k);
      BuiltKeepsKnown(before, inputIcons, classes, PartCalls(parts[n]), row.appId, Remap(row.category, classes));
    }
  }

  /** An app without an input icon is never recorded nor copied by building all the parts. */
  lemma {:induction false} BuiltPartsLeaveNoTrace(out: Output, inputIcons: set<string>, classes: Option<seq<string>>, parts: seq<Part>, appId: string)
    requires WellFormed(out)
    requires IconName(appId) !in inputIcons
    requires NoTrace(out, appId)
    ensures NoTrace(BuiltParts(out, inputIcons, classes, parts), appId)
    decreases |parts|
  {
    if parts != [] {
      var n := |parts| - 1;
      BuiltPartsLeaveNoTrace(out, inputIcons, classes, parts[..n], appId);
      BuiltLeavesNoTrace(BuiltParts(out, inputIcons, classes, parts[..n]), inputIcons, classes, PartCalls(parts[n]), appId);
    }
  }

  // ---------------------------------------------------------------------------------------------
  // The base constructor call

  /** An argument of the base constructor: a directory, or the three split ratios. */
  datatype InitArg = PathArg(path: string) | RatioArg(ratios: seq<real>)

  /** The parameters of the base class's `__init__` after `self`: `input_dir` and `storage_dir`. */
  const BaseInitParams: seq<string> := ["input_dir", "storage_dir"]

  /**
   * Python's binding of positional arguments to parameters without defaults: one argument per
   * parameter, in order; any other number of arguments raises TypeError.
   */
  function BindPositional(params: seq<string>, args: seq<InitArg>): (r: Result<map<string, InitArg>, string>)
    requires Distinct(params)
    ensures r.Success? <==> |args| == |params|
    ensures r.Failure? ==> r.error == "TypeError"
    ensures r.Success? ==> r.value.Keys == set p | p in params
    ensures r.Success? ==> forall i :: 0 <= i < |params| ==> r.value[params[i]] == args[i]
  {
    if |args| != |params| then Failure("TypeError")
    else Success(map i | 0 <= i < |params| :: params[i] := args[i])
  }

  /**
   * As written, the constructor passes `split_ratio` as a third positional argument to the
   * two-parameter base constructor, so every construction raises TypeError.
   */
  lemma SuperInitAsWrittenRaises(inputDir: string, storageDir: string, splitRatio: seq<real>)
    ensures BindPositional(BaseInitParams, [PathArg(inputDir), PathArg(storageDir), RatioArg(splitRatio)]) == Failure("TypeError")
  {
  }

  /** Passing the two directories alone binds them to the base constructor's parameters. */
  lemma SuperInitCorrected(inputDir: string, storageDir: string)
    ensures var r := BindPositional(BaseInitParams, [PathArg(inputDir), PathArg(storageDir)]);
      r.Success? && r.value["input_dir"] == PathArg(inputDir) && r.value["storage_dir"] == PathArg(storageDir)
  {
    assert BaseInitParams[0] == "input_dir" && BaseInitParams[1] == "storage_dir";
  }

  /** The builder: its fixed inputs and the files it has written. */
  class Builder {
    /** The icon file names present in the input directory. */
    const inputIcons: set<string>
    /** The allow-list of categories, if any. */
    const classes: Option<seq<string>>
    /** The info file of every category, under `info/`. */
    var info: map<string, FileState>
    /** The icons copied below the storage directory. */
    var icons: set<Path>

    function State(): Output
      reads this
    {
      Output(info, icons)
    }

    /**
     * `__init__` as intended: the base constructor receives the two directories only
     * (`SuperInitCorrected`), and the builder starts from info files that are empty or carry the
     * info columns.
     */
    constructor (inputIcons: set<string>, classes: Option<seq<string>>, info: map<string, FileState>, icons: set<Path>)
      requires WellFormed(Output(info, icons))
      ensures this.inputIcons == inputIcons && this.classes == classes
      ensures State() == Output(info, icons)
    {
      this.inputIcons := inputIcons;
      this.classes := classes;
      this.info := info;
      this.icons := icons;
    }

    /** `_add_icon_to_data_set`: copies the icon into the directory, creating it if need be. */
    method AddIconToDataSet(iconName: string, directory: Path)
      modifies this
      ensures icons == old(icons) + {directory + [iconName]}
      ensures info == old(info)
    {
      icons := icons + {directory + [iconName]};
    }

    /** `_add_to_data_set`: handles one row of a part. */
    method AddToDataSet(row: AppRow, dataSet: string)
      requires WellFormed(State())
      modifies this
      ensures State() == Added(old(State()), inputIcons, classes, row, dataSet)
    {
      var category := Remap(row.category, classes);
      var iconName := IconName(row.appId);
      var file := new CsvFile(InfoFile(State(), category));
      ProbeDefined(State(), row.appId, category);
      var partOfData := file.PartOfDataSet(Probe("app_id", row.appId));
      if partOfData.Failure? {
        assert false;
      } else if !partOfData.value && iconName in inputIcons {
        file.AddToData(InfoRecord(row.appId, dataSet));
        info := info[category := file.state];
        AddIconToDataSet(iconName, [dataSet, category]);
        assert [dataSet, category] + [iconName] == IconPath(dataSet, category, row.appId);
      }
    }

    /** `_build_set`: handles every row of a part, in order. */
    method BuildSet(dataSet: string, rows: seq<AppRow>)
      requires WellFormed(State())
      modifies this
      ensures WellFormed(State())
      ensures State() == Built(old(State()), inputIcons, classes, PartCalls(Part(dataSet, rows)))
    {
      ghost var start := State();
      ghost var calls := PartCalls(Part(dataSet, rows));
      for i := 0 to |rows|
        invariant WellFormed(State())
        invariant State() == Built(start, inputIcons, classes, calls[..i])
      {
        assert calls[..i + 1][..i] == calls[..i];
        AddToDataSet(rows[i], dataSet);
      }
      assert calls[..|rows|] == calls;
    }

    /** The loop of `split_and_build_data_sets`: `_build_set` for every part, the parts in order. */
    method BuildParts(split: seq<Part>)
      requires WellFormed(State())
      modifies this
      ensures State() == BuiltParts(old(State()), inputIcons, classes, split)
    {
      ghost var start := State();
      for p := 0 to |split|
        invariant WellFormed(State())
        invariant State() == BuiltParts(start, inputIcons, classes, split[..p])
      {
        assert split[..p + 1][..p] == split[..p];
        BuildSet(split[p].name, split[p].rows);
        assert Part(split[p].name, split[p].rows) == split[p];
      }
      assert split[..|split|] == split;
    }

    /**
     * `split_and_build_data_sets`, given the rows of the scraper's info file and the draws of
     * the seeded permutation: every row of every part is handled, in part order.
     */
    method SplitAndBuildDataSets(data: seq<AppRow>, draws: seq<nat>)
      requires ValidDraws(draws, |data|)
      requires WellFormed(State())
      modifies this
      ensures State() == BuiltParts(old(State()), inputIcons, classes, DataSetBuilder.Split(data, draws))
      ensures State() == Built(old(State()), inputIcons, classes, Calls(DataSetBuilder.Split(data, draws)))
    {
      ghost var start := State();
      var split := DataSetBuilder.Split(data, draws);
      BuildParts(split);
      BuiltPartsIsBuiltOfCalls(start, inputIcons, classes, split);
    }
  }
}
