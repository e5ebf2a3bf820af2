# betel: a verified model of the data pipeline's core

betel builds an image classifier for app categories. It has three stages:

- A **scraper** fetches an app's store page, reads the category, downloads the icon and records
  `{app_id, category}` in an append-only CSV info file.
- A **data set builder** sorts the scraped rows by app id, applies a permutation fixed by a seed,
  and cuts the result into train, validation and test parts. For each row it records
  `{app_id, data_set}` in the info file of the row's category, unless the app is already known
  there or its icon is missing, and copies the icon into the part's directory.
- A **batch sequencer** serves the icons to training in fixed-size batches. The last batch is padded
  from the front of the list, and each icon is labelled with the id of its category directory.

This Dafny project models those stages and proves what the code and its tests promise about them.

| module (file) | models |
|---|---|
| `Wrappers` (wrappers.dfy) | `Option` and `Result` |
| `BetelErrors` (betel_errors.dfy) | the exception classes and the text under which they are logged |
| `Utils` (utils.dfy) | the file-name constants and the icon name |
| `InfoFiles` (info_files.dfy) | the CSV record store and the failure log. It is a class whose methods append in place, over a file state of header and value lines. |
| `Shuffling` (shuffling.dfy) | the split's seeded sample and the epoch-end shuffle, both written as a Fisher–Yates shuffle over explicit draws |
| `AppSort` (app_sort.dfy) | the rows and their ordering by app id, with Python's string order |
| `DataSetBuilder` (data_set_builder.dfy) | the sort, the permutation, the cut at 70% and 85%, and the hook calls |
| `ClassifierDataSetBuilder` (classifier_data_set_builder.dfy) | the per-row step as a function on the builder's output (one info file per category plus the set of copied icons), and a `Builder` class whose methods perform it |
| `ClassifierSequence` (classifier_sequence.dfy) | the category maps, the batch count, the batches, their labels, the padding loop and the resize arithmetic |
| `AppPageScraper` (app_page_scraper.dfy) | the URL, the lower-casing, and the skip / filter / icon / write / log rule of `store_app_info` against a web oracle, plus a `Scraper` class |

The operations that change state are methods. Each method is proved equal to a specification
function: `Appended`, `Contains`, `ReadAll`, `Added`, `Built`, `BuiltParts`, `Stored`,
`StoredAll`, `Cycle`, `Shuffle`. The lemmas state the properties of those functions.

## Model

| member | source | states |
|---|---|---|
| Utils.IconName | src/utils.py:5-7 | The icon name is `icon_` followed by the id. It is five characters longer than the id, and dropping the prefix gives the id back. |
| Utils.IconNameInjective | src/utils.py:5-7 | Two ids have the same icon name exactly when they are equal. |
| Utils.IconNameExample | test/classifier_data_set_builder_test.py:43 | `com.example` has the icon `icon_com.example`. |
| Shuffling.Shuffle | betel/data_set_builder.py:34 | A shuffle has the length and the multiset of its input, so it is a permutation. |
| Shuffling.ShuffleSameElements | src/classifier_sequence.py:57-60 | An element is in the shuffle if and only if it is in the input. |
| InfoFiles.Values | src/info_files_helpers.py:13-19 | The value line has one cell per field, and cell `i` is the value of the `i`-th field name. |
| InfoFiles.AsRow | src/info_files_helpers.py:51-53 | The row read back for a record maps each of its fields to its value. |
| InfoFiles.RowOf | src/info_files_helpers.py:34-35 | A row read by `DictReader` has exactly the header's names as keys. A name takes the cell of its last column, or no value when the line is short. |
| InfoFiles.Decode | src/info_files_helpers.py:51-53 | Reading yields at most one row per body line, because blank lines are skipped. |
| InfoFiles.DecodeKeys | src/info_files_helpers.py:51-53 | Every row read from a body is keyed by the header's names. |
| InfoFiles.RowsKeys | src/info_files_helpers.py:51-53 | Every row read from a non-empty file is keyed by its first line. |
| InfoFiles.DecodeSnoc | src/info_files_helpers.py:51-53 | A non-blank line added to the body adds its row at the end of what is read. |
| InfoFiles.DecodeAppendLines | src/info_files_helpers.py:51-53 | Non-blank lines added to the body add their rows, in order, at the end of what is read. |
| InfoFiles.Appended | src/info_files_helpers.py:15-19 | After an append the file exists, even when it was missing before (mode `a+`). |
| InfoFiles.AppendToEmptyWritesHeader | src/info_files_helpers.py:13-19 | Appending to a missing or empty file writes exactly the header of field names, then one line of values. |
| InfoFiles.AppendToNonEmptyWritesRow | src/info_files_helpers.py:17-19 | Appending to a non-empty file adds one value line and no header. |
| InfoFiles.AppendNeverRewrites | src/info_files_helpers.py:15 | The text before an append is a proper prefix of the text after it. |
| InfoFiles.AppendExample | test/info_files_helpers_test.py:9-16 | Appending `{a: c, b: d}` to an empty file gives the text `a,b` and `c,d`, each line ending in CR LF. |
| InfoFiles.SplitJoin | src/info_files_helpers.py:16-19 | Splitting a comma-joined line of comma-free cells gives the cells back. |
| InfoFiles.RowOfRecord | src/info_files_helpers.py:13-19 | Reading a record's value line under its own header gives the record's row. |
| InfoFiles.RowsAfterAppend | src/info_files_helpers.py:13-19 | Appending a record to an empty file, or to one whose header is the record's fields, leaves that header first and adds the record's row after the old rows. |
| InfoFiles.AppendedAllLines | src/info_files_helpers.py:13-19 | Records appended in turn give one header line, then one value line per record, in order. |
| InfoFiles.ReadAllAfterAppends | src/info_files_helpers.py:43-54 | After records with the file's fields are appended, reading gives the old rows followed by the records, in order. |
| InfoFiles.ReadAllRoundTrip | test/info_files_helpers_test.py:26-33 | Records sharing one field order, appended to an empty file, read back exactly, in order. |
| InfoFiles.MatchFields | src/info_files_helpers.py:36 | When every probe field is in the row, the result is whether every field equals the probe's value. Otherwise the result is the `KeyError` for a probe field missing from the row. |
| InfoFiles.Scan | src/info_files_helpers.py:35-38 | When every row has the probe's fields, the result is whether some single row matches them all. A failure names a probe field that some row lacks. |
| InfoFiles.Contains | src/info_files_helpers.py:22-40 | The check fails only when a probe field is not a column of an existing, non-empty file. |
| InfoFiles.ContainsIffOneRowMatches | src/info_files_helpers.py:30-40 | When the probe's fields are columns, the answer is true if and only if the file exists and one row equals the probe on every probe field. A missing file gives false, not an error. |
| InfoFiles.ContainsEmptyProbe | src/info_files_helpers.py:30-37 | With an empty probe, the answer is true if and only if the file has at least one data row. |
| InfoFiles.ContainsAfterAppend | src/info_files_helpers.py:6-40 | After a record is appended, any probe that agrees with it is found. |
| InfoFiles.ProbeOnAppId | src/info_files_helpers.py:22-40 | For a file that is empty, missing or has an `app_id` column, the `app_id` probe succeeds and says whether some row has that id. |
| InfoFiles.AppendAbsentKeepsUnique | src/info_files_helpers.py:6-40 | Appending a record whose key value the check did not find keeps that key unique among the rows. |
| InfoFiles.LogLineIsOneLine | src/info_files_helpers.py:57-66 | A log entry adds exactly one newline, and the log then ends with a newline. |
| InfoFiles.CsvFile.AddToData | src/info_files_helpers.py:6-19 | The file becomes the old file with the record appended, and the old text is a proper prefix of the new text. |
| InfoFiles.CsvFile.PartOfDataSet | src/info_files_helpers.py:22-40 | The loop with its early return computes the check on the current file. |
| InfoFiles.CsvFile.ReadList | src/info_files_helpers.py:43-54 | The loop collects every data row of the file in order. A missing file is the only failure. |
| InfoFiles.LogFile.LogFailure | src/info_files_helpers.py:57-66 | The log becomes the old text followed by `message, repr(exception)` and a newline. |
| AppSort.BelowTotal | betel/classifier_data_set_builder.py:33-34 | Any two ids are comparable. |
| AppSort.BelowReflexive | betel/classifier_data_set_builder.py:33-34 | Every id is below itself. |
| AppSort.BelowAntisymmetric | betel/classifier_data_set_builder.py:33-34 | Two ids each below the other are equal. |
| AppSort.BelowTransitive | betel/classifier_data_set_builder.py:33-34 | The order on ids is transitive. |
| AppSort.Insert | betel/classifier_data_set_builder.py:33-34 | Inserting a row into a sorted list keeps it sorted and adds exactly that row. |
| AppSort.SortByAppId | betel/classifier_data_set_builder.py:33-34 | The result is ordered by app id and is a permutation of the input. |
| AppSort.DistinctIdsReordered | betel/data_set_builder.py:33-34 | A permutation of rows with distinct ids has distinct ids. |
| AppSort.SortedUnique | betel/classifier_data_set_builder.py:33-34 | Two sorted permutations of rows with distinct ids are equal. |
| AppSort.SortIgnoresOrder | betel/classifier_data_set_builder.py:33-34 | With distinct ids, sorting does not depend on the input order. |
| AppSort.SortExample | test/classifier_data_set_builder_test.py:8-12 | `com.page` sorts before `com.test`. |
| DataSetBuilder.BoundsOrdered | betel/data_set_builder.py:36-40 | 0 ≤ index_1 ≤ index_2 ≤ n. |
| DataSetBuilder.Permuted | betel/data_set_builder.py:33-34 | The sorted and permuted list has the input's length and multiset. |
| DataSetBuilder.Cut | betel/data_set_builder.py:36-46 | There are three parts, named train, validation and test. Concatenated, they give the list back, with sizes index_1, index_2 − index_1 and n − index_2. |
| DataSetBuilder.Split | betel/data_set_builder.py:26-48 | The parts, concatenated in that order, are the sorted and permuted list, with sizes index_1, index_2 − index_1 and n − index_2. |
| DataSetBuilder.SplitIsPermutation | betel/data_set_builder.py:33-40 | The multisets of the three parts add up to the input's multiset. |
| DataSetBuilder.CutPart | betel/data_set_builder.py:38-40 | Part `r` is the slice between cut points `r` and `r + 1`. |
| DataSetBuilder.CutDisjoint | betel/data_set_builder.py:38-40 | With distinct ids, rows of two different parts of a cut never share an id. |
| DataSetBuilder.SplitDisjoint | betel/data_set_builder.py:33-40 | With distinct input ids, rows of two different parts never share an id. |
| DataSetBuilder.SplitIgnoresOrder | betel/data_set_builder.py:12-34 | With distinct ids, the split does not depend on the input's row order. |
| DataSetBuilder.CutKeys | betel/data_set_builder.py:42-46 | The part names are exactly train, validation and test. |
| DataSetBuilder.SplitKeys | betel/data_set_builder.py:42-46 | The keys of the returned dictionary are exactly train, validation and test. |
| DataSetBuilder.PartCalls | betel/data_set_builder.py:59-61 | `_build_set` calls the hook once per row, in order, with the part's name. |
| DataSetBuilder.CallsOfThree | betel/data_set_builder.py:56-57 | The calls of three parts are those of the first, then the second, then the third. |
| DataSetBuilder.CutCalls | betel/data_set_builder.py:54-61 | Call `k` passes row `k` of the list with the name of the part that holds position `k`. |
| DataSetBuilder.SplitCalls | betel/data_set_builder.py:50-61 | The hook is called once per row of the permuted list, in order, with the name of the part holding the row. |
| ClassifierDataSetBuilder.Remap | betel/classifier_data_set_builder.py:40-41 | Without an allow-list the category is unchanged. With one, a listed category is kept and any other becomes `others`. |
| ClassifierDataSetBuilder.RemapExample | test/classifier_data_set_builder_test.py:52-59 | With classes `example` and `play`, the categories `example` and `play` are kept and `page` becomes `others`. |
| ClassifierDataSetBuilder.InfoRecord | betel/classifier_data_set_builder.py:60-62 | The record is `{app_id, data_set}`, in that column order. |
| ClassifierDataSetBuilder.IconPath | betel/classifier_data_set_builder.py:56-57 | The icon goes to `<data_set>/<category>/icon_<id>`. |
| ClassifierDataSetBuilder.ProbeDefined | betel/classifier_data_set_builder.py:47-50 | On well-formed output, the `app_id` probe never fails, and it says whether the id is in the category's file. |
| ClassifierDataSetBuilder.Added | betel/classifier_data_set_builder.py:36-57 | One step keeps every info file empty or headed by `app_id,data_set`. |
| ClassifierDataSetBuilder.RowsInAppended | betel/classifier_data_set_builder.py:53-54 | Appending an info record to an info file adds exactly its row. |
| ClassifierDataSetBuilder.AddedSkipsMissingIcon | betel/classifier_data_set_builder.py:44-52 | Without the icon in the input directory, nothing changes. |
| ClassifierDataSetBuilder.AddedSkipsKnown | betel/classifier_data_set_builder.py:47-52 | When the category's info file already has the app id, nothing changes. |
| ClassifierDataSetBuilder.AddedNew | betel/classifier_data_set_builder.py:43-57 | Otherwise the category's file gains exactly the row `{app_id, data_set}`, the icon is copied to its path, and no other info file changes. |
| ClassifierDataSetBuilder.AddedOthersUntouched | betel/classifier_data_set_builder.py:43-54 | The info files of other categories are untouched. |
| ClassifierDataSetBuilder.AddedKnows | betel/classifier_data_set_builder.py:36-57 | When the icon exists, the app is afterwards recorded under its final category, and its icon is copied. |
| ClassifierDataSetBuilder.AddedIdempotent | betel/classifier_data_set_builder.py:47-52 | A second call with the same row changes nothing, even with another data set name. |
| ClassifierDataSetBuilder.AddedKeepsKnown | betel/classifier_data_set_builder.py:36-57 | An app already recorded, with its icon, stays so. |
| ClassifierDataSetBuilder.AddedKeepsUnique | betel/classifier_data_set_builder.py:47-54 | No info file ever holds an app id twice. |
| ClassifierDataSetBuilder.Built | betel/data_set_builder.py:59-61 | The steps for a sequence of hook calls keep the output well-formed. |
| ClassifierDataSetBuilder.BuiltKeepsUnique | betel/data_set_builder.py:59-61 | After any sequence of calls, no info file holds an app id twice. |
| ClassifierDataSetBuilder.BuiltKnowsEveryApp | betel/data_set_builder.py:59-61 | Every app of the calls that has an icon ends up recorded under its final category, with its icon copied. |
| ClassifierDataSetBuilder.AddedLeavesNoTrace | betel/classifier_data_set_builder.py:44-52 | An app without an input icon is never recorded, and no icon of it is copied. |
| ClassifierDataSetBuilder.BuiltLeavesNoTrace | betel/data_set_builder.py:59-61 | The same holds after any sequence of calls. |
| ClassifierDataSetBuilder.BuiltKeepsKnown | betel/data_set_builder.py:59-61 | Known apps stay known across any sequence of calls. |
| ClassifierDataSetBuilder.BuiltParts | betel/data_set_builder.py:56-57 | Building the parts in order keeps the output well-formed. |
| ClassifierDataSetBuilder.BuiltConcat | betel/data_set_builder.py:56-61 | Handling two runs of hook calls one after the other is handling their concatenation. |
| ClassifierDataSetBuilder.BuiltPartsIsBuiltOfCalls | betel/data_set_builder.py:50-61 | Building the parts in turn is handling, one after the other, the hook calls of every part in part order. |
| ClassifierDataSetBuilder.BuiltPartsKeepsUnique | betel/data_set_builder.py:50-61 | After building every part, no info file holds an app id twice. |
| ClassifierDataSetBuilder.BuiltPartsKnowEveryApp | betel/data_set_builder.py:50-61 | Every row of every part whose icon exists is recorded under its final category, with its icon copied. |
| ClassifierDataSetBuilder.BuiltPartsLeaveNoTrace | betel/data_set_builder.py:50-61 | An app without an input icon leaves no trace after all parts are built. |
| ClassifierDataSetBuilder.Builder.constructor | betel/classifier_data_set_builder.py:12-31 | The builder, as intended, starts from the given input icons, allow-list and storage contents. |
| ClassifierDataSetBuilder.Builder.AddIconToDataSet | betel/classifier_data_set_builder.py:65-67 | The icon set gains `<directory>/<icon name>`, and the info files do not change. |
| ClassifierDataSetBuilder.Builder.AddToDataSet | betel/classifier_data_set_builder.py:36-57 | The new state is the step `Added` applied to the old one. |
| ClassifierDataSetBuilder.Builder.BuildSet | betel/data_set_builder.py:59-61 | The loop applies the step to every row of the part, in order. |
| ClassifierDataSetBuilder.Builder.BuildParts | betel/data_set_builder.py:56-57 | The loop builds every part, in order. |
| ClassifierDataSetBuilder.Builder.SplitAndBuildDataSets | betel/data_set_builder.py:50-57 | The new state is every part of the split of the data, built in order. Equivalently, it is the step applied to each hook call of the split in turn, which `SplitCalls` describes row by row. |
| ClassifierDataSetBuilder.BindPositional | betel/data_set_builder.py:14 | Positional arguments bind one to one, in order, to the parameters. Any other number of arguments raises TypeError. |
| ClassifierDataSetBuilder.SuperInitAsWrittenRaises | betel/classifier_data_set_builder.py:25 | Passing `split_ratio` as a third argument to the two-parameter base constructor raises TypeError, whatever the arguments. |
| ClassifierDataSetBuilder.SuperInitCorrected | betel/data_set_builder.py:14-24 | Passing the two directories alone binds them to `input_dir` and `storage_dir`. |
| ClassifierSequence.Names | src/classifier_sequence.py:73-78 | The categories are the directory names, in listing order. |
| ClassifierSequence.IconsIn | src/classifier_sequence.py:80-82 | A directory's icons are paired with its name, in listing order. |
| ClassifierSequence.IconsOf | src/classifier_sequence.py:73-82 | Every icon's category is one of the directory names. |
| ClassifierSequence.IdToName | src/classifier_sequence.py:35 | The ids are exactly 0 .. k−1, and id `i` names the `i`-th category. |
| ClassifierSequence.NameToId | src/classifier_sequence.py:36 | Every category has an id, the id's position holds that name, and a repeated name takes its last position. |
| ClassifierSequence.IdOfNameNamesIt | src/classifier_sequence.py:35-36 | The name of a name's id is that name. |
| ClassifierSequence.NameOfIdIdentifiesIt | src/classifier_sequence.py:35-36 | With distinct names, the id of an id's name is that id, so the two maps are inverse. |
| ClassifierSequence.BatchCount | src/classifier_sequence.py:38-39 | The result is `ceil(n / b)`: the least count whose batches hold all `n` icons. |
| ClassifierSequence.BatchCountExamples | test/classifier_sequence_test.py:18-26 | 6, 7 and 5 icons in batches of 3 give 2, 3 and 2 batches. |
| ClassifierSequence.Slice | src/classifier_sequence.py:42 | Python's slice clips its bounds to the length. |
| ClassifierSequence.Cycle | src/classifier_sequence.py:84-88 | The padding is the endless repetition of the icon list: item `k` equals item `k − n`. |
| ClassifierSequence.BatchItems | src/classifier_sequence.py:41-44 | Every batch has exactly `b` items, all drawn from the icons. |
| ClassifierSequence.FullBatch | src/classifier_sequence.py:85 | A batch inside the list is the slice, unpadded. |
| ClassifierSequence.PaddingExample | src/classifier_sequence.py:84-88 | With seven icons in batches of three, batch 2 wraps around to icons 6, 0 and 1. |
| ClassifierSequence.AllBatches | test/classifier_sequence_test.py:28-37 | `count` batches hold `count · b` items. |
| ClassifierSequence.FullBatchesArePrefix | src/classifier_sequence.py:41-44 | The full batches, concatenated, are a prefix of the icon list. |
| ClassifierSequence.AllBatchesCoverIcons | src/classifier_sequence.py:38-44 | Without shuffling, the first `n` items over all batches are the icons, in order. |
| ClassifierSequence.LastBatchStartsWithRest | src/classifier_sequence.py:42-88 | The batch holding the last icons begins with them. |
| ClassifierSequence.Labels | src/classifier_sequence.py:49-53 | Label `j` is the id of item `j`'s category. |
| ClassifierSequence.AllLabelsCountIcons | src/classifier_sequence.py:41-53 | Without shuffling, the first `n` labels over all batches are the labels of the icons, in order. |
| ClassifierSequence.LabelCountsOfDirs | src/classifier_sequence.py:35-53 | When every directory's name has its position as id, id `i` occurs among the icons' labels as often as directory `i` has icons, and an id past the directories never occurs. |
| ClassifierSequence.LabelCountsAreCategorySizes | test/classifier_sequence_test.py:45-61 | With distinct directory names, id `i` occurs among the first `n` labels over all batches exactly as often as directory `i` has icons, and any other id does not occur. |
| ClassifierSequence.Border | src/classifier_sequence.py:91 | The border is the floor of half the difference in each dimension. |
| ClassifierSequence.ResizeOf | src/classifier_sequence.py:91-99 | The icon is padded exactly when both borders are positive. Otherwise the crop box has the target's width and height. |
| ClassifierSequence.ResizeOddDifferenceFallsShort | src/classifier_sequence.py:91-94 | As written, a 189-pixel icon padded towards 192 comes out 191 pixels. |
| ClassifierSequence.ResizedSizeAsWrittenReachesTarget | src/classifier_sequence.py:91-94 | As written, padding reaches the target exactly when both differences are even. |
| ClassifierSequence.ResizedSize | src/classifier_sequence.py:91-99 | The corrected resize always yields the target size. |
| ClassifierSequence.TestIconsReachTarget | test/classifier_sequence_test.py:39-43 | The tests' 180-pixel icons get a border of 6 and reach 192. |
| ClassifierSequence.Sequencer.constructor | src/classifier_sequence.py:15-36 | The sequencer holds every icon with its category, and the two category maps. |
| ClassifierSequence.Sequencer.GetCategories | src/classifier_sequence.py:73-78 | The loop lists the directory names and adds every directory's icons. |
| ClassifierSequence.Sequencer.AddIcons | src/classifier_sequence.py:80-82 | The directory's icons are appended. |
| ClassifierSequence.Sequencer.Len | src/classifier_sequence.py:38-39 | `__len__` is the least count whose batches hold all icons. |
| ClassifierSequence.Sequencer.FitToBatchSize | src/classifier_sequence.py:84-88 | The padding loop ends, and returns the batch followed by the start of the repeated icon list, `batch_size` items in all. |
| ClassifierSequence.Sequencer.GetItem | src/classifier_sequence.py:41-55 | Batch `idx` is the padded slice, and label `k` is the id of item `k`'s category. |
| ClassifierSequence.Sequencer.OnEpochEnd | src/classifier_sequence.py:57-60 | With shuffling on, the icons are shuffled by the draws. Otherwise they are unchanged. |
| ClassifierSequence.ShuffleKeepsCategories | src/classifier_sequence.py:57-60 | After a shuffle, every icon's category still has an id. |
| ClassifierSequence.Open | src/classifier_sequence.py:24-25 | A missing input directory gives the `ValueError` message. An existing one gives a sequencer over its icons. |
| AppPageScraper.AppPageUrl | betel/app_page_scraper.py:40-41 | The URL is the base URL, then `/details?id=`, then the app id. |
| AppPageScraper.AppPageUrlInjective | betel/app_page_scraper.py:40-41 | Two ids give the same URL exactly when they are equal. |
| AppPageScraper.Lower | betel/app_page_scraper.py:81-82 | Lower-casing keeps the length, changes only the letters A–Z, and maps each of them to its lower-case letter. |
| AppPageScraper.LowerIdempotent | betel/app_page_scraper.py:81-82 | Lower-casing twice is lower-casing once. |
| AppPageScraper.LowerExample | test/app_page_scraper_test.py:57-64 | `Example` becomes `example`. |
| AppPageScraper.PageAt | betel/app_page_scraper.py:127-133 | A failed request raises `AccessError("Can not open URL.", …)`. |
| AppPageScraper.CategoryOf | betel/app_page_scraper.py:75-88 | The category is the lower-cased genre text. A page without it raises the `PlayScrapingError` the test expects. |
| AppPageScraper.IconDownload | betel/app_page_scraper.py:47-73 | The icon download succeeds exactly when the page, its icon element and the download all succeed. |
| AppPageScraper.AppInfoRecord | betel/app_page_scraper.py:136-138 | The record is exactly `{app_id, category}`, in that order. |
| AppPageScraper.FailureMessage | betel/app_page_scraper.py:110 | The warning is the app id, a comma and space, then the exception's repr. |
| AppPageScraper.Known | betel/app_page_scraper.py:98-101 | The check on `app_id` says whether the info file has the id. |
| AppPageScraper.Stored | betel/app_page_scraper.py:90-111 | One store keeps the info file empty or headed by `app_id,category`. |
| AppPageScraper.Attempt | betel/app_page_scraper.py:103-108 | The try block writes a category only if it was scraped, passed the filter and the icon was downloaded. It skips only a filtered-out category, and fails only with the category's or the icon's error. |
| AppPageScraper.StoredSkipsKnown | betel/app_page_scraper.py:98-104 | A known app fetches nothing and changes nothing. |
| AppPageScraper.StoredFetches | betel/app_page_scraper.py:104-107 | An unknown app fetches its page once, and a second time for the icon when the category passes. |
| AppPageScraper.StoredByAttempt | betel/app_page_scraper.py:90-111 | An error is logged and nothing is written. A filtered category writes nothing. Success saves the icon and appends the record. |
| AppPageScraper.StoredWritesOnlyAfterIcon | betel/app_page_scraper.py:104-108 | The info file changes exactly when the app is new, its category passes and the icon download succeeds. The icon is then present. |
| AppPageScraper.StoredKnows | betel/app_page_scraper.py:107-115 | After a successful attempt, the info file has the app. |
| AppPageScraper.StoredTwiceWritesOnce | betel/app_page_scraper.py:98-108 | Storing an app twice writes and downloads no more than storing it once. |
| AppPageScraper.StoredKeepsUnique | betel/app_page_scraper.py:98-108 | Storing keeps every app id at most once in the info file. |
| AppPageScraper.Dedup | betel/app_page_scraper.py:123 | The ids to process are distinct, and they are exactly those given. |
| AppPageScraper.StoredAll | betel/app_page_scraper.py:117-124 | Storing a list of apps keeps the info file empty or headed by `app_id,category`. |
| AppPageScraper.StoredAllKeepsUnique | betel/app_page_scraper.py:117-124 | After storing any list of apps, no id is in the info file twice. |
| AppPageScraper.Scraper.constructor | betel/app_page_scraper.py:20-38 | The scraper starts with its base URL, filter, web and existing files, and nothing fetched. |
| AppPageScraper.Scraper.GetAppPage | betel/app_page_scraper.py:43-45 | One fetch of the app's URL, returning the page or the `AccessError`. |
| AppPageScraper.Scraper.GetAppCategory | betel/app_page_scraper.py:75-82 | One fetch, returning the lower-cased category or the error. |
| AppPageScraper.Scraper.GetAppIcon | betel/app_page_scraper.py:47-58 | One fetch. The icon file is added exactly when the download succeeds. |
| AppPageScraper.Scraper.WriteAppInfo | betel/app_page_scraper.py:113-115 | The info file becomes the old file with `{app_id, category}` appended. |
| AppPageScraper.Scraper.StoreAppInfo | betel/app_page_scraper.py:90-111 | The new state is `Stored` applied to the old one. |
| AppPageScraper.Scraper.StoreAppsInfo | betel/app_page_scraper.py:117-124 | Every distinct id is stored once, in turn. |

## Left out

- Concurrency: `parmap.map` in betel/app_page_scraper.py:124 runs `store_app_info` in parallel processes that append to one file without a lock. The model stores the distinct ids one after the other. `Dedup` keeps the first occurrence of each id, while Python's `set` order is unspecified.
- The random generators are not modelled as algorithms. Each shuffle takes its Fisher–Yates draws as an argument. `DataFrame.sample` in the split is seeded with 2579, so `Split` uses one fixed draw sequence per list length. `np.random.shuffle` in `on_epoch_end` uses numpy's global generator, which no source file seeds, so `OnEpochEnd` accepts any valid draws on each call.
- Floating point: `int(0.7 * n)` and `int(0.85 * n)` are modelled as `7n/10` and `17n/20` in exact arithmetic. In double arithmetic `0.7 * n` can fall just below an integer. For example `0.7 * 90` is 62.99…, so the first cut is 62 rather than 63. The model's part sizes are off by one at such `n`.
- The CSV dialect: values are assumed to contain no comma, quote or newline, so a line is the comma-join of its cells. Quoting, escaping, `restkey` (surplus cells) and the file's character encoding are not modelled. A short line gives the missing fields no value.
- I/O is replaced by values. The files are states (a missing file or its lines), the directories are sets of names, and the HTML pages and downloads come from a `Web` oracle. Parsing with bs4, `urlopen`, `urlretrieve`, `mkdir` and `shutil.copy` are not modelled.
- InfoFiles.Appended: a non-empty file is taken to end with a line break. Files written by `add_to_data` always end in CR LF. A file whose last line has no line break, such as the files test/info_files_helpers_test.py:21 and :29 create, would have the new value line joined onto that last line, and the model does not represent that case.
- Scraper.GetAppIcon: `_download_icon` fetches the page a second time, and the oracle returns the same page both times.
- Imaging: PIL's `expand` and `crop`, pixel decoding, the alpha-channel slice, numpy arrays, `_load_icon` and the keras `Sequence` base class are not modelled. Only the border and crop-box arithmetic of `_resize_input` is modelled.
- Filesystem listing order: the category directories and their icons are given as a sequence.
- Negative batch indices: `GetItem` takes a natural index.
- Sequencer.FitToBatchSize: requires an icon list that is not empty, or a batch that is already full, because the source's loop never ends otherwise. The sequencer also requires a positive batch size.
- Sequencer.GetItem: requires a non-empty icon list, for the same reason.
- AppPageScraper.Lower: lower-cases ASCII letters only. Python's `str.lower` also maps letters outside ASCII.
- BetelErrors.Describe: the repr's quoting is simplified to `ClassName('message')`. Python chooses double quotes for a message containing a single quote and escapes special characters.
- The scraper's warnings go to Python's `logging` module. The model records the messages passed to `logging.warning`, and not the logging format.
- ClassifierDataSetBuilder.Builder.constructor: requires every existing info file to be empty or headed by `app_id,data_set`. A file with another header would make the probe raise `KeyError`, and the model leaves that state out. The scraper's constructor asks the same of its info file with `app_id,category`.
- `split_ratio`: the constructor passes it to a base constructor that takes only two parameters, so the call as written raises TypeError (see Findings). The ratio is never used by `split`, so the corrected constructor leaves it out.
- betel/info_files_helpers.py and betel/utils.py, the DataFrame helpers the betel modules import, are not part of this model. Their behaviour is taken from src/info_files_helpers.py and src/utils.py, including the probe `{app_id}` built by `get_app_search_data_frame`.
- Earlier scraper variants (src/app_page_scraper.py, src/play_scraper.py, play_scraper.py), model training, the command-line entry point, the category enumeration and the test scaffolding are outside the modelled core.
- InfoFiles.CsvFile.PartOfDataSet: its contract states only that the loop computes `Contains`. `ContainsIffOneRowMatches`, `ContainsEmptyProbe` and `ProbeOnAppId` give the meaning of `Contains`.
- The pandas sort: `SortByAppId` is stable, while pandas' default sort is not. The results agree whenever the ids are distinct (`SortIgnoresOrder`), which is the case the split lemmas assume.

## Findings

| source | as written | input that shows it | evidently intended | confidence | as-written member | corrected member |
|---|---|---|---|---|---|---|
| src/classifier_sequence.py:91-94 | Padding adds the border `(target − size) // 2` on both sides, so an odd difference leaves the image one pixel short. | An icon of 189×189 with target 192: the border is 1, and the padded image is 191×191, not 192×192. | Every icon comes out at the target size: the floor of half the difference goes on the left and top, and the rest on the right and bottom. | not executed | ClassifierSequence.ResizedSizeAsWritten, shown by ClassifierSequence.ResizeOddDifferenceFallsShort and ClassifierSequence.ResizedSizeAsWrittenReachesTarget | ClassifierSequence.ResizedSize |
| betel/classifier_data_set_builder.py:25 | `super().__init__(input_dir, storage_dir, split_ratio)` passes three positional arguments to `DataSetBuilder.__init__(self, input_dir, storage_dir)` (betel/data_set_builder.py:14). | Any construction, such as `ClassifierDataSetBuilder(input_dir, storage_dir)` in test/classifier_data_set_builder_test.py:37, raises TypeError before any directory is created. | The base constructor receives the two directories, and `split_ratio` is dropped or stored by the subclass. | not executed | ClassifierDataSetBuilder.SuperInitAsWrittenRaises, over ClassifierDataSetBuilder.BindPositional | ClassifierDataSetBuilder.SuperInitCorrected and ClassifierDataSetBuilder.Builder.constructor |
