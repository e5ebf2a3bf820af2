/**
 * The Play Store app page scraper (betel/app_page_scraper.py): for every app id not yet in the
 * scraper's info file, fetch the app's page, read its category, and, when the category passes
 * the filter, download its icon and append the record `app_id,category` to the info file; a
 * failure on the way is logged and the app skipped.
 *
 * The web is an oracle: the page at a URL is either parsed (with or without the category and icon
 * elements) or fails with the text of a URL/HTTP error; a download either succeeds or fails
 * likewise. Every page request is recorded, so that "no page is fetched" can be stated.
 */
module AppPageScraper {
  import opened Wrappers
  import opened BetelErrors
  import opened InfoFiles
  import opened Utils

  /** What the parsed page yields: the text of the `genre` element and the `src` of the icon. */
  datatype Page = Page(genre: Option<string>, iconSrc: Option<string>)

  /**
   * The web as seen from the scraper: the page at each URL, or the text of the error opening it;
   * and for each icon source, `None` when its download succeeds, or the text of the error.
   */
  datatype Web = Web(pages: string -> Result<Page, string>, downloads: string -> Option<string>)

  /** The columns of the scraper's info file. */
  const AppInfoHeader: Line := ["app_id", "category"]

  /** `_build_app_page_url`. */
  function AppPageUrl(baseUrl: string, appId: string): (url: string)
    ensures |url| == |baseUrl| + |"/details?id="| + |appId|
    ensures url[..|baseUrl|] == baseUrl
    ensures url[|baseUrl|..|baseUrl| + 12] == "/details?id="
    ensures url[|url| - |appId|..] == appId
  {
    baseUrl + "/details?id=" + appId
  }

  /** For one store, distinct apps have distinct page URLs. */
  lemma AppPageUrlInjective(baseUrl: string, a: string, b: string)
    ensures AppPageUrl(baseUrl, a) == AppPageUrl(baseUrl, b) <==> a == b
  {
    if AppPageUrl(baseUrl, a) == AppPageUrl(baseUrl, b) {
      var n := |baseUrl| + 12;
      assert a == AppPageUrl(baseUrl, a)[n..] == AppPageUrl(baseUrl, b)[n..] == b;
    }
  }

  /** `str.lower` on one character, for the ASCII letters. */
  function LowerChar(c: char): char
  {
    if 'A' <= c <= 'Z' then (c as int + 32) as char else c
  }

  /** `str.lower`: every upper-case ASCII letter replaced by its lower-case one, all else kept. */
  function Lower(s: string): (r: string)
    ensures |r| == |s|
    ensures forall i :: 0 <= i < |s| ==> !('A' <= r[i] <= 'Z')
    ensures forall i :: 0 <= i < |s| && !('A' <= s[i] <= 'Z') ==> r[i] == s[i]
    ensures forall i :: 0 <= i < |s| && 'A' <= s[i] <= 'Z' ==> r[i] as int - s[i] as int == 'a' as int - 'A' as int
  {
    seq(|s|, i requires 0 <= i < |s| => LowerChar(s[i]))
  }

  /** Lowering twice is lowering once. */
  lemma LowerIdempotent(s: string)
    ensures Lower(Lower(s)) == Lower(s)
  {
  }

  /** The example of the scraper's tests: the genre "Example" is stored as "example". */
  lemma LowerExample()
    ensures Lower("Example") == "example"
  {
    assert Lower("Example")[0] == LowerChar('E') == 'e';
  }

  /** `_get_html`: a page that cannot be opened raises AccessError. */
  function PageAt(web: Web, url: string): (r: Result<Page, BetelError>)
    ensures r.Failure? <==> web.pages(url).Failure?
    ensures r.Failure? ==> r.error == AccessError("Can not open URL.", web.pages(url).error)
  {
    match web.pages(url)
    case Failure(text) => Failure(AccessError("Can not open URL.", text))
    case Success(page) => Success(page)
  }

  /**
   * `get_app_category`: the lowered text of the page's `genre` element; a page without one
   * raises PlayScrapingError.
   */
  function CategoryOf(web: Web, baseUrl: string, appId: string): (r: Result<string, BetelError>)
    ensures r.Success? <==> (web.pages(AppPageUrl(baseUrl, appId)).Success? &&
                             web.pages(AppPageUrl(baseUrl, appId)).value.genre.Some?)
    ensures r.Success? ==> r.value == Lower(web.pages(AppPageUrl(baseUrl, appId)).value.genre.value)
    ensures r.Failure? && web.pages(AppPageUrl(baseUrl, appId)).Success? ==>
      r.error == PlayScrapingError("Category itemprop not found in html.")
  {
    match PageAt(web, AppPageUrl(baseUrl, appId))
    case Failure(e) => Failure(e)
    case Success(page) =>
      if page.genre.None? then Failure(PlayScrapingError("Category itemprop not found in html."))
      else Success(Lower(page.genre.value))
  }

  /**
   * `get_app_icon` with the default sub-directory: the page's icon element gives the source to
   * download; a page without one raises PlayScrapingError, a failed download AccessError.
   */
  function IconDownload(web: Web, baseUrl: string, appId: string): (r: Option<BetelError>)
    ensures r.None? <==> (web.pages(AppPageUrl(baseUrl, appId)).Success? &&
                          web.pages(AppPageUrl(baseUrl, appId)).value.iconSrc.Some? &&
                          web.downloads(web.pages(AppPageUrl(baseUrl, appId)).value.iconSrc.value).None?)
  {
    match PageAt(web, AppPageUrl(baseUrl, appId))
    case Failure(e) => Some(e)
    case Success(page) =>
      if page.iconSrc.None? then Some(PlayScrapingError("Icon class not found in html."))
      else
        match web.downloads(page.iconSrc.value)
        case Some(text) => Some(AccessError("Can not retrieve icon.", text))
        case None => None
  }

  /** `_build_app_info_data_frame`: the record `{app_id, category}`, written as `<id>,<category>`. */
  function AppInfoRecord(appId: string, category: string): (d: Record)
    ensures d.keys == AppInfoHeader
    ensures d.entries["app_id"] == appId && d.entries["category"] == category
    ensures Values(d) == [appId, category]
  {
    Dict(AppInfoHeader, map["app_id" := appId, "category" := category])
  }

  /** The category passes when there is no filter or the filter lists it. */
  predicate Passes(filter: Option<seq<string>>, category: string)
  {
    filter.None? || category in filter.value
  }

  /** The message logged for a failure: the app id, a comma and a space, the exception's repr. */
  function FailureMessage(appId: string, e: BetelError): (message: string)
    ensures |message| == |appId| + 2 + |Describe(e)|
    ensures message[..|appId|] == appId
    ensures message[|appId|..] == ", " + Describe(e)
  {
    appId + ", " + Describe(e)
  }

  /** What the scraper has produced: the info file, the icon files, the page requests and the log. */
  datatype ScraperState = ScraperState(info: FileState, icons: set<string>, fetched: seq<string>, log: seq<string>)

  /** The info file is missing, empty, or headed by the scraper's columns. */
  predicate HeaderOk(f: FileState)
  {
    f.Missing? || f.lines == [] || f.lines[0] == AppInfoHeader
  }

  /** `part_of_data_set(info_file, {app_id})` on a well-headed info file. */
  function Known(info: FileState, appId: string): (known: bool)
    requires HeaderOk(info)
    ensures known <==> HasApp(RowsIn(info), appId)
  {
    ProbeOnAppId(info, appId);
    Contains(info, Probe("app_id", appId)) == Success(true)
  }

  /**
   * `store_app_info`: skip a known app; otherwise fetch the category and, if it passes the filter,
   * fetch the page again for the icon, download it, and append the record; an error on the way
   * is logged instead.
   */
  function Stored(st: ScraperState, web: Web, baseUrl: string, filter: Option<seq<string>>, appId: string): (r: ScraperState)
    requires HeaderOk(st.info)
    ensures HeaderOk(r.info)
  {
    if Known(st.info, appId) then st
    else
      var url := AppPageUrl(baseUrl, appId);
      var afterCategory := st.(fetched := st.fetched + [url]);
      match CategoryOf(web, baseUrl, appId)
      case Failure(e) => afterCategory.(log := st.log + [FailureMessage(appId, e)])
      case Success(category) =>
        if !Passes(filter, category) then afterCategory
        else
          var afterIcon := afterCategory.(fetched := afterCategory.fetched + [url]);
          match IconDownload(web, baseUrl, appId)
          case Some(e) => afterIcon.(log := st.log + [FailureMessage(appId, e)])
          case None =>
            afterIcon.(icons := st.icons + {IconName(appId)}, info := Appended(st.info, AppInfoRecord(appId, category)))
  }

  /**
   * The outcome of the `try` block of `store_app_info` for an app not yet known: the error it
   * caught, `None` when the category was filtered out, or the category stored.
   */
  function Attempt(web: Web, baseUrl: string, filter: Option<seq<string>>, appId: string): (r: Result<Option<string>, BetelError>)
    ensures r.Success? && r.value.Some? ==>
      CategoryOf(web, baseUrl, appId) == Success(r.value.value) && Passes(filter, r.value.value) &&
      IconDownload(web, baseUrl, appId).None?
    ensures r == Success(None) ==>
      CategoryOf(web, baseUrl, appId).Success? && !Passes(filter, CategoryOf(web, baseUrl, appId).value)
    ensures r.Failure? ==>
      CategoryOf(web, baseUrl, appId) == Failure(r.error) ||
      (CategoryOf(web, baseUrl, appId).Success? && Passes(filter, CategoryOf(web, baseUrl, appId).value) &&
       IconDownload(web, baseUrl, appId) == Some(r.error))
  {
    match CategoryOf(web, baseUrl, appId)
    case Failure(e) => Failure(e)
    case Success(category) =>
      if !Passes(filter, category) then Success(None)
      else
        match IconDownload(web, baseUrl, appId)
        case Some(e) => Failure(e)
        case None => Success(Some(category))
  }

  /** An app already in the info file is skipped: no page is fetched and nothing is written. */
  lemma StoredSkipsKnown(st: ScraperState, web: Web, baseUrl: string, filter: Option<seq<string>>, appId: string)
    requires HeaderOk(st.info)
    requires HasApp(RowsIn(st.info), appId)
    ensures Stored(st, web, baseUrl, filter, appId) == st
  {
  }

  /**
   * For an app not yet known, the page is fetched once for the category, and once more for the
   * icon exactly when the category was read and passes the filter.
   */
  lemma StoredFetches(st: ScraperState, web: Web, baseUrl: string, filter: Option<seq<string>>, appId: string)
    requires HeaderOk(st.info)
    requires !HasApp(RowsIn(st.info), appId)
    ensures var url := AppPageUrl(baseUrl, appId);
      Stored(st, web, baseUrl, filter, appId).fetched ==
        if CategoryOf(web, baseUrl, appId).Success? && Passes(filter, CategoryOf(web, baseUrl, appId).value)
        then st.fetched + [url, url] else st.fetched + [url]
  {
    var url := AppPageUrl(baseUrl, appId);
    assert st.fetched + [url] + [url] == st.fetched + [url, url];
  }

  /**
   * For an app not yet known: a caught error is logged as `<app_id>, <error>` and nothing is
   * written; a filtered-out category writes and logs nothing; otherwise the icon has been saved
   * and exactly the record `{app_id, category}` is appended, with nothing logged.
   */
  lemma StoredByAttempt(st: ScraperState, web: Web, baseUrl: string, filter: Option<seq<string>>, appId: string)
    requires HeaderOk(st.info)
    requires !HasApp(RowsIn(st.info), appId)
    ensures var r := Stored(st, web, baseUrl, filter, appId);
      match Attempt(web, baseUrl, filter, appId)
      case Failure(e) => r.log == st.log + [FailureMessage(appId, e)] && r.info == st.info && r.icons == st.icons
      case Success(None) => r.log == st.log && r.info == st.info && r.icons == st.icons
      case Success(Some(category)) =>
        r.log == st.log && r.icons == st.icons + {IconName(appId)} &&
        r.info == Appended(st.info, AppInfoRecord(appId, category))
  {
  }

  /**
   * The info file changes exactly when the app was not known, its category was read and passes
   * the filter, and its icon was downloaded; so a record never lacks its icon.
   */
  lemma StoredWritesOnlyAfterIcon(st: ScraperState, web: Web, baseUrl: string, filter: Option<seq<string>>, appId: string)
    requires HeaderOk(st.info)
    ensures Stored(st, web, baseUrl, filter, appId).info != st.info <==>
      (!HasApp(RowsIn(st.info), appId) && CategoryOf(web, baseUrl, appId).Success? &&
       Passes(filter, CategoryOf(web, baseUrl, appId).value) && IconDownload(web, baseUrl, appId).None?)
    ensures Stored(st, web, baseUrl, filter, appId).info != st.info ==>
      IconName(appId) in Stored(st, web, baseUrl, filter, appId).icons
  {
    var r := Stored(st, web, baseUrl, filter, appId);
    if !HasApp(RowsIn(st.info), appId) && CategoryOf(web, baseUrl, appId).Success? &&
       Passes(filter, CategoryOf(web, baseUrl, appId).value) && IconDownload(web, baseUrl, appId).None? {
      var g := Appended(st.info, AppInfoRecord(appId, CategoryOf(web, baseUrl, appId).value));
      assert r.info == g;
      if st.info.Present? {
        assert |g.lines| > |st.info.lines|;
      }
    }
  }

  /** After an app is written, the info file lists it. */
  lemma StoredKnows(st: ScraperState, web: Web, baseUrl: string, filter: Option<seq<string>>, appId: string)
    requires HeaderOk(st.info)
    requires Attempt(web, baseUrl, filter, appId).Success? && Attempt(web, baseUrl, filter, appId).value.Some?
    ensures HasApp(RowsIn(Stored(st, web, baseUrl, filter, appId).info), appId)
  {
    if !Known(st.info, appId) {
      var d := AppInfoRecord(appId, Attempt(web, baseUrl, filter, appId).value.value);
      assert Appended(st.info, d) == Appended(Present(LinesOf(st.info)), d);
      ContainsAfterAppend(LinesOf(st.info), d, Probe("app_id", appId));
      ProbeOnAppId(Appended(st.info, d), appId);
    }
  }

  /**
   * Storing the same app twice writes no more than storing it once: the second call finds the
   * record of the first, or meets the same filter or error again.
   */
  lemma StoredTwiceWritesOnce(st: ScraperState, web: Web, baseUrl: string, filter: Option<seq<string>>, appId: string)
    requires HeaderOk(st.info)
    ensures var once := Stored(st, web, baseUrl, filter, appId);
      Stored(once, web, baseUrl, filter, appId).info == once.info &&
      Stored(once, web, baseUrl, filter, appId).icons == once.icons
  {
    var once := Stored(st, web, baseUrl, filter, appId);
    match Attempt(web, baseUrl, filter, appId)
    case Success(Some(_)) =>
      StoredKnows(st, web, baseUrl, filter, appId);
    case Success(None) =>
    case Failure(_) =>
  }

  /** No app is listed twice in the info file. */
  predicate UniqueApps(info: FileState)
  {
    UniqueOn(RowsIn(info), "app_id")
  }

  /** Storing an app keeps the info file free of duplicate app ids. */
  lemma StoredKeepsUnique(st: ScraperState, web: Web, baseUrl: string, filter: Option<seq<string>>, appId: string)
    requires HeaderOk(st.info) && UniqueApps(st.info)
    ensures UniqueApps(Stored(st, web, baseUrl, filter, appId).info)
  {
    var r := Stored(st, web, baseUrl, filter, appId);
    if r.info != st.info {
      var d := AppInfoRecord(appId, CategoryOf(web, baseUrl, appId).value);
      var lines := LinesOf(st.info);
      assert r.info == Appended(st.info, d) == Appended(Present(lines), d);
      assert UniqueOn(Rows(lines), "app_id");
      ProbeOnAppId(Present(lines), appId);
      AppendAbsentKeepsUnique(lines, d, "app_id");
    }
  }

  /** `set(app_ids)`: every id once, in order of first occurrence. */
  function Dedup(ids: seq<string>): (r: seq<string>)
    ensures Distinct(r)
    ensures forall x :: x in r <==> x in ids
    decreases |ids|
  {
    if ids == [] then []
    else
      var n := |ids| - 1;
      var init := Dedup(ids[..n]);
      assert forall x :: x in ids <==> x in ids[..n] || x == ids[n];
      if ids[n] in init then init else init + [ids[n]]
  }

  /** `Stored` for each id in turn. */
  function StoredAll(st: ScraperState, web: Web, baseUrl: string, filter: Option<seq<string>>, ids: seq<string>): (r: ScraperState)
    requires HeaderOk(st.info)
    ensures HeaderOk(r.info)
    decreases |ids|
  {
    if ids == [] then st
    else
      var n := |ids| - 1;
      Stored(StoredAll(st, web, baseUrl, filter, ids[..n]), web, baseUrl, filter, ids[n])
  }

  /** However many apps are stored, the info file never lists one twice. */
  lemma {:induction false} StoredAllKeepsUnique(st: ScraperState, web: Web, baseUrl: string, filter: Option<seq<string>>, ids: seq<string>)
    requires HeaderOk(st.info) && UniqueApps(st.info)
    ensures UniqueApps(StoredAll(st, web, baseUrl, filter, ids).info)
    decreases |ids|
  {
    if ids != [] {
      var n := |ids| - 1;
      StoredAllKeepsUnique(st, web, baseUrl, filter, ids[..n]);
      StoredKeepsUnique(StoredAll(st, web, baseUrl, filter, ids[..n]), web, baseUrl, filter, ids[n]);
    }
  }

  /** The scraper, with its storage directory's files as fields. */
  class Scraper {
    const baseUrl: string
    const categoryFilter: Option<seq<string>>
    const web: Web
    /** The info file `apps` of the storage directory. */
    var info: FileState
    /** The icon files of the storage directory. */
    var icons: set<string>
    /** The URLs of the pages requested, in order. */
    var fetched: seq<string>
    /** The messages passed to `logging.warning`, in order. */
    var log: seq<string>

    function State(): ScraperState
      reads this
    {
      ScraperState(info, icons, fetched, log)
    }

    predicate Valid()
      reads this
    {
      HeaderOk(info)
    }

    /** `__init__`, on a storage directory whose info file, if any, has the scraper's header. */
    constructor (baseUrl: string, categoryFilter: Option<seq<string>>, web: Web, info: FileState, icons: set<string>, log: seq<string>)
      requires HeaderOk(info)
      ensures Valid()
      ensures this.baseUrl == baseUrl && this.categoryFilter == categoryFilter && this.web == web
      ensures State() == ScraperState(info, icons, [], log)
    {
      this.baseUrl := baseUrl;
      this.categoryFilter := categoryFilter;
      this.web := web;
      this.info := info;
      this.icons := icons;
      fetched := [];
      this.log := log;
    }

    /** `_get_app_page`: requests the app's page. */
    method GetAppPage(appId: string) returns (r: Result<Page, BetelError>)
      modifies this
      ensures r == PageAt(web, AppPageUrl(baseUrl, appId))
      ensures State() == old(State()).(fetched := old(fetched) + [AppPageUrl(baseUrl, appId)])
    {
      var url := AppPageUrl(baseUrl, appId);
      fetched := fetched + [url];
      match web.pages(url)
      case Failure(text) =>
        return Failure(AccessError("Can not open URL.", text));
      case Success(page) =>
        return Success(page);
    }

    /** `get_app_category`. */
    method GetAppCategory(appId: string) returns (r: Result<string, BetelError>)
      modifies this
      ensures r == CategoryOf(web, baseUrl, appId)
      ensures State() == old(State()).(fetched := old(fetched) + [AppPageUrl(baseUrl, appId)])
    {
      var html := GetAppPage(appId);
      if html.Failure? {
        return Failure(html.error);
      }
      if html.value.genre.None? {
        return Failure(PlayScrapingError("Category itemprop not found in html."));
      }
      return Success(Lower(html.value.genre.value));
    }

    /** `get_app_icon` into the storage directory itself: the icon file appears only on success. */
    method GetAppIcon(appId: string) returns (r: Option<BetelError>)
      modifies this
      ensures r == IconDownload(web, baseUrl, appId)
      ensures State() == old(State()).(fetched := old(fetched) + [AppPageUrl(baseUrl, appId)],
                                       icons := if r.None? then old(icons) + {IconName(appId)} else old(icons))
    {
      var html := GetAppPage(appId);
      if html.Failure? {
        return Some(html.error);
      }
      if html.value.iconSrc.None? {
        return Some(PlayScrapingError("Icon class not found in html."));
      }
      var failure := web.downloads(html.value.iconSrc.value);
      if failure.Some? {
        return Some(AccessError("Can not retrieve icon.", failure.value));
      }
      icons := icons + {IconName(appId)};
      return None;
    }

    /** `_write_app_info`: `add_to_data` of the record on the info file. */
    method WriteAppInfo(appId: string, category: string)
      requires Valid()
      modifies this
      ensures Valid()
      ensures State() == old(State()).(info := Appended(old(info), AppInfoRecord(appId, category)))
    {
      var file := new CsvFile(info);
      file.AddToData(AppInfoRecord(appId, category));
      info := file.state;
    }

    /** `store_app_info`. */
    method StoreAppInfo(appId: string)
      requires Valid()
      modifies this
      ensures Valid()
      ensures State() == Stored(old(State()), web, baseUrl, categoryFilter, appId)
    {
      var file := new CsvFile(info);
      var partOfDataSet := file.PartOfDataSet(Probe("app_id", appId));
      ProbeOnAppId(info, appId);
      if partOfDataSet.Failure? {
        assert false;
        return;
      }
      if !partOfDataSet.value {
        var category := GetAppCategory(appId);
        if category.Failure? {
          log := log + [FailureMessage(appId, category.error)];
          return;
        }
        if categoryFilter.None? || category.value in categoryFilter.value {
          var failure := GetAppIcon(appId);
          if failure.Some? {
            log := log + [FailureMessage(appId, failure.value)];
            return;
          }
          WriteAppInfo(appId, category.value);
        }
      }
    }

    /** `store_apps_info`, with the apps handled one after another. */
    method StoreAppsInfo(appIds: seq<string>)
      requires Valid()
      modifies this
      ensures Valid()
      ensures State() == StoredAll(old(State()), web, baseUrl, categoryFilter, Dedup(appIds))
    {
      var ids := Dedup(appIds);
      for i := 0 to |ids|
        invariant Valid()
        invariant State() == StoredAll(old(State()), web, baseUrl, categoryFilter, ids[..i])
      {
        assert ids[..i + 1][..i] == ids[..i];
        StoreAppInfo(ids[i]);
      }
      assert ids[..|ids|] == ids;
    }
  }
}
