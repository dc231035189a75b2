/**
 * The Jellyfin catalogue requests and the page arithmetic of their replies:
 * popular (seasons and movies of the chosen library, 20 per page), latest (the
 * same, newest first) and search (series and movies, 5 per page, each series
 * fanned out into its seasons), the episode-list request with its http guard,
 * and the summary line of a text setting.
 */
module JellyfinCatalog {
  import opened Wrappers
  import opened KotlinText
  import opened HttpUrl

  const SeasonsLimit := 20
  const SeriesLimit := 5

  /** The fields of the source object the requests read. */
  datatype Server = Server(baseUrl: string, userId: Option<string>, apiKey: Option<string>, parentId: string)

  /** Why a request or a parse throws. */
  datatype Failure =
    | Thrown(message: string)   // an exception with this message
    | NullValue                 // `!!` on null
    | NotANumber(text: string)  // `toInt()` on text that is not an `Int`

  /** What a listing reply tells the app: the page it answers and whether another follows. */
  datatype PageInfo = PageInfo(page: int, hasNextPage: bool)

  const NoLibrary := "Select library in the extension settings."
  const NotMigrated := "Migrate from jellyfin to jellyfin"

  // ---------------------------------------------------------------------------
  // Listing requests

  /** The first item of page `page` of popular. */
  function StartIndex(page: int, limit: int): int {
    (page - 1) * limit
  }

  /** The parameters of popular between the offset and the library, the same on every page. */
  const PopularListing: seq<Param> := [
    ("Limit", Some("20")),
    ("Recursive", Some("true")),
    ("SortBy", Some("SortName")),
    ("SortOrder", Some("Ascending")),
    ("IncludeItemTypes", Some("Movie,Season")),
    ("ImageTypeLimit", Some("1"))]

  /**
   * `popularAnimeRequest(page)`: refused without a library; otherwise the
   * user's items, 20 from `(page - 1) * 20`, sorted by name.
   */
  function PopularRequest(s: Server, page: int): (r: Result<Url, Failure>)
    ensures r.Err? <==> s.parentId == []
    ensures r.Err? ==> r.error == Thrown(NoLibrary)
  {
    if s.parentId == [] then Err(Thrown(NoLibrary))
    else Ok(Url(s.baseUrl + "/Users/" + Show(s.userId) + "/Items",
      [("api_key", s.apiKey), ("StartIndex", Some(IntToString(StartIndex(page, SeasonsLimit))))]
      + PopularListing
      + [("ParentId", Some(s.parentId)), ("EnableImageTypes", Some("Primary"))]))
  }

  /** `latestUpdatesRequest(page)`: popular, newest first. */
  function LatestRequest(s: Server, page: int): Result<Url, Failure> {
    match PopularRequest(s, page)
    case Err(e) => Err(e)
    case Ok(u) => Ok(SetQuery(SetQuery(u, "SortBy", Some("DateCreated,SortName")), "SortOrder", Some("Descending")))
  }

  /** `searchAnimeRequest(page, query)`: popular's URL searching series and movies, 5 at a time. */
  function SearchRequest(s: Server, page: int, query: string): Result<Url, Failure> {
    match PopularRequest(s, page)
    case Err(e) => Err(e)
    case Ok(u) =>
      Ok(SetQuery(SetQuery(SetQuery(u, "IncludeItemTypes", Some("Movie,Series")),
        "Limit", Some(IntToString(SeriesLimit))), "SearchTerm", Some(query)))
  }

  /** The seasons of one series found by search: popular's first page under the series, with no paging. */
  function SeasonsRequest(s: Server, seriesId: string): Result<Url, Failure> {
    match PopularRequest(s, 1)
    case Err(e) => Err(e)
    case Ok(u) => Ok(RemoveQuery(RemoveQuery(SetQuery(u, "ParentId", Some(seriesId)), "StartIndex"), "Limit"))
  }

  /** The requests of the search fan-out, one per series of the reply, in reply order. */
  function SeasonsRequests(s: Server, seriesIds: seq<string>): (r: Result<seq<Url>, Failure>)
    ensures r.Ok? ==> |r.value| == |seriesIds|
    ensures r.Err? <==> s.parentId == [] && seriesIds != []
  {
    if seriesIds == [] then Ok([])
    else match (SeasonsRequest(s, seriesIds[0]), SeasonsRequests(s, seriesIds[1..]))
      case (Ok(u), Ok(us)) => Ok([u] + us)
      case (Err(e), _) => Err(e)
      case (_, Err(e)) => Err(e)
  }

  // ---------------------------------------------------------------------------
  // Listing replies

  /**
   * The page a reply answers, read back from the `StartIndex` of its request,
   * and whether more items remain: `StartIndex / limit + 1` and
   * `limit * page < itemCount`, the product taken as an `Int`.
   */
  function PageOf(request: Url, limit: int, itemCount: int): (r: Result<PageInfo, Failure>)
    requires limit > 0
    ensures QueryValue(request.query, "StartIndex").None? ==> r == Err(NullValue)
    ensures r.Ok? ==> (r.value.hasNextPage <==> IntTimes(limit, r.value.page) < itemCount)
  {
    match QueryValue(request.query, "StartIndex")
    case None => Err(NullValue)
    case Some(text) =>
      match ParseInt(text)
      case None => Err(NotANumber(text))
      case Some(start) =>
        var page := TruncDiv(start, limit) + 1;
        Ok(PageInfo(page, IntTimes(limit, page) < itemCount))
  }

  /** A request whose `StartIndex` is the text of an `Int` answers page `StartIndex / limit + 1`. */
  lemma PageOfStart(request: Url, limit: int, itemCount: int, start: int)
    requires limit > 0 && IsInt(start)
    requires QueryValue(request.query, "StartIndex") == Some(IntToString(start))
    ensures PageOf(request, limit, itemCount) == Ok(PageInfo(TruncDiv(start, limit) + 1, IntTimes(limit, TruncDiv(start, limit) + 1) < itemCount))
  {
    ParseIntToString(start);
  }

  /**
   * On the last pages an `Int` can address, `20 * page` wraps to a negative
   * number, so an empty reply still reports a next page.
   */
  lemma PopularLastPageWraps(request: Url, start: int)
    requires start == 2147483640
    requires QueryValue(request.query, "StartIndex") == Some(IntToString(start))
    ensures PopularParse(request, 0) == Ok(PageInfo(107374183, true))
  {
    PageOfStart(request, SeasonsLimit, 0, start);
    assert TruncDiv(start, SeasonsLimit) == 107374182;
    IntTimesWrapsOnce(SeasonsLimit, 107374183);
  }

  /** A request whose `StartIndex` reads `(page - 1) * limit` answers page `page`. */
  lemma PageOfPage(request: Url, limit: int, itemCount: int, page: int)
    requires limit in {SeasonsLimit, SeriesLimit} && Addressable(page, limit)
    requires QueryValue(request.query, "StartIndex") == Some(IntToString(StartIndex(page, limit)))
    ensures PageOf(request, limit, itemCount) == Ok(PageInfo(page, limit * page < itemCount))
  {
    PageOfStart(request, limit, itemCount, StartIndex(page, limit));
    assert TruncDiv(StartIndex(page, limit), limit) == page - 1;
  }

  /** `popularAnimeParse` (and `latestUpdatesParse`, which is the same). */
  function PopularParse(request: Url, itemCount: int): Result<PageInfo, Failure> {
    PageOf(request, SeasonsLimit, itemCount)
  }

  /** `searchAnimeParse`: the same arithmetic over 5 items per page. */
  function SearchParse(request: Url, itemCount: int): Result<PageInfo, Failure> {
    PageOf(request, SeriesLimit, itemCount)
  }

  /** The pages whose first item, and the count of items up to their end, an `Int` can hold. */
  predicate Addressable(page: int, limit: int) {
    page >= 1 && IsInt(StartIndex(page, limit)) && IsInt(limit * page)
  }

  /** The request's `StartIndex` reads `(page - 1) * 20`. */
  lemma PopularStartIndex(s: Server, page: int)
    requires s.parentId != []
    ensures QueryValue(PopularRequest(s, page).value.query, "StartIndex") == Some(IntToString(StartIndex(page, SeasonsLimit)))
  {
    QueryValueAt(PopularRequest(s, page).value.query, "StartIndex", 1);
  }

  /** Parsing the reply to popular page `page` recovers `page`, with a next page iff `20 * page < itemCount`. */
  lemma PopularRoundTrip(s: Server, page: int, itemCount: int)
    requires s.parentId != [] && Addressable(page, SeasonsLimit)
    ensures PopularParse(PopularRequest(s, page).value, itemCount) == Ok(PageInfo(page, 20 * page < itemCount))
  {
    PopularStartIndex(s, page);
    PageOfPage(PopularRequest(s, page).value, SeasonsLimit, itemCount, page);
  }

  /** Latest keeps popular's paging (the sort parameters are the only ones replaced) and sorts newest first. */
  lemma LatestRoundTrip(s: Server, page: int, itemCount: int)
    requires s.parentId != [] && Addressable(page, SeasonsLimit)
    ensures PopularParse(LatestRequest(s, page).value, itemCount) == Ok(PageInfo(page, 20 * page < itemCount))
    ensures QueryValue(LatestRequest(s, page).value.query, "SortBy") == Some("DateCreated,SortName")
    ensures QueryValue(LatestRequest(s, page).value.query, "SortOrder") == Some("Descending")
  {
    var u := PopularRequest(s, page).value;
    var sorted := SetQuery(u, "SortBy", Some("DateCreated,SortName"));
    var latest := SetQuery(sorted, "SortOrder", Some("Descending"));
    assert LatestRequest(s, page).value == latest;
    PopularStartIndex(s, page);
    SetKeepsOther(u, "SortBy", Some("DateCreated,SortName"), "StartIndex");
    SetKeepsOther(sorted, "SortOrder", Some("Descending"), "StartIndex");
    PageOfPage(latest, SeasonsLimit, itemCount, page);
    SetThenRead(u, "SortBy", Some("DateCreated,SortName"));
    SetKeepsOther(sorted, "SortOrder", Some("Descending"), "SortBy");
    SetThenRead(sorted, "SortOrder", Some("Descending"));
  }

  /**
   * Search asks for 5 items from `(page - 1) * 20`, popular's offset, for the
   * query, among series and movies.
   */
  lemma SearchRequestReads(s: Server, page: int, query: string)
    requires s.parentId != []
    ensures var q := SearchRequest(s, page, query).value.query;
      && QueryValue(q, "StartIndex") == Some(IntToString(StartIndex(page, SeasonsLimit)))
      && QueryValue(q, "Limit") == Some("5")
      && QueryValue(q, "SearchTerm") == Some(query)
      && QueryValue(q, "IncludeItemTypes") == Some("Movie,Series")
  {
    var u := PopularRequest(s, page).value;
    var u1 := SetQuery(u, "IncludeItemTypes", Some("Movie,Series"));
    var u2 := SetQuery(u1, "Limit", Some(IntToString(SeriesLimit)));
    assert SearchRequest(s, page, query).value == SetQuery(u2, "SearchTerm", Some(query));
    PopularStartIndex(s, page);
    SetKeepsOther(u, "IncludeItemTypes", Some("Movie,Series"), "StartIndex");
    SetKeepsOther(u1, "Limit", Some(IntToString(SeriesLimit)), "StartIndex");
    SetKeepsOther(u2, "SearchTerm", Some(query), "StartIndex");
    SetThenRead(u1, "Limit", Some(IntToString(SeriesLimit)));
    SetKeepsOther(u2, "SearchTerm", Some(query), "Limit");
    SetThenRead(u2, "SearchTerm", Some(query));
    SetThenRead(u, "IncludeItemTypes", Some("Movie,Series"));
    SetKeepsOther(u1, "Limit", Some(IntToString(SeriesLimit)), "IncludeItemTypes");
    SetKeepsOther(u2, "SearchTerm", Some(query), "IncludeItemTypes");
  }

  /**
   * The search parse divides popular's offset by 5: the page it reports for
   * page `page` is `4 * (page - 1) + 1`.
   */
  lemma SearchPageAsWritten(s: Server, page: int, query: string, itemCount: int)
    requires s.parentId != [] && Addressable(page, SeasonsLimit)
    ensures SearchParse(SearchRequest(s, page, query).value, itemCount)
      == Ok(PageInfo(4 * (page - 1) + 1, 5 * (4 * (page - 1) + 1) < itemCount))
  {
    SearchRequestReads(s, page, query);
    SearchPageOfPopularOffset(SearchRequest(s, page, query).value, page, itemCount);
  }

  /** A request at popular's offset for page `page` answers search page `4 * (page - 1) + 1`. */
  lemma SearchPageOfPopularOffset(request: Url, page: int, itemCount: int)
    requires Addressable(page, SeasonsLimit)
    requires QueryValue(request.query, "StartIndex") == Some(IntToString(StartIndex(page, SeasonsLimit)))
    ensures SearchParse(request, itemCount) == Ok(PageInfo(4 * (page - 1) + 1, 5 * (4 * (page - 1) + 1) < itemCount))
  {
    PageOfStart(request, SeriesLimit, itemCount, StartIndex(page, SeasonsLimit));
    PopularOffsetInSearchPages(page);
  }

  /** Popular's offset for page `page` is `4 * (page - 1)` search pages. */
  lemma PopularOffsetInSearchPages(page: int)
    requires page >= 1
    ensures TruncDiv(StartIndex(page, SeasonsLimit), SeriesLimit) == 4 * (page - 1)
  {
    assert StartIndex(page, SeasonsLimit) == SeriesLimit * (4 * (page - 1));
  }

  /**
   * As written, search page `p` covers items `20 * (p - 1)` to `20 * (p - 1) + 4`,
   * so the items at positions 5 to 19 of every block of 20 are never requested.
   */
  lemma SearchSkipsItems(page: int, item: nat)
    requires page >= 1 && item % 20 >= 5
    ensures !(StartIndex(page, SeasonsLimit) <= item < StartIndex(page, SeasonsLimit) + SeriesLimit)
  {
  }

  /** `searchAnimeRequest` with the offset counted in search pages: `(page - 1) * 5`. */
  function CorrectedSearchRequest(s: Server, page: int, query: string): Result<Url, Failure> {
    match SearchRequest(s, page, query)
    case Err(e) => Err(e)
    case Ok(u) => Ok(SetQuery(u, "StartIndex", Some(IntToString(StartIndex(page, SeriesLimit)))))
  }

  /** With the corrected offset the parse recovers the page, and the pages' windows tile the items. */
  lemma CorrectedSearchRoundTrip(s: Server, page: int, query: string, itemCount: int)
    requires s.parentId != [] && Addressable(page, SeriesLimit)
    ensures SearchParse(CorrectedSearchRequest(s, page, query).value, itemCount) == Ok(PageInfo(page, 5 * page < itemCount))
  {
    var u := SearchRequest(s, page, query).value;
    var v := SetQuery(u, "StartIndex", Some(IntToString(StartIndex(page, SeriesLimit))));
    assert CorrectedSearchRequest(s, page, query).value == v;
    SetThenRead(u, "StartIndex", Some(IntToString(StartIndex(page, SeriesLimit))));
    PageOfPage(v, SeriesLimit, itemCount, page);
  }

  /** Every item lies in the window of exactly one corrected search page: page `item / 5 + 1`. */
  lemma CorrectedSearchCoversItems(item: nat, page: int)
    requires page >= 1
    ensures StartIndex(page, SeriesLimit) <= item < StartIndex(page, SeriesLimit) + SeriesLimit <==> page == item / 5 + 1
  {
  }

  /** Popular lists seasons and movies. */
  lemma PopularItemTypes(s: Server, page: int)
    requires s.parentId != []
    ensures QueryValue(PopularRequest(s, page).value.query, "IncludeItemTypes") == Some("Movie,Season")
  {
    QueryValueAt(PopularRequest(s, page).value.query, "IncludeItemTypes", 6);
  }

  /** Each season request looks under its series, unpaged, for seasons and movies. */
  lemma SeasonsRequestReads(s: Server, seriesId: string)
    requires s.parentId != []
    ensures var q := SeasonsRequest(s, seriesId).value.query;
      && QueryValue(q, "ParentId") == Some(seriesId)
      && QueryValue(q, "StartIndex") == None
      && QueryValue(q, "Limit") == None
      && QueryValue(q, "IncludeItemTypes") == Some("Movie,Season")
  {
    PopularItemTypes(s, 1);
    UnpagedUnder(PopularRequest(s, 1).value, seriesId);
  }

  /** Re-parenting a listing and dropping its paging keeps what it lists. */
  lemma UnpagedUnder(u: Url, parent: string)
    ensures var q := RemoveQuery(RemoveQuery(SetQuery(u, "ParentId", Some(parent)), "StartIndex"), "Limit").query;
      && QueryValue(q, "ParentId") == Some(parent)
      && QueryValue(q, "StartIndex") == None
      && QueryValue(q, "Limit") == None
      && QueryValue(q, "IncludeItemTypes") == QueryValue(u.query, "IncludeItemTypes")
  {
    var u1 := SetQuery(u, "ParentId", Some(parent));
    var u2 := RemoveQuery(u1, "StartIndex");
    SetThenRead(u, "ParentId", Some(parent));
    RemoveKeepsOther(u1, "StartIndex", "ParentId");
    RemoveKeepsOther(u2, "Limit", "ParentId");
    RemoveThenRead(u1, "StartIndex");
    RemoveKeepsOther(u2, "Limit", "StartIndex");
    RemoveThenRead(u2, "Limit");
    SetKeepsOther(u, "ParentId", Some(parent), "IncludeItemTypes");
    RemoveKeepsOther(u1, "StartIndex", "IncludeItemTypes");
    RemoveKeepsOther(u2, "Limit", "IncludeItemTypes");
  }

  // ---------------------------------------------------------------------------
  // Episode list request

  /** The text of a URL after its first `#`, or null. */
  function Fragment(url: string): Option<string> {
    if Contains(url, "#") then Some(SubstringAfter(url, "#", "")) else None
  }

  /** Scheme and host: everything up to the first `/`, `?` or `#` after `://`. */
  function Origin(url: string): string {
    var scheme := SubstringBefore(url, "://", url);
    var rest := SubstringAfter(url, "://", url);
    scheme + "://" + HostOf(rest)
  }

  /** The text after `://` up to the query or the fragment: the host and the path. */
  function HostAndPath(rest: string): string {
    var beforeFragment := SubstringBefore(rest, "#", rest);
    SubstringBefore(beforeFragment, "?", beforeFragment)
  }

  /** The host: the host and path up to its first `/`, or all of it when there is no path. */
  function HostOf(rest: string): string {
    var hostAndPath := HostAndPath(rest);
    SubstringBefore(hostAndPath, "/", hostAndPath)
  }

  /**
   * `pathSegments.last()`: the text after the last `/` of the path, which is
   * empty for a path ending in `/` and for a URL with no path at all.
   */
  function LastSegment(url: string): string {
    var hostAndPath := HostAndPath(SubstringAfter(url, "://", url));
    if '/' in hostAndPath then AfterLast(hostAndPath, '/') else ""
  }

  /** `toHttpUrl()` accepts only the http and https schemes. */
  predicate HttpScheme(url: string) {
    StartsWith(Lowercase(url), "http://") || StartsWith(Lowercase(url), "https://")
  }

  /**
   * `episodeListRequest`: a URL from before the migration is refused; a
   * season (fragment `seriesId,…`) is fetched from the series' episode list
   * for that season, a movie (fragment `movie…`) without its fragment, and
   * anything else as it is.
   */
  function EpisodeListRequest(s: Server, url: string): (r: Result<string, Failure>)
    ensures !StartsWith(url, "http") ==> r == Err(Thrown(NotMigrated))
    ensures r.Ok? ==> StartsWith(r.value, "http")
  {
    if !StartsWith(url, "http") then Err(Thrown(NotMigrated))
    else if !HttpScheme(url) then Err(Thrown("Expected URL scheme 'http' or 'https'"))
    else match Fragment(url)
      case None => Err(NullValue)
      case Some(fragment) =>
        if StartsWith(fragment, "seriesId") then
          OriginKeepsScheme(url);
          Ok(Render(SeasonEpisodesUrl(s, Origin(url), AfterLast(fragment, ','), LastSegment(url))))
        else if StartsWith(fragment, "movie") then Ok(WithoutFragment(url))
        else Ok(url)
  }

  /**
   * The episode list of a season: `/Shows/<series>/Episodes` on the origin
   * (scheme and host) of the season's URL, asking for the season with the api
   * key, the user id and the overview and media sources of each episode.
   * The series id is joined as text, without the segment normalisation and
   * encoding that `addPathSegment` applies.
   */
  function SeasonEpisodesUrl(s: Server, origin: string, series: string, season: string): (r: Url)
    ensures r.path == origin + "/Shows/" + series + "/Episodes"
    ensures QueryValue(r.query, "api_key") == s.apiKey
    ensures QueryValue(r.query, "seasonId") == Some(season)
    ensures QueryValue(r.query, "userId") == s.userId
    ensures QueryValue(r.query, "Fields") == Some("Overview,MediaSources")
    ensures StartsWith(origin, "http") ==> StartsWith(Render(r), "http")
  {
    var r := Url(origin + "/Shows/" + series + "/Episodes", EpisodesQuery(s.apiKey, season, s.userId));
    EpisodesUrlKeepsScheme(origin, series, r);
    r
  }

  /** The parameters of a season's episode list, each read back by its name. */
  function EpisodesQuery(apiKey: Option<string>, season: string, userId: Option<string>): (q: seq<Param>)
    ensures QueryValue(q, "api_key") == apiKey
    ensures QueryValue(q, "seasonId") == Some(season)
    ensures QueryValue(q, "userId") == userId
    ensures QueryValue(q, "Fields") == Some("Overview,MediaSources")
  {
    var q := [("api_key", apiKey), ("seasonId", Some(season)), ("userId", userId), ("Fields", Some("Overview,MediaSources"))];
    EpisodesQueryReads(q);
    q
  }

  /**
   * A season `scheme://host<path><query>#<fragment>` is fetched as
   * `scheme://host/Shows/<series>/Episodes` with the api key, the season (the
   * path's last segment, empty when there is no path), the user id and the
   * fields, whatever its path and query held.
   */
  lemma SeasonRequestOf(s: Server, scheme: string, host: string, path: string, query: string, fragment: string)
    requires scheme == "http" || scheme == "https"
    requires '/' !in host && '?' !in host && '#' !in host
    requires path == [] || path[0] == '/'
    requires '?' !in path && '#' !in path
    requires query == [] || query[0] == '?'
    requires '#' !in query
    requires StartsWith(fragment, "seriesId")
    ensures EpisodeListRequest(s, scheme + "://" + (host + path + query + "#" + fragment))
      == Ok(Render(SeasonEpisodesUrl(s, scheme + "://" + host, AfterLast(fragment, ','),
                                     if path == [] then "" else AfterLast(path, '/'))))
  {
    var rest := host + path + query + "#" + fragment;
    var url := scheme + "://" + rest;
    assert StartsWith(url, "http") && HttpScheme(url) by { SchemeIsHttp(scheme, rest); }
    assert Fragment(url) == Some(fragment) by { FragmentOf(scheme + "://", host + path + query, fragment); }
    assert SubstringAfter(url, "://", url) == rest && SubstringBefore(url, "://", url) == scheme by {
      SplitAtFirst(scheme, "://", rest, url);
    }
    assert HostAndPath(rest) == host + path by { HostAndPathOf(host + path, query, fragment); }
    assert Origin(url) == scheme + "://" + host && LastSegment(url) == (if path == [] then "" else AfterLast(path, '/')) by {
      HostOfPath(host, path);
    }
    SeasonBranch(s, url, fragment);
  }

  /** A season URL that passes both checks is fetched from its origin's episode list for its last path segment. */
  lemma SeasonBranch(s: Server, url: string, fragment: string)
    requires StartsWith(url, "http") && HttpScheme(url)
    requires Fragment(url) == Some(fragment) && StartsWith(fragment, "seriesId")
    ensures EpisodeListRequest(s, url) == Ok(Render(SeasonEpisodesUrl(s, Origin(url), AfterLast(fragment, ','), LastSegment(url))))
  {
  }

  /** The fragment of `<prefix><text>#<fragment>` is what follows the first `#`. */
  lemma FragmentOf(prefix: string, text: string, fragment: string)
    requires '#' !in prefix && '#' !in text
    ensures Fragment(prefix + (text + "#" + fragment)) == Some(fragment)
  {
    assert prefix + (text + "#" + fragment) == (prefix + text) + "#" + fragment;
    SplitAtFirst(prefix + text, "#", fragment, "");
  }

  /** The host and path of `<hostAndPath><query>#<fragment>` end at the query or the fragment. */
  lemma HostAndPathOf(hostAndPath: string, query: string, fragment: string)
    requires '?' !in hostAndPath && '#' !in hostAndPath
    requires query == [] || query[0] == '?'
    requires '#' !in query
    ensures HostAndPath(hostAndPath + query + "#" + fragment) == hostAndPath
  {
    SplitAtFirst(hostAndPath + query, "#", fragment, hostAndPath + query + "#" + fragment);
    if query == [] {
      assert hostAndPath + query == hostAndPath;
      CharAbsent(hostAndPath, '?');
    } else {
      SplitHead(hostAndPath, query);
      SplitAtFirst(hostAndPath, "?", query[1..], hostAndPath + query);
    }
  }

  /** The host ends at the first `/`, and the last path segment is the path's. */
  lemma HostOfPath(host: string, path: string)
    requires '/' !in host
    requires path == [] || path[0] == '/'
    ensures SubstringBefore(host + path, "/", host + path) == host
    ensures '/' in host + path <==> path != []
    ensures path != [] ==> AfterLast(host + path, '/') == AfterLast(path, '/')
  {
    if path == [] {
      assert host + path == host;
      CharAbsent(host, '/');
    } else {
      SplitHead(host, path);
      SplitAtFirst(host, "/", path[1..], host + path);
      assert (host + path)[|host|] == '/';
      AfterLastAppend(host, path, '/');
    }
  }

  /** Appending a non-empty text is appending its first character and then the rest. */
  lemma SplitHead(a: string, b: string)
    requires b != []
    ensures a + b == a + [b[0]] + b[1..]
  {
  }

  /** A URL up to its first `#`. */
  function WithoutFragment(url: string): (r: string)
    requires StartsWith(url, "http")
    ensures StartsWith(r, "http")
    ensures Contains(url, "#") ==> r + "#" <= url && !Contains(r, "#")
  {
    BeforeKeepsHttp(url, "#");
    SubstringBefore(url, "#", url)
  }

  /** Each of the four parameters of a season's episode list reads back its own value. */
  lemma EpisodesQueryReads(q: seq<Param>)
    requires |q| == 4 && q[0].0 == "api_key" && q[1].0 == "seasonId" && q[2].0 == "userId" && q[3].0 == "Fields"
    ensures QueryValue(q, "api_key") == q[0].1 && QueryValue(q, "seasonId") == q[1].1
    ensures QueryValue(q, "userId") == q[2].1 && QueryValue(q, "Fields") == q[3].1
  {
    QueryValueAt(q, "api_key", 0);
    QueryValueAt(q, "seasonId", 1);
    QueryValueAt(q, "userId", 2);
    QueryValueAt(q, "Fields", 3);
  }

  /** An episode list on an http origin renders to a text starting with "http". */
  lemma EpisodesUrlKeepsScheme(origin: string, series: string, u: Url)
    requires u.path == origin + "/Shows/" + series + "/Episodes"
    ensures StartsWith(origin, "http") ==> StartsWith(Render(u), "http")
  {
    if StartsWith(origin, "http") {
      assert u.path[..4] == origin[..4];
      RenderKeepsPrefix(u, "http");
    }
  }

  /** A URL whose path starts with `p` renders to a text starting with `p`. */
  lemma RenderKeepsPrefix(u: Url, p: string)
    requires StartsWith(u.path, p)
    ensures StartsWith(Render(u), p)
  {
    RenderStartsWithPath(u);
    PrefixOfPrefix(u.path, Render(u), p);
  }

  /** A URL with the http or https scheme passes both checks of `episodeListRequest`. */
  lemma SchemeIsHttp(scheme: string, rest: string)
    requires scheme == "http" || scheme == "https"
    ensures StartsWith(scheme + "://" + rest, "http") && HttpScheme(scheme + "://" + rest)
  {
    LowercaseAppend(scheme + "://", rest);
    assert Lowercase(scheme + "://") == scheme + "://";
  }

  /** A prefix of a prefix is a prefix. */
  lemma PrefixOfPrefix(s: string, t: string, p: string)
    requires StartsWith(s, p) && s <= t
    ensures StartsWith(t, p)
  {
    assert t[..|p|] == s[..|p|];
  }

  /** Cutting a URL that starts with "http" at a delimiter that does not start with h, t or p keeps the "http". */
  lemma BeforeKeepsHttp(url: string, d: string)
    requires StartsWith(url, "http") && d != [] && d[0] !in "htp"
    ensures StartsWith(SubstringBefore(url, d, url), "http")
  {
    if Contains(url, d) {
      var i := IndexOf(url, d);
      forall j | 0 <= j < 4 ensures !OccursAt(url, d, j) {
        if j + |d| <= |url| {
          assert url[j..j + |d|][0] == url[j] == "http"[j];
        }
      }
      assert 4 <= i;
      assert SubstringBefore(url, d, url)[..4] == url[..4];
    }
  }

  /** `scheme://host` of a URL that starts with "http" starts with "http" too. */
  lemma OriginKeepsScheme(url: string)
    requires StartsWith(url, "http")
    ensures StartsWith(Origin(url), "http")
  {
    BeforeKeepsHttp(url, "://");
    PrefixOfPrefix(SubstringBefore(url, "://", url), Origin(url), "http");
  }

  /** A movie is fetched from its URL without the fragment: adding `#` and the fragment gives the URL back. */
  lemma MovieRequestDropsFragment(s: Server, url: string)
    requires StartsWith(url, "http") && HttpScheme(url) && Fragment(url).Some?
    requires !StartsWith(Fragment(url).value, "seriesId") && StartsWith(Fragment(url).value, "movie")
    ensures EpisodeListRequest(s, url).Ok?
    ensures EpisodeListRequest(s, url).value + "#" + Fragment(url).value == url
    ensures !Contains(EpisodeListRequest(s, url).value, "#")
  {
  }

  /** Without a fragment the `!!` throws; with a fragment naming neither a season nor a movie the URL is used as it is. */
  lemma OtherEpisodeRequests(s: Server, url: string)
    requires StartsWith(url, "http") && HttpScheme(url)
    ensures Fragment(url).None? ==> EpisodeListRequest(s, url) == Err(NullValue)
    ensures Fragment(url).Some? && !StartsWith(Fragment(url).value, "seriesId") && !StartsWith(Fragment(url).value, "movie")
      ==> EpisodeListRequest(s, url) == Ok(url)
  {
  }

  // ---------------------------------------------------------------------------
  // Settings summary

  /**
   * `getSummary`: a password that is set shows the placeholder, an empty one
   * shows nothing; any other setting shows its value, or the placeholder
   * while it is empty.
   */
  function GetSummary(isPassword: bool, value: string, placeholder: string): (r: string)
    ensures isPassword && value != [] ==> r == placeholder
    ensures isPassword && value == [] ==> r == []
    ensures !isPassword && value != [] ==> r == value
    ensures !isPassword && value == [] ==> r == placeholder
  {
    if (isPassword && value != []) || (!isPassword && value == []) then placeholder else value
  }

  /** The summary of a password shows the password only when it equals the placeholder or is empty. */
  lemma SummaryHidesPassword(value: string, placeholder: string)
    ensures GetSummary(true, value, placeholder) == value <==> value == [] || value == placeholder
  {
  }
}
