/**
 * The catalogue side of Pelisplushd: the episode list of a title page, the
 * digits of an episode label, the search request with its filters, and the
 * genre filter's path.
 */
module PelisplushdCatalog {
  import opened Wrappers
  import opened KotlinText

  // ---------------------------------------------------------------------------
  // Episodes

  /** One link of the season tabs: its text and its absolute `href`. */
  datatype Link = Link(text: string, href: string)

  /** An episode: its number, its name and its URL without the domain. */
  datatype Episode = Episode(number: int, name: string, url: string)

  const MovieName := "PEL\U{CD}CULA"

  /**
   * `episodeListParse`: a movie page (its URL has `/pelicula/`) is one
   * episode numbered 1; otherwise the links become episodes numbered from 1
   * in page order, and the list comes back reversed. `withoutDomain` is what
   * `setUrlWithoutDomain` keeps of a URL.
   */
  method EpisodeListParse(requestUrl: string, links: seq<Link>, withoutDomain: string -> string)
    returns (episodes: seq<Episode>)
    ensures Contains(requestUrl, "/pelicula/") ==> episodes == [Episode(1, MovieName, withoutDomain(requestUrl))]
    ensures !Contains(requestUrl, "/pelicula/") ==>
      && |episodes| == |links|
      && forall k :: 0 <= k < |links| ==>
        episodes[k] == Episode(|links| - k, links[|links| - 1 - k].text, withoutDomain(links[|links| - 1 - k].href))
  {
    var list: seq<Episode> := [];
    if Contains(requestUrl, "/pelicula/") {
      list := list + [Episode(1, MovieName, withoutDomain(requestUrl))];
    } else {
      var i := 0;
      while i < |links|
        invariant 0 <= i <= |links|
        invariant |list| == i
        invariant forall k :: 0 <= k < i ==> list[k] == Episode(k + 1, links[k].text, withoutDomain(links[k].href))
      {
        list := list + [Episode(i + 1, links[i].text, withoutDomain(links[i].href))];
        i := i + 1;
      }
    }
    episodes := Reversed(list);
  }

  // ---------------------------------------------------------------------------
  // Episode numbers

  /** The digits of `s`, in order. */
  function Digits(s: string): (r: string)
    ensures AllDigits(r) && |r| <= |s|
  {
    if s == [] then [] else (if IsDigit(s[0]) then [s[0]] else []) + Digits(s[1..])
  }

  /** `getNumberFromString`: the digits of the text, or "0" when it has none. */
  function GetNumberFromString(epsStr: string): (r: string)
    ensures r != [] && AllDigits(r)
    ensures Digits(epsStr) != [] ==> r == Digits(epsStr)
    ensures Digits(epsStr) == [] ==> r == "0"
  {
    var digits := Digits(epsStr);
    if digits == [] then "0" else digits
  }

  /** Keeping the digits of a concatenation keeps those of each part. */
  lemma {:induction false} DigitsAppend(a: string, b: string)
    ensures Digits(a + b) == Digits(a) + Digits(b)
  {
    if a != [] {
      assert (a + b)[1..] == a[1..] + b;
      DigitsAppend(a[1..], b);
    } else {
      assert a + b == b;
    }
  }

  /** A text is its own digits exactly when it is all digits. */
  lemma {:induction false} DigitsFixed(s: string)
    ensures Digits(s) == s <==> AllDigits(s)
  {
    if s != [] {
      DigitsFixed(s[1..]);
      if !IsDigit(s[0]) {
        assert |Digits(s)| <= |s[1..]| < |s|;
      }
    }
  }

  /** The number of an episode label is its own number. */
  lemma GetNumberIdempotent(epsStr: string)
    ensures GetNumberFromString(GetNumberFromString(epsStr)) == GetNumberFromString(epsStr)
  {
    var r := GetNumberFromString(epsStr);
    DigitsFixed(r);
  }

  // ---------------------------------------------------------------------------
  // Genres

  /** The genre filter's entries: the label shown and the path it selects. */
  const Genres: seq<(string, string)> := [
    ("<selecionar>", ""),
    ("Peliculas", "peliculas"),
    ("Series", "series"),
    ("Doramas", "generos/dorama"),
    ("Animes", "animes"),
    ("Acci\U{F3}n", "generos/accion"),
    ("Animaci\U{F3}n", "generos/animacion"),
    ("Aventura", "generos/aventura"),
    ("Ciencia Ficci\U{F3}n", "generos/ciencia-ficcion"),
    ("Comedia", "generos/comedia"),
    ("Crimen", "generos/crimen"),
    ("Documental", "generos/documental"),
    ("Drama", "generos/drama"),
    ("Fantas\U{ED}a", "generos/fantasia"),
    ("Foreign", "generos/foreign"),
    ("Guerra", "generos/guerra"),
    ("Historia", "generos/historia"),
    ("Misterio", "generos/misterio"),
    ("Pelicula de Televisi\U{F3}n", "generos/pelicula-de-la-television"),
    ("Romance", "generos/romance"),
    ("Suspense", "generos/suspense"),
    ("Terror", "generos/terror"),
    ("Western", "generos/western")]

  /** Why building a search request throws. */
  datatype SearchFailure =
    | MissingFilter            // `find` gave null and the cast `as` rejected it
    | GenreOutOfRange(state: int)

  /** `toUriPart()`: the path of the selected entry; an index outside the list throws. */
  function ToUriPart(state: int): (r: Result<string, SearchFailure>)
    ensures r.Ok? <==> 0 <= state < |Genres|
    ensures r.Err? ==> r.error == GenreOutOfRange(state)
  {
    if 0 <= state < |Genres| then Ok(Genres[state].1) else Err(GenreOutOfRange(state))
  }

  /** Only the placeholder entry selects the empty path. */
  lemma GenrePaths(state: int)
    requires 0 <= state < |Genres|
    ensures ToUriPart(state) == Ok("") <==> state == 0
  {
  }

  // ---------------------------------------------------------------------------
  // Search

  /** The filters the search screen passes: headers, the genre select and the year text. */
  datatype Filter = Header(text: string) | GenreSelect(state: int) | Tags(year: string)

  /** `getFilterList()`: the filters in their initial state. */
  const DefaultFilters: seq<Filter> := [
    Header("La busqueda por texto ignora el filtro de a\U{F1}o"),
    GenreSelect(0),
    Header("Busqueda por a\U{F1}o"),
    Tags("")]

  /** `find { it is GenreFilter }`: the state of the first genre filter, if there is one. */
  function FindGenre(filters: seq<Filter>): (r: Option<int>)
    ensures r.Some? <==> exists i :: 0 <= i < |filters| && filters[i].GenreSelect?
    ensures r.Some? ==> exists i :: 0 <= i < |filters| && filters[i] == GenreSelect(r.value)
                                      && forall j :: 0 <= j < i ==> !filters[j].GenreSelect?
  {
    if filters == [] then None
    else if filters[0].GenreSelect? then Some(filters[0].state)
    else
      var r := FindGenre(filters[1..]);
      assert forall i :: 0 < i < |filters| ==> filters[i] == filters[1..][i - 1];
      r
  }

  /** `find { it is Tags }`: the year of the first year filter, if there is one. */
  function FindTags(filters: seq<Filter>): (r: Option<string>)
    ensures r.Some? <==> exists i :: 0 <= i < |filters| && filters[i].Tags?
    ensures r.Some? ==> exists i :: 0 <= i < |filters| && filters[i] == Tags(r.value)
                                      && forall j :: 0 <= j < i ==> !filters[j].Tags?
  {
    if filters == [] then None
    else if filters[0].Tags? then Some(filters[0].year)
    else
      var r := FindTags(filters[1..]);
      assert forall i :: 0 < i < |filters| ==> filters[i] == filters[1..][i - 1];
      r
  }

  /**
   * The URL of a search once both filters are in hand: a query that is not
   * blank searches for it; otherwise a chosen genre lists that genre, a year
   * lists that year, and with neither the movies are listed.
   */
  function SearchUrl(baseUrl: string, page: int, query: string, genre: int, tag: string): (r: Result<string, SearchFailure>)
    ensures r.Err? ==> IsBlank(query) && genre != 0 && r.error == GenreOutOfRange(genre)
  {
    var pageParam := "page=" + IntToString(page);
    if !IsBlank(query) then Ok(baseUrl + "/search?s=" + query + "&" + pageParam)
    else if genre != 0 then
      match ToUriPart(genre)
      case Err(e) => Err(e)
      case Ok(part) => Ok(baseUrl + "/" + part + "?" + pageParam)
    else if !IsBlank(tag) then Ok(baseUrl + "/year/" + tag + "?" + pageParam)
    else Ok(baseUrl + "/peliculas?" + pageParam)
  }

  /**
   * `searchAnimeRequest` as written: the genre filter comes from the filters,
   * or from the initial ones when none are given, but the year filter always
   * comes from the filters given.
   */
  function SearchAnimeRequest(baseUrl: string, page: int, query: string, filters: seq<Filter>): Result<string, SearchFailure> {
    var filterList := if filters == [] then DefaultFilters else filters;
    match FindGenre(filterList)
    case None => Err(MissingFilter)
    case Some(genre) =>
      match FindTags(filters)
      case None => Err(MissingFilter)
      case Some(tag) => SearchUrl(baseUrl, page, query, genre, tag)
  }

  /** With no filters the year filter is missing, so every search throws, whatever the query. */
  lemma SearchWithoutFiltersThrows(baseUrl: string, page: int, query: string)
    ensures SearchAnimeRequest(baseUrl, page, query, []) == Err(MissingFilter)
  {
    assert DefaultFilters[1] == GenreSelect(0);
  }

  /** `searchAnimeRequest` with both filters read from the same list. */
  function CorrectedSearchAnimeRequest(baseUrl: string, page: int, query: string, filters: seq<Filter>): Result<string, SearchFailure> {
    var filterList := if filters == [] then DefaultFilters else filters;
    match FindGenre(filterList)
    case None => Err(MissingFilter)
    case Some(genre) =>
      match FindTags(filterList)
      case None => Err(MissingFilter)
      case Some(tag) => SearchUrl(baseUrl, page, query, genre, tag)
  }

  /**
   * Corrected, a search without filters uses the initial ones: a query is
   * searched for, and a blank one lists the movies; with filters given the
   * two versions agree.
   */
  lemma CorrectedSearchDefaults(baseUrl: string, page: int, query: string, filters: seq<Filter>)
    ensures !IsBlank(query) ==>
      CorrectedSearchAnimeRequest(baseUrl, page, query, []) == Ok(baseUrl + "/search?s=" + query + "&page=" + IntToString(page))
    ensures IsBlank(query) ==>
      CorrectedSearchAnimeRequest(baseUrl, page, query, []) == Ok(baseUrl + "/peliculas?page=" + IntToString(page))
    ensures filters != [] ==> CorrectedSearchAnimeRequest(baseUrl, page, query, filters) == SearchAnimeRequest(baseUrl, page, query, filters)
  {
    DefaultFiltersRead();
    if IsBlank(query) {
      SearchUrlMovies(baseUrl, page, query, "");
    } else {
      SearchUrlQuery(baseUrl, page, query, 0, "");
    }
  }

  /** The initial filters select no genre and no year. */
  lemma DefaultFiltersRead()
    ensures FindGenre(DefaultFilters) == Some(0) && FindTags(DefaultFilters) == Some("")
  {
    assert DefaultFilters[1] == GenreSelect(0);
    assert DefaultFilters[3] == Tags("");
  }

  /** Joining `a` and `b` before or after appending them to `x` gives one URL. */
  lemma JoinAt(x: string, a: string, b: string, ab: string, n: string)
    requires a + b == ab
    ensures x + a + (b + n) == x + ab + n
  {
  }

  /** A query that is not blank is searched for, whatever genre and year are chosen. */
  lemma SearchUrlQuery(baseUrl: string, page: int, query: string, genre: int, tag: string)
    requires !IsBlank(query)
    ensures SearchUrl(baseUrl, page, query, genre, tag) == Ok(baseUrl + "/search?s=" + query + "&page=" + IntToString(page))
  {
    JoinAt(baseUrl + "/search?s=" + query, "&", "page=", "&page=", IntToString(page));
  }

  /** With a blank query, a chosen genre lists that genre's path, whatever year is chosen. */
  lemma SearchUrlGenre(baseUrl: string, page: int, query: string, genre: int, tag: string)
    requires IsBlank(query) && 0 < genre < |Genres|
    ensures SearchUrl(baseUrl, page, query, genre, tag) == Ok(baseUrl + "/" + Genres[genre].1 + "?page=" + IntToString(page))
  {
    JoinAt(baseUrl + "/" + Genres[genre].1, "?", "page=", "?page=", IntToString(page));
  }

  /** With a blank query and no genre, a chosen year lists that year. */
  lemma SearchUrlYear(baseUrl: string, page: int, query: string, tag: string)
    requires IsBlank(query) && !IsBlank(tag)
    ensures SearchUrl(baseUrl, page, query, 0, tag) == Ok(baseUrl + "/year/" + tag + "?page=" + IntToString(page))
  {
    JoinAt(baseUrl + "/year/" + tag, "?", "page=", "?page=", IntToString(page));
  }

  /** With no genre, a blank year and a blank query, the movies are listed. */
  lemma SearchUrlMovies(baseUrl: string, page: int, query: string, tag: string)
    requires IsBlank(query) && IsBlank(tag)
    ensures SearchUrl(baseUrl, page, query, 0, tag) == Ok(baseUrl + "/peliculas?page=" + IntToString(page))
  {
    JoinAt(baseUrl, "/peliculas?", "page=", "/peliculas?page=", IntToString(page));
  }

  /**
   * Once the filters hold a genre selector and a year field, a query that is
   * not blank is searched for and both filters are ignored.
   */
  lemma SearchQueryIgnoresFilters(baseUrl: string, page: int, query: string, filters: seq<Filter>)
    requires !IsBlank(query) && FindGenre(filters).Some? && FindTags(filters).Some?
    ensures SearchAnimeRequest(baseUrl, page, query, filters) == Ok(baseUrl + "/search?s=" + query + "&page=" + IntToString(page))
  {
    SearchUrlQuery(baseUrl, page, query, FindGenre(filters).value, FindTags(filters).value);
  }

  /** `s.substringAfterLast('=')` of `prefix + "=" + t`, when `t` has no `=`, is `t`. */
  lemma {:induction false} AfterLastOf(prefix: string, t: string)
    requires '=' !in t
    ensures AfterLast(prefix + "=" + t, '=') == t
  {
    var s := prefix + "=" + t;
    if t == [] {
      assert s[|s| - 1] == '=';
    } else {
      var init := t[..|t| - 1];
      assert t == init + [t[|t| - 1]];
      assert s[..|s| - 1] == prefix + "=" + init;
      assert s[|s| - 1] == t[|t| - 1] != '=';
      AfterLastOf(prefix, init);
    }
  }

  /** Every search URL ends in the page it asks for, which reads back as that page. */
  lemma SearchPageReadsBack(baseUrl: string, page: int, query: string, genre: int, tag: string)
    requires IsInt(page) && SearchUrl(baseUrl, page, query, genre, tag).Ok?
    ensures var url := SearchUrl(baseUrl, page, query, genre, tag).value;
      ParseInt(AfterLast(url, '=')) == Some(page)
  {
    var url := SearchUrl(baseUrl, page, query, genre, tag).value;
    var digits := IntToString(page);
    assert '=' !in digits by {
      if page < 0 {
        assert digits == "-" + NatToString(-page);
        assert forall k :: 1 <= k < |digits| ==> IsDigit(digits[k]);
      } else {
        assert forall k :: 0 <= k < |digits| ==> IsDigit(digits[k]);
      }
    }
    var before := url[..|url| - |digits| - 1];
    assert url == before + "=" + digits;
    AfterLastOf(before, digits);
    ParseIntToString(page);
  }
}
