# Jellyfin and Pelisplushd anime sources, modelled in Dafny

This project models the core of two anime sources of an extension
repository for an Android anime app, both written in Kotlin.

**Jellyfin** (a self-hosted media server):
- the session state machine `login`;
- the paging of the popular, latest and search requests and of their parses;
- the guard and rewrite in `episodeListRequest`;
- the `getSummary` rule for preference summaries;
- `videoListParse`. It walks the media streams of the first source to choose
  the video size, the audio track, the subtitle index and two subtitle lists.
  It then builds the quality ladder: one transcode per quality profile, up to
  the first profile larger than the source, then the original file, the whole
  list reversed.

The session is a `class` (`Jellyfin.JellyfinSource`) whose methods update its
fields. The stream walk and the ladder loop are methods proved against the
specification functions of `JellyfinLadder`.

**Pelisplushd** (a scraping source):
- `videoListParse`:
  - server buttons are read from a player API page;
  - each button handler is cleaned of its wrapper and trailing markers;
  - a handler that is not a URL is decoded as base64;
  - a `?data=` page is followed to its iframe;
  - for old series the tab list is skipped;
  - legacy `api.mycdn.moe` tab links are rewritten;
- `serverVideoResolver`: 17 substring rules tried in order inside one `try`;
- the quality ranking `List<Video>.sort`: a stable ascending sort on three
  selectors, reversed;
- `episodeListParse`;
- `getNumberFromString`;
- `searchAnimeRequest` with its filters;
- `toUriPart`.

The loops of the source are methods whose `ensures` tie them to a
specification function. The properties are lemmas about those functions.

Shared modules:
- `KotlinText`: Kotlin's string functions (`substringBefore`/`After` with
  their default values, `contains`, `lowercase`, `toIntOrNull`, truncating
  `Int` division);
- `HttpUrl`: a URL as its path text and an ordered query list, as the
  builder calls append them (OkHttp's normalisation of paths and encoding of
  values is not modelled);
- `Media`: the `Video` and `Track` records;
- `Wrappers`: `Option` and `Result`.

The outside world enters as function-valued parameters:
- the Jellyfin authenticator;
- the extractors of each video host;
- the base64 decoder;
- the URL regular expression;
- the HTTP fetches.

Two behaviours of the code a reader may not expect:
- **Jellyfin ladder.** The ladder holds a transcode for every profile before
  the first one that is both wider and taller than the source. A profile that
  is larger in one dimension only does not end it
  (`JellyfinLadder.LadderShape`, `JellyfinLadder.LadderOf720pSource`).
- **Pelisplushd ranking.** Reversing a stable ascending sort puts videos of
  equal key in reverse input order. Ranking twice therefore restores the
  input order, so the ranking is not idempotent
  (`PelisplushdRanking.RankSpec`, `PelisplushdRanking.RankNotIdempotent`).

## Model

| member | source | states |
|---|---|---|
| Jellyfin.JellyfinSource.constructor | src/all/jellyfin/src/eu/kanade/tachiyomi/animeextension/all/jellyfin/Jellyfin.kt:89-99 | The fields start from the stored settings, and `init` logs in once when the stored session is incomplete and the credentials allow it; the login sets both halves of the session when the authenticator returns both, and otherwise (missing credentials or a refused login) the stored halves stay. |
| Jellyfin.JellyfinSource.Login | src/all/jellyfin/src/eu/kanade/tachiyomi/animeextension/all/jellyfin/Jellyfin.kt:101-124 | A cached session (key and user id) with `new` false answers true and changes nothing. Otherwise the host, user name and password are reloaded, and the result is one of three. Missing credentials, unless the user is "demo", give null. A failed authentication gives false. Both values returned gives true and stores them. The library never changes, and a true answer leaves a logged-in session. |
| Jellyfin.JellyfinSource.SelectLibrary | src/all/jellyfin/src/eu/kanade/tachiyomi/animeextension/all/jellyfin/Jellyfin.kt:604-610 | Choosing a library sets `parentId` and nothing else. |
| Jellyfin.JellyfinSource.VideoListParse | src/all/jellyfin/src/eu/kanade/tachiyomi/animeextension/all/jellyfin/Jellyfin.kt:290-393 | The list is exactly `VideoList` over the first media source: a malformed stream or no media source is an error, otherwise the ladder built from the stream selection. |
| Jellyfin.JellyfinSource.WalkStreams | src/all/jellyfin/src/eu/kanade/tachiyomi/animeextension/all/jellyfin/Jellyfin.kt:309-345 | The stream walk fails at the first malformed stream (a video without width or height, a non-preferred deliverable subtitle without a title) with that stream's index. Otherwise it returns the selection `Select` of all streams. |
| Jellyfin.JellyfinSource.WalkStep | src/all/jellyfin/src/eu/kanade/tachiyomi/animeextension/all/jellyfin/Jellyfin.kt:310-344 | One stream updates the selection exactly as `Select` of the longer prefix: the last video sets width and height, the last preferred audio the index, a preferred untitled subtitle the subtitle index, and titled deliverable subtitles are added to the front (preferred) or back. |
| Jellyfin.JellyfinSource.BuildLadder | src/all/jellyfin/src/eu/kanade/tachiyomi/animeextension/all/jellyfin/Jellyfin.kt:350-392 | The ladder loop returns exactly `Ladder`: a transcode per profile before the first one both wider and taller than the source, then Source, the whole reversed. |
| JellyfinLadder.FirstMalformed | src/all/jellyfin/src/eu/kanade/tachiyomi/animeextension/all/jellyfin/Jellyfin.kt:309-345 | The index of the first malformed stream, or the number of streams: everything before it is well formed. |
| JellyfinLadder.FirstMalformedAt | src/all/jellyfin/src/eu/kanade/tachiyomi/animeextension/all/jellyfin/Jellyfin.kt:309-345 | A malformed stream after a well-formed prefix is the first malformed one. |
| JellyfinLadder.WellFormedPrefix | src/all/jellyfin/src/eu/kanade/tachiyomi/animeextension/all/jellyfin/Jellyfin.kt:309-345 | A well-formed prefix followed by a well-formed stream is well formed. |
| JellyfinLadder.FirstMalformedNone | src/all/jellyfin/src/eu/kanade/tachiyomi/animeextension/all/jellyfin/Jellyfin.kt:309-345 | A well-formed list has no malformed stream. |
| JellyfinLadder.LastWhere | src/all/jellyfin/src/eu/kanade/tachiyomi/animeextension/all/jellyfin/Jellyfin.kt:309-318 | The last stream satisfying a test, or -1: no later stream satisfies it. |
| JellyfinLadder.SelectNothing | src/all/jellyfin/src/eu/kanade/tachiyomi/animeextension/all/jellyfin/Jellyfin.kt:304-307 | With no streams the selection is the defaults: 1920x1080, audio index 1, no subtitle index, no tracks. |
| JellyfinLadder.SelectionDefaults | src/all/jellyfin/src/eu/kanade/tachiyomi/animeextension/all/jellyfin/Jellyfin.kt:304-333 | Without a video stream the size stays 1920x1080; without a preferred audio stream the audio index stays 1. The subtitle index is set if and only if some preferred subtitle has no title, and then it is the last such stream's index. |
| JellyfinLadder.SelectSnoc | src/all/jellyfin/src/eu/kanade/tachiyomi/animeextension/all/jellyfin/Jellyfin.kt:310-318 | Appending a stream changes width and height only for a video stream, the audio index only for a preferred audio stream, and the subtitle index only for a preferred untitled subtitle. |
| JellyfinLadder.LastVideoWins | src/all/jellyfin/src/eu/kanade/tachiyomi/animeextension/all/jellyfin/Jellyfin.kt:311-314 | The selected size is that of the last video stream. |
| JellyfinLadder.SubtitlesStep | src/all/jellyfin/src/eu/kanade/tachiyomi/animeextension/all/jellyfin/Jellyfin.kt:320-342 | A titled preferred subtitle is put at the front of the track list and any other titled deliverable one at the back; any other stream leaves the list unchanged. |
| JellyfinLadder.TracksSnoc | src/all/jellyfin/src/eu/kanade/tachiyomi/animeextension/all/jellyfin/Jellyfin.kt:320-342 | The tracks of one kind over a longer prefix are those of the shorter prefix plus the new stream's track, when it adds one. |
| JellyfinLadder.ExternalStreams | src/all/jellyfin/src/eu/kanade/tachiyomi/animeextension/all/jellyfin/Jellyfin.kt:325-326 | The external streams are streams of the input that are external. |
| JellyfinLadder.ExternalTracksFilter | src/all/jellyfin/src/eu/kanade/tachiyomi/animeextension/all/jellyfin/Jellyfin.kt:325-340 | The external-only track list is the track list of the external streams. |
| JellyfinLadder.ExternalIsSubtitlesOfExternalStreams | src/all/jellyfin/src/eu/kanade/tachiyomi/animeextension/all/jellyfin/Jellyfin.kt:320-342 | The external subtitle list is the full subtitle list computed over the external streams alone. |
| JellyfinLadder.TracksComeFromStreams | src/all/jellyfin/src/eu/kanade/tachiyomi/animeextension/all/jellyfin/Jellyfin.kt:320-342 | Every track comes from a titled deliverable subtitle stream of the right kind, with that stream's URL and title. |
| JellyfinLadder.FirstLarger | src/all/jellyfin/src/eu/kanade/tachiyomi/animeextension/all/jellyfin/Jellyfin.kt:351-356 | The index of the first profile both wider and taller than the source, or the number of profiles: no earlier profile is. |
| JellyfinLadder.TranscodeAudioIndex | src/all/jellyfin/src/eu/kanade/tachiyomi/animeextension/all/jellyfin/Jellyfin.kt:358-384 | The transcode URL's `AudioStreamIndex` reads back the selected audio index. |
| JellyfinLadder.TranscodeSubtitleIndex | src/all/jellyfin/src/eu/kanade/tachiyomi/animeextension/all/jellyfin/Jellyfin.kt:358-384 | The transcode URL has a `SubtitleStreamIndex` exactly when a subtitle index was selected, and it reads back that index. |
| JellyfinLadder.ProfileSkipsSubtitleIndex | src/all/jellyfin/src/eu/kanade/tachiyomi/animeextension/all/jellyfin/Jellyfin.kt:364-371 | The profile parameters never carry a `SubtitleStreamIndex`. |
| JellyfinLadder.TailLacksSubtitleIndex | src/all/jellyfin/src/eu/kanade/tachiyomi/animeextension/all/jellyfin/Jellyfin.kt:372-383 | The fixed tail parameters never carry a `SubtitleStreamIndex`. |
| JellyfinLadder.Transcodes | src/all/jellyfin/src/eu/kanade/tachiyomi/animeextension/all/jellyfin/Jellyfin.kt:357-386 | One transcode video per profile. |
| JellyfinLadder.TranscodesSnoc | src/all/jellyfin/src/eu/kanade/tachiyomi/animeextension/all/jellyfin/Jellyfin.kt:351-386 | One more profile adds its transcode video at the end. |
| JellyfinLadder.TranscodesAt | src/all/jellyfin/src/eu/kanade/tachiyomi/animeextension/all/jellyfin/Jellyfin.kt:357-386 | The j-th transcode video is that of the j-th profile. |
| JellyfinLadder.LadderShape | src/all/jellyfin/src/eu/kanade/tachiyomi/animeextension/all/jellyfin/Jellyfin.kt:350-392 | With k the index of the first larger profile, the ladder has k + 1 videos: Source first, then the transcodes of profiles k-1 down to 0, none of which exceeds the source. |
| JellyfinLadder.LadderLabels | src/all/jellyfin/src/eu/kanade/tachiyomi/animeextension/all/jellyfin/Jellyfin.kt:350-392 | Source carries the external subtitle list; each transcode carries its profile's description and the full subtitle list. |
| JellyfinLadder.SourceOnlyAtFront | src/all/jellyfin/src/eu/kanade/tachiyomi/animeextension/all/jellyfin/Jellyfin.kt:353-355 | When no profile is named "Source", the only "Source" entry is the first. |
| JellyfinLadder.LadderLength | src/all/jellyfin/src/eu/kanade/tachiyomi/animeextension/all/jellyfin/Jellyfin.kt:350-392 | The ladder has between 1 and the number of profiles plus 1 entries. It has all of them if and only if no profile is larger than the source, and never more than i + 1 when profile i is larger. |
| JellyfinLadder.LadderOf720pSource | src/all/jellyfin/src/eu/kanade/tachiyomi/animeextension/all/jellyfin/Jellyfin.kt:350-392 | A 1280x720 source with 480x360, 720x480 and 1080x720 profiles gives Source and all three transcodes, largest first. |
| JellyfinCatalog.PopularRequest | src/all/jellyfin/src/eu/kanade/tachiyomi/animeextension/all/jellyfin/Jellyfin.kt:128-146 | Without a library the request throws "Select library in the extension settings."; otherwise it is built. |
| JellyfinCatalog.PopularStartIndex | src/all/jellyfin/src/eu/kanade/tachiyomi/animeextension/all/jellyfin/Jellyfin.kt:128-146 | The request's `StartIndex` reads `(page - 1) * 20`. |
| JellyfinCatalog.PopularItemTypes | src/all/jellyfin/src/eu/kanade/tachiyomi/animeextension/all/jellyfin/Jellyfin.kt:128-146 | Popular lists movies and seasons. |
| JellyfinCatalog.PageOf | src/all/jellyfin/src/eu/kanade/tachiyomi/animeextension/all/jellyfin/Jellyfin.kt:148-153 | A request without `StartIndex` fails the `!!`; otherwise there is a next page exactly when `limit * page`, wrapped to a 32-bit `Int` as Kotlin computes it, is below the item count. |
| JellyfinCatalog.PageOfStart | src/all/jellyfin/src/eu/kanade/tachiyomi/animeextension/all/jellyfin/Jellyfin.kt:148-153 | The parsed page is `StartIndex / limit + 1`, with Kotlin's truncating division. |
| JellyfinCatalog.PageOfPage | src/all/jellyfin/src/eu/kanade/tachiyomi/animeextension/all/jellyfin/Jellyfin.kt:148-153 | Parsing a request made for page `p` gives back page `p`; while `limit * p` fits in an `Int`, there is a next page exactly when it is below the item count. |
| JellyfinCatalog.PopularLastPageWraps | src/all/jellyfin/src/eu/kanade/tachiyomi/animeextension/all/jellyfin/Jellyfin.kt:148-153 | At `StartIndex` 2147483640 the page is 107374183, `20 * page` wraps to a negative number, and an empty reply still reports a next page. |
| JellyfinCatalog.PopularRoundTrip | src/all/jellyfin/src/eu/kanade/tachiyomi/animeextension/all/jellyfin/Jellyfin.kt:128-153 | The page parsed from the popular request of page `p` is `p`, with a next page exactly when `20 * p` is below the item count. |
| JellyfinCatalog.LatestRoundTrip | src/all/jellyfin/src/eu/kanade/tachiyomi/animeextension/all/jellyfin/Jellyfin.kt:157-167 | Latest is popular sorted by creation date, descending, and its parse recovers the page. |
| JellyfinCatalog.SearchRequestReads | src/all/jellyfin/src/eu/kanade/tachiyomi/animeextension/all/jellyfin/Jellyfin.kt:171-180 | Search keeps popular's offset `(page - 1) * 20` but asks for 5 items of movies and series with the search term. |
| JellyfinCatalog.SearchPageAsWritten | src/all/jellyfin/src/eu/kanade/tachiyomi/animeextension/all/jellyfin/Jellyfin.kt:171-202 | As written, the search reply of page `p` parses as page `4 * (p - 1) + 1`, not `p`. |
| JellyfinCatalog.SearchPageOfPopularOffset | src/all/jellyfin/src/eu/kanade/tachiyomi/animeextension/all/jellyfin/Jellyfin.kt:182-202 | A search reply whose offset is popular's parses as page `4 * (p - 1) + 1`. |
| JellyfinCatalog.SearchSkipsItems | src/all/jellyfin/src/eu/kanade/tachiyomi/animeextension/all/jellyfin/Jellyfin.kt:171-180 | As written, an item at a position whose remainder by 20 is 5 or more is on no search page. |
| JellyfinCatalog.CorrectedSearchRoundTrip | src/all/jellyfin/src/eu/kanade/tachiyomi/animeextension/all/jellyfin/Jellyfin.kt:171-202 | With the offset `(page - 1) * 5`, the search parse recovers the page. |
| JellyfinCatalog.CorrectedSearchCoversItems | src/all/jellyfin/src/eu/kanade/tachiyomi/animeextension/all/jellyfin/Jellyfin.kt:171-202 | With the corrected offset, every item is on exactly one page, `item / 5 + 1`. |
| JellyfinCatalog.SeasonsRequests | src/all/jellyfin/src/eu/kanade/tachiyomi/animeextension/all/jellyfin/Jellyfin.kt:187-199 | The seasons fan-out makes one request per series, and fails only without a library. |
| JellyfinCatalog.SeasonsRequestReads | src/all/jellyfin/src/eu/kanade/tachiyomi/animeextension/all/jellyfin/Jellyfin.kt:188-192 | A seasons request asks for the series' children without `StartIndex` or `Limit`, still of types movie and season. |
| JellyfinCatalog.UnpagedUnder | src/all/jellyfin/src/eu/kanade/tachiyomi/animeextension/all/jellyfin/Jellyfin.kt:188-192 | Setting the parent and removing both paging parameters leaves the item types as they were. |
| JellyfinCatalog.EpisodeListRequest | src/all/jellyfin/src/eu/kanade/tachiyomi/animeextension/all/jellyfin/Jellyfin.kt:233-260 | A URL not starting with "http" throws the migration message; every request built starts with "http". |
| JellyfinCatalog.SeasonEpisodesUrl | src/all/jellyfin/src/eu/kanade/tachiyomi/animeextension/all/jellyfin/Jellyfin.kt:240-252 | The episode list is `/Shows/<series>/Episodes` on the given origin; `api_key`, `seasonId`, `userId` and `Fields` read back the api key, the season, the user id and "Overview,MediaSources"; on an http origin the URL starts with "http". |
| JellyfinCatalog.EpisodesQuery | src/all/jellyfin/src/eu/kanade/tachiyomi/animeextension/all/jellyfin/Jellyfin.kt:248-251 | Each of the four episode-list parameters reads back the value it was given. |
| JellyfinCatalog.SeasonRequestOf | src/all/jellyfin/src/eu/kanade/tachiyomi/animeextension/all/jellyfin/Jellyfin.kt:233-252 | A season URL `scheme://host<path><query>#<fragment>` is fetched from `/Shows/<series>/Episodes` on `scheme://host`, the series being the fragment after its last comma, for the season named by the path's last segment, or the empty season when the URL has no path. |
| JellyfinCatalog.WithoutFragment | src/all/jellyfin/src/eu/kanade/tachiyomi/animeextension/all/jellyfin/Jellyfin.kt:253-254 | Dropping the fragment keeps the scheme and leaves a text without `#` that the fragment extends. |
| JellyfinCatalog.OriginKeepsScheme | src/all/jellyfin/src/eu/kanade/tachiyomi/animeextension/all/jellyfin/Jellyfin.kt:240-243 | Resetting path, query and fragment keeps the scheme. |
| JellyfinCatalog.MovieRequestDropsFragment | src/all/jellyfin/src/eu/kanade/tachiyomi/animeextension/all/jellyfin/Jellyfin.kt:253-254 | A movie (fragment starting "movie") is fetched from its URL without the fragment. |
| JellyfinCatalog.OtherEpisodeRequests | src/all/jellyfin/src/eu/kanade/tachiyomi/animeextension/all/jellyfin/Jellyfin.kt:233-260 | A URL without a fragment fails the `!!`; a fragment that is neither a season nor a movie leaves the URL unchanged. |
| JellyfinCatalog.GetSummary | src/all/jellyfin/src/eu/kanade/tachiyomi/animeextension/all/jellyfin/Jellyfin.kt:615-618 | A password that is set shows the placeholder and an empty one shows nothing; any other value shows itself, or the placeholder when empty. |
| JellyfinCatalog.SummaryHidesPassword | src/all/jellyfin/src/eu/kanade/tachiyomi/animeextension/all/jellyfin/Jellyfin.kt:615-618 | A password summary shows the value only when it is empty or equals the placeholder. |
| PelisplushdCatalog.EpisodeListParse | src/es/pelisplushd/src/eu/kanade/tachiyomi/animeextension/es/pelisplushd/Pelisplushd.kt:83-104 | A movie URL gives one episode number 1 named PELÍCULA. Otherwise the n links give n episodes in reverse order, the k-th being link n-1-k numbered n-k. |
| PelisplushdCatalog.Digits | src/es/pelisplushd/src/eu/kanade/tachiyomi/animeextension/es/pelisplushd/Pelisplushd.kt:289 | The digits kept are all digits and no more than the input. |
| PelisplushdCatalog.GetNumberFromString | src/es/pelisplushd/src/eu/kanade/tachiyomi/animeextension/es/pelisplushd/Pelisplushd.kt:289 | The result is never empty and is all digits: the input's digits, or "0" when it has none. |
| PelisplushdCatalog.DigitsAppend | src/es/pelisplushd/src/eu/kanade/tachiyomi/animeextension/es/pelisplushd/Pelisplushd.kt:289 | Keeping the digits distributes over concatenation. |
| PelisplushdCatalog.DigitsFixed | src/es/pelisplushd/src/eu/kanade/tachiyomi/animeextension/es/pelisplushd/Pelisplushd.kt:289 | A text is its own digits if and only if it is all digits. |
| PelisplushdCatalog.GetNumberIdempotent | src/es/pelisplushd/src/eu/kanade/tachiyomi/animeextension/es/pelisplushd/Pelisplushd.kt:289 | Applying the function twice gives the same as once. |
| PelisplushdCatalog.ToUriPart | src/es/pelisplushd/src/eu/kanade/tachiyomi/animeextension/es/pelisplushd/Pelisplushd.kt:366-369 | An index inside the 23 genres gives its path; any other index throws, naming the index. |
| PelisplushdCatalog.GenrePaths | src/es/pelisplushd/src/eu/kanade/tachiyomi/animeextension/es/pelisplushd/Pelisplushd.kt:335-362 | Only the placeholder entry has the empty path. |
| PelisplushdCatalog.FindGenre | src/es/pelisplushd/src/eu/kanade/tachiyomi/animeextension/es/pelisplushd/Pelisplushd.kt:293 | A genre is found exactly when the list holds a genre filter, and it is the state of the first one. |
| PelisplushdCatalog.FindTags | src/es/pelisplushd/src/eu/kanade/tachiyomi/animeextension/es/pelisplushd/Pelisplushd.kt:294 | A year is found exactly when the list holds a year filter, and it is the year of the first one. |
| PelisplushdCatalog.SearchUrl | src/es/pelisplushd/src/eu/kanade/tachiyomi/animeextension/es/pelisplushd/Pelisplushd.kt:296-301 | The only failure is a genre index out of range, reached when the query is blank and a genre is selected. |
| PelisplushdCatalog.SearchUrlGenre | src/es/pelisplushd/src/eu/kanade/tachiyomi/animeextension/es/pelisplushd/Pelisplushd.kt:298 | With a blank query and a genre selected, the URL is `/<genre path>?page=<page>`, whatever year is chosen. |
| PelisplushdCatalog.SearchUrlYear | src/es/pelisplushd/src/eu/kanade/tachiyomi/animeextension/es/pelisplushd/Pelisplushd.kt:299 | With a blank query and no genre, a year that is not blank gives `/year/<year>?page=<page>`. |
| PelisplushdCatalog.SearchWithoutFiltersThrows | src/es/pelisplushd/src/eu/kanade/tachiyomi/animeextension/es/pelisplushd/Pelisplushd.kt:291-294 | As written, a search with an empty filter list throws, whatever the query, because the year filter is looked up in the empty list. |
| PelisplushdCatalog.DefaultFiltersRead | src/es/pelisplushd/src/eu/kanade/tachiyomi/animeextension/es/pelisplushd/Pelisplushd.kt:328-333 | The initial filters select genre 0 and an empty year. |
| PelisplushdCatalog.SearchUrlQuery | src/es/pelisplushd/src/eu/kanade/tachiyomi/animeextension/es/pelisplushd/Pelisplushd.kt:297 | A non-blank query gives `/search?s=<query>&page=<page>`, whatever genre and year are chosen. |
| PelisplushdCatalog.SearchQueryIgnoresFilters | src/es/pelisplushd/src/eu/kanade/tachiyomi/animeextension/es/pelisplushd/Pelisplushd.kt:291-301 | Once both filters are found, a search with a non-blank query ignores them and searches the text. |
| PelisplushdCatalog.SearchUrlMovies | src/es/pelisplushd/src/eu/kanade/tachiyomi/animeextension/es/pelisplushd/Pelisplushd.kt:300 | With no genre, a blank year and a blank query, the URL is `/peliculas?page=<page>`. |
| PelisplushdCatalog.CorrectedSearchDefaults | src/es/pelisplushd/src/eu/kanade/tachiyomi/animeextension/es/pelisplushd/Pelisplushd.kt:291-302 | Reading both filters from the same list, an empty list searches the query or lists the movies; with filters given, both versions agree. |
| PelisplushdCatalog.SearchPageReadsBack | src/es/pelisplushd/src/eu/kanade/tachiyomi/animeextension/es/pelisplushd/Pelisplushd.kt:296-301 | Every search URL ends in `=<page>`, and the text after its last `=` parses back to the page. |
| PelisplushdEmbed.CutShape | src/es/pelisplushd/src/eu/kanade/tachiyomi/animeextension/es/pelisplushd/Pelisplushd.kt:124-130 | One `substringBefore` keeps a prefix without the marker, ending at the end or where the marker starts. |
| PelisplushdEmbed.CutAllShape | src/es/pelisplushd/src/eu/kanade/tachiyomi/animeextension/es/pelisplushd/Pelisplushd.kt:124-130 | The chain of cuts keeps a prefix that has none of the markers, ending at the end or where one of them starts. |
| PelisplushdEmbed.CutAllLacking | src/es/pelisplushd/src/eu/kanade/tachiyomi/animeextension/es/pelisplushd/Pelisplushd.kt:124-130 | A text without any marker is unchanged by the cuts. |
| PelisplushdEmbed.CleanOnclickShape | src/es/pelisplushd/src/eu/kanade/tachiyomi/animeextension/es/pelisplushd/Pelisplushd.kt:124-130 | The cleaned link has none of the five markers, is a prefix of the text after `go_to_player('`, and cleaning it again changes nothing. |
| PelisplushdEmbed.WrapThenClean | src/es/pelisplushd/src/eu/kanade/tachiyomi/animeextension/es/pelisplushd/Pelisplushd.kt:124-130 | A handler `go_to_player('<u>')` around a URL without markers cleans to exactly that URL. |
| PelisplushdEmbed.BetweenShape | src/es/pelisplushd/src/eu/kanade/tachiyomi/animeextension/es/pelisplushd/Pelisplushd.kt:114 | A missing start or end marker gives the empty text; otherwise the text read is between the markers and holds no end marker. |
| PelisplushdEmbed.ServerUrlReads | src/es/pelisplushd/src/eu/kanade/tachiyomi/animeextension/es/pelisplushd/Pelisplushd.kt:153 | The script `video[<id>] = '<url>';…` reads back `<url>` for `<id>`. |
| PelisplushdEmbed.LegacyRewrite | src/es/pelisplushd/src/eu/kanade/tachiyomi/animeextension/es/pelisplushd/Pelisplushd.kt:154-162 | A link not to api.mycdn.moe, or a tab of another name, keeps its link. |
| PelisplushdEmbed.LegacyRewriteKnown | src/es/pelisplushd/src/eu/kanade/tachiyomi/animeextension/es/pelisplushd/Pelisplushd.kt:154-162 | A legacy link is rebuilt around its id for sbfast, plusto, doodstream, and for upload and uqload alike, whatever the case of the tab name. |
| PelisplushdDispatch.ExtractorInput | src/es/pelisplushd/src/eu/kanade/tachiyomi/animeextension/es/pelisplushd/Pelisplushd.kt:214-217 | Only the Dood rule rewrites its link, and only a doodstream.com link. |
| PelisplushdDispatch.RunRules | src/es/pelisplushd/src/eu/kanade/tachiyomi/animeextension/es/pelisplushd/Pelisplushd.kt:171-268 | The loop over the rules returns exactly `Run`: each matching rule's videos in rule order, stopping at the first that throws. |
| PelisplushdDispatch.ServerVideoResolver | src/es/pelisplushd/src/eu/kanade/tachiyomi/animeextension/es/pelisplushd/Pelisplushd.kt:169-269 | The resolver returns exactly `Resolve`, the rules in source order. |
| PelisplushdDispatch.FirstThrow | src/es/pelisplushd/src/eu/kanade/tachiyomi/animeextension/es/pelisplushd/Pelisplushd.kt:172-267 | The position of the first rule that matches and throws, or the number of rules: none before it throws. |
| PelisplushdDispatch.RunIsGathered | src/es/pelisplushd/src/eu/kanade/tachiyomi/animeextension/es/pelisplushd/Pelisplushd.kt:172-267 | A resolution is the contributions of the rules before the first that throws, in rule order. |
| PelisplushdDispatch.ThrowKeepsEarlier | src/es/pelisplushd/src/eu/kanade/tachiyomi/animeextension/es/pelisplushd/Pelisplushd.kt:267 | When rule i is the first to throw, the result is what rules 0..i-1 found, and the later rules add nothing. |
| PelisplushdDispatch.NoThrowGathersAll | src/es/pelisplushd/src/eu/kanade/tachiyomi/animeextension/es/pelisplushd/Pelisplushd.kt:172-266 | Without a throw, every matching rule contributes. |
| PelisplushdDispatch.GatheredProvenance | src/es/pelisplushd/src/eu/kanade/tachiyomi/animeextension/es/pelisplushd/Pelisplushd.kt:172-266 | Every video gathered comes from a rule that matched the lower-cased link. |
| PelisplushdDispatch.Provenance | src/es/pelisplushd/src/eu/kanade/tachiyomi/animeextension/es/pelisplushd/Pelisplushd.kt:169-269 | Every video resolved comes from a rule that matched the lower-cased link. |
| PelisplushdDispatch.NothingMatches | src/es/pelisplushd/src/eu/kanade/tachiyomi/animeextension/es/pelisplushd/Pelisplushd.kt:169-269 | A link that no rule matches resolves to nothing. |
| PelisplushdDispatch.OverlappingTests | src/es/pelisplushd/src/eu/kanade/tachiyomi/animeextension/es/pelisplushd/Pelisplushd.kt:204-222 | The tests overlap: every link that triggers the mp4upload rule also triggers YourUpload, whose test is "upload". |
| PelisplushdDispatch.Mp4uploadRunsBoth | src/es/pelisplushd/src/eu/kanade/tachiyomi/animeextension/es/pelisplushd/Pelisplushd.kt:204-223 | An mp4upload link runs both the Mp4upload rule (6th) and the YourUpload rule (10th). |
| PelisplushdDispatch.AmazonDisabled | src/es/pelisplushd/src/eu/kanade/tachiyomi/animeextension/es/pelisplushd/Pelisplushd.kt:176 | A link containing "disable" never runs the Amazon rule. |
| PelisplushdDispatch.DoodRewrite | src/es/pelisplushd/src/eu/kanade/tachiyomi/animeextension/es/pelisplushd/Pelisplushd.kt:214-216 | A doodstream.com embed link is handed to the extractor on dood.to. |
| PelisplushdDispatch.TomatomatelaContained | src/es/pelisplushd/src/eu/kanade/tachiyomi/animeextension/es/pelisplushd/Pelisplushd.kt:242-265 | The Tomatomatela rule never throws. It adds a video exactly when it matched and the details answer status "200", and then adds exactly the answered file. |
| PelisplushdVideos.OptionUrl | src/es/pelisplushd/src/eu/kanade/tachiyomi/animeextension/es/pelisplushd/Pelisplushd.kt:124-134 | A cleaned link that looks like a URL is used as is; the only failure is a link that is not a URL and not valid base64. |
| PelisplushdVideos.EmbedOf | src/es/pelisplushd/src/eu/kanade/tachiyomi/animeextension/es/pelisplushd/Pelisplushd.kt:136-144 | A link without `?data=` is resolved directly. |
| PelisplushdVideos.ErrorSticks | src/es/pelisplushd/src/eu/kanade/tachiyomi/animeextension/es/pelisplushd/Pelisplushd.kt:122-146 | Once an option has thrown, the later options change nothing. |
| PelisplushdVideos.OptionPass | src/es/pelisplushd/src/eu/kanade/tachiyomi/animeextension/es/pelisplushd/Pelisplushd.kt:122-146 | One option gives exactly `OptionVideos`: cleanup, base64 fallback, the `?data=` page's iframe, resolution. |
| PelisplushdVideos.ApiPass | src/es/pelisplushd/src/eu/kanade/tachiyomi/animeextension/es/pelisplushd/Pelisplushd.kt:117-147 | The API pass gives exactly `ApiVideos`: the options' videos in order, ending at the first option that throws. |
| PelisplushdVideos.TabPass | src/es/pelisplushd/src/eu/kanade/tachiyomi/animeextension/es/pelisplushd/Pelisplushd.kt:150-164 | The tab pass gives exactly `TabVideos`: each tab's link, rewritten when legacy, resolved in tab order. |
| PelisplushdVideos.VideoListParse | src/es/pelisplushd/src/eu/kanade/tachiyomi/animeextension/es/pelisplushd/Pelisplushd.kt:110-167 | The parse gives exactly `VideoList`. A page without the player script throws. The API videos come first and a throw ends the parse. The tab videos follow unless the old-series check skips them. |
| PelisplushdVideos.OldSeriesGate | src/es/pelisplushd/src/eu/kanade/tachiyomi/animeextension/es/pelisplushd/Pelisplushd.kt:149 | A `/video/` API link with at most one tab gives the API videos alone. |
| PelisplushdVideos.TabsOnly | src/es/pelisplushd/src/eu/kanade/tachiyomi/animeextension/es/pelisplushd/Pelisplushd.kt:116-149 | A page without an API link gives the tabs' videos alone. |
| PelisplushdVideos.CollectOkEvery | src/es/pelisplushd/src/eu/kanade/tachiyomi/animeextension/es/pelisplushd/Pelisplushd.kt:122-146 | A walk over the options that does not throw threw on none of them. |
| PelisplushdVideos.ApiOkEveryOption | src/es/pelisplushd/src/eu/kanade/tachiyomi/animeextension/es/pelisplushd/Pelisplushd.kt:122-146 | When the API pass does not throw, no option threw. |
| PelisplushdVideos.OptionThrows | src/es/pelisplushd/src/eu/kanade/tachiyomi/animeextension/es/pelisplushd/Pelisplushd.kt:132-134 | An option throws exactly when its cleaned link is neither a URL nor valid base64. |
| PelisplushdVideos.WrappedOptionResolves | src/es/pelisplushd/src/eu/kanade/tachiyomi/animeextension/es/pelisplushd/Pelisplushd.kt:122-140 | An option `go_to_player('<u>')` with a plain URL resolves exactly `<u>`. |
| PelisplushdVideos.ApiProvenance | src/es/pelisplushd/src/eu/kanade/tachiyomi/animeextension/es/pelisplushd/Pelisplushd.kt:122-146 | Every API video was returned by the resolver for some link. |
| PelisplushdVideos.TabProvenance | src/es/pelisplushd/src/eu/kanade/tachiyomi/animeextension/es/pelisplushd/Pelisplushd.kt:150-164 | Every tab video was returned by the resolver for the link of one of the tabs. |
| PelisplushdVideos.VideoProvenance | src/es/pelisplushd/src/eu/kanade/tachiyomi/animeextension/es/pelisplushd/Pelisplushd.kt:110-167 | Every video of the parse was returned by the resolver for some link. |
| PelisplushdVideos.DoodTabRoutes | src/es/pelisplushd/src/eu/kanade/tachiyomi/animeextension/es/pelisplushd/Pelisplushd.kt:154-162 | A legacy doodstream tab is rewritten to a link the Dood rule matches. |
| PelisplushdVideos.UqloadTabRoutes | src/es/pelisplushd/src/eu/kanade/tachiyomi/animeextension/es/pelisplushd/Pelisplushd.kt:154-162 | A legacy upload or uqload tab is rewritten to a link the Uqload rule matches. |
| PelisplushdRanking.RunEnd | src/es/pelisplushd/src/eu/kanade/tachiyomi/animeextension/es/pelisplushd/Pelisplushd.kt:284 | A run of digits from `i` ends at the first non-digit. |
| PelisplushdRanking.PGroupLeftmost | src/es/pelisplushd/src/eu/kanade/tachiyomi/animeextension/es/pelisplushd/Pelisplushd.kt:284 | The scan finds the leftmost `(\d+)p` match: none when there is none, otherwise its digits up to the `p`. |
| PelisplushdRanking.PGroupOf | src/es/pelisplushd/src/eu/kanade/tachiyomi/animeextension/es/pelisplushd/Pelisplushd.kt:284 | In `prefix + digits + "p" + rest`, with no digit in the prefix, the match is the digits. |
| PelisplushdRanking.QualityNumberOf | src/es/pelisplushd/src/eu/kanade/tachiyomi/animeextension/es/pelisplushd/Pelisplushd.kt:284 | A label whose first digits are a resolution followed by `p` ranks by that resolution. |
| PelisplushdRanking.KeyOrder | src/es/pelisplushd/src/eu/kanade/tachiyomi/animeextension/es/pelisplushd/Pelisplushd.kt:280-285 | The lexicographic order of the three selectors is irreflexive, transitive and total. |
| PelisplushdRanking.InsertMultiset | src/es/pelisplushd/src/eu/kanade/tachiyomi/animeextension/es/pelisplushd/Pelisplushd.kt:280-285 | Inserting adds the video and nothing else. |
| PelisplushdRanking.InsertAscending | src/es/pelisplushd/src/eu/kanade/tachiyomi/animeextension/es/pelisplushd/Pelisplushd.kt:280-285 | Inserting into an ascending list keeps it ascending. |
| PelisplushdRanking.InsertWithKey | src/es/pelisplushd/src/eu/kanade/tachiyomi/animeextension/es/pelisplushd/Pelisplushd.kt:280-285 | Inserting places the video after all of its key that were already there. |
| PelisplushdRanking.SortAscendingMultiset | src/es/pelisplushd/src/eu/kanade/tachiyomi/animeextension/es/pelisplushd/Pelisplushd.kt:280-285 | The stable sort is a permutation of its input. |
| PelisplushdRanking.SortAscendingSpec | src/es/pelisplushd/src/eu/kanade/tachiyomi/animeextension/es/pelisplushd/Pelisplushd.kt:280-285 | The stable sort is ascending and keeps the input order among videos of equal key. |
| PelisplushdRanking.WithKeyReversed | src/es/pelisplushd/src/eu/kanade/tachiyomi/animeextension/es/pelisplushd/Pelisplushd.kt:286 | Reversing reverses the videos of each key. |
| PelisplushdRanking.RankSpec | src/es/pelisplushd/src/eu/kanade/tachiyomi/animeextension/es/pelisplushd/Pelisplushd.kt:277-287 | The ranked list is a permutation of the input, in descending key order, and videos of equal key come out in reverse input order. |
| PelisplushdRanking.Key480 | src/es/pelisplushd/src/eu/kanade/tachiyomi/animeextension/es/pelisplushd/Pelisplushd.kt:277-287 | With server Voe and quality 720, a "480p" label has key (false, false, 480). |
| PelisplushdRanking.Key720Voe | src/es/pelisplushd/src/eu/kanade/tachiyomi/animeextension/es/pelisplushd/Pelisplushd.kt:277-287 | With server Voe and quality 720, a "720p (Voe)" label has key (true, true, 720). |
| PelisplushdRanking.Key1080 | src/es/pelisplushd/src/eu/kanade/tachiyomi/animeextension/es/pelisplushd/Pelisplushd.kt:277-287 | With server Voe and quality 720, a "1080p" label has key (false, false, 1080). |
| PelisplushdRanking.RankOfThree | src/es/pelisplushd/src/eu/kanade/tachiyomi/animeextension/es/pelisplushd/Pelisplushd.kt:280-286 | Three videos whose keys are ordered b > c > a rank as b, c, a. |
| PelisplushdRanking.RankExample | src/es/pelisplushd/src/eu/kanade/tachiyomi/animeextension/es/pelisplushd/Pelisplushd.kt:277-287 | With server Voe and quality 720, the labels 480p, 720p (Voe) and 1080p rank as 720p (Voe), 1080p, 480p. |
| PelisplushdRanking.RankNotIdempotent | src/es/pelisplushd/src/eu/kanade/tachiyomi/animeextension/es/pelisplushd/Pelisplushd.kt:280-286 | Two videos with equal keys swap on every ranking, so ranking twice restores the input order. |

## Left out

- Network I/O, JSON and HTML parsing: every fetch, DTO decoding and jsoup selection becomes a function-valued parameter, or an input sequence (media streams, links, tabs, API options).
- PelisplushdVideos.ReadsTabs: the tab selector `ul.TbVideoNv.nav.nav-tabs li:not(:first-child)` is modelled as "more than one tab", assuming the page has one tab bar whose children are exactly the tabs given.
- PelisplushdVideos.OptionThrows: every fetch is assumed to succeed. In the source an I/O failure of the player API page fetch, or of a `?data=` page fetch, happens outside `serverVideoResolver`'s `try` and ends the whole `videoListParse`; the fetch oracles of the model are total, so the "exactly when" of this lemma holds only under that assumption.
- Extractor internals: each video host's extractor is an oracle that returns videos or throws. The three Amazon fetches count as that rule's extractor. The Tomatomatela details request is an oracle that answers a status and a file, or fails.
- The URL regular expression of Pelisplushd (`regIsUrl`) and `Base64.decode` are oracles. A failed decode is the error `BadBase64`. Decoding bytes into a `String` is not modelled.
- The Jellyfin authenticator is an oracle returning the key and user id. The toast shown on a failed login, `runBlocking` and the dispatcher are left out.
- The preference screens are left out: their widgets, the media-library list fetch, its thread, and the listeners that save values and call `login(true)`. Only the library choice (`SelectLibrary`) and `getSummary` are modelled.
- Percent-encoding of query values is not modelled: a query value is its raw text.
- `toHttpUrl()` is modelled only in `episodeListRequest`, and there only by its check of the `http`/`https` scheme. Its other rejections (a malformed host, for one) are not modelled, nor is its rejection of a bad `baseUrl` in the popular, latest and search requests and in the transcode URLs. OkHttp's canonical re-rendering of a built URL (lower-cased scheme and host, a default port dropped) is not modelled either: the model renders the text as it was assembled.
- JellyfinCatalog.SeasonEpisodesUrl: the path is the text `origin + "/Shows/" + series + "/Episodes"`. OkHttp's `addPathSegment` is not modelled: it drops an empty series id, skips a `.` segment, removes the previous segment for `..`, and percent-encodes a `/` inside the id. The contract holds as the source's URL only when the series id is non-empty, is neither `.` nor `..`, and has no `/` or `%`.
- JellyfinCatalog.SeasonRequestOf: the season id is the raw text after the last `/` of the URL. The source reads `pathSegments.last()` after OkHttp has resolved `.` and `..` segments and percent-decoded the path, so the two agree only for a last segment that is non-empty, is neither `.` nor `..`, and has no `%`.
- JellyfinCatalog.PopularRequest: `(page - 1) * 20` is computed over unbounded integers, where the source wraps it to a 32-bit `Int`. The round-trip lemmas therefore require the offset and `limit * page` to fit in an `Int`. The parse itself wraps `limit * page` as the source does.
- Case folding and digit tests are ASCII only: `lowercase()`, `contains(…, ignoreCase = true)`, `isDigit()`, `isWhitespace()`, and the digits accepted by `toInt()` and `toIntOrNull()`, are not modelled for other Unicode characters.
- PelisplushdCatalog.EpisodeListParse: the episode number is a Kotlin `Float`, modelled as an integer. `setUrlWithoutDomain` is a parameter.
- PelisplushdVideos.DoodTabRoutes: routing is proved only for the doodstream and upload/uqload rewrites. The sbfast and plusto templates match no rule's test on their own, so whether such a link resolves depends on its id; nothing is proved about them.
- The text of each button's `span` (`server`) is read by the source but never used, so it is not modelled.
- Outside the core and not modelled: the Pelisplushd popular and details parsers; the Jellyfin details request and parse, the episode list parse, and the video list request.
- Jellyfin's `JellyfinConstants.QUALITIES_LIST` is not part of this model: the quality profiles are a parameter of the ladder.

## Findings

| source | as written | input that shows it | evidently intended | confidence | as-written member | corrected member |
|---|---|---|---|---|---|---|
| src/all/jellyfin/src/eu/kanade/tachiyomi/animeextension/all/jellyfin/Jellyfin.kt:171-202 | The search request keeps popular's `StartIndex = (page - 1) * 20` but asks for `Limit = 5`. The parse divides `StartIndex` by 5. | page 2 asks for items 20-24 and parses back as page 5. Items 5-19 are on no page. | `StartIndex = (page - 1) * 5`, so that page p holds items 5(p-1) to 5p-1 and parses back as p | not executed | JellyfinCatalog.SearchPageAsWritten (and JellyfinCatalog.SearchSkipsItems) | JellyfinCatalog.CorrectedSearchRoundTrip (and JellyfinCatalog.CorrectedSearchCoversItems) |
| src/es/pelisplushd/src/eu/kanade/tachiyomi/animeextension/es/pelisplushd/Pelisplushd.kt:291-294 | The year filter is looked up in `filters`, while the genre filter is looked up in `filterList`, which falls back to the initial filters when `filters` is empty. | any search with an empty filter list, e.g. query "batman": `null as Tags` throws | look both filters up in `filterList`, so that an empty list searches the query, or lists the movies when the query is blank | not executed | PelisplushdCatalog.SearchWithoutFiltersThrows | PelisplushdCatalog.CorrectedSearchDefaults |
