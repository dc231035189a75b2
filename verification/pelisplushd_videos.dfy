/**
 * The video list of a Pelisplushd episode page. The player script names the
 * API page of the current player; every option listed there carries its link
 * in an `onclick` handler, cleaned up and, when it is not a URL, read as
 * base64. Older pages instead list one tab per server, each with its link in
 * the same script; those tabs are read unless the API link is a `/video/`
 * one and the page has no tab besides the first.
 */
module PelisplushdVideos {
  import opened Wrappers
  import opened KotlinText
  import opened Media
  import opened PelisplushdEmbed
  import opened PelisplushdDispatch

  /** A server tab of the player: the text of its link and its `data-id`. */
  datatype Tab = Tab(name: string, id: string)

  /** What the episode page holds: the player script, when there is one, and the server tabs. */
  datatype Page = Page(script: Option<string>, tabs: seq<Tab>)

  /** What the links of a page lead to, read over the network. */
  datatype Remote = Remote(
    options: string -> seq<string>,           // the `onclick` of each option on the API page at a URL
    isUrl: string -> bool,                    // `regIsUrl.containsMatchIn`
    decodeBase64: string -> Option<string>,   // `Base64.decode` read as text; None where it throws
    iframeSrc: string -> Option<string>)      // the `src` of the first iframe at a URL, if any

  /** Why reading the video list throws. */
  datatype VideoFailure =
    | NoPlayerScript          // `selectFirst(...)!!` found no player script
    | BadBase64(text: string) // an option's link is neither a URL nor base64

  // ---------------------------------------------------------------------------
  // The specification of the two passes

  /** The link of one API option: the cleaned-up handler, or what it decodes to. */
  function OptionUrl(onclick: string, remote: Remote): (r: Result<string, VideoFailure>)
    ensures remote.isUrl(CleanOnclick(onclick)) ==> r == Ok(CleanOnclick(onclick))
    ensures r.Err? ==> r.error == BadBase64(CleanOnclick(onclick)) && remote.decodeBase64(CleanOnclick(onclick)).None?
  {
    var url := CleanOnclick(onclick);
    if remote.isUrl(url) then Ok(url)
    else
      match remote.decodeBase64(url)
      case None => Err(BadBase64(url))
      case Some(decoded) => Ok(decoded)
  }

  /** The embed a link leads to: itself, or for a `?data=` page the iframe on it (if any). */
  function EmbedOf(url: string, remote: Remote): (r: Option<string>)
    ensures !Contains(url, "?data=") ==> r == Some(url)
  {
    if !Contains(url, "?data=") then Some(url) else remote.iframeSrc(url)
  }

  /** The videos of one API option. */
  function OptionVideos(onclick: string, remote: Remote, ex: Extractors): Result<seq<Video>, VideoFailure> {
    match OptionUrl(onclick, remote)
    case Err(e) => Err(e)
    case Ok(url) =>
      match EmbedOf(url, remote)
      case None => Ok([])
      case Some(embed) => Ok(Resolve(embed, ex))
  }

  /** One option's outcome, as a function of its handler text. */
  function OptionOutcome(remote: Remote, ex: Extractors): string -> Result<seq<Video>, VideoFailure> {
    onclick => OptionVideos(onclick, remote, ex)
  }

  /** The outcomes of `step` over `options`, concatenated in order; the first error ends the walk. */
  function Collect(options: seq<string>, step: string -> Result<seq<Video>, VideoFailure>): Result<seq<Video>, VideoFailure>
    decreases |options|
  {
    if options == [] then Ok([])
    else
      match Collect(options[..|options| - 1], step)
      case Err(e) => Err(e)
      case Ok(videos) =>
        match step(options[|options| - 1])
        case Err(e) => Err(e)
        case Ok(more) => Ok(videos + more)
  }

  /** The videos of the API options in order; the first option that throws ends the parse. */
  function ApiVideos(options: seq<string>, remote: Remote, ex: Extractors): Result<seq<Video>, VideoFailure> {
    Collect(options, OptionOutcome(remote, ex))
  }

  /** The link a tab resolves: its entry in the script, rewritten when it is a legacy one. */
  function TabUrl(data: string, tab: Tab): string {
    LegacyRewrite(ServerUrl(data, tab.id), tab.name)
  }

  /** The videos of the tabs, in order. */
  function TabVideos(data: string, tabs: seq<Tab>, ex: Extractors): seq<Video>
    decreases |tabs|
  {
    if tabs == [] then []
    else TabVideos(data, tabs[..|tabs| - 1], ex) + Resolve(TabUrl(data, tabs[|tabs| - 1]), ex)
  }

  /** The old-series check: tabs are read unless the API link is a `/video/` one and there is no second tab. */
  predicate ReadsTabs(apiUrl: string, tabs: seq<Tab>) {
    !Contains(apiUrl, "/video/") || |tabs| > 1
  }

  /** The whole list: the API options' videos (when there is an API link), then the tabs' videos. */
  function VideoList(page: Page, remote: Remote, ex: Extractors): Result<seq<Video>, VideoFailure> {
    match page.script
    case None => Err(NoPlayerScript)
    case Some(data) =>
      var apiUrl := ApiUrl(data);
      var api := if apiUrl != [] then ApiVideos(remote.options(apiUrl), remote, ex) else Ok([]);
      match api
      case Err(e) => Err(e)
      case Ok(videos) => Ok(videos + if ReadsTabs(apiUrl, page.tabs) then TabVideos(data, page.tabs, ex) else [])
  }

  // ---------------------------------------------------------------------------
  // The parse

  /** Once a step has thrown, the later options change nothing. */
  lemma {:induction false} ErrorSticks(options: seq<string>, k: nat, n: nat, step: string -> Result<seq<Video>, VideoFailure>)
    requires k <= n <= |options|
    requires Collect(options[..k], step).Err?
    ensures Collect(options[..n], step) == Collect(options[..k], step)
  {
    if k < n {
      ErrorSticks(options, k, n - 1, step);
      assert options[..n][..n - 1] == options[..n - 1];
    }
  }

  /** One API option: clean its handler, decode it when it is not a URL, follow a `?data=` page, resolve. */
  method OptionPass(onclick: string, remote: Remote, ex: Extractors) returns (result: Result<seq<Video>, VideoFailure>)
    ensures result == OptionVideos(onclick, remote, ex)
  {
    var url := CleanOnclick(onclick);
    if !remote.isUrl(url) {
      var decoded := remote.decodeBase64(url);
      if decoded.None? {
        return Err(BadBase64(url));
      }
      url := decoded.value;
    }
    if !Contains(url, "?data=") {
      var found := ServerVideoResolver(url, ex);
      return Ok(found);
    }
    var realUrl := remote.iframeSrc(url);
    if realUrl.Some? {
      var found := ServerVideoResolver(realUrl.value, ex);
      return Ok(found);
    }
    return Ok([]);
  }

  /** The API pass: every option in order, stopping at the first that throws. */
  method ApiPass(options: seq<string>, remote: Remote, ex: Extractors) returns (result: Result<seq<Video>, VideoFailure>)
    ensures result == ApiVideos(options, remote, ex)
  {
    var videoList: seq<Video> := [];
    var i := 0;
    while i < |options|
      invariant 0 <= i <= |options|
      invariant ApiVideos(options[..i], remote, ex) == Ok(videoList)
    {
      assert options[..i + 1][..i] == options[..i];
      var found := OptionPass(options[i], remote, ex);
      if found.Err? {
        ErrorSticks(options, i + 1, |options|, OptionOutcome(remote, ex));
        assert options[..|options|] == options;
        return found;
      }
      videoList := videoList + found.value;
      i := i + 1;
    }
    assert options[..|options|] == options;
    return Ok(videoList);
  }

  /** The tab pass: every tab's link, rewritten when legacy, resolved in order. */
  method TabPass(data: string, tabs: seq<Tab>, ex: Extractors) returns (videoList: seq<Video>)
    ensures videoList == TabVideos(data, tabs, ex)
  {
    videoList := [];
    var j := 0;
    while j < |tabs|
      invariant 0 <= j <= |tabs|
      invariant videoList == TabVideos(data, tabs[..j], ex)
    {
      assert tabs[..j + 1][..j] == tabs[..j];
      var serverUrl := ServerUrl(data, tabs[j].id);
      serverUrl := LegacyRewrite(serverUrl, tabs[j].name);
      var found := ServerVideoResolver(serverUrl, ex);
      videoList := videoList + found;
      j := j + 1;
    }
    assert tabs[..|tabs|] == tabs;
  }

  /** `videoListParse`. */
  method VideoListParse(page: Page, remote: Remote, ex: Extractors) returns (result: Result<seq<Video>, VideoFailure>)
    ensures result == VideoList(page, remote, ex)
  {
    if page.script.None? {
      return Err(NoPlayerScript);
    }
    var data := page.script.value;
    var videoList: seq<Video> := [];
    var apiUrl := ApiUrl(data);
    if apiUrl != [] {
      var api := ApiPass(remote.options(apiUrl), remote, ex);
      if api.Err? {
        return api;
      }
      videoList := api.value;
    }
    if ReadsTabs(apiUrl, page.tabs) {
      var found := TabPass(data, page.tabs, ex);
      videoList := videoList + found;
    } else {
      assert videoList + [] == videoList;
    }
    return Ok(videoList);
  }

  // ---------------------------------------------------------------------------
  // Properties

  /** A page whose API link is a `/video/` one and that has no second tab reads only the API options. */
  lemma OldSeriesGate(data: string, tabs: seq<Tab>, remote: Remote, ex: Extractors)
    requires Contains(ApiUrl(data), "/video/") && |tabs| <= 1
    ensures VideoList(Page(Some(data), tabs), remote, ex) == ApiVideos(remote.options(ApiUrl(data)), remote, ex)
  {
    var apiUrl := ApiUrl(data);
    var w :| OccursAt(apiUrl, "/video/", w);
    assert |apiUrl| > 0;
    match ApiVideos(remote.options(apiUrl), remote, ex)
    case Err(e) =>
    case Ok(videos) => assert videos + [] == videos;
  }

  /** A page without an API link reads only its tabs. */
  lemma TabsOnly(data: string, tabs: seq<Tab>, remote: Remote, ex: Extractors)
    requires ApiUrl(data) == []
    ensures VideoList(Page(Some(data), tabs), remote, ex) == Ok(TabVideos(data, tabs, ex))
  {
    assert !Contains(ApiUrl(data), "/video/") by {
      forall j | 0 <= j ensures !OccursAt(ApiUrl(data), "/video/", j) {
      }
    }
    assert [] + TabVideos(data, tabs, ex) == TabVideos(data, tabs, ex);
  }

  /** A walk that does not throw did not throw on any option. */
  lemma {:induction false} CollectOkEvery(options: seq<string>, step: string -> Result<seq<Video>, VideoFailure>)
    requires Collect(options, step).Ok?
    ensures forall k :: 0 <= k < |options| ==> step(options[k]).Ok?
  {
    if options != [] {
      var init := options[..|options| - 1];
      CollectOkEvery(init, step);
      forall k | 0 <= k < |options| ensures step(options[k]).Ok? {
        if k < |init| {
          assert options[k] == init[k];
        }
      }
    }
  }

  /** When the API pass does not throw, none of the options threw. */
  lemma ApiOkEveryOption(options: seq<string>, remote: Remote, ex: Extractors)
    requires ApiVideos(options, remote, ex).Ok?
    ensures forall k :: 0 <= k < |options| ==> OptionVideos(options[k], remote, ex).Ok?
  {
    CollectOkEvery(options, OptionOutcome(remote, ex));
  }

  /** With the fetches succeeding, an option throws exactly when its link is neither a URL nor decodes as base64. */
  lemma OptionThrows(onclick: string, remote: Remote, ex: Extractors)
    ensures OptionVideos(onclick, remote, ex).Err? <==>
      !remote.isUrl(CleanOnclick(onclick)) && remote.decodeBase64(CleanOnclick(onclick)).None?
  {
  }

  /** An option wrapping a plain embed URL resolves exactly that URL. */
  lemma WrappedOptionResolves(u: string, remote: Remote, ex: Extractors)
    requires LacksAll(u, Markers) && remote.isUrl(u) && !Contains(u, "?data=")
    ensures OptionVideos("go_to_player('" + u + "')", remote, ex) == Ok(Resolve(u, ex))
  {
    WrapThenClean(u);
  }

  /** Every video an API pass returns was returned by the resolver for some link. */
  lemma {:induction false} ApiProvenance(options: seq<string>, remote: Remote, ex: Extractors, v: Video)
    requires ApiVideos(options, remote, ex).Ok? && v in ApiVideos(options, remote, ex).value
    ensures exists u :: v in Resolve(u, ex)
  {
    var init := options[..|options| - 1];
    var videos := ApiVideos(init, remote, ex).value;
    var more := OptionVideos(options[|options| - 1], remote, ex).value;
    assert ApiVideos(options, remote, ex).value == videos + more;
    if v in videos {
      ApiProvenance(init, remote, ex, v);
    } else {
      var url := OptionUrl(options[|options| - 1], remote).value;
      var embed := EmbedOf(url, remote).value;
      assert v in Resolve(embed, ex);
    }
  }

  /** Every video the tab pass returns was returned by the resolver for the link of one of the tabs. */
  lemma {:induction false} TabProvenance(data: string, tabs: seq<Tab>, ex: Extractors, v: Video)
    requires v in TabVideos(data, tabs, ex)
    ensures exists k :: 0 <= k < |tabs| && v in Resolve(TabUrl(data, tabs[k]), ex)
  {
    var init := tabs[..|tabs| - 1];
    if v in TabVideos(data, init, ex) {
      TabProvenance(data, init, ex, v);
      var k :| 0 <= k < |init| && v in Resolve(TabUrl(data, init[k]), ex);
      assert tabs[k] == init[k];
    } else {
      assert v in Resolve(TabUrl(data, tabs[|tabs| - 1]), ex);
    }
  }

  /** Every video of the list was returned by the resolver for some link. */
  lemma VideoProvenance(page: Page, remote: Remote, ex: Extractors, v: Video)
    requires VideoList(page, remote, ex).Ok? && v in VideoList(page, remote, ex).value
    ensures exists u :: v in Resolve(u, ex)
  {
    var data := page.script.value;
    var apiUrl := ApiUrl(data);
    var api := if apiUrl != [] then ApiVideos(remote.options(apiUrl), remote, ex) else Ok([]);
    var tabs := if ReadsTabs(apiUrl, page.tabs) then TabVideos(data, page.tabs, ex) else [];
    assert VideoList(page, remote, ex).value == api.value + tabs;
    if v in api.value {
      ApiProvenance(remote.options(apiUrl), remote, ex, v);
    } else {
      TabProvenance(data, page.tabs, ex, v);
    }
  }

  /** A word spelled, up to case, inside a link's fixed prefix is found in the lowercased link. */
  lemma LowerPrefixOccurs(prefix: string, rest: string, w: string, at: nat)
    requires at + |w| <= |prefix|
    requires forall i :: 0 <= i < |w| ==> LowerChar(prefix[at + i]) == w[i]
    ensures OccursAt(Lowercase(prefix + rest), w, at)
  {
    var l := Lowercase(prefix + rest);
    assert l[at..at + |w|] == w;
  }

  /** The Uqload template spells "uqload" from its ninth character. */
  lemma UqloadEmbedNamesUqload()
    ensures forall i :: 0 <= i < 6 ==> LowerChar(UqloadEmbed[8 + i]) == "uqload"[i]
  {
  }

  /** A legacy "doodstream" tab is rewritten to a link the Dood extractor takes. */
  lemma DoodTabRoutes(serverUrl: string, serverName: string)
    requires Contains(serverUrl, MycdnHost) && Lowercase(serverName) == "doodstream"
    ensures Fires(Dood, Lowercase(LegacyRewrite(serverUrl, serverName)))
  {
    LegacyRewriteKnown(serverUrl, serverName);
    LowerPrefixOccurs(DoodEmbed, LegacyId(serverUrl), "dood.", 8);
  }

  /** A legacy "upload" or "uqload" tab is rewritten to a link the Uqload extractor takes. */
  lemma UqloadTabRoutes(serverUrl: string, serverName: string)
    requires Contains(serverUrl, MycdnHost) && Lowercase(serverName) in {"upload", "uqload"}
    ensures Fires(Uqload, Lowercase(LegacyRewrite(serverUrl, serverName)))
  {
    LegacyRewriteKnown(serverUrl, serverName);
    var id := LegacyId(serverUrl);
    assert UqloadEmbed + id + ".html" == UqloadEmbed + (id + ".html");
    UqloadEmbedNamesUqload();
    LowerPrefixOccurs(UqloadEmbed, id + ".html", "uqload", 8);
  }
}
