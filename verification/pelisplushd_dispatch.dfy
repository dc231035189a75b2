/**
 * `serverVideoResolver`: the embed URL is lower-cased and matched against a
 * fixed list of rules, one per hosting service. Every rule whose test matches
 * runs its extractor, in list order, and the videos are appended in that
 * order. One `try` surrounds all the rules: an extractor that throws keeps
 * what the earlier rules found and skips the rules after it, and the caller
 * never sees the exception.
 */
module PelisplushdDispatch {
  import opened Wrappers
  import opened KotlinText
  import opened Media

  /** The hosting services, named after their extractors. */
  datatype Rule =
    | Voe | Amazon | Okru | Filemoon | Uqload | Mp4upload | StreamWish | Dood | Streamlare
    | YourUpload | BurstCloud | Fastream | Upstream | StreamTape | StreamHide | FileLions | Tomatomatela

  /** The rules in the order the resolver tries them. */
  const Rules: seq<Rule> := [
    Voe, Amazon, Okru, Filemoon, Uqload, Mp4upload, StreamWish, Dood, Streamlare,
    YourUpload, BurstCloud, Fastream, Upstream, StreamTape, StreamHide, FileLions, Tomatomatela]

  /** The test of each rule, on the lower-cased embed URL. */
  predicate Fires(rule: Rule, embedUrl: string) {
    match rule
    case Voe => Contains(embedUrl, "voe")
    case Amazon => (Contains(embedUrl, "amazon") || Contains(embedUrl, "amz")) && !Contains(embedUrl, "disable")
    case Okru => Contains(embedUrl, "ok.ru") || Contains(embedUrl, "okru")
    case Filemoon => Contains(embedUrl, "filemoon") || Contains(embedUrl, "moonplayer")
    case Uqload => Contains(embedUrl, "uqload")
    case Mp4upload => Contains(embedUrl, "mp4upload")
    case StreamWish =>
      Contains(embedUrl, "wishembed") || Contains(embedUrl, "streamwish") || Contains(embedUrl, "strwish")
      || Contains(embedUrl, "wish")
    case Dood => Contains(embedUrl, "doodstream") || Contains(embedUrl, "dood.")
    case Streamlare => Contains(embedUrl, "streamlare")
    case YourUpload => Contains(embedUrl, "yourupload") || Contains(embedUrl, "upload")
    case BurstCloud => Contains(embedUrl, "burstcloud") || Contains(embedUrl, "burst")
    case Fastream => Contains(embedUrl, "fastream")
    case Upstream => Contains(embedUrl, "upstream")
    case StreamTape => Contains(embedUrl, "streamtape") || Contains(embedUrl, "stp") || Contains(embedUrl, "stape")
    case StreamHide => Contains(embedUrl, "ahvsh") || Contains(embedUrl, "streamhide")
    case FileLions => Contains(embedUrl, "filelions") || Contains(embedUrl, "lion")
    case Tomatomatela => Contains(embedUrl, "tomatomatela")
  }

  /** What an extractor does with a URL: return videos or throw. */
  datatype Extraction = Extracted(videos: seq<Video>) | Threw

  /**
   * The outside world of the resolver: the extractor of each rule (the
   * Amazon rule's three fetches count as its extractor), and the Tomatomatela
   * details request, which answers a status and a file, or fails.
   */
  datatype Extractors = Extractors(
    extract: (Rule, string) -> Extraction,
    details: string -> Option<(string, string)>)

  /** The URL a rule hands its extractor: the Dood rule moves doodstream.com links to dood.to. */
  function ExtractorInput(rule: Rule, url: string): (r: string)
    ensures rule != Dood ==> r == url
    ensures !Contains(url, "https://doodstream.com/e/") ==> r == url
  {
    if rule == Dood then ReplaceAll(url, "https://doodstream.com/e/", "https://dood.to/e/") else url
  }

  /** `https://<host>/details.php?v=<token>` for `https://<host>/embed.html#<token>`. */
  function TomatoDetailsUrl(url: string): string {
    var beforeToken := SubstringBefore(url, "/embed.html#", url);
    var mainUrl := SubstringAfter(beforeToken, "https://", beforeToken);
    var token := SubstringAfter(url, "/embed.html#", url);
    "https://" + mainUrl + "/details.php?v=" + token
  }

  /**
   * What running a rule gives. Tomatomatela has its own `runCatching`: it
   * never throws, and it adds the file only when the status is "200".
   */
  function Outcome(rule: Rule, url: string, ex: Extractors): Extraction {
    if rule == Tomatomatela then
      match ex.details(TomatoDetailsUrl(url))
      case Some((status, file)) =>
        if status == "200" then Extracted([Video(file, "Tomatomatela", file, [])]) else Extracted([])
      case None => Extracted([])
    else ex.extract(rule, ExtractorInput(rule, url))
  }

  /** The rules run in order from the front until one throws. */
  function Run(rules: seq<Rule>, url: string, ex: Extractors): seq<Video> {
    if rules == [] then []
    else if !Fires(rules[0], Lowercase(url)) then Run(rules[1..], url, ex)
    else match Outcome(rules[0], url, ex)
      case Threw => []
      case Extracted(videos) => videos + Run(rules[1..], url, ex)
  }

  /** The videos of an embed URL. */
  function Resolve(url: string, ex: Extractors): seq<Video> {
    Run(Rules, url, ex)
  }

  /** The `try` block over the given rules: each in turn, leaving by the `catch` at the first throw. */
  method RunRules(rules: seq<Rule>, url: string, ex: Extractors) returns (videoList: seq<Video>)
    ensures videoList == Run(rules, url, ex)
  {
    videoList := [];
    var embedUrl := Lowercase(url);
    var i := 0;
    while i < |rules|
      invariant 0 <= i <= |rules|
      invariant videoList + Run(rules[i..], url, ex) == Run(rules, url, ex)
    {
      var rule := rules[i];
      assert rules[i..][1..] == rules[i + 1..];
      if Fires(rule, embedUrl) {
        var outcome := Outcome(rule, url, ex);
        match outcome
        case Threw =>
          return;
        case Extracted(videos) =>
          videoList := videoList + videos;
      }
      i := i + 1;
    }
  }

  /** `serverVideoResolver`: the rules in source order. */
  method ServerVideoResolver(url: string, ex: Extractors) returns (videoList: seq<Video>)
    ensures videoList == Resolve(url, ex)
  {
    videoList := RunRules(Rules, url, ex);
  }

  // ---------------------------------------------------------------------------
  // What a resolution is made of

  /** The videos one rule adds when it runs and does not throw. */
  function Contribution(rule: Rule, url: string, ex: Extractors): seq<Video> {
    if Fires(rule, Lowercase(url)) && Outcome(rule, url, ex).Extracted? then Outcome(rule, url, ex).videos else []
  }

  /** The rule matches and its extractor throws. */
  predicate Throws(rule: Rule, url: string, ex: Extractors) {
    Fires(rule, Lowercase(url)) && Outcome(rule, url, ex).Threw?
  }

  /** The position of the first rule that throws, or the number of rules. */
  function FirstThrow(rules: seq<Rule>, url: string, ex: Extractors): (k: nat)
    ensures k <= |rules|
    ensures k < |rules| ==> Throws(rules[k], url, ex)
    ensures forall j :: 0 <= j < k ==> !Throws(rules[j], url, ex)
  {
    if rules == [] then 0
    else if Throws(rules[0], url, ex) then 0
    else
      var k := FirstThrow(rules[1..], url, ex);
      assert forall j :: 0 < j <= k ==> rules[j] == rules[1..][j - 1];
      1 + k
  }

  /** The contributions of the given rules, concatenated in order. */
  function Gathered(rules: seq<Rule>, url: string, ex: Extractors): seq<Video> {
    if rules == [] then [] else Contribution(rules[0], url, ex) + Gathered(rules[1..], url, ex)
  }

  /** A resolution is the contributions of the rules before the first that throws, in rule order. */
  lemma {:induction false} RunIsGathered(rules: seq<Rule>, url: string, ex: Extractors)
    ensures Run(rules, url, ex) == Gathered(rules[..FirstThrow(rules, url, ex)], url, ex)
  {
    if rules != [] {
      var k := FirstThrow(rules, url, ex);
      if Throws(rules[0], url, ex) {
        assert rules[..k] == [];
      } else {
        RunIsGathered(rules[1..], url, ex);
        assert rules[..k][1..] == rules[1..][..k - 1];
        assert rules[..k][0] == rules[0];
      }
    }
  }

  /**
   * A rule that throws ends the resolution: the result is what the rules
   * before it contributed, and nothing from the rules after it.
   */
  lemma ThrowKeepsEarlier(url: string, ex: Extractors, i: nat)
    requires i < |Rules| && Throws(Rules[i], url, ex)
    requires forall j :: 0 <= j < i ==> !Throws(Rules[j], url, ex)
    ensures Resolve(url, ex) == Gathered(Rules[..i], url, ex)
  {
    RunIsGathered(Rules, url, ex);
    assert FirstThrow(Rules, url, ex) == i;
  }

  /** Without a throw every matching rule contributes. */
  lemma NoThrowGathersAll(url: string, ex: Extractors)
    requires forall j :: 0 <= j < |Rules| ==> !Throws(Rules[j], url, ex)
    ensures Resolve(url, ex) == Gathered(Rules, url, ex)
  {
    RunIsGathered(Rules, url, ex);
    assert Rules[..|Rules|] == Rules;
  }

  /** Every video of the concatenation comes from one of the rules, which matched the URL. */
  lemma {:induction false} GatheredProvenance(rules: seq<Rule>, url: string, ex: Extractors, v: Video)
    requires v in Gathered(rules, url, ex)
    ensures exists j :: 0 <= j < |rules| && Fires(rules[j], Lowercase(url)) && v in Contribution(rules[j], url, ex)
  {
    if v in Contribution(rules[0], url, ex) {
      assert Fires(rules[0], Lowercase(url));
    } else {
      GatheredProvenance(rules[1..], url, ex, v);
      var j :| 0 <= j < |rules[1..]| && Fires(rules[1..][j], Lowercase(url)) && v in Contribution(rules[1..][j], url, ex);
      assert rules[1..][j] == rules[j + 1];
    }
  }

  /** Every resolved video was returned by the extractor of a rule that matched the URL. */
  lemma Provenance(url: string, ex: Extractors, v: Video)
    requires v in Resolve(url, ex)
    ensures exists j :: 0 <= j < |Rules| && Fires(Rules[j], Lowercase(url)) && v in Contribution(Rules[j], url, ex)
  {
    var k := FirstThrow(Rules, url, ex);
    RunIsGathered(Rules, url, ex);
    GatheredProvenance(Rules[..k], url, ex, v);
    var j :| 0 <= j < k && Fires(Rules[..k][j], Lowercase(url)) && v in Contribution(Rules[..k][j], url, ex);
    assert Rules[..k][j] == Rules[j];
  }

  /** A URL no rule matches resolves to nothing. */
  lemma {:induction false} NothingMatches(rules: seq<Rule>, url: string, ex: Extractors)
    requires forall j :: 0 <= j < |rules| ==> !Fires(rules[j], Lowercase(url))
    ensures Run(rules, url, ex) == []
  {
    if rules != [] {
      assert !Fires(rules[0], Lowercase(url));
      NothingMatches(rules[1..], url, ex);
    }
  }

  // ---------------------------------------------------------------------------
  // Particular rules

  /** The tests overlap: every mp4upload link also contains "upload", so it runs the YourUpload extractor too. */
  lemma OverlappingTests(embedUrl: string)
    ensures Fires(Mp4upload, embedUrl) ==> Fires(YourUpload, embedUrl)
  {
    if Fires(Mp4upload, embedUrl) {
      assert OccursAt("mp4upload", "upload", 3);
      ContainsTransitive(embedUrl, "mp4upload", "upload");
    }
  }

  /** An mp4upload link gets the Mp4upload videos and then the YourUpload ones, unless something throws. */
  lemma Mp4uploadRunsBoth(url: string, ex: Extractors)
    requires Fires(Mp4upload, Lowercase(url))
    ensures Fires(Rules[5], Lowercase(url)) && Fires(Rules[9], Lowercase(url)) && Rules[5] == Mp4upload && Rules[9] == YourUpload
  {
    OverlappingTests(Lowercase(url));
  }

  /** A link mentioning "disable" never reaches the Amazon scraper. */
  lemma AmazonDisabled(embedUrl: string)
    requires Contains(embedUrl, "disable")
    ensures !Fires(Amazon, embedUrl)
  {
  }

  /** The Dood extractor gets doodstream.com embed links on dood.to. */
  lemma DoodRewrite(id: string)
    requires !Contains(id, "https://doodstream.com/e/")
    ensures ExtractorInput(Dood, "https://doodstream.com/e/" + id) == "https://dood.to/e/" + id
  {
    var s := "https://doodstream.com/e/" + id;
    assert s[..|"https://doodstream.com/e/"|] == "https://doodstream.com/e/";
    assert s[|"https://doodstream.com/e/"|..] == id;
  }

  /** Tomatomatela never throws, and adds exactly one video, its file, when the status is "200". */
  lemma TomatomatelaContained(url: string, ex: Extractors)
    ensures !Throws(Tomatomatela, url, ex)
    ensures Contribution(Tomatomatela, url, ex) != [] <==>
      Fires(Tomatomatela, Lowercase(url)) && ex.details(TomatoDetailsUrl(url)).Some? && ex.details(TomatoDetailsUrl(url)).value.0 == "200"
    ensures Contribution(Tomatomatela, url, ex) != [] ==>
      var file := ex.details(TomatoDetailsUrl(url)).value.1;
      Contribution(Tomatomatela, url, ex) == [Video(file, "Tomatomatela", file, [])]
  {
  }
}
