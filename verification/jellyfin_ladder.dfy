/**
 * What Jellyfin's `videoListParse` computes, stated as functions of its inputs:
 * which width, height, audio index, subtitle index and subtitle lists the walk
 * over the media streams of the first media source leaves behind, and the
 * quality ladder built from them (newest entry first, after the final
 * `reversed()`).
 */
module JellyfinLadder {
  import opened Wrappers
  import opened KotlinText
  import opened Media
  import opened HttpUrl

  /** One entry of `mediaStreams` in the playback-info reply; `kind` is the DTO's `type`. */
  datatype MediaStream = MediaStream(
    kind: string,
    index: int,
    width: Option<int>,
    height: Option<int>,
    codec: Option<string>,
    lang: Option<string>,
    displayTitle: Option<string>,
    isExternal: bool,
    supportsExternalStream: bool)

  /** An entry of the quality catalogue (`JellyfinConstants.QUALITIES_LIST`). */
  datatype Quality = Quality(description: string, width: int, height: int, videoBitrate: int, audioBitrate: int)

  /** The local variables the walk over the media streams leaves behind. */
  datatype Selection = Selection(
    width: int,
    height: int,
    audioIndex: int,
    subIndex: Option<int>,
    subtitleList: seq<Track>,
    externalSubtitleList: seq<Track>)

  /** The item being played: server address, api key, item id and playback session id. */
  datatype Playback = Playback(baseUrl: string, apiKey: Option<string>, itemId: string, playSessionId: string)

  datatype LadderError =
    | NoMediaSource                // `mediaSources.first()` on an empty list
    | NullField(streamIndex: int)  // `!!` on a missing width, height or display title

  const DefaultWidth := 1920
  const DefaultHeight := 1080
  const DefaultAudioIndex := 1

  predicate IsVideo(m: MediaStream) {
    m.kind == "Video"
  }

  predicate IsPreferredAudio(m: MediaStream, prefAudio: string) {
    m.kind == "Audio" && m.lang == Some(prefAudio)
  }

  /** A subtitle stream the server can deliver as a separate file: the only ones the walk looks at. */
  predicate IsDeliverableSubtitle(m: MediaStream) {
    m.kind == "Subtitle" && m.supportsExternalStream
  }

  predicate IsPreferredSubtitle(m: MediaStream, prefSub: string) {
    IsDeliverableSubtitle(m) && m.lang == Some(prefSub)
  }

  /** A preferred-language subtitle without a display title: the walk records its index instead of a track. */
  predicate IsUntitledPreferred(m: MediaStream, prefSub: string) {
    IsPreferredSubtitle(m, prefSub) && m.displayTitle.None?
  }

  /** A stream on which the walk throws: a `!!` outside the `try` finds `null`. */
  predicate Malformed(m: MediaStream, prefSub: string) {
    || (IsVideo(m) && (m.width.None? || m.height.None?))
    || (IsDeliverableSubtitle(m) && m.lang != Some(prefSub) && m.displayTitle.None?)
  }

  predicate WellFormed(ms: seq<MediaStream>, prefSub: string) {
    forall j :: 0 <= j < |ms| ==> !Malformed(ms[j], prefSub)
  }

  /** The position of the first malformed stream, or `|ms|` when there is none. */
  function FirstMalformed(ms: seq<MediaStream>, prefSub: string): (r: nat)
    ensures r <= |ms|
    ensures forall j :: 0 <= j < r ==> !Malformed(ms[j], prefSub)
    ensures r < |ms| ==> Malformed(ms[r], prefSub)
  {
    if ms == [] then 0
    else if Malformed(ms[0], prefSub) then 0
    else 1 + FirstMalformed(ms[1..], prefSub)
  }

  /** The first malformed stream after a well-formed prefix is the one that ends the walk. */
  lemma FirstMalformedAt(ms: seq<MediaStream>, i: nat, prefSub: string)
    requires i < |ms| && WellFormed(ms[..i], prefSub) && Malformed(ms[i], prefSub)
    ensures FirstMalformed(ms, prefSub) == i
  {
    assert forall j :: 0 <= j < i ==> ms[j] == ms[..i][j];
  }

  /** A well-formed prefix followed by a well-formed stream is a well-formed prefix. */
  lemma WellFormedPrefix(ms: seq<MediaStream>, i: nat, prefSub: string)
    requires i < |ms| && WellFormed(ms[..i], prefSub) && !Malformed(ms[i], prefSub)
    ensures WellFormed(ms[..i + 1], prefSub) && WellFormed(ms[..i] + [ms[i]], prefSub)
  {
    assert ms[..i + 1] == ms[..i] + [ms[i]];
  }

  /** Without a malformed stream the walk runs to the end. */
  lemma FirstMalformedNone(ms: seq<MediaStream>, prefSub: string)
    requires WellFormed(ms, prefSub)
    ensures FirstMalformed(ms, prefSub) == |ms|
  {
  }

  /** The position of the last stream satisfying `p`, or -1: "the last one wins". */
  function LastWhere(ms: seq<MediaStream>, p: MediaStream -> bool): (r: int)
    ensures -1 <= r < |ms|
    ensures r >= 0 ==> p(ms[r])
    ensures forall k :: r < k < |ms| ==> !p(ms[k])
  {
    if ms == [] then -1
    else if p(ms[|ms| - 1]) then |ms| - 1
    else LastWhere(ms[..|ms| - 1], p)
  }

  /** `$baseUrl/Videos/$id/$id/Subtitles/${media.index}/0/Stream.${media.codec}?api_key=$apiKey` */
  function SubtitleUrl(pb: Playback, m: MediaStream): string {
    pb.baseUrl + "/Videos/" + pb.itemId + "/" + pb.itemId + "/Subtitles/" + IntToString(m.index)
      + "/0/Stream." + Show(m.codec) + "?api_key=" + Show(pb.apiKey)
  }

  function SubtitleTrack(pb: Playback, m: MediaStream): Track
    requires m.displayTitle.Some?
  {
    Track(SubtitleUrl(pb, m), m.displayTitle.value)
  }

  /**
   * The stream adds a track to the list being described: a deliverable subtitle
   * with a display title, in the preferred language or not as `preferred` says,
   * and external when only external tracks are collected.
   */
  predicate AddsTrack(m: MediaStream, prefSub: string, preferred: bool, externalOnly: bool) {
    && IsDeliverableSubtitle(m)
    && (m.lang == Some(prefSub)) == preferred
    && m.displayTitle.Some?
    && (m.isExternal || !externalOnly)
  }

  /** The tracks of the streams that `AddsTrack`, in input order. */
  function TracksWhere(pb: Playback, ms: seq<MediaStream>, prefSub: string, preferred: bool, externalOnly: bool): seq<Track>
  {
    if ms == [] then []
    else
      var m := ms[|ms| - 1];
      TracksWhere(pb, ms[..|ms| - 1], prefSub, preferred, externalOnly)
        + (if AddsTrack(m, prefSub, preferred, externalOnly) then [SubtitleTrack(pb, m)] else [])
  }

  /**
   * `subtitleList` (or `externalSubtitleList` when `externalOnly`): the
   * preferred-language tracks, each prepended so that they end up in reverse
   * input order at the front, followed by all other tracks in input order.
   */
  function Subtitles(pb: Playback, ms: seq<MediaStream>, prefSub: string, externalOnly: bool): seq<Track>
  {
    Reversed(TracksWhere(pb, ms, prefSub, true, externalOnly)) + TracksWhere(pb, ms, prefSub, false, externalOnly)
  }

  /** What the walk over the well-formed streams `ms` leaves behind. */
  function Select(pb: Playback, ms: seq<MediaStream>, prefAudio: string, prefSub: string): Selection
    requires WellFormed(ms, prefSub)
  {
    var v := LastWhere(ms, IsVideo);
    var a := LastWhere(ms, m => IsPreferredAudio(m, prefAudio));
    var u := LastWhere(ms, m => IsUntitledPreferred(m, prefSub));
    Selection(
      if v < 0 then DefaultWidth else ms[v].width.value,
      if v < 0 then DefaultHeight else ms[v].height.value,
      if a < 0 then DefaultAudioIndex else ms[a].index,
      if u < 0 then None else Some(ms[u].index),
      Subtitles(pb, ms, prefSub, false),
      Subtitles(pb, ms, prefSub, true))
  }

  /** The profile is strictly larger than the source in both dimensions. */
  predicate Outgrows(q: Quality, width: int, height: int) {
    width < q.width && height < q.height
  }

  /** The position of the first profile that outgrows the source, or `|qs|`. */
  function FirstLarger(qs: seq<Quality>, width: int, height: int): (k: nat)
    ensures k <= |qs|
    ensures forall j :: 0 <= j < k ==> !Outgrows(qs[j], width, height)
    ensures k < |qs| ==> Outgrows(qs[k], width, height)
  {
    if qs == [] then 0
    else if Outgrows(qs[0], width, height) then 0
    else 1 + FirstLarger(qs[1..], width, height)
  }

  /** The direct-play entry: `$baseUrl/Videos/$id/stream?static=True&api_key=$apiKey`. */
  function SourceVideo(pb: Playback, external: seq<Track>): Video {
    var url := pb.baseUrl + "/Videos/" + pb.itemId + "/stream?static=True&api_key=" + Show(pb.apiKey);
    Video(url, "Source", url, external)
  }

  /** The query parameters after `PlaySessionId`, the same for every profile. */
  const TranscodeTail: seq<Param> := [
    ("TranscodingMaxAudioChannels", Some("6")), ("RequireAvc", Some("false")),
    ("SegmentContainer", Some("ts")), ("MinSegments", Some("1")),
    ("BreakOnNonKeyFrames", Some("true")),
    ("h264-profile", Some("high,main,baseline,constrainedbaseline")),
    ("h264-level", Some("51")), ("h264-deinterlace", Some("true")),
    ("TranscodeReasons", Some("VideoCodecNotSupported,AudioCodecNotSupported,ContainerBitrateExceedsLimit"))]

  /** The query parameters of the HLS transcode URL for one profile, in the order they are added. */
  function TranscodeParams(pb: Playback, audioIndex: int, subIndex: Option<int>, q: Quality): seq<Param> {
    StreamParams(pb, audioIndex) + SubtitleParam(subIndex) + ProfileParams(pb, q) + TranscodeTail
  }

  /** The key, the codecs and the audio stream. */
  function StreamParams(pb: Playback, audioIndex: int): seq<Param> {
    [("api_key", pb.apiKey), ("VideoCodec", Some("h264")), ("AudioCodec", Some("aac,mp3")),
     ("AudioStreamIndex", Some(IntToString(audioIndex)))]
  }

  /** The video codec twice more, the profile's bitrates and the session. */
  function ProfileParams(pb: Playback, q: Quality): seq<Param> {
    [("VideoCodec", Some("h264")), ("VideoCodec", Some("h264")),
     ("VideoBitrate", Some(IntToString(q.videoBitrate))), ("AudioBitrate", Some(IntToString(q.audioBitrate))),
     ("PlaySessionId", Some(pb.playSessionId))]
  }

  /** `subIndex?.let { addQueryParameter("SubtitleStreamIndex", …) }`. */
  function SubtitleParam(subIndex: Option<int>): seq<Param> {
    match subIndex
    case Some(s) => [("SubtitleStreamIndex", Some(IntToString(s)))]
    case None => []
  }

  /** `$baseUrl/videos/$id/main.m3u8` with the transcode parameters. */
  function TranscodeUrl(pb: Playback, audioIndex: int, subIndex: Option<int>, q: Quality): string {
    Render(Url(pb.baseUrl + "/videos/" + pb.itemId + "/main.m3u8", TranscodeParams(pb, audioIndex, subIndex, q)))
  }

  /** The transcode URL names the audio stream the walk chose. */
  lemma TranscodeAudioIndex(pb: Playback, audioIndex: int, subIndex: Option<int>, q: Quality)
    ensures QueryValue(TranscodeParams(pb, audioIndex, subIndex, q), "AudioStreamIndex") == Some(IntToString(audioIndex))
  {
    var head := StreamParams(pb, audioIndex);
    assert TranscodeParams(pb, audioIndex, subIndex, q) == head + (SubtitleParam(subIndex) + ProfileParams(pb, q) + TranscodeTail);
    QueryValueInHead(head, SubtitleParam(subIndex) + ProfileParams(pb, q) + TranscodeTail, "AudioStreamIndex", 3);
  }

  /** The transcode URL carries a subtitle stream index exactly when the walk recorded one. */
  lemma TranscodeSubtitleIndex(pb: Playback, audioIndex: int, subIndex: Option<int>, q: Quality)
    ensures QueryValue(TranscodeParams(pb, audioIndex, subIndex, q), "SubtitleStreamIndex")
      == (match subIndex case Some(s) => Some(IntToString(s)) case None => None)
  {
    var name := "SubtitleStreamIndex";
    var head, sub, profile := StreamParams(pb, audioIndex), SubtitleParam(subIndex), ProfileParams(pb, q);
    var rest := sub + (profile + TranscodeTail);
    assert TranscodeParams(pb, audioIndex, subIndex, q) == head + rest;
    QueryValueSkip(head, rest, name);
    match subIndex
    case Some(s) =>
      QueryValueAt(rest, name, 0);
    case None =>
      assert rest == profile + TranscodeTail;
      ProfileSkipsSubtitleIndex(pb, q, TranscodeTail);
      TailLacksSubtitleIndex();
  }

  /** The profile's parameters do not name a subtitle stream index. */
  lemma ProfileSkipsSubtitleIndex(pb: Playback, q: Quality, b: seq<Param>)
    ensures QueryValue(ProfileParams(pb, q) + b, "SubtitleStreamIndex") == QueryValue(b, "SubtitleStreamIndex")
  {
    var profile := ProfileParams(pb, q);
    forall j | 0 <= j < |profile| ensures profile[j].0 != "SubtitleStreamIndex" {
      assert |profile[j].0| <= 13;
    }
    QueryValueSkip(profile, b, "SubtitleStreamIndex");
  }

  /** None of the fixed parameters is a subtitle stream index. */
  lemma TailLacksSubtitleIndex()
    ensures QueryValue(TranscodeTail, "SubtitleStreamIndex") == None
  {
    assert TranscodeTail[4].0[0] == 'B';
    assert forall i :: 0 <= i < |TranscodeTail| && i != 4 ==> |TranscodeTail[i].0| != 19;
  }

  /** The transcode entry for profile `q`, labelled with its description and carrying `subtitleList`. */
  function TranscodeVideo(pb: Playback, sel: Selection, q: Quality): Video {
    var url := TranscodeUrl(pb, sel.audioIndex, sel.subIndex, q);
    Video(url, q.description, url, sel.subtitleList)
  }

  /** One transcode entry per profile, in catalogue order. */
  function Transcodes(pb: Playback, sel: Selection, qs: seq<Quality>): (r: seq<Video>)
    ensures |r| == |qs|
  {
    if qs == [] then [] else Transcodes(pb, sel, qs[..|qs| - 1]) + [TranscodeVideo(pb, sel, qs[|qs| - 1])]
  }

  /** Growing the prefix of the catalogue by one profile adds its transcode at the end. */
  lemma TranscodesSnoc(pb: Playback, sel: Selection, qs: seq<Quality>, k: nat)
    requires k < |qs|
    ensures Transcodes(pb, sel, qs[..k + 1]) == Transcodes(pb, sel, qs[..k]) + [TranscodeVideo(pb, sel, qs[k])]
  {
    assert qs[..k + 1][..k] == qs[..k];
  }

  /** Entry `j` is the transcode of profile `j`. */
  lemma {:induction false} TranscodesAt(pb: Playback, sel: Selection, qs: seq<Quality>, j: nat)
    requires j < |qs|
    ensures Transcodes(pb, sel, qs)[j] == TranscodeVideo(pb, sel, qs[j])
  {
    if j < |qs| - 1 {
      TranscodesAt(pb, sel, qs[..|qs| - 1], j);
    }
  }

  /**
   * The returned ladder: "Source" first, then one transcode entry for each
   * profile before the first one that outgrows the source, in reverse catalogue
   * order.
   */
  function Ladder(pb: Playback, sel: Selection, qs: seq<Quality>): seq<Video> {
    var k := FirstLarger(qs, sel.width, sel.height);
    [SourceVideo(pb, sel.externalSubtitleList)] + Reversed(Transcodes(pb, sel, qs[..k]))
  }

  /** The whole of `videoListParse` after the two fetches: the streams of the first media source, then the ladder. */
  function VideoList(pb: Playback, sources: seq<seq<MediaStream>>, prefAudio: string, prefSub: string, qs: seq<Quality>)
    : Result<seq<Video>, LadderError>
  {
    if |sources| == 0 then Err(NoMediaSource)
    else
      var ms := sources[0];
      var f := FirstMalformed(ms, prefSub);
      if f < |ms| then Err(NullField(ms[f].index))
      else Ok(Ladder(pb, Select(pb, ms, prefAudio, prefSub), qs))
  }

  // ---------------------------------------------------------------------------
  // The ladder

  /**
   * The ladder has one entry more than there are profiles before the first one
   * that outgrows the source; "Source" (with the external subtitles) is at index
   * 0, and entry `j` is the transcode of profile `k - j`, a profile that does not
   * outgrow the source.
   */
  lemma LadderShape(pb: Playback, sel: Selection, qs: seq<Quality>)
    ensures var k := FirstLarger(qs, sel.width, sel.height);
      && |Ladder(pb, sel, qs)| == k + 1
      && Ladder(pb, sel, qs)[0] == SourceVideo(pb, sel.externalSubtitleList)
      && forall j :: 1 <= j <= k ==>
           && Ladder(pb, sel, qs)[j] == TranscodeVideo(pb, sel, qs[k - j])
           && !Outgrows(qs[k - j], sel.width, sel.height)
  {
    var k := FirstLarger(qs, sel.width, sel.height);
    forall j | 1 <= j <= k ensures Ladder(pb, sel, qs)[j] == TranscodeVideo(pb, sel, qs[k - j]) {
      LadderEntry(pb, sel, qs, k, j);
    }
  }

  /** Entry `j` of the ladder, behind "Source", is the transcode of profile `k - j`. */
  lemma LadderEntry(pb: Playback, sel: Selection, qs: seq<Quality>, k: nat, j: int)
    requires k == FirstLarger(qs, sel.width, sel.height) && 1 <= j <= k
    ensures Ladder(pb, sel, qs)[j] == TranscodeVideo(pb, sel, qs[k - j])
  {
    var ts := Transcodes(pb, sel, qs[..k]);
    assert Ladder(pb, sel, qs)[j] == ts[k - j];
    TranscodesAt(pb, sel, qs[..k], k - j);
  }

  /**
   * The entries' labels and subtitles: "Source" carries `externalSubtitleList`,
   * every transcode entry is labelled with its profile's description and carries
   * `subtitleList`.
   */
  lemma LadderLabels(pb: Playback, sel: Selection, qs: seq<Quality>)
    ensures var k := FirstLarger(qs, sel.width, sel.height);
      && Ladder(pb, sel, qs)[0].quality == "Source"
      && Ladder(pb, sel, qs)[0].subtitleTracks == sel.externalSubtitleList
      && forall j :: 1 <= j <= k ==>
           && Ladder(pb, sel, qs)[j].quality == qs[k - j].description
           && Ladder(pb, sel, qs)[j].subtitleTracks == sel.subtitleList
  {
    LadderShape(pb, sel, qs);
  }

  /** With no catalogue entry named "Source", exactly one entry is "Source", and it is the first. */
  lemma SourceOnlyAtFront(pb: Playback, sel: Selection, qs: seq<Quality>)
    requires forall i :: 0 <= i < |qs| ==> qs[i].description != "Source"
    ensures forall j :: 0 <= j < |Ladder(pb, sel, qs)| ==> (Ladder(pb, sel, qs)[j].quality == "Source" <==> j == 0)
  {
    LadderShape(pb, sel, qs);
    LadderLabels(pb, sel, qs);
  }

  /** The full catalogue is used exactly when no profile outgrows the source; the profile that does never gets an entry. */
  lemma LadderLength(pb: Playback, sel: Selection, qs: seq<Quality>)
    ensures 1 <= |Ladder(pb, sel, qs)| <= |qs| + 1
    ensures |Ladder(pb, sel, qs)| == |qs| + 1 <==> forall i :: 0 <= i < |qs| ==> !Outgrows(qs[i], sel.width, sel.height)
    ensures forall i :: 0 <= i < |qs| && Outgrows(qs[i], sel.width, sel.height) ==> |Ladder(pb, sel, qs)| <= i + 1
  {
  }

  /**
   * A 1280x720 source against profiles 480x360, 720x480 and 1080x720: none is
   * larger in both dimensions, so every profile gets a transcode entry and
   * "Source" comes last in the walk, first in the result.
   */
  lemma LadderOf720pSource(pb: Playback, sel: Selection, a: Quality, b: Quality, c: Quality)
    requires sel.width == 1280 && sel.height == 720
    requires a.width == 480 && a.height == 360 && b.width == 720 && b.height == 480 && c.width == 1080 && c.height == 720
    ensures Ladder(pb, sel, [a, b, c]) == [SourceVideo(pb, sel.externalSubtitleList),
      TranscodeVideo(pb, sel, c), TranscodeVideo(pb, sel, b), TranscodeVideo(pb, sel, a)]
  {
    assert FirstLarger([a, b, c], 1280, 720) == 3 by {
      assert [a, b, c][1..] == [b, c];
      assert [b, c][1..] == [c];
    }
    LadderShape(pb, sel, [a, b, c]);
  }

  // ---------------------------------------------------------------------------
  // The stream walk

  /**
   * One more stream changes the subtitle list exactly as the walk does: a
   * titled preferred-language track goes to the front, any other titled
   * deliverable track to the back, and nothing else changes it.
   */
  lemma SubtitlesStep(pb: Playback, ms: seq<MediaStream>, m: MediaStream, prefSub: string, externalOnly: bool)
    ensures AddsTrack(m, prefSub, true, externalOnly) ==>
      Subtitles(pb, ms + [m], prefSub, externalOnly) == [SubtitleTrack(pb, m)] + Subtitles(pb, ms, prefSub, externalOnly)
    ensures AddsTrack(m, prefSub, false, externalOnly) ==>
      Subtitles(pb, ms + [m], prefSub, externalOnly) == Subtitles(pb, ms, prefSub, externalOnly) + [SubtitleTrack(pb, m)]
    ensures !AddsTrack(m, prefSub, true, externalOnly) && !AddsTrack(m, prefSub, false, externalOnly) ==>
      Subtitles(pb, ms + [m], prefSub, externalOnly) == Subtitles(pb, ms, prefSub, externalOnly)
  {
    var p, q := TracksWhere(pb, ms, prefSub, true, externalOnly), TracksWhere(pb, ms, prefSub, false, externalOnly);
    TracksSnoc(pb, ms, m, prefSub, true, externalOnly);
    TracksSnoc(pb, ms, m, prefSub, false, externalOnly);
    if AddsTrack(m, prefSub, true, externalOnly) {
      var t := SubtitleTrack(pb, m);
      ReversedSnoc(p, t);
      PreferredStep(p, q, t);
    } else if AddsTrack(m, prefSub, false, externalOnly) {
      var t := SubtitleTrack(pb, m);
      assert Reversed(p) + (q + [t]) == (Reversed(p) + q) + [t];
    } else {
      assert p + [] == p && q + [] == q;
    }
  }

  /** The walk's step on the tracks that `AddsTrack`: the new stream's track, if any, at the end. */
  lemma TracksSnoc(pb: Playback, ms: seq<MediaStream>, m: MediaStream, prefSub: string, preferred: bool, externalOnly: bool)
    ensures TracksWhere(pb, ms + [m], prefSub, preferred, externalOnly)
      == TracksWhere(pb, ms, prefSub, preferred, externalOnly) + (if AddsTrack(m, prefSub, preferred, externalOnly) then [SubtitleTrack(pb, m)] else [])
  {
    assert (ms + [m])[..|ms|] == ms;
  }

  /** Prepending to the reversed front part is prepending to the whole list. */
  lemma PreferredStep<T>(p: seq<T>, q: seq<T>, t: T)
    requires Reversed(p + [t]) == [t] + Reversed(p)
    ensures Reversed(p + [t]) + q == [t] + (Reversed(p) + q)
  {
  }

  /** The external tracks of `ms`, keeping only the streams with `isExternal`. */
  function ExternalStreams(ms: seq<MediaStream>): (r: seq<MediaStream>)
    ensures forall j :: 0 <= j < |r| ==> r[j].isExternal && r[j] in ms
  {
    if ms == [] then []
    else ExternalStreams(ms[..|ms| - 1]) + (if ms[|ms| - 1].isExternal then [ms[|ms| - 1]] else [])
  }

  lemma {:induction false} ExternalTracksFilter(pb: Playback, ms: seq<MediaStream>, prefSub: string, preferred: bool)
    ensures TracksWhere(pb, ms, prefSub, preferred, true) == TracksWhere(pb, ExternalStreams(ms), prefSub, preferred, false)
  {
    if ms != [] {
      var init, m := ms[..|ms| - 1], ms[|ms| - 1];
      ExternalTracksFilter(pb, init, prefSub, preferred);
      var track := if AddsTrack(m, prefSub, preferred, true) then [SubtitleTrack(pb, m)] else [];
      assert TracksWhere(pb, ms, prefSub, preferred, true) == TracksWhere(pb, init, prefSub, preferred, true) + track;
      if m.isExternal {
        var e := ExternalStreams(init) + [m];
        assert ExternalStreams(ms) == e;
        assert e[..|e| - 1] == ExternalStreams(init);
        assert TracksWhere(pb, e, prefSub, preferred, false) == TracksWhere(pb, ExternalStreams(init), prefSub, preferred, false) + track;
      } else {
        assert ExternalStreams(ms) == ExternalStreams(init);
      }
    }
  }

  /**
   * `externalSubtitleList` is `subtitleList` of the external streams alone: the
   * two lists receive the same insertions at the same end.
   */
  lemma ExternalIsSubtitlesOfExternalStreams(pb: Playback, ms: seq<MediaStream>, prefSub: string)
    ensures Subtitles(pb, ms, prefSub, true) == Subtitles(pb, ExternalStreams(ms), prefSub, false)
  {
    ExternalTracksFilter(pb, ms, prefSub, true);
    ExternalTracksFilter(pb, ms, prefSub, false);
  }

  /** Every track comes from a titled deliverable subtitle stream of the input. */
  lemma {:induction false} TracksComeFromStreams(pb: Playback, ms: seq<MediaStream>, prefSub: string, preferred: bool, externalOnly: bool)
    ensures forall t :: t in TracksWhere(pb, ms, prefSub, preferred, externalOnly) ==>
      exists j :: 0 <= j < |ms| && AddsTrack(ms[j], prefSub, preferred, externalOnly) && t == SubtitleTrack(pb, ms[j])
  {
    if ms != [] {
      var init := ms[..|ms| - 1];
      TracksComeFromStreams(pb, init, prefSub, preferred, externalOnly);
      forall t | t in TracksWhere(pb, ms, prefSub, preferred, externalOnly)
        ensures exists j :: 0 <= j < |ms| && AddsTrack(ms[j], prefSub, preferred, externalOnly) && t == SubtitleTrack(pb, ms[j])
      {
        if t in TracksWhere(pb, init, prefSub, preferred, externalOnly) {
          var j :| 0 <= j < |init| && AddsTrack(init[j], prefSub, preferred, externalOnly) && t == SubtitleTrack(pb, init[j]);
          assert ms[j] == init[j];
        } else {
          assert t == SubtitleTrack(pb, ms[|ms| - 1]);
        }
      }
    }
  }

  /**
   * Defaults and "the last one wins": without a Video stream the resolution is
   * 1920x1080; the audio index stays 1 unless an Audio stream is in the
   * preferred language; `subIndex` stays null unless a preferred-language
   * subtitle has no display title, and then it is the index of the last such.
   */
  lemma SelectionDefaults(pb: Playback, ms: seq<MediaStream>, prefAudio: string, prefSub: string)
    requires WellFormed(ms, prefSub)
    ensures (forall j :: 0 <= j < |ms| ==> !IsVideo(ms[j])) ==>
      Select(pb, ms, prefAudio, prefSub).width == 1920 && Select(pb, ms, prefAudio, prefSub).height == 1080
    ensures (forall j :: 0 <= j < |ms| ==> !IsPreferredAudio(ms[j], prefAudio)) ==> Select(pb, ms, prefAudio, prefSub).audioIndex == 1
    ensures Select(pb, ms, prefAudio, prefSub).subIndex.None? <==> forall j :: 0 <= j < |ms| ==> !IsUntitledPreferred(ms[j], prefSub)
    ensures forall j :: (0 <= j < |ms| && IsUntitledPreferred(ms[j], prefSub)
      && (forall k :: j < k < |ms| ==> !IsUntitledPreferred(ms[k], prefSub))) ==>
        Select(pb, ms, prefAudio, prefSub).subIndex == Some(ms[j].index)
  {
  }

  /** Before any stream the walk holds its initial values. */
  lemma SelectNothing(pb: Playback, prefAudio: string, prefSub: string)
    ensures WellFormed([], prefSub)
    ensures Select(pb, [], prefAudio, prefSub) == Selection(DefaultWidth, DefaultHeight, DefaultAudioIndex, None, [], [])
  {
  }

  /** A prefix one longer is the shorter prefix and the next stream. */
  lemma StreamsPrefix(ms: seq<MediaStream>, i: nat)
    requires i < |ms|
    ensures ms[..i + 1] == ms[..i] + [ms[i]]
  {
  }

  /**
   * One more well-formed stream updates the selection as one pass of the walk
   * does: a Video stream sets the resolution, a preferred-language Audio stream
   * the audio index, an untitled preferred-language subtitle the subtitle index,
   * and nothing else touches these three.
   */
  lemma SelectSnoc(pb: Playback, ms: seq<MediaStream>, m: MediaStream, prefAudio: string, prefSub: string)
    requires WellFormed(ms + [m], prefSub)
    ensures WellFormed(ms, prefSub)
    ensures var s, t := Select(pb, ms, prefAudio, prefSub), Select(pb, ms + [m], prefAudio, prefSub);
      && t.width == (if IsVideo(m) then m.width.value else s.width)
      && t.height == (if IsVideo(m) then m.height.value else s.height)
      && t.audioIndex == (if IsPreferredAudio(m, prefAudio) then m.index else s.audioIndex)
      && t.subIndex == (if IsUntitledPreferred(m, prefSub) then Some(m.index) else s.subIndex)
  {
    assert forall j :: 0 <= j < |ms| ==> ms[j] == (ms + [m])[j];
    assert (ms + [m])[..|ms|] == ms;
  }

  /** The last Video stream fixes the resolution. */
  lemma LastVideoWins(pb: Playback, ms: seq<MediaStream>, prefAudio: string, prefSub: string, j: nat)
    requires WellFormed(ms, prefSub)
    requires j < |ms| && IsVideo(ms[j]) && forall k :: j < k < |ms| ==> !IsVideo(ms[k])
    ensures Select(pb, ms, prefAudio, prefSub).width == ms[j].width.value
    ensures Select(pb, ms, prefAudio, prefSub).height == ms[j].height.value
  {
  }
}
