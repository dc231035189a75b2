/**
 * The Jellyfin source object: the server address, the credentials, the chosen
 * media library and the cached api key and user id, which `login` refreshes in
 * place, and `videoListParse`, which walks the streams of the first media source
 * and builds the quality ladder.
 */
module Jellyfin {
  import opened Wrappers
  import opened KotlinText
  import opened Media
  import opened JellyfinLadder

  /** What the stored preferences hold at the moment they are read. */
  datatype Settings = Settings(
    hostUrl: string,
    userName: string,
    password: string,
    mediaLibId: string,
    apiKey: Option<string>,
    userId: Option<string>)

  /**
   * The authenticator: server address, user name and password to the new api
   * key and user id, either of which is null when the login is refused.
   */
  type Authenticator = (string, string, string) -> (Option<string>, Option<string>)

  /** Credentials `login` refuses to send: one of them is empty, unless the user is "demo". */
  predicate MissingCredentials(username: string, password: string) {
    (username == [] || password == []) && username != "demo"
  }

  class JellyfinSource {
    var baseUrl: string
    var username: string
    var password: string
    var parentId: string
    var apiKey: Option<string>
    var userId: Option<string>

    /** Both halves of a session are cached. */
    predicate LoggedIn()
      reads this
    {
      apiKey.Some? && userId.Some?
    }

    /**
     * The fields start from the stored preferences and `login(false)` runs
     * once: stored keys are kept, and without them the authenticator is asked.
     */
    constructor(stored: Settings, authenticate: Authenticator)
      ensures baseUrl == stored.hostUrl && username == stored.userName && password == stored.password
      ensures parentId == stored.mediaLibId
      ensures stored.apiKey.Some? && stored.userId.Some? ==> apiKey == stored.apiKey && userId == stored.userId
      ensures (&& !(stored.apiKey.Some? && stored.userId.Some?) && !MissingCredentials(stored.userName, stored.password)
               && authenticate(stored.hostUrl, stored.userName, stored.password).0.Some?
               && authenticate(stored.hostUrl, stored.userName, stored.password).1.Some?) ==>
          && apiKey == authenticate(stored.hostUrl, stored.userName, stored.password).0
          && userId == authenticate(stored.hostUrl, stored.userName, stored.password).1
      ensures (|| MissingCredentials(stored.userName, stored.password)
               || authenticate(stored.hostUrl, stored.userName, stored.password).0.None?
               || authenticate(stored.hostUrl, stored.userName, stored.password).1.None?) ==>
          apiKey == stored.apiKey && userId == stored.userId
    {
      baseUrl := stored.hostUrl;
      username := stored.userName;
      password := stored.password;
      parentId := stored.mediaLibId;
      apiKey := stored.apiKey;
      userId := stored.userId;
      new;
      var _ := Login(false, stored, authenticate);
    }

    /**
     * `login(new)`: with a cached session and `new` false nothing happens and the
     * answer is true. Otherwise the address and credentials are re-read from
     * `stored`; missing credentials give null, a refused login gives false and
     * leaves the cached keys alone, and an accepted one replaces both keys.
     */
    method Login(isNew: bool, stored: Settings, authenticate: Authenticator) returns (r: Option<bool>)
      modifies this
      ensures parentId == old(parentId)
      ensures old(LoggedIn()) && !isNew ==> r == Some(true) && unchanged(this)
      ensures !(old(LoggedIn()) && !isNew) ==>
        && baseUrl == stored.hostUrl && username == stored.userName && password == stored.password
        && var (key, uid) := authenticate(stored.hostUrl, stored.userName, stored.password);
          && (MissingCredentials(stored.userName, stored.password) ==>
                r == None && apiKey == old(apiKey) && userId == old(userId))
          && (!MissingCredentials(stored.userName, stored.password) && (key.None? || uid.None?) ==>
                r == Some(false) && apiKey == old(apiKey) && userId == old(userId))
          && (!MissingCredentials(stored.userName, stored.password) && key.Some? && uid.Some? ==>
                r == Some(true) && apiKey == key && userId == uid)
      ensures r == Some(true) ==> LoggedIn()
      ensures old(LoggedIn()) ==> LoggedIn()
    {
      if apiKey.None? || userId.None? || isNew {
        baseUrl := stored.hostUrl;
        username := stored.userName;
        password := stored.password;
        if username == [] || password == [] {
          if username != "demo" {
            return None;
          }
        }
        var (newKey, newUid) := authenticate(baseUrl, username, password);
        if newKey.Some? && newUid.Some? {
          apiKey := newKey;
          userId := newUid;
        } else {
          return Some(false);
        }
      }
      return Some(true);
    }

    /** Choosing a media library in the settings: only `parentId` changes. */
    method SelectLibrary(entry: string)
      modifies this
      ensures parentId == entry
      ensures baseUrl == old(baseUrl) && username == old(username) && password == old(password)
      ensures apiKey == old(apiKey) && userId == old(userId)
    {
      parentId := entry;
    }

    /**
     * `videoListParse` once the item id and the playback-info reply are in hand:
     * the walk over the streams of the first media source, then the quality
     * ladder.
     */
    method VideoListParse(itemId: string, playSessionId: string, mediaSources: seq<seq<MediaStream>>,
                          prefSub: string, prefAudio: string, qualities: seq<Quality>)
      returns (r: Result<seq<Video>, LadderError>)
      ensures r == VideoList(Playback(baseUrl, apiKey, itemId, playSessionId), mediaSources, prefAudio, prefSub, qualities)
    {
      var pb := Playback(baseUrl, apiKey, itemId, playSessionId);
      if |mediaSources| == 0 {
        return Err(NoMediaSource);
      }
      var walked := WalkStreams(pb, mediaSources[0], prefAudio, prefSub);
      match walked
      case Err(e) =>
        return Err(e);
      case Ok(sel) =>
        var videos := BuildLadder(pb, sel, qualities);
        return Ok(videos);
    }
  }

  /**
   * The `forEach` over the media streams: Video streams set the resolution,
   * preferred-language Audio streams the audio index, and deliverable subtitle
   * streams go to the front (preferred language) or the back (any other) of
   * the two subtitle lists; the first stream on which a `!!` finds null ends
   * the walk with an error.
   */
  method WalkStreams(pb: Playback, streams: seq<MediaStream>, prefAudio: string, prefSub: string)
    returns (r: Result<Selection, LadderError>)
    ensures FirstMalformed(streams, prefSub) < |streams| ==>
      r == Err(NullField(streams[FirstMalformed(streams, prefSub)].index))
    ensures FirstMalformed(streams, prefSub) == |streams| ==>
      WellFormed(streams, prefSub) && r == Ok(Select(pb, streams, prefAudio, prefSub))
  {
    var sel := Selection(DefaultWidth, DefaultHeight, DefaultAudioIndex, None, [], []);
    SelectNothing(pb, prefAudio, prefSub);
    assert streams[..0] == [];
    var i := 0;
    while i < |streams|
      invariant 0 <= i <= |streams|
      invariant WellFormed(streams[..i], prefSub)
      invariant Select(pb, streams[..i], prefAudio, prefSub) == sel
    {
      var media := streams[i];
      if Malformed(media, prefSub) {
        FirstMalformedAt(streams, i, prefSub);
        return Err(NullField(media.index));
      }
      WellFormedPrefix(streams, i, prefSub);
      StreamsPrefix(streams, i);
      sel := WalkStep(pb, streams[..i], media, prefAudio, prefSub, sel);
      i := i + 1;
    }
    assert streams[..i] == streams;
    FirstMalformedNone(streams, prefSub);
    return Ok(sel);
  }

  /**
   * The body of the `forEach` on a stream without a missing field: a Video
   * stream sets the resolution, a preferred-language Audio stream the audio
   * index, and a deliverable subtitle goes to the front (preferred language)
   * or the back (any other) of the subtitle lists, or, preferred and untitled,
   * sets the subtitle index.
   */
  method WalkStep(pb: Playback, ghost walked: seq<MediaStream>, media: MediaStream, prefAudio: string, prefSub: string, sel: Selection)
    returns (next: Selection)
    requires WellFormed(walked + [media], prefSub)
    requires WellFormed(walked, prefSub) && sel == Select(pb, walked, prefAudio, prefSub)
    ensures next == Select(pb, walked + [media], prefAudio, prefSub)
  {
    SelectSnoc(pb, walked, media, prefAudio, prefSub);
    SubtitlesStep(pb, walked, media, prefSub, false);
    SubtitlesStep(pb, walked, media, prefSub, true);
    next := sel;
    if media.kind == "Video" {
      next := next.(width := media.width.value, height := media.height.value);
    } else if media.kind == "Audio" {
      if media.lang.Some? && media.lang.value == prefAudio {
        next := next.(audioIndex := media.index);
      }
    } else if media.kind == "Subtitle" {
      if media.supportsExternalStream {
        if media.lang.Some? && media.lang.value == prefSub {
          if media.displayTitle.None? {
            // the `!!` throws inside the `try`, and the catch records the index
            next := next.(subIndex := Some(media.index));
          } else {
            var track := SubtitleTrack(pb, media);
            if media.isExternal {
              next := next.(externalSubtitleList := [track] + next.externalSubtitleList);
            }
            next := next.(subtitleList := [track] + next.subtitleList);
          }
        } else {
          var track := SubtitleTrack(pb, media);
          if media.isExternal {
            next := next.(externalSubtitleList := next.externalSubtitleList + [track]);
          }
          next := next.(subtitleList := next.subtitleList + [track]);
        }
      }
    }
  }

  /**
   * The `forEach` over the quality catalogue: a transcode entry per profile
   * until one outgrows the source, then "Source" and the list reversed.
   */
  method BuildLadder(pb: Playback, sel: Selection, qualities: seq<Quality>) returns (videos: seq<Video>)
    ensures videos == Ladder(pb, sel, qualities)
  {
    var videoList: seq<Video> := [];
    var q := 0;
    while q < |qualities|
      invariant 0 <= q <= |qualities|
      invariant q <= FirstLarger(qualities, sel.width, sel.height)
      invariant videoList == Transcodes(pb, sel, qualities[..q])
    {
      var quality := qualities[q];
      if sel.width < quality.width && sel.height < quality.height {
        assert FirstLarger(qualities, sel.width, sel.height) == q;
        var source := SourceVideo(pb, sel.externalSubtitleList);
        ReversedSnoc(videoList, source);
        return Reversed(videoList + [source]);
      }
      TranscodesSnoc(pb, sel, qualities, q);
      videoList := videoList + [TranscodeVideo(pb, sel, quality)];
      q := q + 1;
    }
    assert FirstLarger(qualities, sel.width, sel.height) == q;
    var source := SourceVideo(pb, sel.externalSubtitleList);
    ReversedSnoc(videoList, source);
    return Reversed(videoList + [source]);
  }
}
