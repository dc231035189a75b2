/** The values both sources hand back to the app: playable videos and their subtitle tracks. */
module Media {

  /** A subtitle track: where to fetch it and the label shown for it. */
  datatype Track = Track(url: string, lang: string)

  /**
   * One playable stream. `quality` is the label the user sees (and the one the
   * ranking looks at); request headers are not modelled.
   */
  datatype Video = Video(url: string, quality: string, videoUrl: string, subtitleTracks: seq<Track>)
}
