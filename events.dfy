/** What the host player delivers to the plugin: player events, ad events, and
    the player's query surface at the moment an event is handled. Positions and
    durations are already whole milliseconds (the float-seconds conversion of
    the source is not modelled). */
module Events {
  import opened Wrappers

  /** A track as listed by a tracks-available event. */
  datatype Track = Track(id: string, title: string)

  /** What the plugin reads from the player while handling an event. The plugin
      holds the player weakly, so a handler receives `None` once it is gone. */
  datatype PlayerView = PlayerView(
    currentTimeMs: int,
    durationMs: int,
    isLive: bool,
    currentAudioTrack: Option<string>,
    currentTextTrack: Option<string>)

  /** The player's own state, carried by a state-changed event. */
  datatype HostState = Idle | Loading | Ready | Buffering | Failed | Unknown

  datatype PlayerEvent =
    | StateChanged(newState: HostState)
    | LoadedMetadata
    | Play
    | Pause
    | Playing
    | PlaybackRate
    | Seeking
    | Seeked
    | DurationChanged
    | SourceSelected
    | Stopped
    | Ended
    | Replay
    | TracksAvailable(audioTracks: seq<Track>, textTracks: seq<Track>)
    | TextTrackChanged(selectedTitle: Option<string>)
    | AudioTrackChanged(selectedTitle: Option<string>)
    | VideoTrackChanged
    | Error(code: Option<int>, description: Option<string>)
    | PlayheadUpdate

  /** Where in the content an ad plays. */
  datatype AdPositionType = PreRoll | MidRoll | PostRoll

  /** The ad metadata a loaded-ad event carries (`PKAdInfo`). */
  datatype AdMetadata = AdMetadata(
    advertiserName: string,
    adId: string,
    title: string,
    creativeId: string,
    durationMs: int,
    contentType: string,
    width: int,
    height: int,
    adSystem: string,
    mediaBitrate: int,
    positionType: AdPositionType,
    podIndex: int,
    totalAds: int,
    adIndexInPod: int,
    isBumper: bool)

  datatype AdEvent =
    | AdsRequested
    | AdLoaded(adInfo: Option<AdMetadata>, adTagUrl: Option<string>)
    | AdStarted
    | AdFirstQuartile
    | AdMidpoint
    | AdThirdQuartile
    | AdPaused
    | AdResumed
    | AdComplete
    | AdSkipped
    | AllAdsCompleted
    | AdClicked
    | AdDidRequestContentPause
    | AdDidRequestContentResume
    | RequestTimedOut(adMediaTimeMs: Option<int>)
    | AdPlaybackError(errorDescription: Option<string>, adMediaTimeMs: Option<int>)
    | AdDidProgressToTime(adMediaTimeMs: Option<int>)
}
