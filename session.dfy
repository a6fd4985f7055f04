/** The per-attachment session state of the plugin and, as functions, what each
    player event, each ad event and each new media attachment does to it and
    which SDK calls it makes. The plugin class is proved to follow these. */
module Session {
  import opened Wrappers
  import opened Telemetry
  import opened PluginConfig
  import opened Translation
  import Events

  /** The plugin's own view of playback (`CurrentPlayerState`). */
  datatype CurrentPlayerState = Idle | Playing | Paused | Stopped | Error

  /** Where the plugin is in a buffering phase (`BufferingState`). */
  datatype BufferingState = BufferStart | BufferComplete | NoBuffering

  /** The session fields of the plugin. */
  datatype Session = Session(
    presentationInfoSet: bool,
    contentUrl: Option<string>,
    currentState: CurrentPlayerState,
    currentAudioTrack: string,
    currentTextTrack: string,
    prevBufferState: BufferingState,
    isAdPlaying: bool,
    presentationDurationMs: int)

  /** The session of a freshly constructed plugin. */
  const Initial: Session := Session(false, None, Idle, "", "", NoBuffering, false, 0)

  /** The new session and the SDK calls made, in order, by one handler. */
  datatype Outcome = Outcome(next: Session, reports: seq<Report>)

  /** The playback position the plugin reports: the player's current time, or 0
      when the player is gone. */
  function Position(player: Option<Events.PlayerView>): int {
    if player.Some? then player.value.currentTimeMs else 0
  }

  /** `reset`: every session field back to its initial value. The presentation
      duration is not a session field the reset touches. */
  function ResetSession(s: Session): (r: Session)
    ensures r == Initial.(presentationDurationMs := s.presentationDurationMs)
  {
    s.(presentationInfoSet := false, contentUrl := None, currentState := Idle,
       currentAudioTrack := "", currentTextTrack := "", prevBufferState := NoBuffering,
       isAdPlaying := false)
  }

  /** `reportStoppedState`: report the position (when the player is there) and
      the stopped state, unless playback is idle or already stopped. */
  function StoppedOutcome(s: Session, player: Option<Events.PlayerView>): Outcome {
    if s.currentState != Idle && s.currentState != Stopped then
      var position := if player.Some? then [PlaybackPosition(player.value.currentTimeMs)] else [];
      Outcome(s.(currentState := Stopped), position + [State(STOPPED)])
    else
      Outcome(s, [])
  }

  /** `setPresentationInformationForContent`: report the presentation info the
      first time only. */
  function PresentationOutcome(s: Session, isLive: bool): Outcome {
    if !s.presentationInfoSet then
      Outcome(s.(presentationInfoSet := true),
              [PresentationInfo(ReportedDuration(s.presentationDurationMs), isLive)])
    else
      Outcome(s, [])
  }

  /** The title of the last track in `tracks` whose id is the selected one, or
      `current` when none is. */
  function SelectedTitle(tracks: seq<Events.Track>, selected: Option<string>, current: string): string
    decreases |tracks|
  {
    if tracks == [] then current
    else if Some(tracks[|tracks| - 1].id) == selected then tracks[|tracks| - 1].title
    else SelectedTitle(tracks[..|tracks| - 1], selected, current)
  }

  /** The player's selected audio track id; none when the player is gone. */
  function AudioSelection(player: Option<Events.PlayerView>): Option<string> {
    if player.Some? then player.value.currentAudioTrack else None
  }

  /** The player's selected text track id; none when the player is gone. */
  function TextSelection(player: Option<Events.PlayerView>): Option<string> {
    if player.Some? then player.value.currentTextTrack else None
  }

  /** The media-selection report for the session's current track labels. */
  function MediaSelection(s: Session): Report {
    MediaSelectionReport(s.currentAudioTrack, s.currentTextTrack)
  }

  /** The handler for player events. */
  function PlayerStep(cfg: Config, s: Session, e: Events.PlayerEvent, player: Option<Events.PlayerView>): Outcome {
    match e
    case LoadedMetadata => Outcome(s, [ManifestLoaded])
    case Ended => StoppedOutcome(s, player)
    case Play => Outcome(s.(currentState := Playing), [State(PLAYING)])
    case Playing => Outcome(s.(currentState := Playing), [State(PLAYING)])
    case Error(code, description) =>
      Outcome(s, [PlaybackError(ErrorMessage(code, description), Position(player))])
    case Pause => Outcome(s.(currentState := Paused), [State(PAUSED)])
    case Seeking => Outcome(s, [SeekStarted])
    case Seeked => Outcome(s, [SeekCompleted(Position(player))])
    case DurationChanged =>
      if player.None? then Outcome(s, [])
      else PresentationOutcome(s.(presentationDurationMs := player.value.durationMs), player.value.isLive)
    case TracksAvailable(audioTracks, textTracks) =>
      var s' := s.(currentAudioTrack := SelectedTitle(audioTracks, AudioSelection(player), s.currentAudioTrack),
                   currentTextTrack := SelectedTitle(textTracks, TextSelection(player), s.currentTextTrack));
      Outcome(s', [MediaSelection(s')])
    case Replay =>
      if player.None? then Outcome(s, [])
      else
        var presentation := PresentationOutcome(s, player.value.isLive);
        Outcome(presentation.next,
                SessionStartReports(cfg, s.contentUrl) + [UserInitiatedPlayback] + presentation.reports)
    case PlayheadUpdate => Outcome(s, [PlaybackPosition(Position(player))])
    case AudioTrackChanged(title) =>
      if title.Some? then
        var s' := s.(currentAudioTrack := title.value);
        Outcome(s', [MediaSelection(s')])
      else Outcome(s, [])
    case TextTrackChanged(title) =>
      if title.Some? then
        var s' := s.(currentTextTrack := title.value);
        Outcome(s', [MediaSelection(s')])
      else Outcome(s, [])
    case StateChanged(newState) =>
      if newState == Events.Buffering && s.prevBufferState != BufferStart then
        Outcome(s.(prevBufferState := BufferStart), [BufferingStarted])
      else if newState == Events.Ready && s.prevBufferState == BufferStart then
        Outcome(s.(prevBufferState := BufferComplete), [BufferingCompleted])
      else Outcome(s, [])
    case PlaybackRate => Outcome(s, [])
    case SourceSelected => Outcome(s, [])
    case Stopped => Outcome(s, [])
    case VideoTrackChanged => Outcome(s, [])
  }

  /** The ad media time the plugin reports: the event's, or 0 when it has none. */
  function AdPosition(adMediaTimeMs: Option<int>): int {
    adMediaTimeMs.GetOr(0)
  }

  const AdTimeoutMessage: string := "Ad Request Timed out"

  /** The handler for ad events. */
  function AdStep(s: Session, e: Events.AdEvent): Outcome {
    match e
    case AdsRequested => Outcome(s, [AdMarker(AD_REQUEST)])
    case AdLoaded(info, adTagUrl) =>
      Outcome(s, [AdInfo(AdDescriptorOf(info, adTagUrl)), AdMarker(AD_IMPRESSION)])
    case AdStarted => Outcome(s.(isAdPlaying := true), [AdMarker(AD_STARTED)])
    case AdFirstQuartile => Outcome(s, [AdMarker(AD_FIRST_QUARTILE)])
    case AdMidpoint => Outcome(s, [AdMarker(AD_MIDPOINT)])
    case AdThirdQuartile => Outcome(s, [AdMarker(AD_THIRD_QUARTILE)])
    case AdPaused => Outcome(s, [AdMarker(AD_PAUSED)])
    case AdResumed => Outcome(s, [AdMarker(AD_RESUMED)])
    case AdComplete => Outcome(s.(isAdPlaying := false), [AdMarker(AD_COMPLETED)])
    case AdSkipped => Outcome(s.(isAdPlaying := false), [AdMarker(AD_SKIPPED)])
    case AllAdsCompleted => Outcome(s.(isAdPlaying := false), [])
    case AdClicked => Outcome(s, [AdMarker(AD_CLICKED)])
    case AdDidRequestContentPause => Outcome(s, [State(PAUSED)])
    case AdDidRequestContentResume => Outcome(s, [State(PLAYING)])
    case RequestTimedOut(time) =>
      Outcome(s.(isAdPlaying := false),
              [AdMarker(AD_ERROR), AdError(Some(AdTimeoutMessage), AdPosition(time))])
    case AdPlaybackError(description, time) =>
      Outcome(s.(isAdPlaying := false), [AdMarker(AD_ERROR), AdError(description, AdPosition(time))])
    case AdDidProgressToTime(time) => Outcome(s, [AdPlaybackTime(AdPosition(time))])
  }

  /** `onUpdateMedia`: reset, remember the new content URL, start a session for
      it and report user-initiated playback. */
  function UpdateMedia(cfg: Config, s: Session, contentUrl: Option<string>): Outcome {
    Outcome(ResetSession(s).(contentUrl := contentUrl),
            SessionStartReports(cfg, contentUrl) + [UserInitiatedPlayback])
  }
}
