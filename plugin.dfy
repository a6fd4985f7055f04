/** The plugin object: the session fields it updates in place while handling
    player and ad events, and the calls it has made into the measurement SDK so
    far (`log`). Every handler is proved to do what the functions of module
    `Session` say. */
module Plugin {
  import opened Wrappers
  import opened Telemetry
  import opened PluginConfig
  import opened Translation
  import opened Session
  import Events

  /** The one way constructing the plugin fails. */
  datatype PluginError = MissingPluginConfig(pluginName: string)

  const PluginName: string := "MediaMelonKPPlugin"

  /** One entry of a media configuration's source list. */
  datatype MediaSource = MediaSource(contentUrl: Option<string>)

  /** The content URL of the first source, if the entry lists sources at all. */
  function FirstSourceUrl(sources: Option<seq<MediaSource>>): (url: Option<string>)
    requires sources.Some? ==> |sources.value| > 0
    ensures sources.None? ==> url.None?
    ensures sources.Some? ==> url == sources.value[0].contentUrl
  {
    if sources.Some? then sources.value[0].contentUrl else None
  }

  /** The initialiser's optional reports: each configuration value is reported
      only when it is non-empty, the app data only when name and version both are. */
  method ReportOptionalConfig(cfg: Config) returns (reports: seq<Report>)
    ensures reports == OptionalConfigReports(cfg)
  {
    reports := [];
    if cfg.videoQuality != "" {
      reports := reports + [VideoQuality(cfg.videoQuality)];
    }
    if cfg.deviceId != "" {
      reports := reports + [DeviceId(cfg.deviceId)];
    }
    if cfg.deviceMarketingName != "" {
      reports := reports + [DeviceMarketingName(cfg.deviceMarketingName)];
    }
    if cfg.appName != "" && cfg.appVersion != "" {
      reports := reports + [AppData(cfg.appName, cfg.appVersion)];
    }
  }

  class MediaMelonKPPlugin {
    const config: Config
    const sdkVersion: string

    var presentationInfoSet: bool
    var contentUrl: Option<string>
    var currentState: CurrentPlayerState
    var currentAudioTrack: string
    var currentTextTrack: string
    var prevBufferState: BufferingState
    var isAdPlaying: bool
    var presentationDurationMs: int

    /** Every call made into the measurement SDK so far, oldest first. */
    var log: seq<Report>

    /** The session fields as one value. */
    function SessionState(): Session
      reads this`presentationInfoSet, this`contentUrl, this`currentState, this`currentAudioTrack,
            this`currentTextTrack, this`prevBufferState, this`isAdPlaying, this`presentationDurationMs
    {
      Session(presentationInfoSet, contentUrl, currentState, currentAudioTrack, currentTextTrack,
              prevBufferState, isAdPlaying, presentationDurationMs)
    }

    /** Registers with the SDK and reports the player, the SDK version, the
        device capabilities (when the platform can be asked for its HDR modes)
        and the non-empty optional configuration values. */
    constructor (cfg: Config, sdkCoreVersion: string, hdr: Option<HdrModes>)
      ensures config == cfg && sdkVersion == PluginSdkVersion(sdkCoreVersion)
      ensures SessionState() == Initial
      ensures log == InitReports(cfg, sdkVersion, hdr)
    {
      config := cfg;
      sdkVersion := PluginSdkVersion(sdkCoreVersion);
      presentationInfoSet, contentUrl, currentState := false, None, Idle;
      currentAudioTrack, currentTextTrack := "", "";
      prevBufferState, isAdPlaying, presentationDurationMs := NoBuffering, false, 0;
      var reports := [RegisterForPlayer(cfg.playerName, cfg.customerId, Component, cfg.subscriberId,
                                        cfg.domainName, cfg.subscriberType, cfg.subscriberTag,
                                        cfg.hashSubscriberId),
                      PlayerInfo(cfg.playerBrand, cfg.playerModel, cfg.playerName),
                      DisableManifestsFetch(cfg.disableManifestFetch),
                      SdkVersion(PluginSdkVersion(sdkCoreVersion))];
      if hdr.Some? {
        var capabilities := AssembleDeviceCapabilities(hdr.value);
        reports := reports + [DeviceCapabilities(capabilities)];
      }
      var optional := ReportOptionalConfig(cfg);
      reports := reports + optional;
      log := reports;
    }

    /** `reportStoppedState`. */
    method ReportStoppedState(player: Option<Events.PlayerView>)
      modifies this
      ensures SessionState() == StoppedOutcome(old(SessionState()), player).next
      ensures log == old(log) + StoppedOutcome(old(SessionState()), player).reports
    {
      if currentState != Idle && currentState != Stopped {
        if player.Some? {
          log := log + [PlaybackPosition(player.value.currentTimeMs)];
        }
        log := log + [State(STOPPED)];
        currentState := Stopped;
      }
    }

    /** `setPresentationInformationForContent`; the player is known to be there. */
    method SetPresentationInformationForContent(player: Events.PlayerView)
      modifies this
      ensures SessionState() == PresentationOutcome(old(SessionState()), player.isLive).next
      ensures log == old(log) + PresentationOutcome(old(SessionState()), player.isLive).reports
    {
      if !presentationInfoSet {
        var duration := if presentationDurationMs > 0 then presentationDurationMs else -1;
        log := log + [PresentationInfo(duration, player.isLive)];
        presentationInfoSet := true;
      }
    }

    /** `processDuration`. */
    method ProcessDuration(player: Option<Events.PlayerView>)
      modifies this
      ensures SessionState() == PlayerStep(config, old(SessionState()), Events.DurationChanged, player).next
      ensures log == old(log) + PlayerStep(config, old(SessionState()), Events.DurationChanged, player).reports
    {
      if player.Some? {
        presentationDurationMs := player.value.durationMs;
        SetPresentationInformationForContent(player.value);
      }
    }

    /** `initializeSession`: one custom-metadata report per configured tag, then
        the session initialisation for the current content URL. */
    method InitializeSession()
      modifies this`log
      ensures log == old(log) + SessionStartReports(config, contentUrl)
    {
      var tags := config.customTags;
      var i := 0;
      while i < |tags|
        invariant 0 <= i <= |tags|
        invariant log == old(log) + TagReports(tags[..i])
      {
        assert tags[..i + 1][..i] == tags[..i];
        assert TagReports(tags[..i + 1]) == TagReports(tags[..i]) + [CustomMetadata(tags[i].0, tags[i].1)];
        log := log + [CustomMetadata(tags[i].0, tags[i].1)];
        i := i + 1;
      }
      assert tags[..i] == tags;
      log := log + [Telemetry.InitializeSession(QBRModeDisabled, RegistrationUri, contentUrl, "", ContentMetadataOf(config))];
    }

    /** `replaySession`. */
    method ReplaySession(player: Option<Events.PlayerView>)
      modifies this
      ensures SessionState() == PlayerStep(config, old(SessionState()), Events.Replay, player).next
      ensures log == old(log) + PlayerStep(config, old(SessionState()), Events.Replay, player).reports
    {
      if player.Some? {
        InitializeSession();
        log := log + [UserInitiatedPlayback];
        SetPresentationInformationForContent(player.value);
      }
    }

    /** `reportMediaSelectionChange`. */
    method ReportMediaSelectionChange()
      modifies this`log
      ensures log == old(log) + [MediaSelection(SessionState())]
    {
      var isVdsActive := IsVdsActive(currentAudioTrack);
      var isSubtitleActive := IsSubtitleActive(currentTextTrack);
      log := log + [MediaTrackInfo(isSubtitleActive, currentTextTrack, currentAudioTrack, isVdsActive)];
    }

    /** The two track scans of the tracks-available handler: each label becomes
        the title of the last listed track whose id the player has selected. */
    method SelectAvailableTracks(audioTracks: seq<Events.Track>, textTracks: seq<Events.Track>,
                                 player: Option<Events.PlayerView>)
      modifies this
      ensures currentAudioTrack == SelectedTitle(audioTracks, AudioSelection(player), old(currentAudioTrack))
      ensures currentTextTrack == SelectedTitle(textTracks, TextSelection(player), old(currentTextTrack))
      ensures SessionState() == old(SessionState()).(currentAudioTrack := currentAudioTrack,
                                                     currentTextTrack := currentTextTrack)
      ensures log == old(log)
    {
      var audioId := AudioSelection(player);
      var i := 0;
      while i < |audioTracks|
        invariant 0 <= i <= |audioTracks|
        invariant currentAudioTrack == SelectedTitle(audioTracks[..i], audioId, old(currentAudioTrack))
        invariant SessionState() == old(SessionState()).(currentAudioTrack := currentAudioTrack)
        invariant log == old(log)
      {
        assert audioTracks[..i + 1][..i] == audioTracks[..i];
        if Some(audioTracks[i].id) == audioId {
          currentAudioTrack := audioTracks[i].title;
        }
        i := i + 1;
      }
      assert audioTracks[..i] == audioTracks;
      var textId := TextSelection(player);
      var j := 0;
      while j < |textTracks|
        invariant 0 <= j <= |textTracks|
        invariant currentTextTrack == SelectedTitle(textTracks[..j], textId, old(currentTextTrack))
        invariant SessionState() == old(SessionState()).(currentAudioTrack := currentAudioTrack,
                                                         currentTextTrack := currentTextTrack)
        invariant currentAudioTrack == SelectedTitle(audioTracks, audioId, old(currentAudioTrack))
        invariant log == old(log)
      {
        assert textTracks[..j + 1][..j] == textTracks[..j];
        if Some(textTracks[j].id) == textId {
          currentTextTrack := textTracks[j].title;
        }
        j := j + 1;
      }
      assert textTracks[..j] == textTracks;
    }

    /** The player-event handler. */
    method OnPlayerEvent(e: Events.PlayerEvent, player: Option<Events.PlayerView>)
      modifies this
      ensures SessionState() == PlayerStep(config, old(SessionState()), e, player).next
      ensures log == old(log) + PlayerStep(config, old(SessionState()), e, player).reports
    {
      match e
      case LoadedMetadata =>
        log := log + [ManifestLoaded];
      case Ended =>
        ReportStoppedState(player);
      case Play =>
        log := log + [State(PLAYING)];
        currentState := Playing;
      case Playing =>
        log := log + [State(PLAYING)];
        currentState := Playing;
      case Error(code, description) =>
        log := log + [PlaybackError(ErrorMessage(code, description), Position(player))];
      case Pause =>
        log := log + [State(PAUSED)];
        currentState := Paused;
      case Seeking =>
        log := log + [SeekStarted];
      case Seeked =>
        log := log + [SeekCompleted(Position(player))];
      case DurationChanged =>
        ProcessDuration(player);
      case PlaybackRate =>
      case TracksAvailable(audioTracks, textTracks) =>
        SelectAvailableTracks(audioTracks, textTracks, player);
        ReportMediaSelectionChange();
      case Replay =>
        ReplaySession(player);
      case PlayheadUpdate =>
        log := log + [PlaybackPosition(Position(player))];
      case VideoTrackChanged =>
      case AudioTrackChanged(title) =>
        if title.Some? {
          currentAudioTrack := title.value;
          ReportMediaSelectionChange();
        }
      case TextTrackChanged(title) =>
        if title.Some? {
          currentTextTrack := title.value;
          ReportMediaSelectionChange();
        }
      case StateChanged(newState) =>
        if newState == Events.Buffering {
          if prevBufferState != BufferStart {
            log := log + [BufferingStarted];
            prevBufferState := BufferStart;
          }
        } else if newState == Events.Ready {
          if prevBufferState == BufferStart {
            log := log + [BufferingCompleted];
            prevBufferState := BufferComplete;
          }
        }
      case SourceSelected =>
      case Stopped =>
    }

    /** The ad-event handler. */
    method OnAdEvent(e: Events.AdEvent)
      modifies this
      ensures SessionState() == AdStep(old(SessionState()), e).next
      ensures log == old(log) + AdStep(old(SessionState()), e).reports
    {
      match e
      case AdsRequested =>
        log := log + [AdMarker(AD_REQUEST)];
      case AdLoaded(info, adTagUrl) =>
        log := log + [AdInfo(AdDescriptorOf(info, adTagUrl))];
        log := log + [AdMarker(AD_IMPRESSION)];
      case AdStarted =>
        isAdPlaying := true;
        log := log + [AdMarker(AD_STARTED)];
      case AdFirstQuartile =>
        log := log + [AdMarker(AD_FIRST_QUARTILE)];
      case AdMidpoint =>
        log := log + [AdMarker(AD_MIDPOINT)];
      case AdThirdQuartile =>
        log := log + [AdMarker(AD_THIRD_QUARTILE)];
      case AdPaused =>
        log := log + [AdMarker(AD_PAUSED)];
      case AdResumed =>
        log := log + [AdMarker(AD_RESUMED)];
      case AdComplete =>
        isAdPlaying := false;
        log := log + [AdMarker(AD_COMPLETED)];
      case AdSkipped =>
        isAdPlaying := false;
        log := log + [AdMarker(AD_SKIPPED)];
      case AllAdsCompleted =>
        isAdPlaying := false;
      case AdClicked =>
        log := log + [AdMarker(AD_CLICKED)];
      case AdDidRequestContentPause =>
        log := log + [State(PAUSED)];
      case AdDidRequestContentResume =>
        log := log + [State(PLAYING)];
      case RequestTimedOut(time) =>
        isAdPlaying := false;
        log := log + [AdMarker(AD_ERROR)];
        log := log + [AdError(Some(AdTimeoutMessage), AdPosition(time))];
      case AdPlaybackError(description, time) =>
        isAdPlaying := false;
        log := log + [AdMarker(AD_ERROR)];
        log := log + [AdError(description, AdPosition(time))];
      case AdDidProgressToTime(time) =>
        log := log + [AdPlaybackTime(AdPosition(time))];
    }

    /** `reset`. */
    method Reset()
      modifies this
      ensures SessionState() == ResetSession(old(SessionState()))
      ensures log == old(log)
    {
      presentationInfoSet := false;
      contentUrl := None;
      currentState := Idle;
      currentAudioTrack := "";
      currentTextTrack := "";
      prevBufferState := NoBuffering;
      isAdPlaying := false;
    }

    /** `onUpdateMedia`: reset, take the first source's URL, start a session and
        report user-initiated playback. */
    method OnUpdateMedia(sources: Option<seq<MediaSource>>)
      requires sources.Some? ==> |sources.value| > 0
      modifies this
      ensures SessionState() == UpdateMedia(config, old(SessionState()), FirstSourceUrl(sources)).next
      ensures log == old(log) + UpdateMedia(config, old(SessionState()), FirstSourceUrl(sources)).reports
    {
      Reset();
      contentUrl := FirstSourceUrl(sources);
      InitializeSession();
      log := log + [UserInitiatedPlayback];
    }
  }

  /** The plugin initialiser: fails when no configuration of the plugin's own
      type is supplied, and otherwise constructs the plugin. */
  method Create(pluginConfig: Option<Config>, sdkCoreVersion: string, hdr: Option<HdrModes>)
    returns (r: Result<MediaMelonKPPlugin, PluginError>)
    ensures pluginConfig.None? ==> r == Failure(MissingPluginConfig(PluginName))
    ensures pluginConfig.Some? ==>
      && r.Success? && fresh(r.value)
      && r.value.config == pluginConfig.value
      && r.value.SessionState() == Initial
      && r.value.log == InitReports(pluginConfig.value, PluginSdkVersion(sdkCoreVersion), hdr)
  {
    if pluginConfig.None? {
      return Failure(MissingPluginConfig(PluginName));
    }
    var plugin := new MediaMelonKPPlugin(pluginConfig.value, sdkCoreVersion, hdr);
    return Success(plugin);
  }
}
