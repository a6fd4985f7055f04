/** The calls the plugin makes into the closed-source measurement SDK
    (`MMSmartStreaming`). The SDK itself is not modelled: each call is recorded
    as one `Report` value, in the order the plugin makes it. */
module Telemetry {
  import opened Wrappers

  /** The playback states the plugin reports (`MMPlayerState`). */
  datatype MMPlayerState = PLAYING | PAUSED | STOPPED

  /** The ad lifecycle markers the plugin reports (`MMAdState`). */
  datatype MMAdState =
    | AD_REQUEST | AD_IMPRESSION | AD_STARTED
    | AD_FIRST_QUARTILE | AD_MIDPOINT | AD_THIRD_QUARTILE
    | AD_PAUSED | AD_RESUMED | AD_COMPLETED | AD_SKIPPED
    | AD_CLICKED | AD_ERROR

  /** The quality/bitrate-reporting mode requested at session start. */
  datatype QbrMode = QBRModeDisabled

  /** The content metadata snapshot handed to the SDK at session start (`MMContentMetadata`). */
  datatype ContentMetadata = ContentMetadata(
    assetId: string, assetName: string, videoId: string, contentType: string,
    genre: string, season: string, drmProtection: string,
    seriesTitle: string, episodeNumber: string)

  /** The ad descriptor built for each loaded ad (`MMAdInfo`). Fields the plugin
      never assigns stay `None`. */
  datatype AdDescriptor = AdDescriptor(
    adClient: Option<string>,
    adId: Option<string>,
    adTitle: Option<string>,
    adCreativeId: Option<string>,
    adDurationMs: int,
    adCreativeType: Option<string>,
    adResolution: string,
    adServer: Option<string>,
    adUrl: Option<string>,
    adBitrate: int,
    adPosition: Option<string>,
    adPodIndex: int,
    adPodLength: int,
    adPositionInPod: int,
    isBumper: bool)

  /** One call into the SDK. */
  datatype Report =
    | RegisterForPlayer(playerName: string, custId: string, component: string,
                        subsId: Option<string>, domainName: Option<string>,
                        subscriberType: Option<string>, subscriberTag: Option<string>,
                        hashSubId: bool)
    | PlayerInfo(brand: string, model: string, version: string)
    | DisableManifestsFetch(disabled: bool)
    | SdkVersion(version: string)
    | DeviceCapabilities(capabilities: string)
    | VideoQuality(quality: string)
    | DeviceId(id: string)
    | DeviceMarketingName(name: string)
    | AppData(appName: string, appVersion: string)
    | CustomMetadata(key: string, value: string)
    | InitializeSession(mode: QbrMode, registrationUri: string, manifest: Option<string>,
                        metaUrl: string, metadata: ContentMetadata)
    | UserInitiatedPlayback
    | ManifestLoaded
    | State(state: MMPlayerState)
    | PlaybackPosition(positionMs: int)
    | PlaybackError(message: string, positionMs: int)
    | SeekStarted
    | SeekCompleted(positionMs: int)
    | PresentationInfo(durationMs: int, isLive: bool)
    | MediaTrackInfo(isSubtitleActive: bool, subtitleTrack: string,
                     audioTrack: string, isVdsActive: bool)
    | BufferingStarted
    | BufferingCompleted
    | AdInfo(descriptor: AdDescriptor)
    | AdMarker(adState: MMAdState)
    | AdError(adMessage: Option<string>, adPositionMs: int)
    | AdPlaybackTime(adTimeMs: int)

  /** The endpoint every session registers with. */
  const RegistrationUri: string := "https://register.mediamelon.com/mm-apis/register/"
}
