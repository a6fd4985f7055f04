/** The pure parts of the plugin's translation from player facts to SDK calls:
    the media-selection flags, the playback error message, the presentation
    duration, the ad descriptor, the device-capability string, the SDK version
    string, the content metadata snapshot, and the gating of optional
    configuration reports on non-empty values. */
module Translation {
  import opened Wrappers
  import opened Text
  import opened Telemetry
  import opened PluginConfig
  import Events

  // ---------------------------------------------------------------------------
  // Media selection (reportMediaSelectionChange)
  // ---------------------------------------------------------------------------

  const Commentary: string := "commentary"

  /** An audio track whose label mentions "commentary", in any letter case,
      is a described-video (VDS) track. */
  predicate IsVdsActive(audioLabel: string) {
    ContainsSubstring(Lower(audioLabel), Commentary)
  }

  /** A text track is an active subtitle unless its label is "Off", "" or " ". */
  predicate IsSubtitleActive(textLabel: string) {
    textLabel != "Off" && textLabel != "" && textLabel != " "
  }

  /** The media-track report for the current audio and text labels. */
  function MediaSelectionReport(audioLabel: string, textLabel: string): (r: Report)
    ensures r.MediaTrackInfo?
    ensures r.audioTrack == audioLabel && r.subtitleTrack == textLabel
    ensures r.isVdsActive <==> exists i :: OccursAt(Lower(audioLabel), Commentary, i)
    ensures r.isSubtitleActive <==> textLabel !in {"Off", "", " "}
  {
    var vds := IsVdsActive(audioLabel);
    assert vds == ContainsSubstring(Lower(audioLabel), Commentary);
    ContainsSubstringIff(Lower(audioLabel), Commentary);
    MediaTrackInfo(IsSubtitleActive(textLabel), textLabel, audioLabel, vds)
  }

  /** Whether a label counts as commentary does not depend on its letter case:
      two labels that agree character by character up to case ("Commentary",
      "COMMENTARY") get the same VDS flag. */
  lemma VdsIgnoresCase(a: string, b: string)
    requires |a| == |b| && forall i :: 0 <= i < |a| ==> LowerChar(a[i]) == LowerChar(b[i])
    ensures IsVdsActive(a) == IsVdsActive(b)
  {
    assert forall i :: 0 <= i < |a| ==> Lower(a)[i] == Lower(b)[i];
    assert Lower(a) == Lower(b);
  }

  /** "Director's Commentary" is recognised as a commentary track. */
  lemma DirectorsCommentaryIsVds(audioLabel: string, textLabel: string)
    requires audioLabel == "Director's Commentary"
    ensures MediaSelectionReport(audioLabel, textLabel).isVdsActive
  {
    var l := Lower(audioLabel);
    assert l[11..21] == Commentary;
    assert OccursAt(l, Commentary, 11);
  }

  // ---------------------------------------------------------------------------
  // Playback error message
  // ---------------------------------------------------------------------------

  /** The message reported for a player error: "(" code ") " description, with
      code 0 and an empty description when the error does not carry them. */
  function ErrorMessage(code: Option<int>, description: Option<string>): (m: string)
    ensures ParseErrorMessage(m) == Some((code.GetOr(0), description.GetOr("")))
    ensures var digits := IntToDecimal(code.GetOr(0));
            |digits| + 3 <= |m| && m[1..|digits| + 1] == digits
  {
    var digits := IntToDecimal(code.GetOr(0));
    var m := "(" + digits + ") " + description.GetOr("");
    ErrorMessageParses(digits, description.GetOr(""));
    IntDecimalRoundTrip(code.GetOr(0));
    m
  }

  /** Reads the code and the description back out of an error message. */
  function ParseErrorMessage(m: string): Option<(int, string)> {
    if |m| == 0 || m[0] != '(' then None
    else match IndexOf(m[1..], ')')
      case None => None
      case Some(k) =>
        if IsDecimalInt(m[1..k + 1]) && k + 2 < |m| && m[k + 2] == ' '
        then Some((DecimalToInt(m[1..k + 1]), m[k + 3..]))
        else None
  }

  lemma ErrorMessageParses(digits: string, description: string)
    requires IsDecimalInt(digits)
    ensures ParseErrorMessage("(" + digits + ") " + description)
            == Some((DecimalToInt(digits), description))
  {
    var m := "(" + digits + ") " + description;
    DecimalHasNo(digits, ')');
    assert m[1..] == digits + [')'] + (" " + description);
    IndexOfAfter(digits, ')', " " + description);
    assert m[1..|digits| + 1] == digits;
    assert m[|digits| + 3..] == description;
  }

  // ---------------------------------------------------------------------------
  // Presentation duration (setPresentationInformationForContent)
  // ---------------------------------------------------------------------------

  /** The duration reported as presentation info: the duration when positive,
      otherwise the "unknown" marker -1. */
  function ReportedDuration(durationMs: int): (d: int)
    ensures d == -1 || d > 0
    ensures d > 0 <==> durationMs > 0
    ensures d > 0 ==> d == durationMs
  {
    if durationMs > 0 then durationMs else -1
  }

  // ---------------------------------------------------------------------------
  // Ad descriptor (the ad-loaded handler)
  // ---------------------------------------------------------------------------

  /** The SDK's name for an ad position. */
  function PositionName(p: Events.AdPositionType): (name: string)
    ensures PositionOfName(name) == Some(p)
  {
    match p
    case PreRoll => "pre"
    case MidRoll => "mid"
    case PostRoll => "post"
  }

  /** The ad position a position name stands for, if any. */
  function PositionOfName(name: string): Option<Events.AdPositionType> {
    if name == "pre" then Some(Events.PreRoll)
    else if name == "mid" then Some(Events.MidRoll)
    else if name == "post" then Some(Events.PostRoll)
    else None
  }

  /** The resolution string "{width}x{height}". */
  function Resolution(width: int, height: int): (r: string)
    ensures Split(r, 'x') == [IntToDecimal(width), IntToDecimal(height)]
  {
    var w, h := IntToDecimal(width), IntToDecimal(height);
    DecimalHasNo(w, 'x');
    DecimalHasNo(h, 'x');
    SplitJoin([w, h], 'x');
    assert Join([w, h], 'x') == w + "x" + h;
    w + "x" + h
  }

  /** The width and height a resolution string was built from are recoverable. */
  lemma ResolutionRoundTrip(width: int, height: int)
    ensures var parts := Split(Resolution(width, height), 'x');
            |parts| == 2 && IsDecimalInt(parts[0]) && IsDecimalInt(parts[1])
            && DecimalToInt(parts[0]) == width && DecimalToInt(parts[1]) == height
  {
    IntDecimalRoundTrip(width);
    IntDecimalRoundTrip(height);
  }

  /** The descriptor reported for a loaded ad. When the event carries no ad
      metadata every optional field stays unset, numbers are 0, the pod fields
      are -1 and the ad is not a bumper; the ad tag URL is always passed on. */
  function AdDescriptorOf(info: Option<Events.AdMetadata>, adTagUrl: Option<string>): (d: AdDescriptor)
    ensures d.adUrl == adTagUrl
    ensures info.None? ==>
      && d.adClient == d.adId == d.adTitle == d.adCreativeId == d.adCreativeType == d.adServer == None
      && d.adPosition == None
      && d.adDurationMs == 0 && d.adBitrate == 0
      && Split(d.adResolution, 'x') == ["0", "0"]
      && d.adPodIndex == -1 && d.adPodLength == -1 && d.adPositionInPod == -1
      && !d.isBumper
    ensures info.Some? ==>
      && d.adClient == Some(info.value.advertiserName)
      && d.adId == Some(info.value.adId)
      && d.adTitle == Some(info.value.title)
      && d.adCreativeId == Some(info.value.creativeId)
      && d.adDurationMs == info.value.durationMs
      && d.adCreativeType == Some(info.value.contentType)
      && Split(d.adResolution, 'x') == [IntToDecimal(info.value.width), IntToDecimal(info.value.height)]
      && d.adServer == Some(info.value.adSystem)
      && d.adBitrate == info.value.mediaBitrate
      && d.adPosition.Some? && PositionOfName(d.adPosition.value) == Some(info.value.positionType)
      && d.adPodIndex == info.value.podIndex
      && d.adPodLength == info.value.totalAds
      && d.adPositionInPod == info.value.adIndexInPod
      && d.isBumper == info.value.isBumper
  {
    match info
    case None =>
      assert IntToDecimal(0) == "0";
      AdDescriptor(None, None, None, None, 0, None, Resolution(0, 0), None, adTagUrl, 0,
                   None, -1, -1, -1, false)
    case Some(m) =>
      AdDescriptor(Some(m.advertiserName), Some(m.adId), Some(m.title), Some(m.creativeId),
                   m.durationMs, Some(m.contentType), Resolution(m.width, m.height),
                   Some(m.adSystem), adTagUrl, m.mediaBitrate,
                   Some(PositionName(m.positionType)),
                   m.podIndex, m.totalAds, m.adIndexInPod, m.isBumper)
  }

  /** A pre-roll ad at pod index 0 of a three-ad pod. */
  lemma PreRollDescriptor(m: Events.AdMetadata, url: Option<string>)
    requires m.positionType == Events.PreRoll && m.podIndex == 0 && m.totalAds == 3
    ensures var d := AdDescriptorOf(Some(m), url);
            d.adPosition == Some("pre") && d.adPodIndex == 0 && d.adPodLength == 3
  {
  }

  // ---------------------------------------------------------------------------
  // Device capabilities (the HDR probe in the initialiser)
  // ---------------------------------------------------------------------------

  /** The HDR modes the platform reports as available. */
  datatype HdrModes = HdrModes(hlg: bool, hdr10: bool, dolbyVision: bool)

  /** The names of the available modes, in the order the plugin tests them. */
  function HdrNames(modes: HdrModes): (names: seq<string>)
    ensures "HLG" in names <==> modes.hlg
    ensures "HDR10" in names <==> modes.hdr10
    ensures "DolbyVision" in names <==> modes.dolbyVision
    ensures forall i :: 0 <= i < |names| ==> ',' !in names[i]
  {
    (if modes.hlg then ["HLG"] else [])
    + (if modes.hdr10 then ["HDR10"] else [])
    + (if modes.dolbyVision then ["DolbyVision"] else [])
  }

  /** The capability string reported to the SDK: the available mode names,
      comma-separated. */
  function CapabilityString(modes: HdrModes): string {
    Join(HdrNames(modes), ',')
  }

  /** The capability string is empty exactly when no mode is available, and
      otherwise splits back into the available mode names. */
  lemma CapabilityStringDecodes(modes: HdrModes)
    ensures CapabilityString(modes) == "" <==> !(modes.hlg || modes.hdr10 || modes.dolbyVision)
    ensures HdrNames(modes) != [] ==> Split(CapabilityString(modes), ',') == HdrNames(modes)
  {
    var names := HdrNames(modes);
    if names != [] {
      SplitJoin(names, ',');
      assert names[0] != "";
      assert CapabilityString(modes)[..|names[0]|] == names[0] by {
        if |names| > 1 {
          assert CapabilityString(modes) == names[0] + [','] + Join(names[1..], ',');
        }
      }
    }
  }

  /** Each name followed by a comma: "HLG,HDR10,". */
  function CommaTerminated(names: seq<string>): string
    decreases |names|
  {
    if names == [] then "" else names[0] + "," + CommaTerminated(names[1..])
  }

  lemma {:induction false} CommaTerminatedAppend(names: seq<string>, name: string)
    ensures CommaTerminated(names + [name]) == CommaTerminated(names) + name + ","
    decreases |names|
  {
    if names != [] {
      assert (names + [name])[1..] == names[1..] + [name];
      CommaTerminatedAppend(names[1..], name);
    }
  }

  /** Dropping the last comma of a non-empty comma-terminated list leaves the joined list. */
  lemma {:induction false} CommaTerminatedIsJoinPlusComma(names: seq<string>)
    requires names != []
    ensures CommaTerminated(names) == Join(names, ',') + ","
    decreases |names|
  {
    if |names| > 1 {
      CommaTerminatedIsJoinPlusComma(names[1..]);
    }
  }

  /** Builds the capability string as the initialiser does: append "NAME," for
      each available mode, then drop the trailing comma if anything was added. */
  method AssembleDeviceCapabilities(modes: HdrModes) returns (capabilities: string)
    ensures capabilities == CapabilityString(modes)
  {
    ghost var added: seq<string> := [];
    capabilities := "";
    if modes.hlg {
      CommaTerminatedAppend(added, "HLG");
      capabilities, added := capabilities + "HLG,", added + ["HLG"];
    }
    assert capabilities == CommaTerminated(added);
    assert added == if modes.hlg then ["HLG"] else [];
    if modes.hdr10 {
      CommaTerminatedAppend(added, "HDR10");
      capabilities, added := capabilities + "HDR10,", added + ["HDR10"];
    }
    assert capabilities == CommaTerminated(added);
    assert added == (if modes.hlg then ["HLG"] else []) + (if modes.hdr10 then ["HDR10"] else []);
    if modes.dolbyVision {
      CommaTerminatedAppend(added, "DolbyVision");
      capabilities, added := capabilities + "DolbyVision,", added + ["DolbyVision"];
    }
    assert capabilities == CommaTerminated(added);
    assert added == HdrNames(modes);
    if |capabilities| > 0 {
      CommaTerminatedIsJoinPlusComma(added);
      capabilities := capabilities[..|capabilities| - 1];
    }
  }

  // ---------------------------------------------------------------------------
  // Initialiser reports
  // ---------------------------------------------------------------------------

  /** The SDK version string the plugin reports and returns from `getVersion`. */
  function PluginSdkVersion(sdkCoreVersion: string): (v: string)
    ensures |v| == |sdkCoreVersion| + 18
    ensures v[..3] == "IOS" && v[3..3 + |sdkCoreVersion|] == sdkCoreVersion
    ensures v[3 + |sdkCoreVersion|..] == "_KALTURA_v1.0.0"
  {
    "IOS" + sdkCoreVersion + "_KALTURA_v1.0.0"
  }

  /** The optional configuration reports: each is made only when its value is
      non-empty, and the app data only when both name and version are. */
  function OptionalConfigReports(cfg: Config): (rs: seq<Report>)
    ensures VideoQuality(cfg.videoQuality) in rs <==> cfg.videoQuality != ""
    ensures DeviceId(cfg.deviceId) in rs <==> cfg.deviceId != ""
    ensures DeviceMarketingName(cfg.deviceMarketingName) in rs <==> cfg.deviceMarketingName != ""
    ensures AppData(cfg.appName, cfg.appVersion) in rs <==> cfg.appName != "" && cfg.appVersion != ""
    ensures forall r :: r in rs ==> NoEmptyValue(r)
  {
    (if cfg.videoQuality != "" then [VideoQuality(cfg.videoQuality)] else [])
    + (if cfg.deviceId != "" then [DeviceId(cfg.deviceId)] else [])
    + (if cfg.deviceMarketingName != "" then [DeviceMarketingName(cfg.deviceMarketingName)] else [])
    + (if cfg.appName != "" && cfg.appVersion != "" then [AppData(cfg.appName, cfg.appVersion)] else [])
  }

  /** A report is one of the optional configuration reports and carries no empty value. */
  predicate NoEmptyValue(r: Report) {
    match r
    case VideoQuality(q) => q != ""
    case DeviceId(id) => id != ""
    case DeviceMarketingName(n) => n != ""
    case AppData(n, v) => n != "" && v != ""
    case _ => false
  }

  /** The component name the plugin registers under on iOS. */
  const Component: string := "IOSSDK"

  /** The calls the initialiser makes, in order, given the configuration, the
      SDK's own version and, when the platform can be asked, its HDR modes. */
  function InitReports(cfg: Config, sdkVersion: string, hdr: Option<HdrModes>): (rs: seq<Report>)
    ensures |rs| >= (if hdr.Some? then 5 else 4)
    ensures rs[0] == RegisterForPlayer(cfg.playerName, cfg.customerId, Component, cfg.subscriberId,
                                       cfg.domainName, cfg.subscriberType, cfg.subscriberTag,
                                       cfg.hashSubscriberId)
    ensures rs[1] == PlayerInfo(cfg.playerBrand, cfg.playerModel, cfg.playerName)
    ensures rs[2] == DisableManifestsFetch(cfg.disableManifestFetch)
    ensures rs[3] == SdkVersion(sdkVersion)
    ensures hdr.Some? ==> rs[4] == DeviceCapabilities(CapabilityString(hdr.value))
    ensures rs[(if hdr.Some? then 5 else 4)..] == OptionalConfigReports(cfg)
  {
    var fixed := [RegisterForPlayer(cfg.playerName, cfg.customerId, Component, cfg.subscriberId,
                                    cfg.domainName, cfg.subscriberType, cfg.subscriberTag,
                                    cfg.hashSubscriberId),
                  PlayerInfo(cfg.playerBrand, cfg.playerModel, cfg.playerName),
                  DisableManifestsFetch(cfg.disableManifestFetch),
                  SdkVersion(sdkVersion)];
    var caps := if hdr.Some? then [DeviceCapabilities(CapabilityString(hdr.value))] else [];
    var rs := fixed + caps + OptionalConfigReports(cfg);
    assert rs[(if hdr.Some? then 5 else 4)..] == OptionalConfigReports(cfg);
    if hdr.Some? then
      assert DeviceCapabilities(CapabilityString(hdr.value)) == rs[4];
      rs
    else
      rs
  }

  // ---------------------------------------------------------------------------
  // Session start (initializeSession)
  // ---------------------------------------------------------------------------

  /** The content metadata snapshot taken from the configuration. The season
      slot carries the configured genre, as the initialiser assigns it. */
  function ContentMetadataOf(cfg: Config): (m: ContentMetadata)
    ensures m.assetId == cfg.assetId && m.assetName == cfg.assetName && m.videoId == cfg.videoId
    ensures m.contentType == cfg.contentType && m.genre == cfg.genre && m.season == cfg.genre
    ensures m.drmProtection == cfg.drmProtection && m.seriesTitle == cfg.seriesTitle
    ensures m.episodeNumber == cfg.episodeNumber
  {
    ContentMetadata(cfg.assetId, cfg.assetName, cfg.videoId, cfg.contentType, cfg.genre,
                    cfg.genre, cfg.drmProtection, cfg.seriesTitle, cfg.episodeNumber)
  }

  /** One custom-metadata report per configured tag, in iteration order. */
  function TagReports(tags: seq<(string, string)>): (rs: seq<Report>)
    ensures |rs| == |tags|
    decreases |tags|
  {
    if tags == [] then []
    else TagReports(tags[..|tags| - 1]) + [CustomMetadata(tags[|tags| - 1].0, tags[|tags| - 1].1)]
  }

  /** The i-th custom-metadata report carries the i-th configured tag. */
  lemma {:induction false} TagReportsInOrder(tags: seq<(string, string)>)
    ensures forall i :: 0 <= i < |tags| ==> TagReports(tags)[i] == CustomMetadata(tags[i].0, tags[i].1)
    decreases |tags|
  {
    if tags != [] {
      var init := tags[..|tags| - 1];
      TagReportsInOrder(init);
      assert forall i :: 0 <= i < |init| ==> init[i] == tags[i];
    }
  }

  /** The calls that start a measurement session for the given manifest: the
      custom tags, then the session initialisation itself. */
  function SessionStartReports(cfg: Config, manifest: Option<string>): (rs: seq<Report>)
    ensures |rs| == |cfg.customTags| + 1
    ensures rs[..|cfg.customTags|] == TagReports(cfg.customTags)
    ensures rs[|cfg.customTags|] == InitializeSession(QBRModeDisabled, RegistrationUri, manifest, "",
                                                      ContentMetadataOf(cfg))
  {
    var rs := TagReports(cfg.customTags)
              + [InitializeSession(QBRModeDisabled, RegistrationUri, manifest, "", ContentMetadataOf(cfg))];
    assert rs[..|cfg.customTags|] == TagReports(cfg.customTags);
    rs
  }
}
