# MediaMelonKPPlugin: a Dafny model of the event-to-report state machine

`MediaMelonKPPlugin` is a Kaltura player plugin. It listens to the player's
events and ad events and reports them to the MediaMelon SmartSight SDK. This
project models the plugin's core:

- the initialiser;
- the session start (`initializeSession`);
- the player-event and ad-event handlers;
- `reset`, `onUpdateMedia`;
- the helpers these use: media selection, presentation info, stopped state and replay.

The model says which SDK calls are made and in what order, and how the plugin's
session fields change.

Every call into the SDK is a value of `Telemetry.Report`. The plugin object is
`Plugin.MediaMelonKPPlugin`. It has the source's session fields, plus a `log`
holding every report made so far. Each of its methods is proved against a pure
function of module `Session`:

- `PlayerStep` for player events;
- `AdStep` for ad events;
- `UpdateMedia` for new media attachments.

Properties over whole sequences of events are proved in `SessionProperties` about
`Run`, which folds `PlayerStep` over a trace. They include:

- buffering-started and buffering-completed strictly alternate;
- presentation info is reported at most once per attachment;
- play, pause and playing are reported one for one;
- the plugin never enters its error state.

The player is reached through a weak reference in the source. Here it is an
`Option<PlayerView>` parameter per event, where `None` means the player is gone.
The view carries the current time, duration and live flag, already converted to
milliseconds.

Modules:

- `Wrappers`: `Option`, `Result`.
- `Text`: ASCII lower-casing, substring search, decimal rendering and parsing,
  splitting and joining.
- `PluginConfig`: the plugin configuration.
- `Telemetry`: the SDK's report vocabulary.
- `Events`: player and ad events.
- `Translation`: the pure helpers:
  - media-selection flags;
  - the error message;
  - the presentation duration;
  - the ad descriptor;
  - the device-capability string;
  - the SDK version string;
  - the initialiser's and the session start's report lists.
- `Session`: the session record and the step functions.
- `SessionProperties`: the trace lemmas.
- `Plugin`: the class and its construction.

Behaviours of the code worth noting:

- A replay re-runs session initialisation and reports user-initiated playback.
  It then calls `setPresentationInformationForContent` without clearing
  `presentationInfoSet` first. So a replay re-reports presentation info only
  when it was never reported (`ReplayKeepsPresentationFlag`).
- `reset` does not touch the stored presentation duration.
- The content metadata's `season` is filled from the configured genre.
- The player-info version is the configured player name.

## Model

| member | source | states |
|---|---|---|
| Plugin.MediaMelonKPPlugin.constructor | Sources/MediaMelonKPPlugin/MediaMelonKPPlugin.swift:57-122 | a new plugin holds the configuration and the version "IOS"+core+"_KALTURA_v1.0.0", starts in the initial session, and has made exactly the initialiser's calls `InitReports` |
| Plugin.Create | Sources/MediaMelonKPPlugin/MediaMelonKPPlugin.swift:57-62 | without a plugin configuration construction fails with `missingPluginConfig("MediaMelonKPPlugin")`; otherwise it yields a fresh plugin in the initial session that has made the initialiser's calls |
| Plugin.ReportOptionalConfig | Sources/MediaMelonKPPlugin/MediaMelonKPPlugin.swift:101-119 | the optional configuration reports built step by step are those of `OptionalConfigReports` |
| Plugin.FirstSourceUrl | Sources/MediaMelonKPPlugin/MediaMelonKPPlugin.swift:568 | the content URL is the first source's, and absent when the entry has no source list |
| Plugin.MediaMelonKPPlugin.ReportStoppedState | Sources/MediaMelonKPPlugin/MediaMelonKPPlugin.swift:327-336 | new session and appended reports are those of `StoppedOutcome` |
| Plugin.MediaMelonKPPlugin.SetPresentationInformationForContent | Sources/MediaMelonKPPlugin/MediaMelonKPPlugin.swift:300-315 | new session and appended reports are those of `PresentationOutcome` |
| Plugin.MediaMelonKPPlugin.ProcessDuration | Sources/MediaMelonKPPlugin/MediaMelonKPPlugin.swift:291-298 | stores the player's duration and reports presentation info as the duration-changed step does; nothing when the player is gone |
| Plugin.MediaMelonKPPlugin.InitializeSession | Sources/MediaMelonKPPlugin/MediaMelonKPPlugin.swift:219-234 | the loop over custom tags appends one custom-metadata report per tag in order, then the session initialisation: exactly `SessionStartReports`; no session field changes |
| Plugin.MediaMelonKPPlugin.ReplaySession | Sources/MediaMelonKPPlugin/MediaMelonKPPlugin.swift:317-325 | new session and appended reports are those of the replay step |
| Plugin.MediaMelonKPPlugin.ReportMediaSelectionChange | Sources/MediaMelonKPPlugin/MediaMelonKPPlugin.swift:245-260 | appends exactly one media-track report for the current labels; nothing else changes |
| Plugin.MediaMelonKPPlugin.SelectAvailableTracks | Sources/MediaMelonKPPlugin/MediaMelonKPPlugin.swift:418-427 | the two scans leave each label at `SelectedTitle` of its track list (the last track whose id the player selected, else unchanged), change no other field and report nothing |
| Plugin.MediaMelonKPPlugin.OnPlayerEvent | Sources/MediaMelonKPPlugin/MediaMelonKPPlugin.swift:393-465 | new session and appended reports are those of `PlayerStep` for every player event |
| Plugin.MediaMelonKPPlugin.OnAdEvent | Sources/MediaMelonKPPlugin/MediaMelonKPPlugin.swift:471-544 | new session and appended reports are those of `AdStep` for every ad event |
| Plugin.MediaMelonKPPlugin.Reset | Sources/MediaMelonKPPlugin/MediaMelonKPPlugin.swift:553-561 | every session field is back to its initial value except the stored duration; nothing is reported |
| Plugin.MediaMelonKPPlugin.OnUpdateMedia | Sources/MediaMelonKPPlugin/MediaMelonKPPlugin.swift:563-571 | new session and appended reports are those of `UpdateMedia` for the first source's URL |
| Session.ResetSession | Sources/MediaMelonKPPlugin/MediaMelonKPPlugin.swift:553-561 | the reset session is the initial one, apart from the duration it keeps |
| Translation.MediaSelectionReport | Sources/MediaMelonKPPlugin/MediaMelonKPPlugin.swift:245-260 | a media-track report carrying both labels; VDS active iff "commentary" occurs in the lower-cased audio label; subtitles active iff the text label is none of "Off", "" and " " |
| Translation.VdsIgnoresCase | Sources/MediaMelonKPPlugin/MediaMelonKPPlugin.swift:250 | two audio labels equal up to letter case get the same VDS flag |
| Translation.DirectorsCommentaryIsVds | Sources/MediaMelonKPPlugin/MediaMelonKPPlugin.swift:250-252 | the audio label "Director's Commentary" turns VDS on |
| Translation.ErrorMessage | Sources/MediaMelonKPPlugin/MediaMelonKPPlugin.swift:405 | the player error message parses back into its code (0 when absent) and its description ("" when absent), and the code appears after "(" in its canonical decimal form |
| Translation.ErrorMessageParses | Sources/MediaMelonKPPlugin/MediaMelonKPPlugin.swift:405 | "(" digits ") " description is read back as the code and the description |
| Translation.ReportedDuration | Sources/MediaMelonKPPlugin/MediaMelonKPPlugin.swift:301-310 | the reported duration is the stored one when positive, else -1 |
| Translation.PositionName | Sources/MediaMelonKPPlugin/MediaMelonKPPlugin.swift:486-495 | the ad position names "pre", "mid" and "post" tell the three position types apart |
| Translation.Resolution | Sources/MediaMelonKPPlugin/MediaMelonKPPlugin.swift:482 | the ad resolution splits at 'x' into the decimal width and height |
| Translation.ResolutionRoundTrip | Sources/MediaMelonKPPlugin/MediaMelonKPPlugin.swift:482 | width and height are recovered from the ad resolution string |
| Translation.AdDescriptorOf | Sources/MediaMelonKPPlugin/MediaMelonKPPlugin.swift:475-499 | without ad info every optional field is absent, duration and bitrate are 0, the resolution reads back as 0 by 0, and the pod numbers are -1 and not a bumper; with ad info each field is the info's, and the ad URL is always the tag URL |
| Translation.PreRollDescriptor | Sources/MediaMelonKPPlugin/MediaMelonKPPlugin.swift:486-488 | a pre-roll ad is reported with position "pre" |
| Translation.HdrNames | Sources/MediaMelonKPPlugin/MediaMelonKPPlugin.swift:80-90 | "HLG", "HDR10" and "DolbyVision" are listed exactly when the device supports that mode, and no name contains a comma |
| Translation.CapabilityStringDecodes | Sources/MediaMelonKPPlugin/MediaMelonKPPlugin.swift:78-95 | the capability string is empty iff no HDR mode is supported, and otherwise splits at commas into exactly the supported modes' names |
| Translation.CommaTerminatedAppend | Sources/MediaMelonKPPlugin/MediaMelonKPPlugin.swift:80-90 | each `+= name + ","` step extends the comma-terminated list by that name |
| Translation.CommaTerminatedIsJoinPlusComma | Sources/MediaMelonKPPlugin/MediaMelonKPPlugin.swift:92-95 | removing the last comma of a non-empty comma-terminated list leaves the comma-joined names |
| Translation.AssembleDeviceCapabilities | Sources/MediaMelonKPPlugin/MediaMelonKPPlugin.swift:78-95 | the string built by appending and dropping the last character is the comma-joined list of supported HDR modes |
| Translation.PluginSdkVersion | Sources/MediaMelonKPPlugin/MediaMelonKPPlugin.swift:36 | the plugin version is "IOS", the SDK core version, then "_KALTURA_v1.0.0" |
| Translation.OptionalConfigReports | Sources/MediaMelonKPPlugin/MediaMelonKPPlugin.swift:101-119 | video quality, device id and marketing name are reported iff non-empty, app data iff name and version both are; no report carries an empty value |
| Translation.InitReports | Sources/MediaMelonKPPlugin/MediaMelonKPPlugin.swift:65-119 | the initialiser registers with component "IOSSDK", then reports player info, manifest-fetch flag and SDK version; device capabilities when HDR modes can be queried; then the optional configuration reports |
| Translation.ContentMetadataOf | Sources/MediaMelonKPPlugin/MediaMelonKPPlugin.swift:219-228 | every content-metadata field is the configured one, the season being the genre |
| Translation.TagReports | Sources/MediaMelonKPPlugin/MediaMelonKPPlugin.swift:230-232 | one custom-metadata report per configured tag |
| Translation.TagReportsInOrder | Sources/MediaMelonKPPlugin/MediaMelonKPPlugin.swift:230-232 | the i-th custom-metadata report carries the i-th tag's key and value |
| Translation.SessionStartReports | Sources/MediaMelonKPPlugin/MediaMelonKPPlugin.swift:219-234 | session start is the tag reports followed by one initialisation with QBR disabled, the MediaMelon registration URI, the content URL as manifest, an empty meta URL and the content metadata |
| Text.Lower | Sources/MediaMelonKPPlugin/MediaMelonKPPlugin.swift:250 | lower-casing keeps the length and maps each character through `LowerChar` |
| Text.LowerIdempotent | Sources/MediaMelonKPPlugin/MediaMelonKPPlugin.swift:250 | lower-casing twice is lower-casing once |
| Text.ContainsSubstringIff | Sources/MediaMelonKPPlugin/MediaMelonKPPlugin.swift:250 | the recursive substring test holds iff the pattern occurs at some index |
| Text.NatDecimalRoundTrip | Sources/MediaMelonKPPlugin/MediaMelonKPPlugin.swift:405 | a natural's decimal rendering parses back to it |
| Text.IntDecimalRoundTrip | Sources/MediaMelonKPPlugin/MediaMelonKPPlugin.swift:405 | an integer's decimal rendering, sign included, parses back to it |
| Text.SplitJoin | Sources/MediaMelonKPPlugin/MediaMelonKPPlugin.swift:78-95 | splitting separator-free parts joined by the separator gives the parts back |
| SessionProperties.SessionStartIsNeutral | Sources/MediaMelonKPPlugin/MediaMelonKPPlugin.swift:219-238 | starting a session reports no buffering and no presentation info |
| SessionProperties.StepBuffering | Sources/MediaMelonKPPlugin/MediaMelonKPPlugin.swift:446-462 | one player event keeps buffering reports alternating and `prevBufferState` in step with them |
| SessionProperties.BufferingStep | Sources/MediaMelonKPPlugin/MediaMelonKPPlugin.swift:446-462 | in every state: buffering outside an open phase reports started and opens one, inside one reports nothing; ready inside an open phase reports completed and closes it, outside one reports nothing |
| SessionProperties.BufferingReportsAlternate | Sources/MediaMelonKPPlugin/MediaMelonKPPlugin.swift:446-462 | over any event trace buffering-started and -completed alternate, the first being a completion only if a phase was open |
| SessionProperties.BufferingBufferingReady | Sources/MediaMelonKPPlugin/MediaMelonKPPlugin.swift:446-462 | buffering, buffering, ready report exactly one start and one completion |
| SessionProperties.ReadyWithoutBufferingIsSilent | Sources/MediaMelonKPPlugin/MediaMelonKPPlugin.swift:454-459 | ready without an open buffering phase reports nothing |
| SessionProperties.StepPresentation | Sources/MediaMelonKPPlugin/MediaMelonKPPlugin.swift:300-325 | one player event reports presentation info at most once, only while unset, and then sets the flag |
| SessionProperties.PresentationInfoAtMostOnce | Sources/MediaMelonKPPlugin/MediaMelonKPPlugin.swift:300-325 | over any event trace (duration changes and replays included) presentation info is reported at most once, never once set |
| SessionProperties.FirstDurationWins | Sources/MediaMelonKPPlugin/MediaMelonKPPlugin.swift:291-315 | of two duration changes only the first is reported, while the stored duration follows the second |
| SessionProperties.ReplayKeepsPresentationFlag | Sources/MediaMelonKPPlugin/MediaMelonKPPlugin.swift:317-325 | a replay restarts the session and re-sends presentation info only if it was never sent |
| SessionProperties.UpdateMediaRearmsPresentationInfo | Sources/MediaMelonKPPlugin/MediaMelonKPPlugin.swift:553-571 | after a new attachment the next duration change reports presentation info again |
| SessionProperties.TransportStep | Sources/MediaMelonKPPlugin/MediaMelonKPPlugin.swift:398-409 | play and playing report PLAYING, pause reports PAUSED, and the plugin state follows |
| SessionProperties.TransportEvents | Sources/MediaMelonKPPlugin/MediaMelonKPPlugin.swift:398-409 | a trace of play/playing/pause events reports one state per event in order, and the state is that of the last event |
| SessionProperties.EndedReportsStop | Sources/MediaMelonKPPlugin/MediaMelonKPPlugin.swift:327-336 | ended reports the position (if the player is there) and STOPPED, unless idle or already stopped, in which case nothing happens |
| SessionProperties.SingleReportEvents | Sources/MediaMelonKPPlugin/MediaMelonKPPlugin.swift:394-413 | metadata loaded, seeking, seeked, playhead update and error each make one report (manifest loaded, seek started, seek completed at the position, the position, the parsable error message) and change no session field; the position is 0 once the player is gone |
| SessionProperties.EndedTwiceIsNoOp | Sources/MediaMelonKPPlugin/MediaMelonKPPlugin.swift:327-336 | a second ended event reports and changes nothing |
| SessionProperties.IgnoredPlayerEventsAreSilent | Sources/MediaMelonKPPlugin/MediaMelonKPPlugin.swift:416-464 | playback-rate, source-selected, stopped, video-track-changed and other state changes report and change nothing |
| SessionProperties.NeverEntersError | Sources/MediaMelonKPPlugin/MediaMelonKPPlugin.swift:393-465 | no player event trace moves the plugin into its error state |
| SessionProperties.SelectedTitleWithoutMatch | Sources/MediaMelonKPPlugin/MediaMelonKPPlugin.swift:418-427 | a track list without the selected id leaves the label as it was |
| SessionProperties.SelectedTitleIsLastMatch | Sources/MediaMelonKPPlugin/MediaMelonKPPlugin.swift:418-427 | the label becomes the title of the last track carrying the selected id |
| SessionProperties.TrackChangedNeedsTitle | Sources/MediaMelonKPPlugin/MediaMelonKPPlugin.swift:434-445 | an audio or text track change without a title does nothing; with one it stores the title and reports the media selection |
| SessionProperties.TracksAvailableReportsSelection | Sources/MediaMelonKPPlugin/MediaMelonKPPlugin.swift:417-428 | tracks-available reports the media selection exactly once and changes only the two labels |
| SessionProperties.AdEventsOnlyTouchAdFlag | Sources/MediaMelonKPPlugin/MediaMelonKPPlugin.swift:471-544 | ad events change only the ad-playing flag (set on start, cleared on complete, skip, all-completed, time-out and error); content pause/resume requests report PAUSED/PLAYING |
| SessionProperties.AdLoadedReportsImpression | Sources/MediaMelonKPPlugin/MediaMelonKPPlugin.swift:474-501 | a loaded ad reports its descriptor followed by one impression |
| SessionProperties.UpdateMediaStartsFresh | Sources/MediaMelonKPPlugin/MediaMelonKPPlugin.swift:563-571 | a new attachment resets the session with the new URL and reports the session start then user-initiated playback |
| SessionProperties.EndToEndScenario | Sources/MediaMelonKPPlugin/MediaMelonKPPlugin.swift:393-432 | attach, play, duration 120.5 s, playhead at 30.2 s, ended: the exact report sequence |

## Left out

- Device information (`reportDeviceInfo` with brand, model, OS, carrier and screen size) depends on platform APIs and is not modelled.
- Network-type detection and `reportNetworkType` in `initializeSession` depend on reachability and telephony APIs and are not modelled.
- The tvOS build's component name "tvOSSDK" and other platform conditionals are not modelled; the model is the iOS build.
- The set of available HDR modes is a parameter (`None` when the OS is too old to be asked).
- Player times are taken already in whole milliseconds; the seconds-to-milliseconds conversion with `Int(x*1000)` truncation of floating point is not modelled.
- Lower-casing is ASCII only; Unicode case mapping is not modelled.
- Message-bus subscription, `unregisterEvents`, `destroy`, `onUpdateConfig` and the weak self reference are not modelled; the handlers are called directly.
- A missing audio or text track list is treated as an empty list, which is what the optional chaining amounts to.
- Plugin.MediaMelonKPPlugin.OnUpdateMedia: a media entry with an empty source list crashes the source (`sources?[0]`); the model requires a non-empty list instead.
- `localizedDescription` of player and ad errors is taken as a given optional string.
- The framework logging (`PKLog.error`, `PKLog.debug`), the calls to the superclass (`super.init`, which can also throw, and `super.onUpdateMedia`) are not modelled; only the plugin's own missing-configuration failure is.
- The SDK singleton and the SDK's own behaviour are not modelled; the model records the calls made into it.
