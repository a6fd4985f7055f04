/** What the plugin's session handling promises: single events, and whole
    sequences of player events within one media attachment. */
module SessionProperties {
  import opened Wrappers
  import opened Telemetry
  import opened PluginConfig
  import opened Translation
  import opened Session
  import Events

  // ---------------------------------------------------------------------------
  // Sequences of player events
  // ---------------------------------------------------------------------------

  /** A player event together with what the player shows while it is handled. */
  type PlayerInput = (Events.PlayerEvent, Option<Events.PlayerView>)

  /** Handling `inputs` in delivery order: the final session and every SDK call made. */
  function Run(cfg: Config, s: Session, inputs: seq<PlayerInput>): Outcome
    decreases |inputs|
  {
    if inputs == [] then Outcome(s, [])
    else
      var first := PlayerStep(cfg, s, inputs[0].0, inputs[0].1);
      var rest := Run(cfg, first.next, inputs[1..]);
      Outcome(rest.next, first.reports + rest.reports)
  }

  /** Handling one input and then the rest. */
  lemma RunStep(cfg: Config, s: Session, input: PlayerInput, rest: seq<PlayerInput>)
    ensures var first := PlayerStep(cfg, s, input.0, input.1);
            var o := Run(cfg, first.next, rest);
            Run(cfg, s, [input] + rest) == Outcome(o.next, first.reports + o.reports)
  {
    assert ([input] + rest)[1..] == rest;
  }

  /** A report that is neither a buffering report nor presentation info. */
  predicate Neutral(r: Report) {
    !r.BufferingStarted? && !r.BufferingCompleted? && !r.PresentationInfo?
  }

  /** The buffering reports among `rs`, in order. */
  function BufferingReports(rs: seq<Report>): seq<Report>
    decreases |rs|
  {
    if rs == [] then []
    else (if rs[0].BufferingStarted? || rs[0].BufferingCompleted? then [rs[0]] else [])
         + BufferingReports(rs[1..])
  }

  /** How many presentation-info reports `rs` holds. */
  function PresentationInfoCount(rs: seq<Report>): nat
    decreases |rs|
  {
    if rs == [] then 0
    else (if rs[0].PresentationInfo? then 1 else 0) + PresentationInfoCount(rs[1..])
  }

  lemma {:induction false} FiltersDistribute(a: seq<Report>, b: seq<Report>)
    ensures BufferingReports(a + b) == BufferingReports(a) + BufferingReports(b)
    ensures PresentationInfoCount(a + b) == PresentationInfoCount(a) + PresentationInfoCount(b)
    decreases |a|
  {
    if a == [] {
      assert a + b == b;
    } else {
      assert (a + b)[0] == a[0];
      assert (a + b)[1..] == a[1..] + b;
      FiltersDistribute(a[1..], b);
    }
  }

  lemma {:induction false} NeutralReports(rs: seq<Report>)
    requires forall i :: 0 <= i < |rs| ==> Neutral(rs[i])
    ensures BufferingReports(rs) == [] && PresentationInfoCount(rs) == 0
    decreases |rs|
  {
    if rs != [] {
      NeutralReports(rs[1..]);
    }
  }

  /** Starting a measurement session makes no buffering or presentation-info report. */
  lemma SessionStartIsNeutral(cfg: Config, manifest: Option<string>)
    ensures var rs := SessionStartReports(cfg, manifest) + [UserInitiatedPlayback];
            BufferingReports(rs) == [] && PresentationInfoCount(rs) == 0
  {
    var rs := SessionStartReports(cfg, manifest) + [UserInitiatedPlayback];
    var n := |cfg.customTags|;
    TagReportsInOrder(cfg.customTags);
    forall i | 0 <= i < |rs| ensures Neutral(rs[i]) {
      if i < n {
        assert rs[i] == TagReports(cfg.customTags)[i];
      }
    }
    NeutralReports(rs);
  }

  // ---------------------------------------------------------------------------
  // Buffering: started and completed strictly alternate
  // ---------------------------------------------------------------------------

  /** `rs` alternates between buffering-started and buffering-completed, the
      first being completed exactly when a phase is already `open`. */
  predicate Alternating(rs: seq<Report>, open: bool)
    decreases |rs|
  {
    rs == [] || (rs[0] == (if open then BufferingCompleted else BufferingStarted) && Alternating(rs[1..], !open))
  }

  /** Whether a buffering phase is open after the alternating reports `rs`. */
  function OpenAfter(rs: seq<Report>, open: bool): bool {
    if |rs| % 2 == 0 then open else !open
  }

  lemma {:induction false} AlternatingAppend(a: seq<Report>, b: seq<Report>, open: bool)
    requires Alternating(a, open) && Alternating(b, OpenAfter(a, open))
    ensures Alternating(a + b, open) && OpenAfter(a + b, open) == OpenAfter(b, OpenAfter(a, open))
    decreases |a|
  {
    if a == [] {
      assert a + b == b;
    } else {
      assert (a + b)[0] == a[0];
      assert (a + b)[1..] == a[1..] + b;
      AlternatingAppend(a[1..], b, !open);
    }
  }

  /** One player event keeps the buffering reports alternating and the
      buffering state in step with them. */
  lemma StepBuffering(cfg: Config, s: Session, e: Events.PlayerEvent, player: Option<Events.PlayerView>)
    ensures var o := PlayerStep(cfg, s, e, player);
            var open := s.prevBufferState == BufferStart;
            Alternating(BufferingReports(o.reports), open)
            && (o.next.prevBufferState == BufferStart <==> OpenAfter(BufferingReports(o.reports), open))
  {
    var o := PlayerStep(cfg, s, e, player);
    if e.Replay? && player.Some? {
      var p := PresentationOutcome(s, player.value.isLive);
      SessionStartIsNeutral(cfg, s.contentUrl);
      FiltersDistribute(SessionStartReports(cfg, s.contentUrl) + [UserInitiatedPlayback], p.reports);
    } else if e.Ended? {
      var pos := if player.Some? then [PlaybackPosition(player.value.currentTimeMs)] else [];
      NeutralReports(pos + [State(STOPPED)]);
    }
  }

  /** Over any sequence of player events, buffering-started and
      buffering-completed are reported alternately: never two starts without a
      completion between them, never a completion without a start. */
  lemma {:induction false} BufferingReportsAlternate(cfg: Config, s: Session, inputs: seq<PlayerInput>)
    ensures var o := Run(cfg, s, inputs);
            var open := s.prevBufferState == BufferStart;
            Alternating(BufferingReports(o.reports), open)
            && (o.next.prevBufferState == BufferStart <==> OpenAfter(BufferingReports(o.reports), open))
    decreases |inputs|
  {
    if inputs != [] {
      var first := PlayerStep(cfg, s, inputs[0].0, inputs[0].1);
      var rest := Run(cfg, first.next, inputs[1..]);
      StepBuffering(cfg, s, inputs[0].0, inputs[0].1);
      BufferingReportsAlternate(cfg, first.next, inputs[1..]);
      FiltersDistribute(first.reports, rest.reports);
      AlternatingAppend(BufferingReports(first.reports), BufferingReports(rest.reports),
                        s.prevBufferState == BufferStart);
    }
  }

  /** The buffering rule in every state: buffering opens a phase unless one is
      open, ready closes an open phase, and otherwise neither reports anything.
      A phase can be reopened after a completed one. */
  lemma BufferingStep(cfg: Config, s: Session, player: Option<Events.PlayerView>)
    ensures var o := PlayerStep(cfg, s, Events.StateChanged(Events.Buffering), player);
            && (s.prevBufferState != BufferStart ==>
                  o == Outcome(s.(prevBufferState := BufferStart), [BufferingStarted]))
            && (s.prevBufferState == BufferStart ==> o == Outcome(s, []))
    ensures var o := PlayerStep(cfg, s, Events.StateChanged(Events.Ready), player);
            && (s.prevBufferState == BufferStart ==>
                  o == Outcome(s.(prevBufferState := BufferComplete), [BufferingCompleted]))
            && (s.prevBufferState != BufferStart ==> o == Outcome(s, []))
  {
  }

  /** [buffering, buffering, ready] from a fresh state: one start, one completion. */
  lemma BufferingBufferingReady(cfg: Config, s: Session, player: Option<Events.PlayerView>)
    requires s.prevBufferState == NoBuffering
    ensures var inputs := [(Events.StateChanged(Events.Buffering), player),
                           (Events.StateChanged(Events.Buffering), player),
                           (Events.StateChanged(Events.Ready), player)];
            Run(cfg, s, inputs).reports == [BufferingStarted, BufferingCompleted]
            && Run(cfg, s, inputs).next == s.(prevBufferState := BufferComplete)
  {
    var buffering, ready := (Events.StateChanged(Events.Buffering), player), (Events.StateChanged(Events.Ready), player);
    var s1 := s.(prevBufferState := BufferStart);
    RunStep(cfg, s1, ready, []);
    RunStep(cfg, s1, buffering, [ready]);
    RunStep(cfg, s, buffering, [buffering, ready]);
  }

  /** A ready state with no buffering before it reports nothing. */
  lemma ReadyWithoutBufferingIsSilent(cfg: Config, s: Session, player: Option<Events.PlayerView>)
    requires s.prevBufferState != BufferStart
    ensures PlayerStep(cfg, s, Events.StateChanged(Events.Ready), player) == Outcome(s, [])
  {
  }

  // ---------------------------------------------------------------------------
  // Presentation info: at most once per attachment
  // ---------------------------------------------------------------------------

  /** One player event reports presentation info at most once, only while it is
      unset, and then sets it; nothing clears it. */
  lemma StepPresentation(cfg: Config, s: Session, e: Events.PlayerEvent, player: Option<Events.PlayerView>)
    ensures var o := PlayerStep(cfg, s, e, player);
            PresentationInfoCount(o.reports) <= (if s.presentationInfoSet then 0 else 1)
            && o.next.presentationInfoSet == (s.presentationInfoSet || PresentationInfoCount(o.reports) == 1)
  {
    if e.Replay? && player.Some? {
      var p := PresentationOutcome(s, player.value.isLive);
      SessionStartIsNeutral(cfg, s.contentUrl);
      FiltersDistribute(SessionStartReports(cfg, s.contentUrl) + [UserInitiatedPlayback], p.reports);
    } else if e.Ended? {
      var pos := if player.Some? then [PlaybackPosition(player.value.currentTimeMs)] else [];
      NeutralReports(pos + [State(STOPPED)]);
    }
  }

  /** Over any sequence of player events (duration changes and replays
      included), presentation info is reported at most once, and not at all
      once it has been set: only a new media attachment clears the flag. */
  lemma {:induction false} PresentationInfoAtMostOnce(cfg: Config, s: Session, inputs: seq<PlayerInput>)
    ensures var o := Run(cfg, s, inputs);
            PresentationInfoCount(o.reports) <= (if s.presentationInfoSet then 0 else 1)
            && o.next.presentationInfoSet == (s.presentationInfoSet || PresentationInfoCount(o.reports) == 1)
    decreases |inputs|
  {
    if inputs != [] {
      var first := PlayerStep(cfg, s, inputs[0].0, inputs[0].1);
      var rest := Run(cfg, first.next, inputs[1..]);
      StepPresentation(cfg, s, inputs[0].0, inputs[0].1);
      PresentationInfoAtMostOnce(cfg, first.next, inputs[1..]);
      FiltersDistribute(first.reports, rest.reports);
    }
  }

  /** Two duration changes: the first one's duration is reported, the second
      reports nothing, although the stored duration follows the player. */
  lemma FirstDurationWins(cfg: Config, s: Session, p1: Events.PlayerView, p2: Events.PlayerView)
    requires !s.presentationInfoSet
    ensures var o := Run(cfg, s, [(Events.DurationChanged, Some(p1)), (Events.DurationChanged, Some(p2))]);
            o.reports == [PresentationInfo(ReportedDuration(p1.durationMs), p1.isLive)]
            && o.next.presentationInfoSet && o.next.presentationDurationMs == p2.durationMs
  {
    var first := PlayerStep(cfg, s, Events.DurationChanged, Some(p1));
    RunStep(cfg, first.next, (Events.DurationChanged, Some(p2)), []);
    RunStep(cfg, s, (Events.DurationChanged, Some(p1)), [(Events.DurationChanged, Some(p2))]);
  }

  /** A replay re-sends presentation info only if it was never sent. */
  lemma ReplayKeepsPresentationFlag(cfg: Config, s: Session, p: Events.PlayerView)
    ensures var o := PlayerStep(cfg, s, Events.Replay, Some(p));
            o.next.presentationInfoSet
            && (s.presentationInfoSet ==> o.reports == SessionStartReports(cfg, s.contentUrl) + [UserInitiatedPlayback])
            && (!s.presentationInfoSet ==>
                  o.reports == SessionStartReports(cfg, s.contentUrl) + [UserInitiatedPlayback,
                               PresentationInfo(ReportedDuration(s.presentationDurationMs), p.isLive)])
  {
  }

  /** After a new media attachment the next duration change reports presentation info again. */
  lemma UpdateMediaRearmsPresentationInfo(cfg: Config, s: Session, url: Option<string>, p: Events.PlayerView)
    ensures var attached := UpdateMedia(cfg, s, url).next;
            PlayerStep(cfg, attached, Events.DurationChanged, Some(p)).reports
              == [PresentationInfo(ReportedDuration(p.durationMs), p.isLive)]
  {
  }

  // ---------------------------------------------------------------------------
  // Play, pause and stop
  // ---------------------------------------------------------------------------

  predicate IsTransport(e: Events.PlayerEvent) {
    e.Play? || e.Playing? || e.Pause?
  }

  /** The state a play, playing or pause event moves playback to. */
  function TransportTarget(e: Events.PlayerEvent): CurrentPlayerState
    requires IsTransport(e)
  {
    if e.Pause? then Paused else Playing
  }

  /** The state a play, playing or pause event reports. */
  function TransportReport(e: Events.PlayerEvent): MMPlayerState
    requires IsTransport(e)
  {
    if e.Pause? then PAUSED else PLAYING
  }

  lemma TransportStep(cfg: Config, s: Session, e: Events.PlayerEvent, player: Option<Events.PlayerView>)
    requires IsTransport(e)
    ensures PlayerStep(cfg, s, e, player) == Outcome(s.(currentState := TransportTarget(e)), [State(TransportReport(e))])
  {
  }

  /** Play, playing and pause each report their state once, with no coalescing,
      and the plugin's state follows the most recent of them; nothing else in
      the session changes. */
  lemma {:induction false} TransportEvents(cfg: Config, s: Session, inputs: seq<PlayerInput>)
    requires forall i :: 0 <= i < |inputs| ==> IsTransport(inputs[i].0)
    ensures var o := Run(cfg, s, inputs);
            && |o.reports| == |inputs|
            && (forall i :: 0 <= i < |inputs| ==> o.reports[i] == State(TransportReport(inputs[i].0)))
            && (inputs != [] ==> o.next == s.(currentState := TransportTarget(inputs[|inputs| - 1].0)))
            && (inputs == [] ==> o.next == s)
    decreases |inputs|
  {
    if inputs != [] {
      var first := PlayerStep(cfg, s, inputs[0].0, inputs[0].1);
      TransportStep(cfg, s, inputs[0].0, inputs[0].1);
      TransportEvents(cfg, first.next, inputs[1..]);
      var o := Run(cfg, s, inputs);
      forall i | 0 <= i < |inputs| ensures o.reports[i] == State(TransportReport(inputs[i].0)) {
        if i > 0 {
          assert inputs[1..][i - 1] == inputs[i];
        }
      }
    }
  }

  /** An ended event stops playback unless it is idle or already stopped:
      the position (when the player is there), then the stopped state. */
  lemma EndedReportsStop(cfg: Config, s: Session, player: Option<Events.PlayerView>)
    ensures var o := PlayerStep(cfg, s, Events.Ended, player);
            && (s.currentState in {Idle, Stopped} ==> o == Outcome(s, []))
            && (s.currentState !in {Idle, Stopped} ==>
                  && o.next == s.(currentState := Stopped)
                  && o.reports[|o.reports| - 1] == State(STOPPED)
                  && (player.Some? ==> o.reports == [PlaybackPosition(player.value.currentTimeMs), State(STOPPED)])
                  && (player.None? ==> o.reports == [State(STOPPED)]))
  {
  }

  /** The events the handler does not act on change nothing and report nothing:
      playback-rate, source-selected, stopped, video-track-changed, and every
      state change other than buffering and ready. */
  lemma IgnoredPlayerEventsAreSilent(cfg: Config, s: Session, e: Events.PlayerEvent,
                                     player: Option<Events.PlayerView>)
    requires e.PlaybackRate? || e.SourceSelected? || e.Stopped? || e.VideoTrackChanged?
             || (e.StateChanged? && e.newState != Events.Buffering && e.newState != Events.Ready)
    ensures PlayerStep(cfg, s, e, player) == Outcome(s, [])
  {
  }

  /** Metadata loaded, seeking, seeked, playhead updates and player errors each
      make exactly one report and leave the session as it was; the reported
      position is the player's current time, or 0 once the player is gone. */
  lemma SingleReportEvents(cfg: Config, s: Session, player: Option<Events.PlayerView>,
                           code: Option<int>, description: Option<string>)
    ensures PlayerStep(cfg, s, Events.LoadedMetadata, player) == Outcome(s, [ManifestLoaded])
    ensures PlayerStep(cfg, s, Events.Seeking, player) == Outcome(s, [SeekStarted])
    ensures var pos := if player.Some? then player.value.currentTimeMs else 0;
            && PlayerStep(cfg, s, Events.Seeked, player) == Outcome(s, [SeekCompleted(pos)])
            && PlayerStep(cfg, s, Events.PlayheadUpdate, player) == Outcome(s, [PlaybackPosition(pos)])
    ensures var o := PlayerStep(cfg, s, Events.Error(code, description), player);
            && o.next == s && |o.reports| == 1 && o.reports[0].PlaybackError?
            && ParseErrorMessage(o.reports[0].message) == Some((code.GetOr(0), description.GetOr("")))
  {
  }

  /** A second ended event is a no-op. */
  lemma EndedTwiceIsNoOp(cfg: Config, s: Session, p1: Option<Events.PlayerView>, p2: Option<Events.PlayerView>)
    ensures var first := PlayerStep(cfg, s, Events.Ended, p1);
            PlayerStep(cfg, first.next, Events.Ended, p2) == Outcome(first.next, [])
  {
  }

  /** No player event ever moves the plugin into its error state. */
  lemma {:induction false} NeverEntersError(cfg: Config, s: Session, inputs: seq<PlayerInput>)
    requires s.currentState != Error
    ensures Run(cfg, s, inputs).next.currentState != Error
    decreases |inputs|
  {
    if inputs != [] {
      NeverEntersError(cfg, PlayerStep(cfg, s, inputs[0].0, inputs[0].1).next, inputs[1..]);
    }
  }

  // ---------------------------------------------------------------------------
  // Track labels
  // ---------------------------------------------------------------------------

  /** When no track carries the selected id the label is left as it was. */
  lemma {:induction false} SelectedTitleWithoutMatch(tracks: seq<Events.Track>, selected: Option<string>, current: string)
    requires forall k :: 0 <= k < |tracks| ==> Some(tracks[k].id) != selected
    ensures SelectedTitle(tracks, selected, current) == current
    decreases |tracks|
  {
    if tracks != [] {
      var init := tracks[..|tracks| - 1];
      assert forall k :: 0 <= k < |init| ==> init[k] == tracks[k];
      SelectedTitleWithoutMatch(init, selected, current);
    }
  }

  /** The selected title is that of the last track carrying the selected id. */
  lemma {:induction false} SelectedTitleIsLastMatch(tracks: seq<Events.Track>, selected: Option<string>,
                                                    current: string, k: nat)
    requires k < |tracks| && Some(tracks[k].id) == selected
    requires forall j :: k < j < |tracks| ==> Some(tracks[j].id) != selected
    ensures SelectedTitle(tracks, selected, current) == tracks[k].title
    decreases |tracks|
  {
    if k < |tracks| - 1 {
      var init := tracks[..|tracks| - 1];
      assert forall j :: 0 <= j < |init| ==> init[j] == tracks[j];
      SelectedTitleIsLastMatch(init, selected, current, k);
    }
  }

  /** A track-changed event without a title changes nothing and reports nothing;
      with one it stores the title and reports the media selection. */
  lemma TrackChangedNeedsTitle(cfg: Config, s: Session, title: Option<string>, player: Option<Events.PlayerView>)
    ensures var audio := PlayerStep(cfg, s, Events.AudioTrackChanged(title), player);
            var text := PlayerStep(cfg, s, Events.TextTrackChanged(title), player);
            && (title.None? ==> audio == Outcome(s, []) && text == Outcome(s, []))
            && (title.Some? ==>
                  && audio.next == s.(currentAudioTrack := title.value)
                  && audio.reports == [MediaSelectionReport(title.value, s.currentTextTrack)]
                  && text.next == s.(currentTextTrack := title.value)
                  && text.reports == [MediaSelectionReport(s.currentAudioTrack, title.value)])
  {
  }

  /** Tracks-available always reports the media selection, exactly once. */
  lemma TracksAvailableReportsSelection(cfg: Config, s: Session, audio: seq<Events.Track>,
                                        text: seq<Events.Track>, player: Option<Events.PlayerView>)
    ensures var o := PlayerStep(cfg, s, Events.TracksAvailable(audio, text), player);
            o.reports == [MediaSelectionReport(o.next.currentAudioTrack, o.next.currentTextTrack)]
            && o.next == s.(currentAudioTrack := o.next.currentAudioTrack,
                            currentTextTrack := o.next.currentTextTrack)
  {
  }

  // ---------------------------------------------------------------------------
  // Ads
  // ---------------------------------------------------------------------------

  /** Ad events change nothing but the ad-playing flag: in particular the
      content pause/resume requests report a state without changing it. */
  lemma AdEventsOnlyTouchAdFlag(s: Session, e: Events.AdEvent)
    ensures var o := AdStep(s, e);
            o.next == s.(isAdPlaying := o.next.isAdPlaying)
            && (e.AdStarted? ==> o.next.isAdPlaying)
            && (e.AdComplete? || e.AdSkipped? || e.AllAdsCompleted? || e.RequestTimedOut? || e.AdPlaybackError?
                ==> !o.next.isAdPlaying)
            && (e.AllAdsCompleted? ==> o.reports == [])
            && (e.AdDidRequestContentPause? ==> o.reports == [State(PAUSED)])
            && (e.AdDidRequestContentResume? ==> o.reports == [State(PLAYING)])
  {
  }

  /** A loaded ad reports its descriptor followed by exactly one impression. */
  lemma AdLoadedReportsImpression(s: Session, info: Option<Events.AdMetadata>, url: Option<string>)
    ensures AdStep(s, Events.AdLoaded(info, url)).reports
            == [AdInfo(AdDescriptorOf(info, url)), AdMarker(AD_IMPRESSION)]
  {
  }

  // ---------------------------------------------------------------------------
  // New media attachment
  // ---------------------------------------------------------------------------

  /** A new media attachment restores every session field to its initial value,
      keeps the new content URL, and reports the session start followed by
      user-initiated playback. */
  lemma UpdateMediaStartsFresh(cfg: Config, s: Session, url: Option<string>)
    ensures var o := UpdateMedia(cfg, s, url);
            o.next == Initial.(contentUrl := url, presentationDurationMs := s.presentationDurationMs)
            && o.reports[..|o.reports| - 1] == SessionStartReports(cfg, url)
            && o.reports[|o.reports| - 1] == UserInitiatedPlayback
  {
  }

  /** Attach, play, a 120.5 s duration, a playhead update at 30.2 s, then ended. */
  lemma EndToEndScenario(cfg: Config, s: Session, url: Option<string>, p: Events.PlayerView)
    requires p.durationMs == 120500 && p.currentTimeMs == 30200 && !p.isLive
    ensures var attached := UpdateMedia(cfg, s, url);
            var o := Run(cfg, attached.next, [(Events.Play, Some(p)), (Events.DurationChanged, Some(p)),
                                              (Events.PlayheadUpdate, Some(p)), (Events.Ended, Some(p))]);
            attached.reports + o.reports
              == SessionStartReports(cfg, url)
                 + [UserInitiatedPlayback, State(PLAYING), PresentationInfo(120500, false),
                    PlaybackPosition(30200), PlaybackPosition(30200), State(STOPPED)]
  {
    var s0 := UpdateMedia(cfg, s, url).next;
    var s1 := s0.(currentState := Playing);
    var s2 := s1.(presentationDurationMs := 120500, presentationInfoSet := true);
    var s3 := s2.(currentState := Stopped);
    RunStep(cfg, s2, (Events.Ended, Some(p)), []);
    RunStep(cfg, s2, (Events.PlayheadUpdate, Some(p)), [(Events.Ended, Some(p))]);
    RunStep(cfg, s1, (Events.DurationChanged, Some(p)), [(Events.PlayheadUpdate, Some(p)), (Events.Ended, Some(p))]);
    RunStep(cfg, s0, (Events.Play, Some(p)), [(Events.DurationChanged, Some(p)), (Events.PlayheadUpdate, Some(p)), (Events.Ended, Some(p))]);
  }
}
