/** Properties of whole runs of the frame loop and of scenarios spanning frames and downloads. */
module Runs {
  import opened Types
  import opened Settings
  import opened Mailbox
  import opened Frame

  /** The time of the most recent poll, or `last` when there has been none. */
  function LastPoll(last: real, polls: seq<real>): real
  {
    if polls == [] then last else polls[|polls| - 1]
  }

  /**
   * The frame times at which the throttle alone would poll, starting from a clock at
   * `last`: a frame polls when it is strictly more than `interval` after the previous poll.
   */
  function Throttle(last: real, interval: real, inputs: seq<FrameInput>): seq<real>
    decreases |inputs|
  {
    if inputs == [] then []
    else
      var earlier := Throttle(last, interval, inputs[..|inputs| - 1]);
      var now := inputs[|inputs| - 1].currentTime;
      if now - LastPoll(last, earlier) > interval then earlier + [now] else earlier
  }

  /** The times of the frames of a run that polled. */
  function PollTimes(inputs: seq<FrameInput>, effects: seq<FrameEffects>): seq<real>
    requires |inputs| == |effects|
    decreases |inputs|
  {
    if inputs == [] then []
    else
      var n := |inputs| - 1;
      PollTimes(inputs[..n], effects[..n]) + if effects[n].polled then [inputs[n].currentTime] else []
  }

  /** Two successive polls are always strictly more than the interval apart, whatever the frame rate. */
  lemma {:induction false} ThrottleSpacing(last: real, interval: real, inputs: seq<FrameInput>)
    ensures var polls := Throttle(last, interval, inputs);
      (|polls| > 0 ==> polls[0] - last > interval) &&
      forall k | 0 <= k < |polls| - 1 :: polls[k + 1] - polls[k] > interval
    decreases |inputs|
  {
    if inputs != [] {
      ThrottleSpacing(last, interval, inputs[..|inputs| - 1]);
    }
  }

  /**
   * In a run, the frames that poll are exactly the ones the throttle selects from the frame
   * times; the player's reports, the pointer and the downloads play no part. The clock ends at
   * the last poll.
   */
  lemma {:induction false} PollsFollowThrottle(s: State, inputs: seq<FrameInput>)
    ensures PollTimes(inputs, Run(s, inputs).effects) == Throttle(s.lastUpdate, s.config.updateInterval, inputs)
    ensures Run(s, inputs).final.lastUpdate == LastPoll(s.lastUpdate, Throttle(s.lastUpdate, s.config.updateInterval, inputs))
    ensures Run(s, inputs).final.config == s.config
    decreases |inputs|
  {
    if inputs != [] {
      var n := |inputs| - 1;
      PollsFollowThrottle(s, inputs[..n]);
      var before := Run(s, inputs[..n]);
      assert Run(s, inputs).effects[..n] == before.effects;
    }
  }

  /** The URL of the last download a run started, or `initial` if it started none. */
  function LastRequested(initial: Url, effects: seq<FrameEffects>): Url
    decreases |effects|
  {
    if effects == [] then initial
    else match effects[|effects| - 1].spawned
      case Some(url) => url
      case None => LastRequested(initial, effects[..|effects| - 1])
  }

  /**
   * The cached art URL is always the URL of the last download started (a failed download is
   * not retried while the player keeps reporting that URL).
   */
  lemma {:induction false} ArtCacheIsLastRequest(s: State, inputs: seq<FrameInput>)
    ensures Run(s, inputs).final.cachedAlbumArt == LastRequested(s.cachedAlbumArt, Run(s, inputs).effects)
    decreases |inputs|
  {
    if inputs != [] {
      var n := |inputs| - 1;
      ArtCacheIsLastRequest(s, inputs[..n]);
      assert Run(s, inputs).effects[..n] == Run(s, inputs[..n]).effects;
    }
  }

  /** From the start-up state, the first frame polls only once its time exceeds the interval. */
  lemma FirstPollWaitsForInterval(config: Config, i: FrameInput)
    ensures Step(Initial(config), i).effects.polled <==> i.currentTime > config.updateInterval
  {
  }

  /**
   * A first poll reporting a track with art on an empty cache caches its text, records the
   * URL and starts exactly that download.
   */
  lemma FirstTrackStartsDownload(config: Config, now: real, info: SongInfo)
    requires now > config.updateInterval
    requires info.title != [] && info.artUrl != []
    ensures var p := Poll(Initial(config), now, info);
      p.spawned == Some(info.artUrl) && p.state.cachedAlbumArt == info.artUrl &&
      p.state.cachedSong == info.title && p.state.cachedArtist == info.artist
  {
  }

  /** A later poll with the same report starts nothing and leaves the caches as they were. */
  lemma RepeatedReportIsQuiet(s: State, t1: real, t2: real, info: SongInfo)
    requires t1 - s.lastUpdate > s.config.updateInterval
    ensures var first := Poll(s, t1, info).state;
      var second := Poll(first, t2, info);
      second.spawned == None && second.state == first.(lastUpdate := second.state.lastUpdate)
  {
  }

  /** As written, art is never refetched when title and artist are unchanged, even for a new URL. */
  lemma ArtLagsBehindText(s: State, now: real, info: SongInfo)
    requires info.title == s.cachedSong && info.artist == s.cachedArtist
    ensures Poll(s, now, info).spawned == None
    ensures Poll(s, now, info).state.cachedAlbumArt == s.cachedAlbumArt
  {
  }

  /**
   * The last frame of a run deletes what the downloads it was handed left in the slot; the
   * earlier frames did what they did in the shorter run.
   */
  lemma LastFrame(s: State, inputs: seq<FrameInput>)
    requires inputs != []
    ensures var n := |inputs| - 1;
      Run(s, inputs).effects[n].removed == LastWrite(Run(s, inputs[..n]).final.pending, AsEvents(inputs[n].completed)) &&
      forall k | 0 <= k < n :: Run(s, inputs).effects[k] == Run(s, inputs[..n]).effects[k]
  {
    var n := |inputs| - 1;
    var before := Run(s, inputs[..n]);
    ReplayIsLastWrite(before.final.pending, AsEvents(inputs[n].completed));
  }

  /**
   * In any run, what frame `k` takes and deletes is what the last download finished since the
   * previous frame wrote into the slot, and nothing if none wrote it. Every frame empties the
   * slot, so only the first frame can see what was there before the run.
   */
  lemma {:induction false} RemovedIsLastWrite(s: State, inputs: seq<FrameInput>)
    ensures forall k | 0 <= k < |inputs| ::
      Run(s, inputs).effects[k].removed ==
        LastWrite(if k == 0 then s.pending else None, AsEvents(inputs[k].completed))
    decreases |inputs|
  {
    if inputs != [] {
      var n := |inputs| - 1;
      RemovedIsLastWrite(s, inputs[..n]);
      LastFrame(s, inputs);
      assert Run(s, inputs[..n]).final.pending == if n == 0 then s.pending else None;
      forall k | 0 <= k < n
        ensures Run(s, inputs).effects[k].removed ==
          LastWrite(if k == 0 then s.pending else None, AsEvents(inputs[k].completed))
      {
        assert inputs[..n][k] == inputs[k];
      }
    }
  }

  /** The texture built by the last frame of a run that took a path, or `initial` if none did. */
  function LastAdopted(initial: Option<Texture>, inputs: seq<FrameInput>, effects: seq<FrameEffects>): Option<Texture>
    requires |inputs| == |effects|
    decreases |inputs|
  {
    if inputs == [] then initial
    else
      var n := |inputs| - 1;
      if effects[n].removed.Some? then inputs[n].loaded else LastAdopted(initial, inputs[..n], effects[..n])
  }

  /**
   * After any run the current texture is the one built from the last path taken (none when
   * that load failed), or the texture the run started with if no path was taken.
   */
  lemma {:induction false} ShownArtIsLastAdopted(s: State, inputs: seq<FrameInput>)
    ensures Run(s, inputs).final.albumTexture == LastAdopted(s.albumTexture, inputs, Run(s, inputs).effects)
    decreases |inputs|
  {
    if inputs != [] {
      var n := |inputs| - 1;
      ShownArtIsLastAdopted(s, inputs[..n]);
      assert Run(s, inputs).effects[..n] == Run(s, inputs[..n]).effects;
    }
  }

  /**
   * A download that succeeds between two frames is adopted by the next frame: its texture
   * becomes current, the previous one is unloaded, and its file is deleted.
   */
  lemma DownloadIsAdoptedNextFrame(s: State, url: Url, path: Path, i: FrameInput)
    requires url != [] && i.completed == [Completion(url, Downloaded(path))]
    ensures var f := Step(s, i);
      f.effects.removed == Some(path) && f.effects.unloaded == s.albumTexture &&
      f.state.albumTexture == i.loaded && f.state.pending == None
  {
    ReplayIsLastWrite(s.pending, AsEvents(i.completed));
  }

  /** A download that fails between two frames empties the slot, so the next frame keeps the texture. */
  lemma FailedDownloadChangesNothing(s: State, url: Url, i: FrameInput)
    requires url != [] && i.completed == [Completion(url, Failed)]
    ensures var f := Step(s, i);
      f.effects.removed == None && f.effects.unloaded == None && f.state.albumTexture == s.albumTexture
  {
    ReplayIsLastWrite(s.pending, AsEvents(i.completed));
  }

  /**
   * A second download finishing before the frame loop takes the slot overwrites the first
   * one's path. As long as no later download reports the same path again (the source names
   * every file with a fresh uuid), no frame of the run ever takes that path, so it is never
   * adopted and never deleted.
   */
  lemma {:induction false} OverwrittenFileIsNotDeleted(s: State, first: Path, inputs: seq<FrameInput>)
    requires s.pending == Some(first)
    requires inputs != [] && exists j | 0 <= j < |inputs[0].completed| :: inputs[0].completed[j].url != []
    requires forall k, j | 0 <= k < |inputs| && 0 <= j < |inputs[k].completed| ::
      inputs[k].completed[j].outcome != Downloaded(first)
    ensures forall k | 0 <= k < |inputs| :: Run(s, inputs).effects[k].removed != Some(first)
  {
    RemovedIsLastWrite(s, inputs);
    forall k | 0 <= k < |inputs|
      ensures Run(s, inputs).effects[k].removed != Some(first)
    {
      var events := AsEvents(inputs[k].completed);
      if k == 0 {
        var j :| 0 <= j < |inputs[0].completed| && inputs[0].completed[j].url != [];
        assert Overwrites(events[j]);
      }
      LastWriteAvoids(if k == 0 then s.pending else None, events, first);
    }
  }

  /**
   * Downloads are not cancelled and not matched against the URL they were started for: when
   * the download for an older URL finishes after the one for the URL now cached, the next
   * frame adopts the older file, while the art cache keeps the newer URL.
   */
  lemma StaleDownloadIsAdopted(s: State, older: Url, newer: Url, oldPath: Path, newPath: Path, i: FrameInput)
    requires older != [] && newer != [] && older != newer && oldPath != newPath
    requires s.cachedAlbumArt == newer
    requires i.completed == [Completion(newer, Downloaded(newPath)), Completion(older, Downloaded(oldPath))]
    ensures var f := Step(s, i);
      f.effects.removed == Some(oldPath) && f.state.albumTexture == i.loaded &&
      (f.effects.spawned == None ==> f.state.cachedAlbumArt == newer)
  {
    ReplayIsLastWrite(s.pending, AsEvents(i.completed));
  }
}
