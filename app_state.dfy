/** The frame loop's mutable state and the loop itself, each step proved to follow `Frame`. */
module App {
  import opened Types
  import opened Theme
  import opened Settings
  import opened Mailbox
  import opened Frame

  class AppState {
    var cachedSong: Bytes
    var cachedArtist: Bytes
    var cachedAlbumArt: Url
    var albumTexture: Option<Texture>
    var lastUpdate: real
    /** Shared with every download started; only the frame loop and downloads touch it. */
    const pending: PendingSlot
    var isDarkMode: bool
    const config: Config

    /** The state as a value. */
    function Snapshot(): State
      reads this, pending
    {
      State(cachedSong, cachedArtist, cachedAlbumArt, albumTexture, lastUpdate, pending.path, isDarkMode, config)
    }

    /** Empty caches, no texture, clock at zero, an empty fresh slot, the configured theme. */
    constructor (config: Config)
      ensures Snapshot() == Initial(config) && fresh(pending)
    {
      cachedSong, cachedArtist, cachedAlbumArt := [], [], [];
      albumTexture := None;
      lastUpdate := 0.0;
      pending := new PendingSlot();
      isDarkMode := config.darkMode;
      this.config := config;
    }

    /** Takes the slot; adopts the texture loaded from the taken file, releasing the old one, and deletes the file. */
    method AdoptPendingArt(loaded: Option<Texture>) returns (unloaded: Option<Texture>, removed: Option<Path>)
      modifies this, pending
      ensures var d := Drain(old(Snapshot()), loaded);
        Snapshot() == d.state && unloaded == d.unloaded && removed == d.removed
    {
      unloaded, removed := None, None;
      var taken := pending.Take();
      if taken.Some? {
        unloaded := albumTexture;
        albumTexture := None;
        match loaded {
          case Some(texture) => albumTexture := Some(texture);
          case None =>
        }
        removed := taken;
      }
    }

    /** Polls the player when the interval has elapsed and refreshes the caches; may start one download. */
    method UpdateSongInfo(now: real, info: SongInfo) returns (polled: bool, spawned: Option<Url>)
      modifies this
      ensures var p := Poll(old(Snapshot()), now, info);
        Snapshot() == p.state && polled == p.polled && spawned == p.spawned
    {
      polled, spawned := false, None;
      if now - lastUpdate > config.updateInterval {
        polled := true;
        if cachedSong != info.title || cachedArtist != info.artist {
          cachedSong := info.title;
          cachedArtist := info.artist;
          if cachedAlbumArt != info.artUrl && info.artUrl != [] {
            cachedAlbumArt := info.artUrl;
            spawned := Some(info.artUrl);
          }
        }
        lastUpdate := now;
      }
    }

    /** Flips the theme when the left button goes down over the toggle button. */
    method HandleThemeToggle(mouseX: real, mouseY: real, pressed: bool)
      modifies this
      ensures isDarkMode == NextDarkMode(old(isDarkMode),
        IsHovering(config.windowWidth, config.windowHeight, mouseX, mouseY), pressed)
      ensures Snapshot() == old(Snapshot()).(isDarkMode := isDarkMode)
    {
      if IsHovering(config.windowWidth, config.windowHeight, mouseX, mouseY) && pressed {
        isDarkMode := !isDarkMode;
      }
    }

    /**
     * One iteration of the frame loop. The downloads that finished since the previous frame
     * first write the shared slot through `DownloadAlbumArt`, in the order they finished.
     */
    method RunFrame(input: FrameInput) returns (effects: FrameEffects)
      modifies this, pending
      ensures var f := Step(old(Snapshot()), input);
        Snapshot() == f.state && effects == f.effects
    {
      DeliverAll(input.completed, pending);
      var unloaded, removed := AdoptPendingArt(input.loaded);
      var polled, spawned := UpdateSongInfo(input.currentTime, input.info);
      var view := Render(Snapshot(), input.mouseX, input.mouseY);
      HandleThemeToggle(input.mouseX, input.mouseY, input.pressed);
      effects := FrameEffects(unloaded, removed, polled, spawned, view);
    }
  }

  /** A run one frame longer is the shorter run followed by one `Step`. */
  lemma RunExtends(s: State, inputs: seq<FrameInput>, k: nat)
    requires k < |inputs|
    ensures var before := Run(s, inputs[..k]);
      var f := Step(before.final, inputs[k]);
      Run(s, inputs[..k + 1]) == Trace(f.state, before.effects + [f.effects])
  {
    assert inputs[..k + 1][..k] == inputs[..k];
  }

  /**
   * The frame loop, one input per frame until the window closes. Each input carries the
   * downloads that finished since the previous frame; `RunFrame` lets them write the slot.
   */
  method RunFrames(app: AppState, inputs: seq<FrameInput>) returns (effects: seq<FrameEffects>)
    modifies app, app.pending
    ensures var t := Run(old(app.Snapshot()), inputs);
      app.Snapshot() == t.final && effects == t.effects
  {
    ghost var start := app.Snapshot();
    effects := [];
    var k := 0;
    while k < |inputs|
      invariant 0 <= k <= |inputs|
      invariant app.Snapshot() == Run(start, inputs[..k]).final
      invariant effects == Run(start, inputs[..k]).effects
    {
      var e := app.RunFrame(inputs[k]);
      RunExtends(start, inputs, k);
      effects := effects + [e];
      k := k + 1;
    }
    assert inputs[..|inputs|] == inputs;
  }
}
