/**
 * One iteration of the overlay's frame loop as a function of the application state:
 * take the pending art, poll the player when the interval has elapsed, draw, handle the
 * theme button. `Run` strings frames together.
 */
module Frame {
  import opened Types
  import opened Display
  import opened Theme
  import opened Settings
  import opened Mailbox

  /** What one poll of the media player reports. */
  datatype SongInfo = SongInfo(artist: Bytes, title: Bytes, artUrl: Url)

  /** The render thread's state: the caches, the live texture, the poll clock, the slot's content, the theme. */
  datatype State = State(
    cachedSong: Bytes,
    cachedArtist: Bytes,
    cachedAlbumArt: Url,
    albumTexture: Option<Texture>,
    lastUpdate: real,
    pending: Option<Path>,
    isDarkMode: bool,
    config: Config)

  /** The state before the first frame: nothing cached, no texture, the clock at zero, an empty slot, the configured theme. */
  function Initial(config: Config): (s: State)
    ensures s.cachedSong == [] && s.cachedArtist == [] && s.cachedAlbumArt == []
    ensures s.albumTexture == None && s.pending == None && s.lastUpdate == 0.0
    ensures s.isDarkMode == config.darkMode && s.config == config
  {
    State([], [], [], None, 0.0, None, config.darkMode, config)
  }

  /**
   * What the frame's collaborators supply: the downloads that finished since the previous
   * frame, in the order they wrote the slot; the clock; the texture the graphics library
   * builds from the taken file (`None` when it fails); the player's report (read only when
   * a poll is due); the pointer position and whether the left button went down.
   */
  datatype FrameInput = FrameInput(
    completed: seq<Completion>,
    currentTime: real,
    loaded: Option<Texture>,
    info: SongInfo,
    mouseX: real,
    mouseY: real,
    pressed: bool)

  /** What one frame draws. */
  datatype View = View(title: Bytes, artist: Bytes, showsArt: bool, colors: ThemeColors, button: Color)

  /**
   * What one frame does besides updating the state: the texture it unloads, the temporary
   * file it deletes, whether it polled, the URL it starts a download for, and what it draws.
   */
  datatype FrameEffects = FrameEffects(
    unloaded: Option<Texture>,
    removed: Option<Path>,
    polled: bool,
    spawned: Option<Url>,
    view: View)

  datatype Drained = Drained(state: State, unloaded: Option<Texture>, removed: Option<Path>)

  /**
   * Taking the slot: with a path, the old texture is unloaded, the loaded one (or none)
   * becomes current and the file is deleted whatever the load gave; without one nothing happens.
   */
  function Drain(s: State, loaded: Option<Texture>): (d: Drained)
    ensures d.state.pending == None
    ensures s.pending == None ==> d.state == s && d.unloaded == None && d.removed == None
    ensures s.pending.Some? ==>
      d.state == s.(pending := None, albumTexture := loaded) &&
      d.unloaded == s.albumTexture && d.removed == s.pending
  {
    match s.pending
    case None => Drained(s, None, None)
    case Some(path) =>
      var released := s.(pending := None, albumTexture := None);
      var adopted := match loaded
        case Some(texture) => released.(albumTexture := Some(texture))
        case None => released;
      Drained(adopted, s.albumTexture, Some(path))
  }

  datatype Polled = Polled(state: State, polled: bool, spawned: Option<Url>)

  /**
   * The throttled poll. It runs only when strictly more than the interval has passed and
   * then always restarts the clock. Title and artist are replaced together when either
   * differs; only then, and only for a new non-empty URL, is the art URL recorded and one
   * download started.
   */
  function Poll(s: State, now: real, info: SongInfo): (p: Polled)
    ensures p.polled <==> now - s.lastUpdate > s.config.updateInterval
    ensures !p.polled ==> p.state == s && p.spawned == None
    ensures p.polled ==>
      p.state.lastUpdate == now && p.state.cachedSong == info.title && p.state.cachedArtist == info.artist
    ensures p.spawned.Some? <==>
      p.polled && (info.title != s.cachedSong || info.artist != s.cachedArtist) &&
      info.artUrl != s.cachedAlbumArt && info.artUrl != []
    ensures p.state.cachedAlbumArt == if p.spawned.Some? then p.spawned.value else s.cachedAlbumArt
    ensures p.spawned.Some? ==> p.spawned.value == info.artUrl
    ensures p.state.albumTexture == s.albumTexture && p.state.pending == s.pending
    ensures p.state.isDarkMode == s.isDarkMode && p.state.config == s.config
  {
    if now - s.lastUpdate > s.config.updateInterval then
      var textChanged := s.cachedSong != info.title || s.cachedArtist != info.artist;
      var refetch := textChanged && s.cachedAlbumArt != info.artUrl && info.artUrl != [];
      var cached :=
        if !textChanged then s
        else if !refetch then s.(cachedSong := info.title, cachedArtist := info.artist)
        else s.(cachedSong := info.title, cachedArtist := info.artist, cachedAlbumArt := info.artUrl);
      Polled(cached.(lastUpdate := now), true, if refetch then Some(info.artUrl) else None)
    else
      Polled(s, false, None)
  }

  /** What is drawn from the state: the shortened text, art or placeholder, the palette, the button fill. */
  function Render(s: State, mouseX: real, mouseY: real): (v: View)
    ensures v.title == DisplayTitle(s.cachedSong) && v.artist == DisplayArtist(s.cachedArtist)
    ensures |v.title| <= TitleLimit && |v.artist| <= ArtistLimit
    ensures v.showsArt <==> s.albumTexture.Some?
    ensures v.colors == GetThemeColors(s.isDarkMode)
    ensures v.button == if IsHovering(s.config.windowWidth, s.config.windowHeight, mouseX, mouseY)
      then v.colors.buttonHover else v.colors.buttonBg
  {
    var colors := GetThemeColors(s.isDarkMode);
    var hovering := IsHovering(s.config.windowWidth, s.config.windowHeight, mouseX, mouseY);
    View(DisplayTitle(s.cachedSong), DisplayArtist(s.cachedArtist), s.albumTexture.Some?, colors,
      if hovering then colors.buttonHover else colors.buttonBg)
  }

  datatype Stepped = Stepped(state: State, effects: FrameEffects)

  /**
   * One frame: the finished downloads write the slot, then drain, poll, draw, toggle, in
   * that order. The frame takes and deletes what the last write left in the slot and adopts
   * its texture; the slot is empty afterwards. The frame draws the text it has just polled,
   * and a theme change shows only from the next frame.
   */
  function Step(s: State, i: FrameInput): (f: Stepped)
    ensures f.state.pending == None && f.state.config == s.config
    ensures f.effects.removed == Deliver(s.pending, i.completed)
    ensures f.effects.removed.Some? ==> f.state.albumTexture == i.loaded && f.effects.unloaded == s.albumTexture
    ensures f.effects.removed.None? ==> f.state.albumTexture == s.albumTexture && f.effects.unloaded == None
    ensures f.effects.polled <==> i.currentTime - s.lastUpdate > s.config.updateInterval
    ensures f.state.lastUpdate == if f.effects.polled then i.currentTime else s.lastUpdate
    ensures f.state.cachedSong == if f.effects.polled then i.info.title else s.cachedSong
    ensures f.state.cachedArtist == if f.effects.polled then i.info.artist else s.cachedArtist
    ensures f.effects.spawned.Some? <==>
      f.effects.polled && (i.info.title != s.cachedSong || i.info.artist != s.cachedArtist) &&
      i.info.artUrl != s.cachedAlbumArt && i.info.artUrl != []
    ensures f.effects.spawned.Some? ==> f.effects.spawned.value == i.info.artUrl
    ensures f.state.cachedAlbumArt == if f.effects.spawned.Some? then f.effects.spawned.value else s.cachedAlbumArt
    ensures f.effects.view.title == DisplayTitle(f.state.cachedSong)
    ensures f.effects.view.artist == DisplayArtist(f.state.cachedArtist)
    ensures f.effects.view.showsArt <==> f.state.albumTexture.Some?
    ensures f.effects.view.colors == GetThemeColors(s.isDarkMode)
    ensures f.state.isDarkMode != s.isDarkMode <==>
      IsHovering(s.config.windowWidth, s.config.windowHeight, i.mouseX, i.mouseY) && i.pressed
  {
    var delivered := s.(pending := Deliver(s.pending, i.completed));
    var d := Drain(delivered, i.loaded);
    var p := Poll(d.state, i.currentTime, i.info);
    var view := Render(p.state, i.mouseX, i.mouseY);
    var hovering := IsHovering(s.config.windowWidth, s.config.windowHeight, i.mouseX, i.mouseY);
    var toggled := p.state.(isDarkMode := NextDarkMode(p.state.isDarkMode, hovering, i.pressed));
    Stepped(toggled, FrameEffects(d.unloaded, d.removed, p.polled, p.spawned, view))
  }

  datatype Trace = Trace(final: State, effects: seq<FrameEffects>)

  /**
   * The frames run one after another; `effects[k]` is what frame `k` did. The configuration
   * never changes, and after at least one frame the slot is empty.
   */
  function Run(s: State, inputs: seq<FrameInput>): (t: Trace)
    ensures |t.effects| == |inputs|
    ensures t.final.config == s.config
    ensures inputs != [] ==> t.final.pending == None
    decreases |inputs|
  {
    if inputs == [] then Trace(s, [])
    else
      var n := |inputs| - 1;
      var before := Run(s, inputs[..n]);
      var f := Step(before.final, inputs[n]);
      Trace(f.state, before.effects + [f.effects])
  }
}
