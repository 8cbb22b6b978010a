/** Run parameters of the overlay and their defaults. */
module Settings {
  import Theme

  /** `update_interval` is in seconds; window sizes are in pixels. */
  datatype Config = Config(darkMode: bool, windowWidth: int, windowHeight: int, updateInterval: real)

  /** The per-field defaults used for keys missing from the configuration file. */
  const DefaultDarkMode: bool := true
  const DefaultWindowWidth: int := 600
  const DefaultWindowHeight: int := 200
  const DefaultUpdateInterval: real := 2.0

  /**
   * The configuration used when no configuration file can be read or parsed. It agrees with
   * the per-field defaults, and its window is large enough to hold the toggle button.
   */
  function Default(): (c: Config)
    ensures c == Config(DefaultDarkMode, DefaultWindowWidth, DefaultWindowHeight, DefaultUpdateInterval)
    ensures c.windowWidth >= 55 && c.windowHeight >= 55 && c.updateInterval > 0.0
  {
    Config(true, 600, 200, 2.0)
  }

  /** In any window at least 55 pixels wide and high the toggle button lies inside the window. */
  lemma ButtonInsideWindow(c: Config, x: real, y: real)
    requires c.windowWidth >= 55 && c.windowHeight >= 55
    ensures Theme.IsHovering(c.windowWidth, c.windowHeight, x, y) ==>
      0.0 <= x <= c.windowWidth as real && 0.0 <= y <= c.windowHeight as real
  {
  }
}
