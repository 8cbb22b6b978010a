/** The light/dark theme: its palettes, the toggle button's hit area and the toggle itself. */
module Theme {
  type Channel = x: int | 0 <= x < 256

  datatype Color = Color(r: Channel, g: Channel, b: Channel, a: Channel)

  /** The nine colour roles the overlay draws with. */
  datatype ThemeColors = ThemeColors(
    bgColor1: Color,
    bgColor2: Color,
    textPrimary: Color,
    textSecondary: Color,
    placeholderBg: Color,
    placeholderBorder: Color,
    placeholderIcon: Color,
    buttonBg: Color,
    buttonHover: Color)

  /**
   * The fixed palette of each theme: every colour opaque, light text on a dark background
   * in the dark theme and dark text on a light background in the light one.
   */
  function GetThemeColors(isDark: bool): (p: ThemeColors)
    ensures p.bgColor1.a == p.bgColor2.a == p.textPrimary.a == p.textSecondary.a == 255
    ensures p.placeholderBg.a == p.placeholderBorder.a == p.placeholderIcon.a == 255
    ensures p.buttonBg.a == p.buttonHover.a == 255
    ensures isDark <==> Brightness(p.textPrimary) > Brightness(p.bgColor1)
  {
    if isDark then
      ThemeColors(
        Color(30, 30, 35, 255),
        Color(15, 15, 20, 255),
        Color(240, 240, 245, 255),
        Color(160, 160, 170, 255),
        Color(40, 40, 45, 255),
        Color(80, 80, 85, 255),
        Color(100, 100, 105, 255),
        Color(50, 50, 55, 255),
        Color(70, 70, 75, 255))
    else
      ThemeColors(
        Color(245, 245, 250, 255),
        Color(230, 230, 240, 255),
        Color(20, 20, 25, 255),
        Color(80, 80, 90, 255),
        Color(220, 220, 230, 255),
        Color(180, 180, 190, 255),
        Color(150, 150, 160, 255),
        Color(210, 210, 220, 255),
        Color(190, 190, 200, 255))
  }

  /** A grey-level measure of a colour (sum of its three channels). */
  function Brightness(c: Color): int
  {
    c.r + c.g + c.b
  }

  /** The two palettes differ in every role, and every colour is fully opaque. */
  lemma PalettesDiffer(role: nat)
    requires role < 9
    ensures var dark, light := GetThemeColors(true), GetThemeColors(false);
      var pick := (p: ThemeColors) =>
        [p.bgColor1, p.bgColor2, p.textPrimary, p.textSecondary, p.placeholderBg,
         p.placeholderBorder, p.placeholderIcon, p.buttonBg, p.buttonHover][role];
      pick(dark) != pick(light) && pick(dark).a == 255 && pick(light).a == 255
  {
  }

  /** Text is lighter than both background stops in the dark theme and darker in the light one. */
  lemma TextContrastsWithBackground(isDark: bool)
    ensures var p := GetThemeColors(isDark);
      forall text | text == p.textPrimary || text == p.textSecondary ::
        if isDark then Brightness(text) > Brightness(p.bgColor1) && Brightness(text) > Brightness(p.bgColor2)
        else Brightness(text) < Brightness(p.bgColor1) && Brightness(text) < Brightness(p.bgColor2)
  {
  }

  const ButtonSize: int := 40
  const ButtonMargin: int := 15

  /**
   * Whether the pointer is over the toggle button in the window's bottom-right corner: the
   * closed square 55..15 pixels in from the right and bottom edges.
   */
  function IsHovering(windowWidth: int, windowHeight: int, x: real, y: real): (hovering: bool)
    ensures hovering <==>
      (windowWidth - 55) as real <= x <= (windowWidth - 15) as real &&
      (windowHeight - 55) as real <= y <= (windowHeight - 15) as real
  {
    var buttonX := windowWidth - ButtonSize - ButtonMargin;
    var buttonY := windowHeight - ButtonSize - ButtonMargin;
    x >= buttonX as real && x <= (buttonX + ButtonSize) as real &&
    y >= buttonY as real && y <= (buttonY + ButtonSize) as real
  }

  /** The flag after this frame's input: flipped exactly when a press lands on the button. */
  function NextDarkMode(isDark: bool, hovering: bool, pressed: bool): (r: bool)
    ensures r != isDark <==> hovering && pressed
  {
    if hovering && pressed then !isDark else isDark
  }

  /** Two presses on the button give back the theme and palette one started with. */
  lemma ToggleTwiceRestores(isDark: bool)
    ensures NextDarkMode(NextDarkMode(isDark, true, true), true, true) == isDark
    ensures GetThemeColors(NextDarkMode(isDark, true, true)) == GetThemeColors(!isDark)
  {
  }
}
