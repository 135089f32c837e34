/**
 The theme provider as a two-state machine over the light and dark palettes:
 the initial palette follows the system colour scheme, the user toggle flips
 it, and a system appearance change forces it. The dashboard's dark-mode
 switch reads the palette's background colour.
 */
module Theme {
  import opened Wrappers

  datatype Palette = Palette(background: string, text: string, inputBackground: string, button: string)

  const LightTheme: Palette := Palette("#ffffff", "#000000", "#f0f0f0", "#007bff")
  const DarkTheme: Palette := Palette("#000000", "#ffffff", "#333333", "#1e90ff")

  /** The palette is one of the two the provider defines. */
  predicate IsTheme(p: Palette)
  {
    p == LightTheme || p == DarkTheme
  }

  /** The palette for a reported colour scheme (`None` when the system reports none). */
  function PaletteFor(scheme: Option<string>): (r: Palette)
    ensures IsTheme(r)
    ensures r == DarkTheme <==> scheme == Some("dark")
  {
    if scheme == Some("dark") then DarkTheme else LightTheme
  }

  /** The provider's first palette follows the system scheme at start-up. */
  function InitialTheme(scheme: Option<string>): (r: Palette)
    ensures IsTheme(r)
    ensures r == DarkTheme <==> scheme == Some("dark")
    ensures r == LightTheme <==> scheme != Some("dark")
  {
    PaletteFor(scheme)
  }

  /** `toggleTheme`: the light palette becomes dark, anything else becomes light. */
  function ToggleTheme(p: Palette): (r: Palette)
    ensures IsTheme(r)
    ensures r == DarkTheme <==> p == LightTheme
  {
    if p == LightTheme then DarkTheme else LightTheme
  }

  /** Toggling twice returns to the palette one started from. */
  lemma ToggleTwice(p: Palette)
    requires IsTheme(p)
    ensures ToggleTheme(ToggleTheme(p)) == p
  {
  }

  /** The appearance listener: the new scheme decides the palette, whatever it was before. */
  function OnAppearanceChange(p: Palette, scheme: Option<string>): (r: Palette)
    ensures IsTheme(r)
    ensures r == DarkTheme <==> scheme == Some("dark")
  {
    PaletteFor(scheme)
  }

  /** The dashboard's dark-mode switch: on when the background is black. */
  predicate DarkModeSwitchOn(p: Palette)
  {
    p.background == "#000000"
  }

  /** On the provider's palettes, the switch is on exactly for the dark one. */
  lemma SwitchMeansDark(p: Palette)
    requires IsTheme(p)
    ensures DarkModeSwitchOn(p) <==> p == DarkTheme
  {
  }

  /** Each toggle flips the dark-mode switch. */
  lemma ToggleFlipsSwitch(p: Palette)
    requires IsTheme(p)
    ensures DarkModeSwitchOn(ToggleTheme(p)) == !DarkModeSwitchOn(p)
  {
  }

  /** What can happen to the provider after start-up. */
  datatype ThemeEvent = UserToggle | SchemeChanged(scheme: Option<string>)

  function Step(p: Palette, e: ThemeEvent): Palette
  {
    match e
    case UserToggle => ToggleTheme(p)
    case SchemeChanged(scheme) => OnAppearanceChange(p, scheme)
  }

  /** The palette after a run of events, oldest first. */
  function Run(p: Palette, events: seq<ThemeEvent>): Palette
    decreases |events|
  {
    if |events| == 0 then p else Run(Step(p, events[0]), events[1..])
  }

  /**
   From start-up on, whatever events arrive, the palette is one of the two
   themes, and so the switch reads dark exactly when the dark palette is active.
   */
  lemma {:induction false} AlwaysATheme(p: Palette, events: seq<ThemeEvent>)
    requires IsTheme(p)
    ensures IsTheme(Run(p, events))
    ensures DarkModeSwitchOn(Run(p, events)) <==> Run(p, events) == DarkTheme
    decreases |events|
  {
    if |events| > 0 {
      AlwaysATheme(Step(p, events[0]), events[1..]);
    }
  }
}
