/** The day/night switch: the next theme and the icon shown for each. */
module ThemeToggle {
  import opened Types

  datatype Icon = Moon | Sun

  /** The theme the button switches to: the other one. */
  function NextTheme(theme: Theme): (next: Theme)
    ensures next != theme
    ensures theme == Light <==> next == Dark
  {
    if theme == Light then Dark else Light
  }

  /** Switching twice comes back to the start. */
  lemma NextThemeInvolution(theme: Theme)
    ensures NextTheme(NextTheme(theme)) == theme
  {
  }

  /** The button shows the moon in the light theme and the sun in the dark
      one, that is, the icon of the theme it switches to. */
  function ThemeIcon(theme: Theme): (icon: Icon)
    ensures icon == Moon <==> theme == Light
    ensures icon == Moon <==> NextTheme(theme) == Dark
  {
    if theme == Light then Moon else Sun
  }
}
