/**
 * The colour-mode hook: a light/dark mode that starts dark, a toggle that flips it, and a theme
 * whose palette follows the mode.
 */
module ColorMode {

  datatype Mode = Light | Dark

  /** `prevMode === 'light' ? 'dark' : 'light'` */
  function Toggled(mode: Mode): (r: Mode)
    ensures r != mode
  {
    if mode == Light then Dark else Light
  }

  /** Toggling twice gives back the mode one started from. */
  lemma ToggleTwice(mode: Mode)
    ensures Toggled(Toggled(mode)) == mode
  {
  }

  /** The mode after `n` toggles from `mode`. */
  function ToggledTimes(mode: Mode, n: nat): Mode {
    if n == 0 then mode else Toggled(ToggledTimes(mode, n - 1))
  }

  /** After an even number of toggles the mode is the one started from, after an odd number the other. */
  lemma {:induction false} ToggleParity(mode: Mode, n: nat)
    ensures ToggledTimes(mode, n) == if n % 2 == 0 then mode else Toggled(mode)
  {
    if n > 0 {
      ToggleParity(mode, n - 1);
      ToggleTwice(mode);
    }
  }

  /** The part of the created theme the hook sets. */
  datatype Palette = Palette(mode: Mode)
  datatype Theme = Theme(palette: Palette)

  class ColorModeState {
    var mode: Mode

    /** `useState<ColorMode>('dark')` */
    constructor()
      ensures mode == Dark
    {
      mode := Dark;
    }

    /** `toggleColorMode` */
    method ToggleColorMode()
      modifies this
      ensures mode == Toggled(old(mode))
    {
      mode := if mode == Light then Dark else Light;
    }

    /** `createTheme({ palette: { mode } })`: the theme's palette is in the current mode. */
    function CurrentTheme(): (theme: Theme)
      reads this
      ensures theme.palette.mode == mode
    {
      Theme(Palette(mode))
    }
  }
}
