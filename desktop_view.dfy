/** The desktop layout's keyboard shortcuts: Space starts or pauses the run,
    R resets it, D toggles dark mode. */
module DesktopView {
  import opened Types
  import opened RunContext

  /** The theme flag; its provider is not part of this model, only the
      toggle it offers. */
  class Theme {
    var darkMode: bool

    constructor (darkMode: bool)
      ensures this.darkMode == darkMode
    {
      this.darkMode := darkMode;
    }

    method ToggleDarkMode()
      modifies this
      ensures darkMode == !old(darkMode)
    {
      darkMode := !darkMode;
    }
  }

  /** The `keydown` handler, keyed on the event's `code`. */
  method HandleKeyDown(run: RunProvider, theme: Theme, code: string)
    requires run.Valid()
    modifies run, theme
    ensures run.Valid()
    ensures code == "Space" ==>
      && run.runData == old(run.runData).(time := old(run.runData.time).(isRunning := !old(run.runData.time.isRunning)))
      && theme.darkMode == old(theme.darkMode)
    ensures code == "KeyR" ==> run.runData == InitialRunData && theme.darkMode == old(theme.darkMode)
    ensures code == "KeyD" ==> run.runData == old(run.runData) && theme.darkMode == !old(theme.darkMode)
    ensures code != "Space" && code != "KeyR" && code != "KeyD" ==>
      run.runData == old(run.runData) && theme.darkMode == old(theme.darkMode)
  {
    if code == "Space" {
      if run.runData.time.isRunning {
        run.PauseRun();
      } else {
        run.StartRun();
      }
    }

    if code == "KeyR" {
      run.ResetRun();
    }

    if code == "KeyD" {
      theme.ToggleDarkMode();
    }
  }

  /** Two Space presses in a row leave the run record and the theme as
      they were. */
  method SpaceTwiceRestores(run: RunProvider, theme: Theme)
    requires run.Valid()
    modifies run, theme
    ensures run.Valid()
    ensures run.runData == old(run.runData) && theme.darkMode == old(theme.darkMode)
  {
    HandleKeyDown(run, theme, "Space");
    HandleKeyDown(run, theme, "Space");
  }
}
