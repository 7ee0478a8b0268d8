/**
 * The decisions inside the main menu builder `CompleteMenuCreator`
 * (MenuCreator.cs): which resolution the "resolution" button switches to,
 * which quality level the "quality" button switches to, and when the
 * settings panel is created.
 *
 * The engine's screen and quality settings are parameters; the functions
 * return the value the script hands to `Screen.SetResolution` or
 * `QualitySettings.SetQualityLevel`.
 */
module MainMenu {
  import opened Wrappers
  import opened Display

  /** The four resolutions the toggle cycles through. */
  const ToggleResolutions: seq<Resolution> :=
    [Resolution(1920, 1080), Resolution(1280, 720), Resolution(1366, 768), Resolution(1600, 900)]

  predicate IsToggleWidth(width: int)
  {
    width == 1280 || width == 1366 || width == 1600 || width == 1920
  }

  /**
   * The resolution `ToggleResolution` switches to, chosen by the current
   * screen width alone: 1920 -> 1280x720, 1280 -> 1366x768,
   * 1366 -> 1600x900, anything else -> 1920x1080.
   */
  function NextResolution(width: int): (r: Resolution)
    ensures r in ToggleResolutions && IsToggleWidth(r.width)
    ensures r.width == 1920 <==> !(width == 1920 || width == 1280 || width == 1366)
    ensures r.width != width
    ensures width == 1920 ==> r == Resolution(1280, 720)
    ensures width == 1280 ==> r == Resolution(1366, 768)
    ensures width == 1366 ==> r == Resolution(1600, 900)
    ensures !(width == 1920 || width == 1280 || width == 1366) ==> r == Resolution(1920, 1080)
  {
    if width == 1920 then Resolution(1280, 720)
    else if width == 1280 then Resolution(1366, 768)
    else if width == 1366 then Resolution(1600, 900)
    else Resolution(1920, 1080)
  }

  /**
   * The screen width after `k` presses of the resolution button, assuming
   * each `Screen.SetResolution` request takes effect before the next press,
   * so that `Screen.width` then reads back the width that was requested.
   */
  function WidthAfterToggles(width: int, k: nat): int
    decreases k
  {
    if k == 0 then width else WidthAfterToggles(NextResolution(width).width, k - 1)
  }

  lemma {:induction false} WidthAfterTogglesSplit(width: int, a: nat, b: nat)
    decreases a
    ensures WidthAfterToggles(width, a + b) == WidthAfterToggles(WidthAfterToggles(width, a), b)
  {
    if a > 0 {
      WidthAfterTogglesSplit(NextResolution(width).width, a - 1, b);
    }
  }

  /** From any width, every press lands on one of the four toggle widths. */
  lemma {:induction false} TogglesStayInCycle(width: int, k: nat)
    requires k > 0 || IsToggleWidth(width)
    decreases k
    ensures IsToggleWidth(WidthAfterToggles(width, k))
  {
    if k > 0 {
      var next := NextResolution(width).width;
      if k > 1 {
        TogglesStayInCycle(next, k - 1);
      }
    }
  }

  /** From a toggle width, four presses come back to it, and so do 4m presses. */
  lemma {:induction false} FourTogglesReturn(width: int, m: nat)
    requires IsToggleWidth(width)
    ensures WidthAfterToggles(width, 4 * m) == width
  {
    if m > 0 {
      WidthAfterTogglesSplit(width, 4, 4 * (m - 1));
      assert WidthAfterToggles(width, 4) == width;
      FourTogglesReturn(width, m - 1);
    }
  }

  /** C#'s `%` on `int`: the remainder takes the sign of the dividend. */
  function CSharpRemainder(a: int, b: int): (r: int)
    requires b != 0
    ensures a >= 0 ==> 0 <= r < if b > 0 then b else -b
    ensures a < 0 ==> -(if b > 0 then b else -b) < r <= 0
    ensures a >= 0 && b > 0 ==> r == a % b
  {
    var m := if b > 0 then b else -b;
    if a >= 0 then a % m else -((-a) % m)
  }

  /**
   * The quality level `CycleQuality` switches to, given the current level and
   * the number of quality levels; `None` stands for the division by zero
   * that `%` raises when there are no levels.
   */
  function NextQualityLevel(current: int, count: int): (r: Option<int>)
    ensures r.None? <==> count == 0
    ensures count > 0 && current + 1 >= 0 ==> r == Some((current + 1) % count)
    ensures count > 0 && current + 1 >= 0 ==> 0 <= r.value < count
  {
    if count == 0 then None else Some(CSharpRemainder(current + 1, count))
  }

  /** Below the last level, the next level is one up. */
  lemma QualityClimbs(current: int, count: int)
    requires 0 <= current < count - 1
    ensures NextQualityLevel(current, count) == Some(current + 1)
  {
  }

  /** The last level wraps round to the first. */
  lemma QualityWraps(count: int)
    requires count > 0
    ensures NextQualityLevel(count - 1, count) == Some(0)
  {
  }

  /** The quality level after `k` presses of the quality button. */
  function LevelAfterCycles(current: int, count: int, k: nat): (level: int)
    requires count > 0 && 0 <= current < count
    decreases k
    ensures 0 <= level < count
  {
    if k == 0 then current
    else LevelAfterCycles(NextQualityLevel(current, count).value, count, k - 1)
  }

  lemma {:induction false} LevelAfterCyclesSplit(current: int, count: int, a: nat, b: nat)
    requires count > 0 && 0 <= current < count
    decreases a
    ensures LevelAfterCycles(current, count, a + b)
         == LevelAfterCycles(LevelAfterCycles(current, count, a), count, b)
  {
    if a > 0 {
      LevelAfterCyclesSplit(NextQualityLevel(current, count).value, count, a - 1, b);
    }
  }

  /** Below the last level, each press moves one level up. */
  lemma {:induction false} LevelsClimb(current: int, count: int, k: nat)
    requires 0 <= current && current + k < count
    decreases k
    ensures LevelAfterCycles(current, count, k) == current + k
  {
    if k > 0 {
      QualityClimbs(current, count);
      LevelsClimb(current + 1, count, k - 1);
    }
  }

  /** `count` presses bring the quality back to where it started. */
  lemma CyclingAllLevelsReturns(current: int, count: int)
    requires count > 0 && 0 <= current < count
    ensures LevelAfterCycles(current, count, count) == current
  {
    var toTop := count - 1 - current;
    LevelsClimb(current, count, toTop);
    LevelAfterCyclesSplit(current, count, toTop, 1 + current);
    LevelAfterCyclesSplit(count - 1, count, 1, current);
    QualityWraps(count);
    LevelsClimb(0, count, current);
  }

  /** A panel object in the scene; a new one is active. */
  class Panel {
    var active: bool

    constructor ()
      ensures active
    {
      active := true;
    }
  }

  class CompleteMenuCreator {
    var settingsPanel: Panel?

    constructor ()
      ensures settingsPanel == null
    {
      settingsPanel := null;
    }

    /** Builds the settings panel and keeps it in `settingsPanel`. */
    method CreateSettingsMenu()
      modifies this
      ensures settingsPanel != null && fresh(settingsPanel) && settingsPanel.active
    {
      settingsPanel := new Panel();
    }

    /** Shows the settings panel, building it on first use only. */
    method OpenSettingsMenu()
      modifies this, settingsPanel
      ensures settingsPanel != null && settingsPanel.active
      ensures old(settingsPanel) != null ==> settingsPanel == old(settingsPanel)
      ensures old(settingsPanel) == null ==> fresh(settingsPanel)
    {
      if settingsPanel == null {
        CreateSettingsMenu();
      }
      settingsPanel.active := true;
    }

    /** The close and apply buttons hide the panel. */
    method CloseSettingsMenu()
      requires settingsPanel != null
      modifies settingsPanel
      ensures !settingsPanel.active
    {
      settingsPanel.active := false;
    }

    /** The reset button hides the current panel and builds a new one in its place. */
    method ResetSettingsMenu()
      requires settingsPanel != null
      modifies this, settingsPanel
      ensures !old(settingsPanel).active
      ensures settingsPanel != null && fresh(settingsPanel) && settingsPanel.active
    {
      settingsPanel.active := false;
      CreateSettingsMenu();
    }
  }

  /** Two openings in a row leave the one panel showing: the second builds nothing. */
  method OpenTwice(menu: CompleteMenuCreator) returns (first: Panel, second: Panel)
    modifies menu, menu.settingsPanel
    ensures first == second && second.active
    ensures old(menu.settingsPanel) != null ==> first == old(menu.settingsPanel)
  {
    menu.OpenSettingsMenu();
    first := menu.settingsPanel;
    menu.OpenSettingsMenu();
    second := menu.settingsPanel;
  }
}
