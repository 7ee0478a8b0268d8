/**
 * The decisions inside the settings panel builder `SettingsMenuCreator`
 * (SettingsMenuCreator.cs): the options and the initial selection of the
 * resolution and quality dropdowns, and when the panel is built, shown or
 * hidden.
 *
 * The engine's current screen size, quality names and quality level are
 * parameters. A dropdown is modelled by its option texts and its selected
 * index.
 */
module SettingsMenu {
  import opened Display

  /** The resolutions the panel offers unless the inspector changes them. */
  const DefaultResolutions: seq<Resolution> :=
    [Resolution(1920, 1080), Resolution(1280, 720), Resolution(1366, 768), Resolution(1600, 900)]

  /** The option text of a resolution: "<width> × <height>". */
  function OptionText(r: Resolution): string
  {
    DecimalString(r.width) + " × " + DecimalString(r.height)
  }

  /** `options` holds one text per resolution, in the same order. */
  ghost predicate ListsResolutions(resolutions: seq<Resolution>, options: seq<string>)
  {
    |options| == |resolutions| &&
    forall i :: 0 <= i < |resolutions| ==> options[i] == OptionText(resolutions[i])
  }

  /**
   * `index` is the initial selection for the current screen size: the last
   * entry equal to it, or 0 when there is none.
   */
  ghost predicate SelectsScreen(resolutions: seq<Resolution>, screen: Resolution, index: int)
  {
    && 0 <= index
    && (|resolutions| > 0 ==> index < |resolutions|)
    && ((forall i :: 0 <= i < |resolutions| ==> resolutions[i] != screen) ==> index == 0)
    && ((exists i :: 0 <= i < |resolutions| && resolutions[i] == screen) ==>
          resolutions[index] == screen &&
          forall j :: index < j < |resolutions| ==> resolutions[j] != screen)
  }

  /**
   * The loop of `AddResolutionDropdown`: one option per resolution, and the
   * index of the entry that matches the screen's width and height.
   */
  method ResolutionOptions(resolutions: seq<Resolution>, screen: Resolution)
    returns (options: seq<string>, current: int)
    ensures ListsResolutions(resolutions, options)
    ensures SelectsScreen(resolutions, screen, current)
  {
    options := [];
    current := 0;
    for i := 0 to |resolutions|
      invariant ListsResolutions(resolutions[..i], options)
      invariant 0 <= current && (i > 0 ==> current < i)
      invariant current == 0 || (current < i && resolutions[current] == screen)
      invariant forall j :: current < j < i ==> resolutions[j] != screen
    {
      options := options + [OptionText(resolutions[i])];
      if screen.width == resolutions[i].width && screen.height == resolutions[i].height {
        current := i;
      }
    }
    assert resolutions[..|resolutions|] == resolutions;
  }

  /** The loop of `AddQualityDropdown`: the quality names in order, and the current level selected. */
  method QualityOptions(qualityNames: seq<string>, qualityLevel: int)
    returns (options: seq<string>, value: int)
    ensures options == qualityNames
    ensures value == qualityLevel
  {
    options := [];
    for i := 0 to |qualityNames|
      invariant options == qualityNames[..i]
    {
      options := options + [qualityNames[i]];
    }
    assert qualityNames[..|qualityNames|] == qualityNames;
    value := qualityLevel;
  }

  /** The settings panel with the two dropdowns it holds. */
  class SettingsPanel {
    var active: bool
    var resolutionOptions: seq<string>
    var resolutionValue: int
    var qualityOptions: seq<string>
    var qualityValue: int

    constructor ()
      ensures active
      ensures resolutionOptions == [] && resolutionValue == 0
      ensures qualityOptions == [] && qualityValue == 0
    {
      active := true;
      resolutionOptions, resolutionValue := [], 0;
      qualityOptions, qualityValue := [], 0;
    }
  }

  class SettingsMenuCreator {
    var resolutions: seq<Resolution>
    var settingsPanel: SettingsPanel?

    constructor ()
      ensures resolutions == DefaultResolutions && settingsPanel == null
    {
      resolutions := DefaultResolutions;
      settingsPanel := null;
    }

    /** `panel` shows the dropdowns built for this screen and these quality settings. */
    ghost predicate Built(panel: SettingsPanel, screen: Resolution, qualityNames: seq<string>, qualityLevel: int)
      reads this, panel
    {
      && ListsResolutions(resolutions, panel.resolutionOptions)
      && SelectsScreen(resolutions, screen, panel.resolutionValue)
      && panel.qualityOptions == qualityNames
      && panel.qualityValue == qualityLevel
    }

    /** Builds a new, active panel with both dropdowns filled in. */
    method CreateSettingsPanel(screen: Resolution, qualityNames: seq<string>, qualityLevel: int)
      modifies this`settingsPanel
      ensures settingsPanel != null && fresh(settingsPanel) && settingsPanel.active
      ensures Built(settingsPanel, screen, qualityNames, qualityLevel)
    {
      var panel := new SettingsPanel();
      panel.resolutionOptions, panel.resolutionValue := ResolutionOptions(resolutions, screen);
      panel.qualityOptions, panel.qualityValue := QualityOptions(qualityNames, qualityLevel);
      settingsPanel := panel;
    }

    /** Builds the panel up front and hides it. */
    method Start(screen: Resolution, qualityNames: seq<string>, qualityLevel: int)
      modifies this`settingsPanel
      ensures settingsPanel != null && fresh(settingsPanel) && !settingsPanel.active
      ensures Built(settingsPanel, screen, qualityNames, qualityLevel)
    {
      CreateSettingsPanel(screen, qualityNames, qualityLevel);
      settingsPanel.active := false;
    }

    /**
     * Shows the existing panel, or builds one (which starts active) if there
     * is none. An existing panel keeps the options and selections it was
     * built with, even if the screen or quality has changed since.
     */
    method OpenSettings(screen: Resolution, qualityNames: seq<string>, qualityLevel: int)
      modifies this`settingsPanel, settingsPanel
      ensures settingsPanel != null && settingsPanel.active
      ensures old(settingsPanel) != null ==> settingsPanel == old(settingsPanel)
      ensures old(settingsPanel) != null ==>
        settingsPanel.resolutionOptions == old(settingsPanel.resolutionOptions) &&
        settingsPanel.resolutionValue == old(settingsPanel.resolutionValue) &&
        settingsPanel.qualityOptions == old(settingsPanel.qualityOptions) &&
        settingsPanel.qualityValue == old(settingsPanel.qualityValue)
      ensures old(settingsPanel) == null ==>
        fresh(settingsPanel) && Built(settingsPanel, screen, qualityNames, qualityLevel)
    {
      if settingsPanel != null {
        settingsPanel.active := true;
      } else {
        CreateSettingsPanel(screen, qualityNames, qualityLevel);
      }
    }

    /** The close, apply and cancel buttons hide the panel and leave its dropdowns as they are. */
    method CloseSettings()
      requires settingsPanel != null
      modifies settingsPanel`active
      ensures !settingsPanel.active
      ensures settingsPanel.resolutionOptions == old(settingsPanel.resolutionOptions)
      ensures settingsPanel.resolutionValue == old(settingsPanel.resolutionValue)
      ensures settingsPanel.qualityOptions == old(settingsPanel.qualityOptions)
      ensures settingsPanel.qualityValue == old(settingsPanel.qualityValue)
    {
      settingsPanel.active := false;
    }
  }
}
