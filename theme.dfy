/**
 * The theme store: the colour scheme and dark mode, the theme colours, the
 * watermark (its content, its two mutually exclusive flags and its clock),
 * and colour updates. Colour arithmetic is the opaque `palette` function;
 * CSS variables, storage and time formatting are not modelled.
 */
module Theme {
  import opened Seqs

  /** The keys `updateThemeColors` accepts. */
  datatype ColorKey = Primary | Info | Success | Warning | Error

  /** `otherColor` */
  datatype OtherColor = OtherColor(info: string, success: string, warning: string, error: string)

  /** `themeColors`: the primary colour with the other colours. */
  datatype ThemeColors = ThemeColors(primary: string, info: string, success: string, warning: string, error: string)

  datatype Watermark = Watermark(visible: bool, text: string, enableUserName: bool, enableTime: bool, timeFormat: string)

  /** The part of `ThemeSetting` the store's logic reads and writes. */
  datatype Settings = Settings(
    themeScheme: string,
    grayscale: bool,
    colourWeakness: bool,
    recommendColor: bool,
    themeColor: string,
    otherColor: OtherColor,
    isInfoFollowPrimary: bool,
    layoutMode: string,
    scrollMode: string,
    watermark: Watermark)

  /** `themeSettings`, the defaults. */
  const DefaultSettings := Settings(
    "light", false, false, false, "#646cff",
    OtherColor("#2080f0", "#52c41a", "#faad14", "#f5222d"),
    true, "vertical", "content",
    Watermark(false, "Trix Admin", false, false, "YYYY-MM-DD HH:mm"))

  const Schemes := ["light", "dark", "auto"]

  /** `darkMode`: the OS preference under `'auto'`, else whether the scheme is `'dark'`. */
  function DarkMode(s: Settings, osDark: bool): bool {
    if s.themeScheme == "auto" then osDark else s.themeScheme == "dark"
  }

  /** `themeColors` */
  function ColorsOf(s: Settings): ThemeColors {
    ThemeColors(
      s.themeColor,
      if s.isInfoFollowPrimary then s.themeColor else s.otherColor.info,
      s.otherColor.success, s.otherColor.warning, s.otherColor.error)
  }

  /** `watermarkContent`, given the formatted current time. */
  function WatermarkContent(s: Settings, formattedTime: string): string {
    if s.watermark.enableUserName then "Trix User"
    else if s.watermark.enableTime then formattedTime
    else s.watermark.text
  }

  /** The scheme `toggleThemeScheme` moves to. */
  function NextScheme(scheme: string): (r: string)
    ensures r in Schemes
  {
    var index := IndexOf(Schemes, scheme);
    var nextIndex := if index == |Schemes| - 1 then 0 else index + 1;
    Schemes[nextIndex]
  }

  /** The watermark clock runs exactly while the watermark shows the time. */
  predicate TimerShouldRun(w: Watermark) {
    w.visible && w.enableTime
  }

  /** `updateThemeColors` on the settings. */
  function WithColor(s: Settings, key: ColorKey, color: string, palette: string -> string): Settings {
    var value := if s.recommendColor then palette(color) else color;
    match key
    case Primary => s.(themeColor := value)
    case Info => s.(otherColor := s.otherColor.(info := value))
    case Success => s.(otherColor := s.otherColor.(success := value))
    case Warning => s.(otherColor := s.otherColor.(warning := value))
    case Error => s.(otherColor := s.otherColor.(error := value))
  }

  /**
   * The settings `d` with the nested objects of `s`: `otherColor`, `layout`
   * (its `mode` and `scrollMode`) and `watermark`. A shallow spread copies
   * the other fields and shares these objects.
   */
  function Shared(s: Settings, d: Settings): Settings {
    d.(otherColor := s.otherColor, layoutMode := s.layoutMode, scrollMode := s.scrollMode, watermark := s.watermark)
  }

  /** Dark mode follows the OS only under `'auto'`; otherwise it is `'dark'` and nothing else. */
  lemma DarkModeSpec(s: Settings, osDark: bool)
    ensures s.themeScheme == "auto" ==> DarkMode(s, osDark) == osDark
    ensures s.themeScheme != "auto" ==> (DarkMode(s, osDark) <==> s.themeScheme == "dark")
    ensures s.themeScheme != "auto" ==> DarkMode(s, true) == DarkMode(s, false)
  { }

  /** The primary colour is the theme colour; info follows it exactly when configured to. */
  lemma ColorsSpec(s: Settings)
    ensures ColorsOf(s).primary == s.themeColor
    ensures s.isInfoFollowPrimary ==> ColorsOf(s).info == s.themeColor
    ensures !s.isInfoFollowPrimary ==> ColorsOf(s).info == s.otherColor.info
  { }

  /** The user name wins over the time, and the time over the text. */
  lemma WatermarkContentSpec(s: Settings, t: string)
    ensures s.watermark.enableUserName ==> WatermarkContent(s, t) == "Trix User"
    ensures !s.watermark.enableUserName && s.watermark.enableTime ==> WatermarkContent(s, t) == t
    ensures !s.watermark.enableUserName && !s.watermark.enableTime ==> WatermarkContent(s, t) == s.watermark.text
  { }

  /** Light goes to dark, dark to auto, auto back to light, and anything else to light; three toggles come back. */
  lemma NextSchemeSpec(scheme: string)
    ensures NextScheme("light") == "dark" && NextScheme("dark") == "auto" && NextScheme("auto") == "light"
    ensures scheme !in Schemes ==> NextScheme(scheme) == "light"
    ensures scheme in Schemes ==> NextScheme(NextScheme(NextScheme(scheme))) == scheme
  {
    assert Schemes[0] == "light" && Schemes[1] == "dark" && Schemes[2] == "auto";
  }

  /**
   * `updateThemeColors` writes the theme colour for `'primary'` and the
   * matching other colour otherwise, through the palette only when
   * `recommendColor` is on, and touches nothing else.
   */
  lemma WithColorSpec(s: Settings, key: ColorKey, color: string, palette: string -> string)
    ensures var r := WithColor(s, key, color, palette);
      var value := if s.recommendColor then palette(color) else color;
      && (key == Primary ==> r.themeColor == value && r.otherColor == s.otherColor)
      && (key != Primary ==> r.themeColor == s.themeColor)
      && (key == Info ==> r.otherColor.info == value)
      && ColorsOf(r).success == (if key == Success then value else s.otherColor.success)
      && r.(themeColor := s.themeColor, otherColor := s.otherColor) == s
  { }

  class ThemeStore {
    var settings: Settings
    /**
     * The module-level `themeSettings` object. `settings` starts as its
     * shallow spread, so until the first reset the nested objects are the
     * same objects and a write to one is a write to the other.
     */
    var defaults: Settings
    /** Whether the nested objects of `settings` are still those of `defaults`. */
    var sharesDefaults: bool
    /** The OS colour-scheme preference. */
    var osDark: bool
    /** Whether the watermark clock (`useNow` with controls) is running. */
    var timerRunning: bool
    /** `getPaletteColorByNumber(_, 500)` */
    const palette: string -> string

    /**
     * Both watermark flags are never on together, and the clock runs exactly
     * when the time shows. Nothing writes the top-level fields of the
     * defaults, and while the nested objects are shared they agree.
     */
    predicate Valid()
      reads this
    {
      && !(settings.watermark.enableUserName && settings.watermark.enableTime)
      && !(defaults.watermark.enableUserName && defaults.watermark.enableTime)
      && timerRunning == TimerShouldRun(settings.watermark)
      && defaults == Shared(defaults, DefaultSettings)
      && (sharesDefaults ==> defaults == Shared(settings, DefaultSettings))
    }

    /** The defaults are as the module declares them and no setter of this store can reach them. */
    predicate Pristine()
      reads this
    {
      !sharesDefaults && defaults == DefaultSettings
    }

    /** `settings.value.<nested>.<field> = …` also writes the defaults while the objects are shared. */
    predicate NestedWrite(oldDefaults: Settings, oldShares: bool)
      reads this
    {
      && sharesDefaults == oldShares
      && defaults == (if oldShares then Shared(settings, oldDefaults) else oldDefaults)
    }

    /** `ref({ ...defaultThemeSettings })`: the settings share their nested objects with the defaults. */
    constructor(osDark: bool, palette: string -> string)
      ensures settings == DefaultSettings && defaults == DefaultSettings && sharesDefaults
      ensures this.osDark == osDark && this.palette == palette && !timerRunning
      ensures Valid()
    {
      settings := DefaultSettings;
      defaults := DefaultSettings;
      sharesDefaults := true;
      this.osDark := osDark;
      this.palette := palette;
      timerRunning := false;
    }

    /** A store whose settings start as a deep copy of the defaults, as `resetStore` makes them. */
    constructor Isolated(osDark: bool, palette: string -> string)
      ensures settings == DefaultSettings && Pristine()
      ensures this.osDark == osDark && this.palette == palette && !timerRunning
      ensures Valid()
    {
      settings := DefaultSettings;
      defaults := DefaultSettings;
      sharesDefaults := false;
      this.osDark := osDark;
      this.palette := palette;
      timerRunning := false;
    }

    function IsDarkMode(): bool
      reads this
    {
      DarkMode(settings, osDark)
    }

    method SetThemeScheme(scheme: string)
      requires Valid()
      modifies this
      ensures settings == old(settings).(themeScheme := scheme) && osDark == old(osDark) && timerRunning == old(timerRunning)
      ensures defaults == old(defaults) && sharesDefaults == old(sharesDefaults)
      ensures Valid()
    {
      settings := settings.(themeScheme := scheme);
    }

    method SetGrayscale(isGrayscale: bool)
      requires Valid()
      modifies this
      ensures settings == old(settings).(grayscale := isGrayscale) && osDark == old(osDark) && timerRunning == old(timerRunning)
      ensures defaults == old(defaults) && sharesDefaults == old(sharesDefaults)
      ensures Valid()
    {
      settings := settings.(grayscale := isGrayscale);
    }

    method SetColourWeakness(isColourWeakness: bool)
      requires Valid()
      modifies this
      ensures settings == old(settings).(colourWeakness := isColourWeakness) && osDark == old(osDark) && timerRunning == old(timerRunning)
      ensures defaults == old(defaults) && sharesDefaults == old(sharesDefaults)
      ensures Valid()
    {
      settings := settings.(colourWeakness := isColourWeakness);
    }

    /** `toggleThemeScheme`: the `findIndex` in the cycle and the step to the next entry. */
    method ToggleThemeScheme()
      requires Valid()
      modifies this
      ensures settings == old(settings).(themeScheme := NextScheme(old(settings).themeScheme))
      ensures osDark == old(osDark) && timerRunning == old(timerRunning)
      ensures defaults == old(defaults) && sharesDefaults == old(sharesDefaults)
      ensures Valid()
    {
      var index := IndexOf(Schemes, settings.themeScheme);
      var nextIndex := if index == |Schemes| - 1 then 0 else index + 1;
      SetThemeScheme(Schemes[nextIndex]);
    }

    method UpdateThemeColors(key: ColorKey, color: string)
      requires Valid()
      modifies this
      ensures settings == WithColor(old(settings), key, color, palette)
      ensures osDark == old(osDark) && timerRunning == old(timerRunning)
      ensures NestedWrite(old(defaults), old(sharesDefaults))
      ensures Valid()
    {
      var colorValue := color;
      if settings.recommendColor {
        colorValue := palette(color);
      }
      if key == Primary {
        settings := settings.(themeColor := colorValue);
      } else {
        var o := settings.otherColor;
        var o' := match key
          case Info => o.(info := colorValue)
          case Success => o.(success := colorValue)
          case Warning => o.(warning := colorValue)
          case Error => o.(error := colorValue)
          case Primary => o;
        settings := settings.(otherColor := o');
      }
      if sharesDefaults {
        defaults := Shared(settings, defaults);
      }
    }

    method SetThemeColor(color: string)
      requires Valid()
      modifies this
      ensures settings == old(settings).(themeColor := color) && osDark == old(osDark) && timerRunning == old(timerRunning)
      ensures defaults == old(defaults) && sharesDefaults == old(sharesDefaults)
      ensures Valid()
    {
      settings := settings.(themeColor := color);
    }

    method SetThemeLayout(mode: string)
      requires Valid()
      modifies this
      ensures settings == old(settings).(layoutMode := mode) && osDark == old(osDark) && timerRunning == old(timerRunning)
      ensures NestedWrite(old(defaults), old(sharesDefaults))
      ensures Valid()
    {
      settings := settings.(layoutMode := mode);
      if sharesDefaults {
        defaults := Shared(settings, defaults);
      }
    }

    method SetScrollMode(mode: string)
      requires Valid()
      modifies this
      ensures settings == old(settings).(scrollMode := mode) && osDark == old(osDark) && timerRunning == old(timerRunning)
      ensures NestedWrite(old(defaults), old(sharesDefaults))
      ensures Valid()
    {
      settings := settings.(scrollMode := mode);
      if sharesDefaults {
        defaults := Shared(settings, defaults);
      }
    }

    /** `updateWatermarkTimer`: resume the clock when the time shows, pause it otherwise. */
    method UpdateWatermarkTimer()
      modifies this
      ensures timerRunning == TimerShouldRun(settings.watermark)
      ensures settings == old(settings) && osDark == old(osDark)
      ensures defaults == old(defaults) && sharesDefaults == old(sharesDefaults)
    {
      var w := settings.watermark;
      var shouldRunTimer := w.visible && w.enableTime;
      if shouldRunTimer {
        timerRunning := true;
      } else {
        timerRunning := false;
      }
    }

    /** A write into the `watermark` object, followed by the watcher on `visible`/`enableTime`. */
    method WriteWatermark(w: Watermark)
      requires Valid() && !(w.enableUserName && w.enableTime)
      modifies this
      ensures settings == old(settings).(watermark := w) && osDark == old(osDark)
      ensures NestedWrite(old(defaults), old(sharesDefaults))
      ensures Valid()
    {
      settings := settings.(watermark := w);
      if sharesDefaults {
        defaults := Shared(settings, defaults);
      }
      UpdateWatermarkTimer();
    }

    /**
     * `setWatermarkEnableUserName(enable)`, followed by the watcher on
     * `visible`/`enableTime`: turning the user name on turns the time off;
     * turning it off leaves the time as it was.
     */
    method SetWatermarkEnableUserName(enable: bool)
      requires Valid()
      modifies this
      ensures settings.watermark.enableUserName == enable
      ensures settings.watermark.enableTime == (if enable then false else old(settings).watermark.enableTime)
      ensures settings == old(settings).(watermark := settings.watermark)
      ensures settings.watermark == old(settings).watermark.(enableUserName := enable, enableTime := settings.watermark.enableTime)
      ensures osDark == old(osDark)
      ensures NestedWrite(old(defaults), old(sharesDefaults))
      ensures Valid()
    {
      var w := settings.watermark.(enableUserName := enable);
      if enable {
        w := w.(enableTime := false);
      }
      WriteWatermark(w);
    }

    /** `setWatermarkEnableTime(enable)`, followed by the watcher: the mirror image of the user-name setter. */
    method SetWatermarkEnableTime(enable: bool)
      requires Valid()
      modifies this
      ensures settings.watermark.enableTime == enable
      ensures settings.watermark.enableUserName == (if enable then false else old(settings).watermark.enableUserName)
      ensures settings == old(settings).(watermark := settings.watermark)
      ensures settings.watermark == old(settings).watermark.(enableTime := enable, enableUserName := settings.watermark.enableUserName)
      ensures osDark == old(osDark)
      ensures NestedWrite(old(defaults), old(sharesDefaults))
      ensures Valid()
    {
      var w := settings.watermark.(enableTime := enable);
      if enable {
        w := w.(enableUserName := false);
      }
      WriteWatermark(w);
    }

    /** A write to `watermark.visible` through the store's refs, followed by the watcher. */
    method SetWatermarkVisible(visible: bool)
      requires Valid()
      modifies this
      ensures settings == old(settings).(watermark := old(settings).watermark.(visible := visible))
      ensures osDark == old(osDark)
      ensures NestedWrite(old(defaults), old(sharesDefaults))
      ensures Valid()
    {
      WriteWatermark(settings.watermark.(visible := visible));
    }

    /** The OS preference changing. */
    method SetOsDark(dark: bool)
      requires Valid()
      modifies this
      ensures osDark == dark && settings == old(settings) && timerRunning == old(timerRunning)
      ensures defaults == old(defaults) && sharesDefaults == old(sharesDefaults)
      ensures Valid()
    {
      osDark := dark;
    }

    /**
     * `resetStore`: the settings become a deep copy of the defaults as they
     * now stand, so writes made through shared nested objects survive it;
     * from then on nothing is shared. The watcher stops the clock unless
     * the restored watermark shows the time.
     */
    method ResetStore()
      requires Valid()
      modifies this
      ensures settings == old(defaults) && defaults == old(defaults) && !sharesDefaults
      ensures timerRunning == TimerShouldRun(old(defaults).watermark) && osDark == old(osDark)
      ensures Valid()
    {
      settings := defaults;
      sharesDefaults := false;
      UpdateWatermarkTimer();
    }
  }

  /**
   * As written: a layout change made before the first reset survives the
   * reset, because it went into the defaults through the shared `layout`.
   */
  method LayoutSurvivesReset(osDark: bool, palette: string -> string) returns (store: ThemeStore)
    ensures store.settings.layoutMode == "horizontal" && DefaultSettings.layoutMode == "vertical"
  {
    store := new ThemeStore(osDark, palette);
    store.SetThemeLayout("horizontal");
    store.ResetStore();
  }

  /**
   * Corrected: a store whose settings start as a deep copy of the defaults
   * comes back to the declared defaults on reset, whatever the nested
   * setters wrote before.
   */
  method IsolatedResetRestoresDefaults(store: ThemeStore, mode: string, scroll: string, key: ColorKey, color: string, enableTime: bool, visible: bool)
    requires store.Valid() && store.Pristine()
    modifies store
    ensures store.settings == DefaultSettings && !store.timerRunning
    ensures store.Valid() && store.Pristine()
  {
    store.SetThemeLayout(mode);
    store.SetScrollMode(scroll);
    store.UpdateThemeColors(key, color);
    store.SetWatermarkEnableTime(enableTime);
    store.SetWatermarkVisible(visible);
    store.ResetStore();
  }
}
