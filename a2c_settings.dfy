/**
 * The settings commands of firmware/a2c/a2c.c. Each command is called with
 * a column `index` and a flag `update`: with `update` it stores the setting
 * that column stands for, without it answers whether that column is the one
 * currently stored. The globals they share (`color_mode`, the `cfg_*`
 * configuration values, the forced-mono and debug-lines bits of
 * `internal_flags`, and the reboot and save requests) are the fields of
 * `Settings`.
 */
module A2cSettings {
  import opened A2Dvi

  /** `color_mode`; `OtherColorMode` is any other stored value. */
  datatype ColorMode = ColorBW | ColorGreen | ColorAmber | OtherColorMode(code: int)

  /** `cfg_color_style`, repurposed by this firmware: `CS_NTSC` = 0, `CS_CLAMP` = 1, `CS_A2DVI` = 2. */
  datatype ColorStyle = CsNtsc | CsClamp | CsA2dvi | OtherColorStyle(code: int)

  /** `cfg_scanline_mode`. */
  datatype ScanlineMode = ScanlinesOn | ScanlinesOff | ScanlinesMonochrome | OtherScanlineMode(code: int)

  /** `cfg_rendering_fx`. */
  datatype RenderingFx = FxNone | FxEnabled

  /** The configuration values `config_load_defaults` sets, with the values it loads. */
  datatype Defaults = Defaults(colorStyle: ColorStyle, scanlineMode: ScanlineMode, videoMode: VideoMode,
                               renderingFx: RenderingFx)

  /** The setting each column of the MONO, COLOR, LINES and VIDEO rows stands for. */
  const MonoOptions: seq<ColorMode> := [ColorBW, ColorGreen, ColorAmber]
  const ColorOptions: seq<ColorStyle> := [CsA2dvi, CsNtsc, CsClamp]
  const LineOptions: seq<ScanlineMode> := [ScanlinesOn, ScanlinesOff, ScanlinesMonochrome]
  const VideoOptions: seq<VideoMode> := [Dvi720x480, Dvi640x480]

  /** No setting is offered twice. */
  ghost predicate Distinct<T>(options: seq<T>)
  {
    forall i, j :: 0 <= i < |options| && 0 <= j < |options| && options[i] == options[j] ==> i == j
  }

  /** The query branch: column `index` is the stored `value`. */
  predicate Selects<T(==)>(options: seq<T>, value: T, index: int)
  {
    0 <= index < |options| && value == options[index]
  }

  /** The update branch: a listed column stores its option, any other leaves `value` as it was. */
  function Store<T>(options: seq<T>, value: T, index: int): (r: T)
    ensures 0 <= index < |options| ==> r == options[index]
    ensures !(0 <= index < |options|) ==> r == value
  {
    if 0 <= index < |options| then options[index] else value
  }

  /**
   * Storing column `i` and asking about column `j` answers true exactly when
   * `j == i`, and an out-of-range store leaves every answer as it was.
   */
  lemma {:induction false} StoreThenSelect<T>(options: seq<T>, value: T, i: int, j: int)
    requires Distinct(options)
    ensures 0 <= i < |options| ==> (Selects(options, Store(options, value, i), j) <==> i == j)
    ensures !(0 <= i < |options|) ==> Selects(options, Store(options, value, i), j) == Selects(options, value, j)
  {
    if 0 <= i < |options| && Selects(options, Store(options, value, i), j) {
      assert options[i] == options[j];
    }
  }

  lemma OptionsDistinct()
    ensures Distinct(MonoOptions) && Distinct(ColorOptions) && Distinct(LineOptions) && Distinct(VideoOptions)
  {
  }

  /** `mode_command`'s query: COLOR, MONO and MIXED columns. */
  predicate ModeSelected(forcedMono: bool, fx: RenderingFx, index: int)
  {
    (index == 0 && !forcedMono && fx == FxNone) || (index == 1 && forcedMono && fx == FxNone) ||
    (index == 2 && fx == FxEnabled)
  }

  /** `mode_command`'s update: the forced-mono bit and the rendering effect of a column. */
  function ModeStore(forcedMono: bool, fx: RenderingFx, index: int): (r: (bool, RenderingFx))
    ensures !(0 <= index < 3) ==> r == (forcedMono, fx)
  {
    if index == 0 then (false, FxNone)
    else if index == 1 then (true, FxNone)
    else if index == 2 then (false, FxEnabled)
    else (forcedMono, fx)
  }


  /** The callbacks of the menu table. */
  datatype Command = ModeCmd | ColorCmd | MonoCmd | LinesCmd | VideoCmd | ConfigCmd | ExitCmd

  /** The globals the commands read and write. */
  datatype Config = Config(
    colorMode: ColorMode,           // color_mode
    colorStyle: ColorStyle,         // cfg_color_style
    scanlineMode: ScanlineMode,     // cfg_scanline_mode
    videoMode: VideoMode,           // cfg_video_mode
    forcedMono: bool,               // IFLAGS_FORCED_MONO of internal_flags
    debugLines: bool,               // IFLAGS_DEBUG_LINES of internal_flags
    renderingFx: RenderingFx,       // cfg_rendering_fx
    monoRendering: bool,            // mono_rendering
    needsReboot: bool,              // s_needs_reboot
    saveRequired: bool,             // s_save_required
    showMenu: bool,                 // s_show_menu_screen
    saves: nat,                     // how often config_save wrote the configuration
    rebooting: bool)                // software_reset was entered; it does not return

  /** The columns a command's row offers: three, but two on the VIDEO row. */
  function Columns(cmd: Command): nat
  {
    match cmd
    case VideoCmd => 2
    case ExitCmd => 1
    case _ => 3
  }

  /** `software_reset` when a reboot is pending, otherwise leave the menu. */
  function Leave(c: Config): (r: Config)
    ensures r.rebooting <==> c.rebooting || c.needsReboot
    ensures r.showMenu <==> c.showMenu && c.needsReboot
    ensures r == c.(rebooting := r.rebooting, showMenu := r.showMenu)
  {
    if c.needsReboot then c.(rebooting := true) else c.(showMenu := false)
  }

  /** Lines 402-406: a new video mode asks for a reboot and a save. */
  function NoteModeChange(c: Config, before: VideoMode): (r: Config)
    ensures r == c.(needsReboot := r.needsReboot, saveRequired := r.saveRequired)
    ensures before == c.videoMode ==> r == c
    ensures before != c.videoMode ==> r.needsReboot && r.saveRequired
  {
    if before != c.videoMode then c.(needsReboot := true, saveRequired := true) else c
  }

  /**
   * The update branch (`update == true`) of each command. A column outside
   * the row changes nothing, a new video mode asks for a reboot and a save,
   * and a save is counted only for column 0 of CONFIG, or of EXIT with
   * unsaved changes.
   */
  function Invoked(c: Config, cmd: Command, index: int, defaults: Defaults): (r: Config)
    ensures !(0 <= index < Columns(cmd)) ==> r == c
    ensures cmd == VideoCmd && r.videoMode != c.videoMode ==> r.needsReboot && r.saveRequired
    ensures r.saves != c.saves ==>
      index == 0 && r.saves == c.saves + 1 && (cmd == ConfigCmd || (cmd == ExitCmd && c.saveRequired))
  {
    match cmd
    case MonoCmd => c.(colorMode := Store(MonoOptions, c.colorMode, index))
    case ColorCmd => c.(colorStyle := Store(ColorOptions, c.colorStyle, index))
    case LinesCmd => c.(scanlineMode := Store(LineOptions, c.scanlineMode, index))
    case ModeCmd =>
      var (mono, fx) := ModeStore(c.forcedMono, c.renderingFx, index);
      c.(forcedMono := mono, renderingFx := fx)
    case VideoCmd => NoteModeChange(c.(videoMode := Store(VideoOptions, c.videoMode, index)), c.videoMode)
    case ConfigCmd =>
      if index == 0 then Leave(c.(saves := c.saves + 1))
      else if index == 1 then
        NoteModeChange(c.(colorStyle := defaults.colorStyle, scanlineMode := defaults.scanlineMode,
                          videoMode := defaults.videoMode, renderingFx := defaults.renderingFx), c.videoMode)
      else if index == 2 then c.(debugLines := !c.debugLines)
      else c
    case ExitCmd =>
      if index == 0 then Leave(if c.saveRequired then c.(saves := c.saves + 1) else c) else c
  }

  /** Each settings row changes its own setting and nothing else. */
  lemma InvokedChangesOwnSetting(c: Config, cmd: Command, index: int, defaults: Defaults)
    ensures var r := Invoked(c, cmd, index, defaults);
      (cmd == MonoCmd ==> r == c.(colorMode := r.colorMode)) &&
      (cmd == ColorCmd ==> r == c.(colorStyle := r.colorStyle)) &&
      (cmd == LinesCmd ==> r == c.(scanlineMode := r.scanlineMode)) &&
      (cmd == ModeCmd ==> r == c.(forcedMono := r.forcedMono, renderingFx := r.renderingFx)) &&
      (cmd == VideoCmd ==> r == c.(videoMode := r.videoMode, needsReboot := r.needsReboot, saveRequired := r.saveRequired))
  {
  }

  /** The query branch (`update == false`): is column `index` the stored setting? */
  function Query(c: Config, cmd: Command, index: int): (r: bool)
    ensures r ==> 0 <= index < Columns(cmd)
    ensures cmd == ExitCmd ==> !r
  {
    match cmd
    case MonoCmd => Selects(MonoOptions, c.colorMode, index)
    case ColorCmd => Selects(ColorOptions, c.colorStyle, index)
    case LinesCmd => Selects(LineOptions, c.scanlineMode, index)
    case ModeCmd => ModeSelected(c.forcedMono, c.renderingFx, index)
    case VideoCmd => Selects(VideoOptions, c.videoMode, index)
    case ConfigCmd => index == 2 && c.debugLines
    case ExitCmd => false
  }

  /** Lines 324 and 365: the MODE and VIDEO queries refresh `mono_rendering` from the flag. */
  function Queried(c: Config, cmd: Command): Config
  {
    if cmd == ModeCmd || cmd == VideoCmd then c.(monoRendering := c.forcedMono) else c
  }

  /** A settings row is one of the five whose columns each stand for one stored value. */
  predicate SettingRow(cmd: Command)
  {
    cmd in {MonoCmd, ColorCmd, LinesCmd, ModeCmd, VideoCmd}
  }

  /**
   * Set/query round trip: after storing column `i` of a settings row, the
   * query answers true for column `j` exactly when `j == i`.
   */
  lemma StoreThenQuery(c: Config, cmd: Command, i: int, j: int, defaults: Defaults)
    requires SettingRow(cmd) && 0 <= i < Columns(cmd)
    ensures Query(Invoked(c, cmd, i, defaults), cmd, j) <==> i == j
  {
    OptionsDistinct();
    match cmd
    case MonoCmd => StoreThenSelect(MonoOptions, c.colorMode, i, j);
    case ColorCmd => StoreThenSelect(ColorOptions, c.colorStyle, i, j);
    case LinesCmd => StoreThenSelect(LineOptions, c.scanlineMode, i, j);
    case VideoCmd =>
      var v := Store(VideoOptions, c.videoMode, i);
      StoreThenSelect(VideoOptions, c.videoMode, i, j);
      assert Invoked(c, cmd, i, defaults).videoMode == v;
    case ModeCmd =>
  }

  /** A column a settings row does not offer changes nothing. */
  lemma OutOfRangeKeeps(c: Config, cmd: Command, i: int, defaults: Defaults)
    requires SettingRow(cmd) && !(0 <= i < Columns(cmd))
    ensures Invoked(c, cmd, i, defaults) == c
  {
  }

  /**
   * The reboot and save requests of `r` differ from those of `c` exactly when
   * `r` has a new video mode not yet requested, and a new mode has both.
   */
  predicate RequestsFollowMode(c: Config, r: Config)
  {
    ((r.needsReboot != c.needsReboot || r.saveRequired != c.saveRequired) <==>
     (r.videoMode != c.videoMode && (!c.needsReboot || !c.saveRequired))) &&
    (r.videoMode != c.videoMode ==> r.needsReboot && r.saveRequired)
  }

  lemma ModeChangeRequests(c: Config, d: Config)
    requires d.needsReboot == c.needsReboot && d.saveRequired == c.saveRequired
    ensures RequestsFollowMode(c, NoteModeChange(d, c.videoMode))
  {
  }

  lemma LeaveRequestsNothing(c: Config, d: Config)
    requires d.needsReboot == c.needsReboot && d.saveRequired == c.saveRequired && d.videoMode == c.videoMode
    ensures RequestsFollowMode(c, Leave(d))
  {
  }

  /**
   * Reboot and save are requested only by a change of video mode, from the
   * VIDEO row or from DEFAULT; every other command leaves both requests alone.
   */
  lemma RebootOnlyOnModeChange(c: Config, cmd: Command, i: int, defaults: Defaults)
    ensures var r := Invoked(c, cmd, i, defaults);
      (r.needsReboot != c.needsReboot || r.saveRequired != c.saveRequired) <==>
      (r.videoMode != c.videoMode && (!c.needsReboot || !c.saveRequired))
  {
    InvokedRequests(c, cmd, i, defaults);
  }

  lemma InvokedRequests(c: Config, cmd: Command, i: int, defaults: Defaults)
    ensures RequestsFollowMode(c, Invoked(c, cmd, i, defaults))
  {
    if cmd == ConfigCmd {
      ConfigRequests(c, i, defaults);
    } else if cmd == ExitCmd {
      ExitRequests(c, i, defaults);
    } else if cmd == VideoCmd {
      ModeChangeRequests(c, c.(videoMode := Store(VideoOptions, c.videoMode, i)));
    } else {
      SettingRequests(c, cmd, i, defaults);
    }
  }

  lemma ConfigRequests(c: Config, i: int, defaults: Defaults)
    ensures RequestsFollowMode(c, Invoked(c, ConfigCmd, i, defaults))
  {
    if i == 0 {
      LeaveRequestsNothing(c, c.(saves := c.saves + 1));
    } else if i == 1 {
      var d := c.(colorStyle := defaults.colorStyle, scanlineMode := defaults.scanlineMode,
                  videoMode := defaults.videoMode, renderingFx := defaults.renderingFx);
      ModeChangeRequests(c, d);
    }
  }

  lemma ExitRequests(c: Config, i: int, defaults: Defaults)
    ensures RequestsFollowMode(c, Invoked(c, ExitCmd, i, defaults))
  {
    if i == 0 {
      LeaveRequestsNothing(c, if c.saveRequired then c.(saves := c.saves + 1) else c);
    }
  }

  lemma SettingRequests(c: Config, cmd: Command, i: int, defaults: Defaults)
    requires cmd in {MonoCmd, ColorCmd, LinesCmd, ModeCmd}
    ensures RequestsFollowMode(c, Invoked(c, cmd, i, defaults))
  {
  }

  /** Every change of video mode asks for a reboot and a save. */
  lemma ModeChangeRequestsReboot(c: Config, cmd: Command, i: int, defaults: Defaults)
    ensures var r := Invoked(c, cmd, i, defaults);
      r.videoMode != c.videoMode ==> r.needsReboot && r.saveRequired
  {
    InvokedRequests(c, cmd, i, defaults);
  }

  /** A query changes nothing but `mono_rendering`. */
  lemma QueryChangesNoSetting(c: Config, cmd: Command)
    ensures Queried(c, cmd).(monoRendering := c.monoRendering) == c
  {
  }

  class Settings {
    var colorMode: ColorMode
    var colorStyle: ColorStyle
    var scanlineMode: ScanlineMode
    var videoMode: VideoMode
    var forcedMono: bool
    var debugLines: bool
    var renderingFx: RenderingFx
    var monoRendering: bool
    var needsReboot: bool
    var saveRequired: bool
    var showMenu: bool
    var saves: nat
    var rebooting: bool
    /** What `config_load_defaults` loads; its values live in the configuration module. */
    const defaults: Defaults

    function Values(): Config
      reads this
    {
      Config(colorMode, colorStyle, scanlineMode, videoMode, forcedMono, debugLines, renderingFx,
             monoRendering, needsReboot, saveRequired, showMenu, saves, rebooting)
    }

    constructor(c: Config, d: Defaults)
      ensures Values() == c && defaults == d
    {
      colorMode, colorStyle, scanlineMode, videoMode := c.colorMode, c.colorStyle, c.scanlineMode, c.videoMode;
      forcedMono, debugLines, renderingFx, monoRendering := c.forcedMono, c.debugLines, c.renderingFx, c.monoRendering;
      needsReboot, saveRequired, showMenu := c.needsReboot, c.saveRequired, c.showMenu;
      saves, rebooting := c.saves, c.rebooting;
      defaults := d;
    }

    /** `mono_command`, lines 217-241. */
    method MonoCommand(index: int, update: bool) returns (result: bool)
      modifies this`colorMode
      ensures update ==> Values() == Invoked(old(Values()), MonoCmd, index, defaults) && !result
      ensures !update ==> Values() == old(Values()) && result == Query(Values(), MonoCmd, index)
    {
      result := false;
      if update {
        if index == 0 {
          colorMode := ColorBW;
        } else if index == 1 {
          colorMode := ColorGreen;
        } else if index == 2 {
          colorMode := ColorAmber;
        }
      } else {
        if index == 0 && colorMode == ColorBW {
          result := true;
        } else if index == 1 && colorMode == ColorGreen {
          result := true;
        } else if index == 2 && colorMode == ColorAmber {
          result := true;
        }
      }
    }

    /** `color_command`, lines 244-268. */
    method ColorCommand(index: int, update: bool) returns (result: bool)
      modifies this`colorStyle
      ensures update ==> Values() == Invoked(old(Values()), ColorCmd, index, defaults) && !result
      ensures !update ==> Values() == old(Values()) && result == Query(Values(), ColorCmd, index)
    {
      result := false;
      if update {
        if index == 0 {
          colorStyle := CsA2dvi;
        } else if index == 1 {
          colorStyle := CsNtsc;
        } else if index == 2 {
          colorStyle := CsClamp;
        }
      } else {
        if index == 0 && colorStyle == CsA2dvi {
          result := true;
        } else if index == 1 && colorStyle == CsNtsc {
          result := true;
        } else if index == 2 && colorStyle == CsClamp {
          result := true;
        }
      }
    }

    /** `scanline_command`, lines 271-296. */
    method ScanlineCommand(index: int, update: bool) returns (result: bool)
      modifies this`scanlineMode
      ensures update ==> Values() == Invoked(old(Values()), LinesCmd, index, defaults) && !result
      ensures !update ==> Values() == old(Values()) && result == Query(Values(), LinesCmd, index)
    {
      result := false;
      if update {
        if index == 0 {
          scanlineMode := ScanlinesOn;
        } else if index == 1 {
          scanlineMode := ScanlinesOff;
        } else if index == 2 {
          scanlineMode := ScanlinesMonochrome;
        }
      } else {
        if index == 0 && scanlineMode == ScanlinesOn {
          result := true;
        } else if index == 1 && scanlineMode == ScanlinesOff {
          result := true;
        } else if index == 2 && scanlineMode == ScanlinesMonochrome {
          result := true;
        }
      }
    }

    /** `mode_command`, lines 299-335. */
    method ModeCommand(index: int, update: bool) returns (result: bool)
      modifies this`forcedMono, this`renderingFx, this`monoRendering
      ensures update ==> Values() == Invoked(old(Values()), ModeCmd, index, defaults) && !result
      ensures !update ==> Values() == Queried(old(Values()), ModeCmd) && result == Query(Values(), ModeCmd, index)
    {
      result := false;
      if update {
        if index == 0 {
          forcedMono := false;
          renderingFx := FxNone;
        } else if index == 1 {
          forcedMono := true;
          renderingFx := FxNone;
        } else if index == 2 {
          forcedMono := false;
          renderingFx := FxEnabled;
        }
      } else {
        monoRendering := forcedMono;
        if index == 0 && !monoRendering && renderingFx == FxNone {
          result := true;
        } else if index == 1 && monoRendering && renderingFx == FxNone {
          result := true;
        } else if index == 2 && renderingFx == FxEnabled {
          result := true;
        }
      }
    }

    /** `video_command`, lines 338-374. */
    method VideoCommand(index: int, update: bool) returns (result: bool)
      modifies this`videoMode, this`needsReboot, this`saveRequired, this`monoRendering
      ensures update ==> Values() == Invoked(old(Values()), VideoCmd, index, defaults) && !result
      ensures !update ==> Values() == Queried(old(Values()), VideoCmd) && result == Query(Values(), VideoCmd, index)
    {
      result := false;
      if update {
        if index == 0 {
          if videoMode != Dvi720x480 {
            videoMode := Dvi720x480;
            needsReboot := true;
            saveRequired := true;
          }
        } else if index == 1 {
          if videoMode != Dvi640x480 {
            videoMode := Dvi640x480;
            needsReboot := true;
            saveRequired := true;
          }
        }
      } else {
        monoRendering := forcedMono;
        if index == 0 && videoMode == Dvi720x480 {
          result := true;
        } else if index == 1 && videoMode == Dvi640x480 {
          result := true;
        }
      }
    }

    /**
     * `config_command`, lines 377-427: SAVE writes the configuration and
     * reboots or leaves the menu, DEFAULT loads the defaults, DEBUG toggles the
     * debug lines and is the one column with a query.
     */
    method ConfigCommand(index: int, update: bool) returns (result: bool)
      modifies this`saves, this`rebooting, this`showMenu, this`colorStyle, this`scanlineMode, this`videoMode,
               this`renderingFx, this`needsReboot, this`saveRequired, this`debugLines
      ensures update ==> Values() == Invoked(old(Values()), ConfigCmd, index, defaults) && !result
      ensures !update ==> Values() == old(Values()) && result == Query(Values(), ConfigCmd, index)
    {
      result := false;
      if update {
        if index == 0 {
          SaveConfig();
        } else if index == 1 {
          LoadDefaults();
        } else if index == 2 {
          debugLines := !debugLines;
        }
      } else {
        if index == 2 {
          result := debugLines;
        }
      }
    }

    /** Lines 384-394: `config_save`, then `software_reset` if a reboot is pending, else leave the menu. */
    method SaveConfig()
      modifies this`saves, this`rebooting, this`showMenu
      ensures Values() == Leave(old(Values()).(saves := old(saves) + 1))
    {
      saves := saves + 1;
      if needsReboot {
        rebooting := true;
      } else {
        showMenu := false;
      }
    }

    /** Lines 395-407: `config_load_defaults`, noting a change of video mode. */
    method LoadDefaults()
      modifies this`colorStyle, this`scanlineMode, this`videoMode, this`renderingFx, this`needsReboot, this`saveRequired
      ensures Values() == NoteModeChange(old(Values()).(colorStyle := defaults.colorStyle,
        scanlineMode := defaults.scanlineMode, videoMode := defaults.videoMode,
        renderingFx := defaults.renderingFx), old(videoMode))
    {
      var oldVideoMode := videoMode;
      colorStyle, scanlineMode := defaults.colorStyle, defaults.scanlineMode;
      videoMode, renderingFx := defaults.videoMode, defaults.renderingFx;
      if oldVideoMode != videoMode {
        needsReboot := true;
        saveRequired := true;
      }
    }

    /** `exit_command`, lines 430-452: save if needed, then reboot or leave the menu. */
    method ExitCommand(index: int, update: bool) returns (result: bool)
      modifies this`saves, this`rebooting, this`showMenu
      ensures update ==> Values() == Invoked(old(Values()), ExitCmd, index, defaults) && !result
      ensures !update ==> Values() == old(Values()) && !result
    {
      result := false;
      if update && index == 0 {
        if saveRequired {
          saves := saves + 1;
        }
        if needsReboot {
          rebooting := true;
        } else {
          showMenu := false;
        }
      }
    }

    /** The call through a menu entry's `command` pointer. */
    method Run(cmd: Command, index: int, update: bool) returns (result: bool)
      modifies this
      ensures update ==> Values() == Invoked(old(Values()), cmd, index, defaults) && !result
      ensures !update ==> Values() == Queried(old(Values()), cmd) && result == Query(Values(), cmd, index)
    {
      match cmd
      case MonoCmd => result := MonoCommand(index, update);
      case ColorCmd => result := ColorCommand(index, update);
      case LinesCmd => result := ScanlineCommand(index, update);
      case ModeCmd => result := ModeCommand(index, update);
      case VideoCmd => result := VideoCommand(index, update);
      case ConfigCmd => result := ConfigCommand(index, update);
      case ExitCmd => result := ExitCommand(index, update);
    }
  }
}
