// The main menu of Marlin's LCD (Marlin/src/lcd/menu/menu_main.cpp): which
// entries the screen offers, and in what order, for a configuration and the
// machine state of the moment.

module MenuMain {
  import opened MenuTypes
  import opened ItemSeqs

  /** MACHINE_CAN_STOP: some party (the card reader, a host, a cancel action)
      can carry out a stop request. */
  predicate CanStop(cfg: Config) {
    cfg.sdSupport || cfg.hostPromptSupport || cfg.actionOnCancel
  }

  /** MACHINE_CAN_PAUSE. */
  predicate CanPause(cfg: Config) {
    cfg.sdSupport || cfg.hostPromptSupport || cfg.parkHeadOnPause || cfg.actionOnPause
  }

  /** `card_open`: a file counts as open only on a mounted card. */
  predicate CardOpen(st: State) {
    st.cardMounted && st.fileOpen
  }

  /** The single-extruder case without load/unload G-codes, where filament change
      depends on the hotend temperature. */
  predicate FilamentByTemperature(cfg: Config) {
    cfg.eSteppers == 1 && !cfg.filamentLoadUnloadGcodes
  }

  /** SERVICE_INTERVAL_n > 0 under HAS_SERVICE_INTERVALS, for n = 1, 2, 3. */
  predicate ServiceEnabled(cfg: Config, n: nat) {
    cfg.hasServiceIntervals &&
    ((n == 1 && cfg.serviceInterval1 > 0) ||
     (n == 2 && cfg.serviceInterval2 > 0) ||
     (n == 3 && cfg.serviceInterval3 > 0))
  }

  /** HAS_GAMES && DISABLED(LCD_INFO_MENU): the games entry is compiled in. */
  predicate GamesShown(cfg: Config) {
    cfg.hasGames && !cfg.lcdInfoMenu
  }

  /** Some alternative of the game-target `#if`/`#elif` chain is enabled. */
  predicate GameChosen(cfg: Config) {
    cfg.hasGameMenu || cfg.marlinBrickout || cfg.marlinInvaders || cfg.marlinSnake || cfg.marlinMaze
  }

  /** The configurations the file compiles for: when the games entry is compiled
      in, its target chain must name some game. */
  predicate Buildable(cfg: Config) {
    GamesShown(cfg) ==> GameChosen(cfg)
  }

  /** The target of the games entry: the first enabled alternative. */
  function GameTarget(cfg: Config): Screen
    requires GameChosen(cfg)
  {
    if cfg.hasGameMenu then MenuGame
    else if cfg.marlinBrickout then BrickoutGame
    else if cfg.marlinInvaders then InvadersGame
    else if cfg.marlinSnake then SnakeGame
    else MazeGame
  }

  /** The two-choice screen that do_select_screen is asked for: the "yes" and
      "no" choices with their callbacks, and the prompt made of a leading
      label, an optional middle string and a suffix. */
  datatype SelectScreen = SelectScreen(
    yes: Msg, no: Msg, yesHandler: Handler, noHandler: Handler,
    promptLabel: Msg, promptText: Option<string>, promptSuffix: string)

  /** menu_abort_confirm, which is compiled only when the machine can stop. */
  function AbortConfirm(cfg: Config): Option<SelectScreen> {
    if CanStop(cfg) then
      Some(SelectScreen(ButtonStop, Back, UiAbortPrint, UiGotoPreviousScreen, StopPrint, None, "?"))
    else
      None
  }

  // The main menu, segment by segment in the order the source emits them.

  /** Pause, Stop and Tune, offered while a print is running. */
  function BusyItems(cfg: Config): seq<Item> {
    When(CanPause(cfg), [ActionItem(PausePrint, UiPausePrint)])
    + When(CanStop(cfg), [SubmenuItem(StopPrint, MenuAbortConfirm)])
    + [SubmenuItem(Tune, MenuTune)]
  }

  /** The command entry of a mounted card: change media with a card-detect
      pin, release media without one. */
  function ChangeOrReleaseMedia(cfg: Config): Item {
    if cfg.sdDetectPin then GcodeItem(ChangeMedia, "M21") else GcodeItem(ReleaseMedia, "M22")
  }

  /** The media block; `wheel` selects the encoder-wheel layout, which puts the
      command entry before the media-menu entry. */
  function MediaItems(cfg: Config, st: State, wheel: bool): seq<Item> {
    if st.cardMounted then
      if !CardOpen(st) then
        if wheel then [ChangeOrReleaseMedia(cfg), SubmenuItem(MediaMenu, MenuMedia)]
        else [SubmenuItem(MediaMenu, MenuMedia), ChangeOrReleaseMedia(cfg)]
      else []
    else if cfg.sdDetectPin then
      [ActionItem(NoMedia, NullHandler)]
    else
      [GcodeItem(InitMedia, "M21"), ActionItem(MediaReleased, NullHandler)]
  }

  /** Autostart (never while printing) followed by the media block. */
  function SdItems(cfg: Config, st: State, wheel: bool): seq<Item> {
    When(cfg.menuAddAutostart && !st.printingActive, [ActionItem(Autostart, CardBeginAutostart)])
    + MediaItems(cfg, st, wheel)
  }

  /** The entries offered while no print is running. */
  function IdleItems(cfg: Config, st: State): seq<Item> {
    When(!cfg.encoderWheel && cfg.sdSupport, SdItems(cfg, st, false))
    + When(CanPause(cfg) && st.printingPaused, [ActionItem(ResumePrint, UiResumePrint)])
    + [SubmenuItem(Motion, MenuMotion)]
  }

  /** Cutter, Temperature, Mixer, MMU2 and Configuration. */
  function SettingsItems(cfg: Config, st: State): seq<Item> {
    When(cfg.hasCutter, [SubmenuItem(CutterMenu, MenuSpindleLaser)])
    + [SubmenuItem(Temperature, MenuTemperature)]
    + When(cfg.mixingExtruder, [SubmenuItem(Mixer, MenuMixer)])
    + When(cfg.mmu2Menus && !st.printingActive, [SubmenuItem(Mmu2Menu, MenuMmu2)])
    + [SubmenuItem(Configuration, MenuConfiguration)]
  }

  /** The filament-change entry of ADVANCED_PAUSE_FEATURE. */
  function FilamentItems(cfg: Config, st: State): seq<Item> {
    if !cfg.advancedPauseFeature then []
    else if FilamentByTemperature(cfg) then
      if st.hotEnoughToExtrude then [GcodeItem(FilamentChange, "M600 B0")]
      else [SubmenuItem(FilamentChange, TempFilamentLoad)]
    else [SubmenuItem(FilamentChange, MenuChangeFilament)]
  }

  /** The power-supply switch. */
  function PowerItems(cfg: Config, st: State): seq<Item> {
    if !cfg.hasPowerSwitch then []
    else if st.powerSupplyOn then [GcodeItem(SwitchPsOff, "M81")]
    else [GcodeItem(SwitchPsOn, "M80")]
  }

  /** User menu, filament change, Info, LED control and the power switch. */
  function ExtraItems(cfg: Config, st: State): seq<Item> {
    When(cfg.customUserMenus, [SubmenuItem(UserMenu, MenuUser)])
    + FilamentItems(cfg, st)
    + When(cfg.lcdInfoMenu, [SubmenuItem(InfoMenu, MenuInfo)])
    + When(cfg.ledControlMenu, [SubmenuItem(LedControl, MenuLed)])
    + PowerItems(cfg, st)
  }

  /** The media block of the encoder-wheel layout, not gated by printing. */
  function WheelSdItems(cfg: Config, st: State): seq<Item> {
    When(cfg.encoderWheel && cfg.sdSupport, SdItems(cfg, st, true))
  }

  /** The service-reminder entries 1, 2, 3. */
  function ServiceItems(cfg: Config): seq<Item> {
    When(ServiceEnabled(cfg, 1), [SubmenuItem(ServiceName(1), MenuService(1))])
    + When(ServiceEnabled(cfg, 2), [SubmenuItem(ServiceName(2), MenuService(2))])
    + When(ServiceEnabled(cfg, 3), [SubmenuItem(ServiceName(3), MenuService(3))])
  }

  /** The games entry, after two placeholders when the easter egg is enabled. */
  function GamesItems(cfg: Config): seq<Item>
    requires Buildable(cfg)
  {
    if GamesShown(cfg) then
      When(cfg.gamesEasterEgg, [SkipItem, SkipItem]) + [SubmenuItem(Games, GameTarget(cfg))]
    else []
  }

  /** The sections of the main menu, in emission order. */
  function Sections(cfg: Config, st: State): seq<seq<Item>>
    requires Buildable(cfg)
  {
    [[BackItem(Watch)],
     if st.printingActive then BusyItems(cfg) else IdleItems(cfg, st),
     SettingsItems(cfg, st),
     ExtraItems(cfg, st),
     WheelSdItems(cfg, st),
     ServiceItems(cfg),
     GamesItems(cfg)]
  }

  /** The main menu: every entry menu_main emits between START_MENU and
      END_MENU, in order. */
  function MainMenu(cfg: Config, st: State): seq<Item>
    requires Buildable(cfg)
  {
    Flatten(Sections(cfg, st))
  }

  /** The main menu spelled out as the concatenation of its sections. */
  lemma MainMenuSections(cfg: Config, st: State)
    requires Buildable(cfg)
    ensures MainMenu(cfg, st) == [BackItem(Watch)]
      + (if st.printingActive then BusyItems(cfg) else IdleItems(cfg, st))
      + SettingsItems(cfg, st) + ExtraItems(cfg, st) + WheelSdItems(cfg, st)
      + ServiceItems(cfg) + GamesItems(cfg)
  {
    FlattenSeven([BackItem(Watch)], if st.printingActive then BusyItems(cfg) else IdleItems(cfg, st),
      SettingsItems(cfg, st), ExtraItems(cfg, st), WheelSdItems(cfg, st), ServiceItems(cfg), GamesItems(cfg));
  }

  /** menu_main as the source runs it: the entries are emitted one after the
      other, section by section, into the list under construction. */
  method BuildMainMenu(cfg: Config, st: State) returns (items: seq<Item>)
    requires Buildable(cfg)
    ensures items == MainMenu(cfg, st)
  {
    items := [BackItem(Watch)];
    var section: seq<Item>;
    if st.printingActive {
      section := EmitBusy(cfg);
    } else {
      section := EmitIdle(cfg, st);
    }
    assert section == if st.printingActive then BusyItems(cfg) else IdleItems(cfg, st);
    items := items + section;
    section := EmitSettings(cfg, st);
    items := items + section;
    section := EmitExtras(cfg, st);
    items := items + section;
    section := [];
    if cfg.encoderWheel && cfg.sdSupport {
      section := EmitSd(cfg, st, true);
    }
    assert section == WheelSdItems(cfg, st);
    items := items + section;
    section := EmitService(cfg);
    items := items + section;
    section := [];
    if GamesShown(cfg) {
      if cfg.gamesEasterEgg {
        section := section + [SkipItem];
        section := section + [SkipItem];
      }
      section := section + [SubmenuItem(Games, GameTarget(cfg))];
    }
    assert section == GamesItems(cfg);
    items := items + section;
    MainMenuSections(cfg, st);
  }

  /** The `if (busy)` branch of menu_main. */
  method EmitBusy(cfg: Config) returns (items: seq<Item>)
    ensures items == BusyItems(cfg)
  {
    items := [];
    if CanPause(cfg) {
      items := items + [ActionItem(PausePrint, UiPausePrint)];
    }
    if CanStop(cfg) {
      items := items + [SubmenuItem(StopPrint, MenuAbortConfirm)];
    }
    items := items + [SubmenuItem(Tune, MenuTune)];
  }

  /** The autostart entry and the media block, in the layout `wheel` selects. */
  method EmitSd(cfg: Config, st: State, wheel: bool) returns (items: seq<Item>)
    ensures items == SdItems(cfg, st, wheel)
  {
    items := [];
    var busy := st.printingActive;
    var cardDetected := st.cardMounted;
    var cardOpen := cardDetected && st.fileOpen;
    if cfg.menuAddAutostart && !busy {
      items := items + [ActionItem(Autostart, CardBeginAutostart)];
    }
    var changeOrRelease := ChangeOrReleaseMedia(cfg);
    if cardDetected {
      if !cardOpen {
        if wheel {
          items := items + [changeOrRelease];
          items := items + [SubmenuItem(MediaMenu, MenuMedia)];
        } else {
          items := items + [SubmenuItem(MediaMenu, MenuMedia)];
          items := items + [changeOrRelease];
        }
      }
    } else {
      if cfg.sdDetectPin {
        items := items + [ActionItem(NoMedia, NullHandler)];
      } else {
        items := items + [GcodeItem(InitMedia, "M21")];
        items := items + [ActionItem(MediaReleased, NullHandler)];
      }
    }
  }

  /** The `else` branch of menu_main. */
  method EmitIdle(cfg: Config, st: State) returns (items: seq<Item>)
    ensures items == IdleItems(cfg, st)
  {
    items := [];
    if !cfg.encoderWheel && cfg.sdSupport {
      items := EmitSd(cfg, st, false);
    }
    if CanPause(cfg) && st.printingPaused {
      items := items + [ActionItem(ResumePrint, UiResumePrint)];
    }
    items := items + [SubmenuItem(Motion, MenuMotion)];
  }

  /** Cutter through Configuration. */
  method EmitSettings(cfg: Config, st: State) returns (items: seq<Item>)
    ensures items == SettingsItems(cfg, st)
  {
    items := [];
    if cfg.hasCutter {
      items := items + [SubmenuItem(CutterMenu, MenuSpindleLaser)];
    }
    items := items + [SubmenuItem(Temperature, MenuTemperature)];
    if cfg.mixingExtruder {
      items := items + [SubmenuItem(Mixer, MenuMixer)];
    }
    if cfg.mmu2Menus && !st.printingActive {
      items := items + [SubmenuItem(Mmu2Menu, MenuMmu2)];
    }
    items := items + [SubmenuItem(Configuration, MenuConfiguration)];
  }

  /** User menu through the power switch. */
  method EmitExtras(cfg: Config, st: State) returns (items: seq<Item>)
    ensures items == ExtraItems(cfg, st)
  {
    items := [];
    if cfg.customUserMenus {
      items := items + [SubmenuItem(UserMenu, MenuUser)];
    }
    var section := EmitFilament(cfg, st);
    items := items + section;
    if cfg.lcdInfoMenu {
      items := items + [SubmenuItem(InfoMenu, MenuInfo)];
    }
    if cfg.ledControlMenu {
      items := items + [SubmenuItem(LedControl, MenuLed)];
    }
    section := EmitPower(cfg, st);
    items := items + section;
  }

  /** The filament-change entry. */
  method EmitFilament(cfg: Config, st: State) returns (items: seq<Item>)
    ensures items == FilamentItems(cfg, st)
  {
    items := [];
    if cfg.advancedPauseFeature {
      if FilamentByTemperature(cfg) {
        if st.hotEnoughToExtrude {
          items := items + [GcodeItem(FilamentChange, "M600 B0")];
        } else {
          items := items + [SubmenuItem(FilamentChange, TempFilamentLoad)];
        }
      } else {
        items := items + [SubmenuItem(FilamentChange, MenuChangeFilament)];
      }
    }
  }

  /** The power-supply switch. */
  method EmitPower(cfg: Config, st: State) returns (items: seq<Item>)
    ensures items == PowerItems(cfg, st)
  {
    items := [];
    if cfg.hasPowerSwitch {
      if st.powerSupplyOn {
        items := items + [GcodeItem(SwitchPsOff, "M81")];
      } else {
        items := items + [GcodeItem(SwitchPsOn, "M80")];
      }
    }
  }

  /** The service-reminder entries. */
  method EmitService(cfg: Config) returns (items: seq<Item>)
    ensures items == ServiceItems(cfg)
  {
    items := [];
    if ServiceEnabled(cfg, 1) {
      items := items + [SubmenuItem(ServiceName(1), MenuService(1))];
    }
    if ServiceEnabled(cfg, 2) {
      items := items + [SubmenuItem(ServiceName(2), MenuService(2))];
    }
    if ServiceEnabled(cfg, 3) {
      items := items + [SubmenuItem(ServiceName(3), MenuService(3))];
    }
  }
}
