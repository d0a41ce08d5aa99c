// Data model of Marlin's LCD main menu: the labels, handlers and target
// screens an entry can carry, the entries themselves, the compile-time
// configuration and the live machine state the menu is rebuilt from.

module MenuTypes {

  datatype Option<T> = None | Some(value: T)

  /** The label of an entry: one constructor per MSG_ text id the main menu and
      its abort-confirmation screen use; ServiceName(n) is the configured
      SERVICE_NAME_n string. */
  datatype Msg =
    | Watch | PausePrint | StopPrint | Tune
    | Autostart | MediaMenu | ChangeMedia | ReleaseMedia | NoMedia | InitMedia | MediaReleased
    | ResumePrint | Motion | CutterMenu | Temperature | Mixer | Mmu2Menu | Configuration
    | UserMenu | FilamentChange | InfoMenu | LedControl | SwitchPsOff | SwitchPsOn
    | ServiceName(n: nat) | Games | ButtonStop | Back

  /** The callbacks an ACTION_ITEM can carry; NullHandler is the `nullptr`
      of the media placeholders. */
  datatype Handler =
    | UiPausePrint | UiResumePrint | UiAbortPrint | UiGotoPreviousScreen
    | CardBeginAutostart | NullHandler

  /** The screens a SUBMENU can open. TempFilamentLoad is the inline lambda that
      opens the filament-load temperature screen for extruder 0; the last five
      are the game entry points. */
  datatype Screen =
    | MenuAbortConfirm | MenuTune | MenuMotion | MenuMedia | MenuSpindleLaser
    | MenuTemperature | MenuMixer | MenuMmu2 | MenuConfiguration | MenuUser
    | TempFilamentLoad | MenuChangeFilament | MenuInfo | MenuLed | MenuService(n: nat)
    | MenuGame | BrickoutGame | InvadersGame | SnakeGame | MazeGame

  /** One emitted entry, after the item macros: BACK_ITEM, ACTION_ITEM,
      SUBMENU / SUBMENU_P, GCODES_ITEM / MENU_ITEM(gcode, ...) and SKIP_ITEM. */
  datatype Item =
    | BackItem(msg: Msg)
    | ActionItem(msg: Msg, handler: Handler)
    | SubmenuItem(msg: Msg, target: Screen)
    | GcodeItem(msg: Msg, gcode: string)
    | SkipItem

  /** The compile-time feature flags the main menu reads. Derived flags of the
      firmware (HAS_CUTTER, HAS_POWER_SWITCH, HAS_SERVICE_INTERVALS, HAS_GAMES,
      HAS_GAME_MENU, HAS_ENCODER_WHEEL) are taken as given. */
  datatype Config = Config(
    sdSupport: bool,                 // SDSUPPORT
    sdDetectPin: bool,               // PIN_EXISTS(SD_DETECT)
    encoderWheel: bool,              // HAS_ENCODER_WHEEL
    hostPromptSupport: bool,         // HOST_PROMPT_SUPPORT
    parkHeadOnPause: bool,           // PARK_HEAD_ON_PAUSE
    actionOnPause: bool,             // defined(ACTION_ON_PAUSE)
    actionOnCancel: bool,            // defined(ACTION_ON_CANCEL)
    menuAddAutostart: bool,          // MENU_ADDAUTOSTART
    hasCutter: bool,                 // HAS_CUTTER
    mixingExtruder: bool,            // MIXING_EXTRUDER
    mmu2Menus: bool,                 // MMU2_MENUS
    customUserMenus: bool,           // CUSTOM_USER_MENUS
    advancedPauseFeature: bool,      // ADVANCED_PAUSE_FEATURE
    eSteppers: nat,                  // E_STEPPERS
    filamentLoadUnloadGcodes: bool,  // FILAMENT_LOAD_UNLOAD_GCODES
    lcdInfoMenu: bool,               // LCD_INFO_MENU
    ledControlMenu: bool,            // LED_CONTROL_MENU
    hasPowerSwitch: bool,            // HAS_POWER_SWITCH
    hasServiceIntervals: bool,       // HAS_SERVICE_INTERVALS
    serviceInterval1: int,           // SERVICE_INTERVAL_1
    serviceInterval2: int,           // SERVICE_INTERVAL_2
    serviceInterval3: int,           // SERVICE_INTERVAL_3
    hasGames: bool,                  // HAS_GAMES
    hasGameMenu: bool,               // HAS_GAME_MENU
    marlinBrickout: bool,            // MARLIN_BRICKOUT
    marlinInvaders: bool,            // MARLIN_INVADERS
    marlinSnake: bool,               // MARLIN_SNAKE
    marlinMaze: bool,                // MARLIN_MAZE
    gamesEasterEgg: bool             // GAMES_EASTER_EGG
  )

  /** The live queries menu_main makes, read once per rebuild. */
  datatype State = State(
    printingActive: bool,      // printingIsActive()
    printingPaused: bool,      // printingIsPaused()
    cardMounted: bool,         // card.isMounted()
    fileOpen: bool,            // card.isFileOpen()
    powerSupplyOn: bool,       // powersupply_on
    hotEnoughToExtrude: bool   // thermalManager.targetHotEnoughToExtrude(active_extruder)
  )
}
