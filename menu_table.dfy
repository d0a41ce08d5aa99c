// The main menu's contents as a table: for every possible entry, how many
// times the menu shows it, read off the firmware's conditions entry by entry.

module MenuTable {
  import opened MenuTypes
  import opened MenuMain

  function Bit(b: bool): nat {
    if b then 1 else 0
  }

  /** The media block is compiled in and offered: without the encoder wheel
      only while no print is running. */
  predicate MediaShown(cfg: Config, st: State) {
    cfg.sdSupport && (cfg.encoderWheel || !st.printingActive)
  }

  /** `Some(it)` when the guard holds. */
  function OnlyIf(b: bool, it: Item): Option<Item> {
    if b then Some(it) else None
  }

  /** The entry the main menu shows under label `m`, if any, read off the
      conditions of the firmware label by label rather than in emission order. */
  function Entry(cfg: Config, st: State, m: Msg): (r: Option<Item>)
    requires Buildable(cfg)
    ensures r.Some? ==> !r.value.SkipItem? && r.value.msg == m
    ensures r.Some? && r.value.BackItem? ==> m == Watch
  {
    var busy := st.printingActive;
    var media := MediaShown(cfg, st);
    var mounted := st.cardMounted;
    var closed := st.cardMounted && !st.fileOpen;
    match m
    case Watch => Some(BackItem(Watch))
    case PausePrint => OnlyIf(busy && CanPause(cfg), ActionItem(PausePrint, UiPausePrint))
    case StopPrint => OnlyIf(busy && CanStop(cfg), SubmenuItem(StopPrint, MenuAbortConfirm))
    case Tune => OnlyIf(busy, SubmenuItem(Tune, MenuTune))
    case Autostart =>
      OnlyIf(cfg.sdSupport && cfg.menuAddAutostart && !busy, ActionItem(Autostart, CardBeginAutostart))
    case MediaMenu => OnlyIf(media && closed, SubmenuItem(MediaMenu, MenuMedia))
    case ChangeMedia => OnlyIf(media && closed && cfg.sdDetectPin, GcodeItem(ChangeMedia, "M21"))
    case ReleaseMedia => OnlyIf(media && closed && !cfg.sdDetectPin, GcodeItem(ReleaseMedia, "M22"))
    case NoMedia => OnlyIf(media && !mounted && cfg.sdDetectPin, ActionItem(NoMedia, NullHandler))
    case InitMedia => OnlyIf(media && !mounted && !cfg.sdDetectPin, GcodeItem(InitMedia, "M21"))
    case MediaReleased =>
      OnlyIf(media && !mounted && !cfg.sdDetectPin, ActionItem(MediaReleased, NullHandler))
    case ResumePrint =>
      OnlyIf(!busy && CanPause(cfg) && st.printingPaused, ActionItem(ResumePrint, UiResumePrint))
    case Motion => OnlyIf(!busy, SubmenuItem(Motion, MenuMotion))
    case CutterMenu => OnlyIf(cfg.hasCutter, SubmenuItem(CutterMenu, MenuSpindleLaser))
    case Temperature => Some(SubmenuItem(Temperature, MenuTemperature))
    case Mixer => OnlyIf(cfg.mixingExtruder, SubmenuItem(Mixer, MenuMixer))
    case Mmu2Menu => OnlyIf(cfg.mmu2Menus && !busy, SubmenuItem(Mmu2Menu, MenuMmu2))
    case Configuration => Some(SubmenuItem(Configuration, MenuConfiguration))
    case UserMenu => OnlyIf(cfg.customUserMenus, SubmenuItem(UserMenu, MenuUser))
    case FilamentChange => OnlyIf(cfg.advancedPauseFeature,
      if !FilamentByTemperature(cfg) then SubmenuItem(FilamentChange, MenuChangeFilament)
      else if st.hotEnoughToExtrude then GcodeItem(FilamentChange, "M600 B0")
      else SubmenuItem(FilamentChange, TempFilamentLoad))
    case InfoMenu => OnlyIf(cfg.lcdInfoMenu, SubmenuItem(InfoMenu, MenuInfo))
    case LedControl => OnlyIf(cfg.ledControlMenu, SubmenuItem(LedControl, MenuLed))
    case SwitchPsOff => OnlyIf(cfg.hasPowerSwitch && st.powerSupplyOn, GcodeItem(SwitchPsOff, "M81"))
    case SwitchPsOn => OnlyIf(cfg.hasPowerSwitch && !st.powerSupplyOn, GcodeItem(SwitchPsOn, "M80"))
    case ServiceName(n) => OnlyIf(ServiceEnabled(cfg, n), SubmenuItem(ServiceName(n), MenuService(n)))
    case Games => if GamesShown(cfg) then Some(SubmenuItem(Games, GameTarget(cfg))) else None
    case ButtonStop => None
    case Back => None
  }

  /** How many times an entry appears in the main menu: once if it is the
      entry of its label, twice for the placeholder of the games easter egg. */
  function Occurs(cfg: Config, st: State, it: Item): nat
    requires Buildable(cfg)
  {
    if it.SkipItem? then (if GamesShown(cfg) && cfg.gamesEasterEgg then 2 else 0)
    else Bit(Entry(cfg, st, it.msg) == Some(it))
  }
}
