// Counting the entries of the main menu segment by segment, and matching
// the sum against the entry table.

module MenuCounts {
  import opened MenuTypes
  import opened ItemSeqs
  import opened MenuMain
  import opened MenuTable

  // How many times each segment of the main menu holds an entry.

  function BusyCount(cfg: Config, it: Item): nat {
    Bit(CanPause(cfg) && it == ActionItem(PausePrint, UiPausePrint))
    + Bit(CanStop(cfg) && it == SubmenuItem(StopPrint, MenuAbortConfirm))
    + Bit(it == SubmenuItem(Tune, MenuTune))
  }

  function MediaCount(cfg: Config, st: State, it: Item): nat {
    Bit(st.cardMounted && !st.fileOpen && it == SubmenuItem(MediaMenu, MenuMedia))
    + Bit(st.cardMounted && !st.fileOpen && it == ChangeOrReleaseMedia(cfg))
    + Bit(!st.cardMounted && cfg.sdDetectPin && it == ActionItem(NoMedia, NullHandler))
    + Bit(!st.cardMounted && !cfg.sdDetectPin && it == GcodeItem(InitMedia, "M21"))
    + Bit(!st.cardMounted && !cfg.sdDetectPin && it == ActionItem(MediaReleased, NullHandler))
  }

  function SdCount(cfg: Config, st: State, it: Item): nat {
    Bit(cfg.menuAddAutostart && !st.printingActive && it == ActionItem(Autostart, CardBeginAutostart))
    + MediaCount(cfg, st, it)
  }

  function IdleCount(cfg: Config, st: State, it: Item): nat {
    (if !cfg.encoderWheel && cfg.sdSupport then SdCount(cfg, st, it) else 0)
    + Bit(CanPause(cfg) && st.printingPaused && it == ActionItem(ResumePrint, UiResumePrint))
    + Bit(it == SubmenuItem(Motion, MenuMotion))
  }

  function SettingsCount(cfg: Config, st: State, it: Item): nat {
    Bit(cfg.hasCutter && it == SubmenuItem(CutterMenu, MenuSpindleLaser))
    + Bit(it == SubmenuItem(Temperature, MenuTemperature))
    + Bit(cfg.mixingExtruder && it == SubmenuItem(Mixer, MenuMixer))
    + Bit(cfg.mmu2Menus && !st.printingActive && it == SubmenuItem(Mmu2Menu, MenuMmu2))
    + Bit(it == SubmenuItem(Configuration, MenuConfiguration))
  }

  function ExtrasCount(cfg: Config, st: State, it: Item): nat {
    Bit(cfg.customUserMenus && it == SubmenuItem(UserMenu, MenuUser))
    + FilamentCount(cfg, st, it)
    + Bit(cfg.lcdInfoMenu && it == SubmenuItem(InfoMenu, MenuInfo))
    + Bit(cfg.ledControlMenu && it == SubmenuItem(LedControl, MenuLed))
    + PowerCount(cfg, st, it)
  }

  function FilamentCount(cfg: Config, st: State, it: Item): nat {
    Bit(cfg.advancedPauseFeature && FilamentByTemperature(cfg) && st.hotEnoughToExtrude
          && it == GcodeItem(FilamentChange, "M600 B0"))
    + Bit(cfg.advancedPauseFeature && FilamentByTemperature(cfg) && !st.hotEnoughToExtrude
          && it == SubmenuItem(FilamentChange, TempFilamentLoad))
    + Bit(cfg.advancedPauseFeature && !FilamentByTemperature(cfg)
          && it == SubmenuItem(FilamentChange, MenuChangeFilament))
  }

  function PowerCount(cfg: Config, st: State, it: Item): nat {
    Bit(cfg.hasPowerSwitch && st.powerSupplyOn && it == GcodeItem(SwitchPsOff, "M81"))
    + Bit(cfg.hasPowerSwitch && !st.powerSupplyOn && it == GcodeItem(SwitchPsOn, "M80"))
  }

  function ServiceCount(cfg: Config, it: Item): nat {
    Bit(ServiceEnabled(cfg, 1) && it == SubmenuItem(ServiceName(1), MenuService(1)))
    + Bit(ServiceEnabled(cfg, 2) && it == SubmenuItem(ServiceName(2), MenuService(2)))
    + Bit(ServiceEnabled(cfg, 3) && it == SubmenuItem(ServiceName(3), MenuService(3)))
  }

  function GamesCount(cfg: Config, it: Item): nat
    requires Buildable(cfg)
  {
    (if GamesShown(cfg) && cfg.gamesEasterEgg && it == SkipItem then 2 else 0)
    + Bit(GamesShown(cfg) && it == SubmenuItem(Games, GameTarget(cfg)))
  }

  lemma CountBusy(cfg: Config, it: Item)
    ensures Count(BusyItems(cfg), it) == BusyCount(cfg, it)
  {
    var a := When(CanPause(cfg), [ActionItem(PausePrint, UiPausePrint)]);
    var b := When(CanStop(cfg), [SubmenuItem(StopPrint, MenuAbortConfirm)]);
    CountAppend(a + b, [SubmenuItem(Tune, MenuTune)], it);
    CountAppend(a, b, it);
    CountWhen(CanPause(cfg), ActionItem(PausePrint, UiPausePrint), it);
    CountWhen(CanStop(cfg), SubmenuItem(StopPrint, MenuAbortConfirm), it);
    CountOne(SubmenuItem(Tune, MenuTune), it);
  }

  lemma CountMedia(cfg: Config, st: State, wheel: bool, it: Item)
    ensures Count(MediaItems(cfg, st, wheel), it) == MediaCount(cfg, st, it)
  {
    var c := ChangeOrReleaseMedia(cfg);
    var m := SubmenuItem(MediaMenu, MenuMedia);
    if st.cardMounted && !st.fileOpen {
      CountAppend([c], [m], it);
      CountAppend([m], [c], it);
      assert [c, m] == [c] + [m];
      assert [m, c] == [m] + [c];
      CountOne(c, it);
      CountOne(m, it);
    } else if !st.cardMounted && cfg.sdDetectPin {
      CountOne(ActionItem(NoMedia, NullHandler), it);
    } else if !st.cardMounted {
      var i, r := GcodeItem(InitMedia, "M21"), ActionItem(MediaReleased, NullHandler);
      assert [i, r] == [i] + [r];
      CountAppend([i], [r], it);
      CountOne(i, it);
      CountOne(r, it);
    }
  }

  lemma CountSd(cfg: Config, st: State, wheel: bool, it: Item)
    ensures Count(SdItems(cfg, st, wheel), it) == SdCount(cfg, st, it)
  {
    var a := When(cfg.menuAddAutostart && !st.printingActive, [ActionItem(Autostart, CardBeginAutostart)]);
    CountAppend(a, MediaItems(cfg, st, wheel), it);
    CountWhen(cfg.menuAddAutostart && !st.printingActive, ActionItem(Autostart, CardBeginAutostart), it);
    CountMedia(cfg, st, wheel, it);
  }

  lemma CountIdle(cfg: Config, st: State, it: Item)
    ensures Count(IdleItems(cfg, st), it) == IdleCount(cfg, st, it)
  {
    var a := When(!cfg.encoderWheel && cfg.sdSupport, SdItems(cfg, st, false));
    var b := When(CanPause(cfg) && st.printingPaused, [ActionItem(ResumePrint, UiResumePrint)]);
    CountAppend(a + b, [SubmenuItem(Motion, MenuMotion)], it);
    CountAppend(a, b, it);
    CountSd(cfg, st, false, it);
    CountWhen(CanPause(cfg) && st.printingPaused, ActionItem(ResumePrint, UiResumePrint), it);
    CountOne(SubmenuItem(Motion, MenuMotion), it);
  }

  lemma CountSettings(cfg: Config, st: State, it: Item)
    ensures Count(SettingsItems(cfg, st), it) == SettingsCount(cfg, st, it)
  {
    var a := When(cfg.hasCutter, [SubmenuItem(CutterMenu, MenuSpindleLaser)]);
    var b := [SubmenuItem(Temperature, MenuTemperature)];
    var c := When(cfg.mixingExtruder, [SubmenuItem(Mixer, MenuMixer)]);
    var d := When(cfg.mmu2Menus && !st.printingActive, [SubmenuItem(Mmu2Menu, MenuMmu2)]);
    var e := [SubmenuItem(Configuration, MenuConfiguration)];
    CountAppend(a + b + c + d, e, it);
    CountAppend(a + b + c, d, it);
    CountAppend(a + b, c, it);
    CountAppend(a, b, it);
    CountWhen(cfg.hasCutter, SubmenuItem(CutterMenu, MenuSpindleLaser), it);
    CountOne(SubmenuItem(Temperature, MenuTemperature), it);
    CountWhen(cfg.mixingExtruder, SubmenuItem(Mixer, MenuMixer), it);
    CountWhen(cfg.mmu2Menus && !st.printingActive, SubmenuItem(Mmu2Menu, MenuMmu2), it);
    CountOne(SubmenuItem(Configuration, MenuConfiguration), it);
  }

  lemma CountFilament(cfg: Config, st: State, it: Item)
    ensures Count(FilamentItems(cfg, st), it) == FilamentCount(cfg, st, it)
  {
    if cfg.advancedPauseFeature {
      CountOne(FilamentItems(cfg, st)[0], it);
    }
  }

  lemma CountPower(cfg: Config, st: State, it: Item)
    ensures Count(PowerItems(cfg, st), it) == PowerCount(cfg, st, it)
  {
    if cfg.hasPowerSwitch {
      CountOne(PowerItems(cfg, st)[0], it);
    }
  }

  lemma CountExtras(cfg: Config, st: State, it: Item)
    ensures Count(ExtraItems(cfg, st), it) == ExtrasCount(cfg, st, it)
  {
    var a := When(cfg.customUserMenus, [SubmenuItem(UserMenu, MenuUser)]);
    var b := FilamentItems(cfg, st);
    var c := When(cfg.lcdInfoMenu, [SubmenuItem(InfoMenu, MenuInfo)]);
    var d := When(cfg.ledControlMenu, [SubmenuItem(LedControl, MenuLed)]);
    var e := PowerItems(cfg, st);
    CountAppend(a + b + c + d, e, it);
    CountAppend(a + b + c, d, it);
    CountAppend(a + b, c, it);
    CountAppend(a, b, it);
    CountWhen(cfg.customUserMenus, SubmenuItem(UserMenu, MenuUser), it);
    CountFilament(cfg, st, it);
    CountWhen(cfg.lcdInfoMenu, SubmenuItem(InfoMenu, MenuInfo), it);
    CountWhen(cfg.ledControlMenu, SubmenuItem(LedControl, MenuLed), it);
    CountPower(cfg, st, it);
  }

  lemma CountService(cfg: Config, it: Item)
    ensures Count(ServiceItems(cfg), it) == ServiceCount(cfg, it)
  {
    var a := When(ServiceEnabled(cfg, 1), [SubmenuItem(ServiceName(1), MenuService(1))]);
    var b := When(ServiceEnabled(cfg, 2), [SubmenuItem(ServiceName(2), MenuService(2))]);
    var c := When(ServiceEnabled(cfg, 3), [SubmenuItem(ServiceName(3), MenuService(3))]);
    CountAppend(a + b, c, it);
    CountAppend(a, b, it);
    CountWhen(ServiceEnabled(cfg, 1), SubmenuItem(ServiceName(1), MenuService(1)), it);
    CountWhen(ServiceEnabled(cfg, 2), SubmenuItem(ServiceName(2), MenuService(2)), it);
    CountWhen(ServiceEnabled(cfg, 3), SubmenuItem(ServiceName(3), MenuService(3)), it);
  }

  lemma CountGames(cfg: Config, it: Item)
    requires Buildable(cfg)
    ensures Count(GamesItems(cfg), it) == GamesCount(cfg, it)
  {
    if GamesShown(cfg) {
      var g := SubmenuItem(Games, GameTarget(cfg));
      var skips := When(cfg.gamesEasterEgg, [SkipItem, SkipItem]);
      CountAppend(skips, [g], it);
      CountOne(g, it);
      if cfg.gamesEasterEgg {
        assert [SkipItem, SkipItem] == [SkipItem] + [SkipItem];
        CountAppend([SkipItem], [SkipItem], it);
        CountOne(SkipItem, it);
      }
    }
  }

  lemma CountSegments(cfg: Config, st: State, it: Item)
    requires Buildable(cfg)
    ensures Count(MainMenu(cfg, st), it) ==
      Count([BackItem(Watch)], it)
      + Count(if st.printingActive then BusyItems(cfg) else IdleItems(cfg, st), it)
      + Count(SettingsItems(cfg, st), it) + Count(ExtraItems(cfg, st), it)
      + Count(WheelSdItems(cfg, st), it) + Count(ServiceItems(cfg), it)
      + Count(GamesItems(cfg), it)
  {
    var a := [BackItem(Watch)];
    var b := if st.printingActive then BusyItems(cfg) else IdleItems(cfg, st);
    var c := SettingsItems(cfg, st);
    var d := ExtraItems(cfg, st);
    var e := WheelSdItems(cfg, st);
    var f := ServiceItems(cfg);
    var g := GamesItems(cfg);
    MainMenuSections(cfg, st);
    CountAppend(a + b + c + d + e + f, g, it);
    CountAppend(a + b + c + d + e, f, it);
    CountAppend(a + b + c + d, e, it);
    CountAppend(a + b + c, d, it);
    CountAppend(a + b, c, it);
    CountAppend(a, b, it);
  }

  /** The per-segment counts of an entry, added up in emission order. */
  function SegmentSum(cfg: Config, st: State, it: Item): nat
    requires Buildable(cfg)
  {
    Bit(it == BackItem(Watch))
    + (if st.printingActive then BusyCount(cfg, it) else IdleCount(cfg, st, it))
    + SettingsCount(cfg, st, it) + ExtrasCount(cfg, st, it)
    + (if cfg.encoderWheel && cfg.sdSupport then SdCount(cfg, st, it) else 0)
    + ServiceCount(cfg, it) + GamesCount(cfg, it)
  }

  /** The count of an entry in the whole menu is the sum of its counts in the
      segments. */
  lemma CountMainMenu(cfg: Config, st: State, it: Item)
    requires Buildable(cfg)
    ensures Count(MainMenu(cfg, st), it) == SegmentSum(cfg, st, it)
  {
    CountSegments(cfg, st, it);
    CountOne(BackItem(Watch), it);
    CountBranch(cfg, st, it);
    CountSettings(cfg, st, it);
    CountExtras(cfg, st, it);
    CountWheelSd(cfg, st, it);
    CountService(cfg, it);
    CountGames(cfg, it);
  }

  lemma CountBranch(cfg: Config, st: State, it: Item)
    ensures Count(if st.printingActive then BusyItems(cfg) else IdleItems(cfg, st), it)
      == if st.printingActive then BusyCount(cfg, it) else IdleCount(cfg, st, it)
  {
    if st.printingActive {
      CountBusy(cfg, it);
    } else {
      CountIdle(cfg, st, it);
    }
  }

  lemma CountWheelSd(cfg: Config, st: State, it: Item)
    ensures Count(WheelSdItems(cfg, st), it) == if cfg.encoderWheel && cfg.sdSupport then SdCount(cfg, st, it) else 0
  {
    if cfg.encoderWheel && cfg.sdSupport {
      CountSd(cfg, st, true, it);
    }
  }

  // The table agrees with the sum of the segment counts, entry by entry.

  /** Only the pause, resume, autostart and media placeholder labels are actions. */
  lemma EntryAction(cfg: Config, st: State, m: Msg)
    requires Buildable(cfg)
    ensures var e := Entry(cfg, st, m);
      e.Some? && e.value.ActionItem? ==> m in {PausePrint, ResumePrint, Autostart, NoMedia, MediaReleased}
  {
  }

  /** Only the media, filament-change and power labels run G-code. */
  lemma EntryGcode(cfg: Config, st: State, m: Msg)
    requires Buildable(cfg)
    ensures var e := Entry(cfg, st, m);
      e.Some? && e.value.GcodeItem? ==> m in {ChangeMedia, ReleaseMedia, InitMedia, FilamentChange, SwitchPsOff, SwitchPsOn}
  {
  }

  /** Every other label opens a submenu. */
  lemma EntrySubmenu(cfg: Config, st: State, m: Msg)
    requires Buildable(cfg)
    ensures var e := Entry(cfg, st, m);
      e.Some? && e.value.SubmenuItem? ==>
        m.ServiceName? || m in {StopPrint, Tune, MediaMenu, Motion, CutterMenu, Temperature, Mixer,
                                Mmu2Menu, Configuration, UserMenu, FilamentChange, InfoMenu, LedControl, Games}
  {
  }

  /** The table row of an action entry agrees with the segment counts. */
  lemma TableAction(cfg: Config, st: State, it: Item)
    requires Buildable(cfg) && it.ActionItem?
    ensures Occurs(cfg, st, it) == SegmentSum(cfg, st, it)
  {
    if it.msg !in {PausePrint, ResumePrint, Autostart, NoMedia, MediaReleased} {
      EntryAction(cfg, st, it.msg);
    }
  }

  /** The table row of a G-code entry agrees with the segment counts. */
  lemma TableGcode(cfg: Config, st: State, it: Item)
    requires Buildable(cfg) && it.GcodeItem?
    ensures Occurs(cfg, st, it) == SegmentSum(cfg, st, it)
  {
    if it.msg !in {ChangeMedia, ReleaseMedia, InitMedia, FilamentChange, SwitchPsOff, SwitchPsOn} {
      EntryGcode(cfg, st, it.msg);
    }
  }

  /** The submenu rows of the print branches agree with the segment counts. */
  lemma TableSubmenuBranch(cfg: Config, st: State, it: Item)
    requires Buildable(cfg) && it.SubmenuItem? && it.msg in {StopPrint, Tune, MediaMenu, Motion}
    ensures Occurs(cfg, st, it) == SegmentSum(cfg, st, it)
  {
  }

  /** The submenu rows of the settings agree with the segment counts. */
  lemma TableSubmenuSettings(cfg: Config, st: State, it: Item)
    requires Buildable(cfg) && it.SubmenuItem? && it.msg in {CutterMenu, Temperature, Mixer, Mmu2Menu, Configuration}
    ensures Occurs(cfg, st, it) == SegmentSum(cfg, st, it)
  {
  }

  /** The submenu rows of the extras agree with the segment counts. */
  lemma TableSubmenuExtras(cfg: Config, st: State, it: Item)
    requires Buildable(cfg) && it.SubmenuItem? && it.msg in {UserMenu, FilamentChange, InfoMenu, LedControl}
    ensures Occurs(cfg, st, it) == SegmentSum(cfg, st, it)
  {
  }

  /** The submenu rows of the service and games trailer agree with the segment counts. */
  lemma TableSubmenuTrailer(cfg: Config, st: State, it: Item)
    requires Buildable(cfg) && it.SubmenuItem? && (it.msg == Games || it.msg.ServiceName?)
    ensures Occurs(cfg, st, it) == SegmentSum(cfg, st, it)
  {
  }

  /** A submenu under any other label occurs nowhere. */
  lemma TableSubmenuOther(cfg: Config, st: State, it: Item)
    requires Buildable(cfg) && it.SubmenuItem? && !it.msg.ServiceName?
    requires it.msg !in {StopPrint, Tune, MediaMenu, Motion, CutterMenu, Temperature, Mixer, Mmu2Menu, Configuration,
                         UserMenu, FilamentChange, InfoMenu, LedControl, Games}
    ensures Occurs(cfg, st, it) == SegmentSum(cfg, st, it)
  {
    EntrySubmenu(cfg, st, it.msg);
  }

  /** The table agrees with the sum of the segment counts. */
  lemma TableMatches(cfg: Config, st: State, it: Item)
    requires Buildable(cfg)
    ensures Occurs(cfg, st, it) == SegmentSum(cfg, st, it)
  {
    match it
    case BackItem(_) =>
    case SkipItem =>
    case ActionItem(_, _) => TableAction(cfg, st, it);
    case SubmenuItem(m, _) =>
      if m in {StopPrint, Tune, MediaMenu, Motion} {
        TableSubmenuBranch(cfg, st, it);
      } else if m in {CutterMenu, Temperature, Mixer, Mmu2Menu, Configuration} {
        TableSubmenuSettings(cfg, st, it);
      } else if m in {UserMenu, FilamentChange, InfoMenu, LedControl} {
        TableSubmenuExtras(cfg, st, it);
      } else if m == Games || m.ServiceName? {
        TableSubmenuTrailer(cfg, st, it);
      } else {
        TableSubmenuOther(cfg, st, it);
      }
    case GcodeItem(_, _) => TableGcode(cfg, st, it);
  }
}
