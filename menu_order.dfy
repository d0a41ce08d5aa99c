// Where the main menu places its entries relative to one another: each group
// of labels seen on its own, in menu order.

module MenuOrder {
  import opened MenuTypes
  import opened ItemSeqs
  import opened MenuMain
  import opened MenuSelect

  // Each `XOrder` lemma below is proved in small steps, kept as lemmas of
  // their own so that every proof obligation stays small:
  //   - `XApart`: the label groups involved are disjoint (set facts only);
  //   - `XOnly`: every section but X's own contributes nothing to the selection;
  //   - `XSelected`: so the selection from the whole menu is the selection
  //     from X's section;
  //   - `XOrder`: which that section's own definition spells out.

  /** Cutter, Temperature, Mixer, MMU2 and Configuration come in this order;
      Temperature and Configuration are always there, MMU2 only while idle. */
  lemma SettingsOrder(cfg: Config, st: State)
    requires Buildable(cfg)
    ensures Labelled(MainMenu(cfg, st), SettingsLabels) ==
      When(cfg.hasCutter, [SubmenuItem(CutterMenu, MenuSpindleLaser)])
      + [SubmenuItem(Temperature, MenuTemperature)]
      + When(cfg.mixingExtruder, [SubmenuItem(Mixer, MenuMixer)])
      + When(cfg.mmu2Menus && !st.printingActive, [SubmenuItem(Mmu2Menu, MenuMmu2)])
      + [SubmenuItem(Configuration, MenuConfiguration)]
  {
    SettingsSelected(cfg, st);
    SettingsLabelled(cfg, st);
    LabelledAll(SettingsItems(cfg, st), SettingsLabels, SettingsLabels);
  }

  lemma SettingsSelected(cfg: Config, st: State)
    requires Buildable(cfg)
    ensures Labelled(MainMenu(cfg, st), SettingsLabels) == Labelled(SettingsItems(cfg, st), SettingsLabels)
  {
    SettingsOnly(cfg, st);
    LabelledSections(cfg, st, SettingsLabels);
    KeepThird(Labelled([BackItem(Watch)], SettingsLabels),
      Labelled(if st.printingActive then BusyItems(cfg) else IdleItems(cfg, st), SettingsLabels),
      Labelled(SettingsItems(cfg, st), SettingsLabels), Labelled(ExtraItems(cfg, st), SettingsLabels),
      Labelled(WheelSdItems(cfg, st), SettingsLabels), Labelled(ServiceItems(cfg), SettingsLabels),
      Labelled(GamesItems(cfg), SettingsLabels));
  }

  lemma SettingsOnly(cfg: Config, st: State)
    requires Buildable(cfg)
    ensures Labelled([BackItem(Watch)], SettingsLabels) == []
    ensures Labelled(if st.printingActive then BusyItems(cfg) else IdleItems(cfg, st), SettingsLabels) == []
    ensures Labelled(ExtraItems(cfg, st), SettingsLabels) == []
    ensures Labelled(WheelSdItems(cfg, st), SettingsLabels) == []
    ensures Labelled(ServiceItems(cfg), SettingsLabels) == []
    ensures Labelled(GamesItems(cfg), SettingsLabels) == []
  {
    SettingsApart();
    BackWithout(SettingsLabels);
    if st.printingActive {
      BusyWithout(cfg, SettingsLabels);
    } else {
      IdleWithout(cfg, st, SettingsLabels);
    }
    ExtrasWithout(cfg, st, SettingsLabels);
    WheelSdWithout(cfg, st, SettingsLabels);
    ServiceWithout(cfg, st, SettingsLabels);
    GamesWithout(cfg, SettingsLabels);
  }

  lemma SettingsApart()
    ensures Watch !in SettingsLabels && Games !in SettingsLabels
    ensures BusyLabels !! SettingsLabels && IdleLabels !! SettingsLabels && ExtraLabels !! SettingsLabels
    ensures SdLabels !! SettingsLabels && ServiceLabels !! SettingsLabels
  {
  }

  /** The temperature and configuration screens are always offered, the first
      before the second, and no other entry carries their labels. */
  lemma TemperatureThenConfiguration(cfg: Config, st: State)
    requires Buildable(cfg)
    ensures Labelled(MainMenu(cfg, st), {Temperature, Configuration}) ==
      [SubmenuItem(Temperature, MenuTemperature), SubmenuItem(Configuration, MenuConfiguration)]
  {
    TemperatureSelected(cfg, st);
    SettingsPair(cfg, st, {Temperature, Configuration});
  }

  lemma TemperatureSelected(cfg: Config, st: State)
    requires Buildable(cfg)
    ensures Labelled(MainMenu(cfg, st), {Temperature, Configuration})
      == Labelled(SettingsItems(cfg, st), {Temperature, Configuration})
  {
    var labels := {Temperature, Configuration};
    TemperatureOnly(cfg, st);
    LabelledSections(cfg, st, labels);
    KeepThird(Labelled([BackItem(Watch)], labels),
      Labelled(if st.printingActive then BusyItems(cfg) else IdleItems(cfg, st), labels),
      Labelled(SettingsItems(cfg, st), labels), Labelled(ExtraItems(cfg, st), labels),
      Labelled(WheelSdItems(cfg, st), labels), Labelled(ServiceItems(cfg), labels),
      Labelled(GamesItems(cfg), labels));
  }

  lemma TemperatureOnly(cfg: Config, st: State)
    requires Buildable(cfg)
    ensures Labelled([BackItem(Watch)], {Temperature, Configuration}) == []
    ensures Labelled(if st.printingActive then BusyItems(cfg) else IdleItems(cfg, st), {Temperature, Configuration}) == []
    ensures Labelled(ExtraItems(cfg, st), {Temperature, Configuration}) == []
    ensures Labelled(WheelSdItems(cfg, st), {Temperature, Configuration}) == []
    ensures Labelled(ServiceItems(cfg), {Temperature, Configuration}) == []
    ensures Labelled(GamesItems(cfg), {Temperature, Configuration}) == []
  {
    var labels := {Temperature, Configuration};
    TemperatureApart();
    BackWithout(labels);
    if st.printingActive {
      BusyWithout(cfg, labels);
    } else {
      IdleWithout(cfg, st, labels);
    }
    ExtrasWithout(cfg, st, labels);
    WheelSdWithout(cfg, st, labels);
    ServiceWithout(cfg, st, labels);
    GamesWithout(cfg, labels);
  }

  lemma TemperatureApart()
    ensures Watch !in {Temperature, Configuration} && Games !in {Temperature, Configuration}
    ensures BusyLabels !! {Temperature, Configuration} && IdleLabels !! {Temperature, Configuration}
    ensures ExtraLabels !! {Temperature, Configuration} && SdLabels !! {Temperature, Configuration}
    ensures ServiceLabels !! {Temperature, Configuration}
  {
  }

  /** Selecting Temperature and Configuration but no other settings label keeps
      exactly those two entries of the settings section. */
  lemma SettingsPair(cfg: Config, st: State, labels: set<Msg>)
    requires Temperature in labels && Configuration in labels
    requires CutterMenu !in labels && Mixer !in labels && Mmu2Menu !in labels
    ensures Labelled(SettingsItems(cfg, st), labels) ==
      [SubmenuItem(Temperature, MenuTemperature), SubmenuItem(Configuration, MenuConfiguration)]
  {
    var cutter := When(cfg.hasCutter, [SubmenuItem(CutterMenu, MenuSpindleLaser)]);
    var temp := [SubmenuItem(Temperature, MenuTemperature)];
    var mixer := When(cfg.mixingExtruder, [SubmenuItem(Mixer, MenuMixer)]);
    var mmu2 := When(cfg.mmu2Menus && !st.printingActive, [SubmenuItem(Mmu2Menu, MenuMmu2)]);
    var conf := [SubmenuItem(Configuration, MenuConfiguration)];
    LabelledConcat(cutter + temp + mixer + mmu2, conf, labels);
    LabelledConcat(cutter + temp + mixer, mmu2, labels);
    LabelledConcat(cutter + temp, mixer, labels);
    LabelledConcat(cutter, temp, labels);
    LabelledWhenOut(cfg.hasCutter, SubmenuItem(CutterMenu, MenuSpindleLaser), labels);
    LabelledOne(SubmenuItem(Temperature, MenuTemperature), labels);
    LabelledWhenOut(cfg.mixingExtruder, SubmenuItem(Mixer, MenuMixer), labels);
    LabelledWhenOut(cfg.mmu2Menus && !st.printingActive, SubmenuItem(Mmu2Menu, MenuMmu2), labels);
    LabelledOne(SubmenuItem(Configuration, MenuConfiguration), labels);
  }

  /** The media entries of the menu, in order. Nothing while printing without
      the encoder wheel or without SD support; otherwise Media-menu with the
      change (SD_DETECT) or release command on a card without an open file, the
      command first in the wheel layout; nothing with a file open; and without a
      card either the NO_MEDIA placeholder (SD_DETECT) or the "M21" command
      followed by the MEDIA_RELEASED placeholder. */
  lemma MediaOrder(cfg: Config, st: State)
    requires Buildable(cfg)
    ensures Labelled(MainMenu(cfg, st), MediaLabels) ==
      if !(cfg.sdSupport && (cfg.encoderWheel || !st.printingActive)) then []
      else if st.cardMounted && !st.fileOpen then
        (if cfg.encoderWheel then [ChangeOrReleaseMedia(cfg), SubmenuItem(MediaMenu, MenuMedia)]
         else [SubmenuItem(MediaMenu, MenuMedia), ChangeOrReleaseMedia(cfg)])
      else if st.cardMounted then []
      else if cfg.sdDetectPin then [ActionItem(NoMedia, NullHandler)]
      else [GcodeItem(InitMedia, "M21"), ActionItem(MediaReleased, NullHandler)]
    ensures ChangeOrReleaseMedia(cfg) ==
      if cfg.sdDetectPin then GcodeItem(ChangeMedia, "M21") else GcodeItem(ReleaseMedia, "M22")
  {
    MediaLayout(cfg, st);
  }

  /** The media block of the layout in use, where the layout shows it. */
  lemma MediaLayout(cfg: Config, st: State)
    requires Buildable(cfg)
    ensures Labelled(MainMenu(cfg, st), MediaLabels) ==
      When(cfg.sdSupport && (cfg.encoderWheel || !st.printingActive), MediaItems(cfg, st, cfg.encoderWheel))
  {
    MediaSelected(cfg, st);
    MediaBranch(cfg, st);
    LabelledWhen(cfg.encoderWheel && cfg.sdSupport, SdItems(cfg, st, true), MediaLabels);
    SdMedia(cfg, st, true);
  }

  lemma MediaBranch(cfg: Config, st: State)
    ensures Labelled(if st.printingActive then BusyItems(cfg) else IdleItems(cfg, st), MediaLabels)
      == When(!cfg.encoderWheel && cfg.sdSupport && !st.printingActive, MediaItems(cfg, st, false))
  {
    MediaApart();
    if st.printingActive {
      BusyWithout(cfg, MediaLabels);
    } else {
      IdleSelect(cfg, st, MediaLabels);
      SdMedia(cfg, st, false);
    }
  }

  lemma MediaSelected(cfg: Config, st: State)
    requires Buildable(cfg)
    ensures Labelled(MainMenu(cfg, st), MediaLabels) ==
      Labelled(if st.printingActive then BusyItems(cfg) else IdleItems(cfg, st), MediaLabels)
      + Labelled(WheelSdItems(cfg, st), MediaLabels)
  {
    MediaOnly(cfg, st);
    LabelledSections(cfg, st, MediaLabels);
    KeepSecondFifth(Labelled([BackItem(Watch)], MediaLabels),
      Labelled(if st.printingActive then BusyItems(cfg) else IdleItems(cfg, st), MediaLabels),
      Labelled(SettingsItems(cfg, st), MediaLabels), Labelled(ExtraItems(cfg, st), MediaLabels),
      Labelled(WheelSdItems(cfg, st), MediaLabels), Labelled(ServiceItems(cfg), MediaLabels),
      Labelled(GamesItems(cfg), MediaLabels));
  }

  lemma MediaOnly(cfg: Config, st: State)
    requires Buildable(cfg)
    ensures Labelled([BackItem(Watch)], MediaLabels) == []
    ensures Labelled(SettingsItems(cfg, st), MediaLabels) == []
    ensures Labelled(ExtraItems(cfg, st), MediaLabels) == []
    ensures Labelled(ServiceItems(cfg), MediaLabels) == []
    ensures Labelled(GamesItems(cfg), MediaLabels) == []
  {
    MediaApart();
    BackWithout(MediaLabels);
    SettingsWithout(cfg, st, MediaLabels);
    ExtrasWithout(cfg, st, MediaLabels);
    ServiceWithout(cfg, st, MediaLabels);
    GamesWithout(cfg, MediaLabels);
  }

  lemma MediaApart()
    ensures Watch !in MediaLabels && Games !in MediaLabels
    ensures ResumePrint !in MediaLabels && Motion !in MediaLabels
    ensures BusyLabels !! MediaLabels && SettingsLabels !! MediaLabels && ExtraLabels !! MediaLabels
    ensures ServiceLabels !! MediaLabels
  {
  }

  /** Autostart is offered with SD support and MENU_ADDAUTOSTART, only while
      no print runs, in either layout. */
  lemma AutostartOrder(cfg: Config, st: State)
    requires Buildable(cfg)
    ensures Labelled(MainMenu(cfg, st), {Autostart}) ==
      When(cfg.sdSupport && cfg.menuAddAutostart && !st.printingActive, [ActionItem(Autostart, CardBeginAutostart)])
  {
    AutostartSelected(cfg, st);
    AutostartBranch(cfg, st);
    LabelledWhen(cfg.encoderWheel && cfg.sdSupport, SdItems(cfg, st, true), {Autostart});
    SdAutostart(cfg, st, true);
  }

  lemma AutostartBranch(cfg: Config, st: State)
    ensures Labelled(if st.printingActive then BusyItems(cfg) else IdleItems(cfg, st), {Autostart})
      == When(!cfg.encoderWheel && cfg.sdSupport && !st.printingActive && cfg.menuAddAutostart,
              [ActionItem(Autostart, CardBeginAutostart)])
  {
    AutostartApart();
    if st.printingActive {
      BusyWithout(cfg, {Autostart});
    } else {
      IdleSelect(cfg, st, {Autostart});
      SdAutostart(cfg, st, false);
    }
  }

  lemma AutostartSelected(cfg: Config, st: State)
    requires Buildable(cfg)
    ensures Labelled(MainMenu(cfg, st), {Autostart}) ==
      Labelled(if st.printingActive then BusyItems(cfg) else IdleItems(cfg, st), {Autostart})
      + Labelled(WheelSdItems(cfg, st), {Autostart})
  {
    AutostartOnly(cfg, st);
    LabelledSections(cfg, st, {Autostart});
    KeepSecondFifth(Labelled([BackItem(Watch)], {Autostart}),
      Labelled(if st.printingActive then BusyItems(cfg) else IdleItems(cfg, st), {Autostart}),
      Labelled(SettingsItems(cfg, st), {Autostart}), Labelled(ExtraItems(cfg, st), {Autostart}),
      Labelled(WheelSdItems(cfg, st), {Autostart}), Labelled(ServiceItems(cfg), {Autostart}),
      Labelled(GamesItems(cfg), {Autostart}));
  }

  lemma AutostartOnly(cfg: Config, st: State)
    requires Buildable(cfg)
    ensures Labelled([BackItem(Watch)], {Autostart}) == []
    ensures Labelled(SettingsItems(cfg, st), {Autostart}) == []
    ensures Labelled(ExtraItems(cfg, st), {Autostart}) == []
    ensures Labelled(ServiceItems(cfg), {Autostart}) == []
    ensures Labelled(GamesItems(cfg), {Autostart}) == []
  {
    AutostartApart();
    BackWithout({Autostart});
    SettingsWithout(cfg, st, {Autostart});
    ExtrasWithout(cfg, st, {Autostart});
    ServiceWithout(cfg, st, {Autostart});
    GamesWithout(cfg, {Autostart});
  }

  lemma AutostartApart()
    ensures BusyLabels !! {Autostart} && SettingsLabels !! {Autostart} && ExtraLabels !! {Autostart}
    ensures ServiceLabels !! {Autostart}
  {
  }

  /** Without the encoder wheel and out of print, the SD entries come first,
      then Resume, then Motion, before any other entry of these labels. */
  lemma IdleOrder(cfg: Config, st: State)
    requires Buildable(cfg) && !cfg.encoderWheel && !st.printingActive
    ensures Labelled(MainMenu(cfg, st), IdleLabels) ==
      When(cfg.sdSupport, SdItems(cfg, st, false))
      + When(CanPause(cfg) && st.printingPaused, [ActionItem(ResumePrint, UiResumePrint)])
      + [SubmenuItem(Motion, MenuMotion)]
  {
    IdleSelected(cfg, st);
    BranchLabelled(cfg, st);
    LabelledAll(IdleItems(cfg, st), IdleLabels, IdleLabels);
  }

  lemma IdleSelected(cfg: Config, st: State)
    requires Buildable(cfg) && !cfg.encoderWheel && !st.printingActive
    ensures Labelled(MainMenu(cfg, st), IdleLabels) == Labelled(IdleItems(cfg, st), IdleLabels)
  {
    IdleOnly(cfg, st);
    LabelledSections(cfg, st, IdleLabels);
    KeepSecond(Labelled([BackItem(Watch)], IdleLabels), Labelled(IdleItems(cfg, st), IdleLabels),
      Labelled(SettingsItems(cfg, st), IdleLabels), Labelled(ExtraItems(cfg, st), IdleLabels),
      Labelled(WheelSdItems(cfg, st), IdleLabels), Labelled(ServiceItems(cfg), IdleLabels),
      Labelled(GamesItems(cfg), IdleLabels));
  }

  lemma IdleOnly(cfg: Config, st: State)
    requires Buildable(cfg) && !cfg.encoderWheel
    ensures Labelled([BackItem(Watch)], IdleLabels) == []
    ensures Labelled(SettingsItems(cfg, st), IdleLabels) == []
    ensures Labelled(ExtraItems(cfg, st), IdleLabels) == []
    ensures Labelled(WheelSdItems(cfg, st), IdleLabels) == []
    ensures Labelled(ServiceItems(cfg), IdleLabels) == []
    ensures Labelled(GamesItems(cfg), IdleLabels) == []
  {
    IdleApart();
    BackWithout(IdleLabels);
    SettingsWithout(cfg, st, IdleLabels);
    ExtrasWithout(cfg, st, IdleLabels);
    ServiceWithout(cfg, st, IdleLabels);
    GamesWithout(cfg, IdleLabels);
  }

  lemma IdleApart()
    ensures Watch !in IdleLabels && Games !in IdleLabels
    ensures SettingsLabels !! IdleLabels && ExtraLabels !! IdleLabels && ServiceLabels !! IdleLabels
  {
  }

  /** With the encoder wheel, the power switch comes before the SD entries
      (Autostart, then the media block with its command first). */
  lemma WheelOrder(cfg: Config, st: State)
    requires Buildable(cfg) && cfg.encoderWheel
    ensures Labelled(MainMenu(cfg, st), SdLabels + PowerLabels) ==
      PowerItems(cfg, st) + When(cfg.sdSupport, SdItems(cfg, st, true))
  {
    WheelSelected(cfg, st);
    WheelExtras(cfg, st);
    TrailerLabelled(cfg, st);
    WheelApartSd();
    LabelledAll(WheelSdItems(cfg, st), SdLabels, SdLabels + PowerLabels);
  }

  lemma WheelExtras(cfg: Config, st: State)
    ensures Labelled(ExtraItems(cfg, st), SdLabels + PowerLabels) == PowerItems(cfg, st)
  {
    WheelApartExtras();
    ExtrasSelect(cfg, st, SdLabels + PowerLabels);
    ExtrasLabelled(cfg, st);
    LabelledNone(FilamentItems(cfg, st), FilamentLabels, SdLabels + PowerLabels);
    LabelledAll(PowerItems(cfg, st), PowerLabels, SdLabels + PowerLabels);
  }

  lemma WheelSelected(cfg: Config, st: State)
    requires Buildable(cfg) && cfg.encoderWheel
    ensures Labelled(MainMenu(cfg, st), SdLabels + PowerLabels) ==
      Labelled(ExtraItems(cfg, st), SdLabels + PowerLabels) + Labelled(WheelSdItems(cfg, st), SdLabels + PowerLabels)
  {
    var labels := SdLabels + PowerLabels;
    WheelOnly(cfg, st);
    LabelledSections(cfg, st, labels);
    KeepFourthFifth(Labelled([BackItem(Watch)], labels),
      Labelled(if st.printingActive then BusyItems(cfg) else IdleItems(cfg, st), labels),
      Labelled(SettingsItems(cfg, st), labels), Labelled(ExtraItems(cfg, st), labels),
      Labelled(WheelSdItems(cfg, st), labels), Labelled(ServiceItems(cfg), labels),
      Labelled(GamesItems(cfg), labels));
  }

  lemma WheelOnly(cfg: Config, st: State)
    requires Buildable(cfg) && cfg.encoderWheel
    ensures Labelled([BackItem(Watch)], SdLabels + PowerLabels) == []
    ensures Labelled(if st.printingActive then BusyItems(cfg) else IdleItems(cfg, st), SdLabels + PowerLabels) == []
    ensures Labelled(SettingsItems(cfg, st), SdLabels + PowerLabels) == []
    ensures Labelled(ServiceItems(cfg), SdLabels + PowerLabels) == []
    ensures Labelled(GamesItems(cfg), SdLabels + PowerLabels) == []
  {
    var labels := SdLabels + PowerLabels;
    WheelApart();
    BackWithout(labels);
    if st.printingActive {
      BusyWithout(cfg, labels);
    } else {
      IdleSelect(cfg, st, labels);
    }
    SettingsWithout(cfg, st, labels);
    ServiceWithout(cfg, st, labels);
    GamesWithout(cfg, labels);
  }

  lemma WheelApart()
    ensures Watch !in SdLabels + PowerLabels && Games !in SdLabels + PowerLabels
    ensures ResumePrint !in SdLabels + PowerLabels && Motion !in SdLabels + PowerLabels
    ensures BusyLabels !! SdLabels + PowerLabels && SettingsLabels !! SdLabels + PowerLabels
    ensures ServiceLabels !! SdLabels + PowerLabels
  {
  }

  lemma WheelApartExtras()
    ensures UserMenu !in SdLabels + PowerLabels && InfoMenu !in SdLabels + PowerLabels
    ensures LedControl !in SdLabels + PowerLabels
    ensures FilamentLabels !! SdLabels + PowerLabels && PowerLabels <= SdLabels + PowerLabels
  {
  }

  lemma WheelApartSd()
    ensures SdLabels <= SdLabels + PowerLabels
  {
  }

  /** The power switch is a single command: "M81" (switch off) while the
      supply is on, "M80" (switch on) otherwise. */
  lemma PowerOrder(cfg: Config, st: State)
    requires Buildable(cfg)
    ensures Labelled(MainMenu(cfg, st), PowerLabels) ==
      if !cfg.hasPowerSwitch then []
      else if st.powerSupplyOn then [GcodeItem(SwitchPsOff, "M81")]
      else [GcodeItem(SwitchPsOn, "M80")]
  {
    PowerSelected(cfg, st);
    PowerApart();
    ExtrasSelect(cfg, st, PowerLabels);
    ExtrasLabelled(cfg, st);
    LabelledNone(FilamentItems(cfg, st), FilamentLabels, PowerLabels);
    LabelledAll(PowerItems(cfg, st), PowerLabels, PowerLabels);
  }

  lemma PowerSelected(cfg: Config, st: State)
    requires Buildable(cfg)
    ensures Labelled(MainMenu(cfg, st), PowerLabels) == Labelled(ExtraItems(cfg, st), PowerLabels)
  {
    PowerOnly(cfg, st);
    LabelledSections(cfg, st, PowerLabels);
    KeepFourth(Labelled([BackItem(Watch)], PowerLabels),
      Labelled(if st.printingActive then BusyItems(cfg) else IdleItems(cfg, st), PowerLabels),
      Labelled(SettingsItems(cfg, st), PowerLabels), Labelled(ExtraItems(cfg, st), PowerLabels),
      Labelled(WheelSdItems(cfg, st), PowerLabels), Labelled(ServiceItems(cfg), PowerLabels),
      Labelled(GamesItems(cfg), PowerLabels));
  }

  lemma PowerOnly(cfg: Config, st: State)
    requires Buildable(cfg)
    ensures Labelled([BackItem(Watch)], PowerLabels) == []
    ensures Labelled(if st.printingActive then BusyItems(cfg) else IdleItems(cfg, st), PowerLabels) == []
    ensures Labelled(SettingsItems(cfg, st), PowerLabels) == []
    ensures Labelled(WheelSdItems(cfg, st), PowerLabels) == []
    ensures Labelled(ServiceItems(cfg), PowerLabels) == []
    ensures Labelled(GamesItems(cfg), PowerLabels) == []
  {
    PowerApart();
    BackWithout(PowerLabels);
    if st.printingActive {
      BusyWithout(cfg, PowerLabels);
    } else {
      IdleWithout(cfg, st, PowerLabels);
    }
    SettingsWithout(cfg, st, PowerLabels);
    WheelSdWithout(cfg, st, PowerLabels);
    ServiceWithout(cfg, st, PowerLabels);
    GamesWithout(cfg, PowerLabels);
  }

  lemma PowerApart()
    ensures Watch !in PowerLabels && Games !in PowerLabels
    ensures UserMenu !in PowerLabels && InfoMenu !in PowerLabels && LedControl !in PowerLabels
    ensures BusyLabels !! PowerLabels && IdleLabels !! PowerLabels && SettingsLabels !! PowerLabels
    ensures SdLabels !! PowerLabels && ServiceLabels !! PowerLabels && FilamentLabels !! PowerLabels
  {
  }

  /** Advanced pause offers a single filament-change entry: in the
      single-extruder configuration without load/unload G-codes the "M600 B0"
      command when the hotend is hot enough and the load-temperature screen
      otherwise; in every other configuration the change-filament screen. */
  lemma FilamentOrder(cfg: Config, st: State)
    requires Buildable(cfg)
    ensures Labelled(MainMenu(cfg, st), FilamentLabels) ==
      if !cfg.advancedPauseFeature then []
      else if cfg.eSteppers == 1 && !cfg.filamentLoadUnloadGcodes then
        if st.hotEnoughToExtrude then [GcodeItem(FilamentChange, "M600 B0")]
        else [SubmenuItem(FilamentChange, TempFilamentLoad)]
      else [SubmenuItem(FilamentChange, MenuChangeFilament)]
  {
    FilamentSelected(cfg, st);
    FilamentApart();
    ExtrasSelect(cfg, st, FilamentLabels);
    ExtrasLabelled(cfg, st);
    LabelledAll(FilamentItems(cfg, st), FilamentLabels, FilamentLabels);
    LabelledNone(PowerItems(cfg, st), PowerLabels, FilamentLabels);
  }

  lemma FilamentSelected(cfg: Config, st: State)
    requires Buildable(cfg)
    ensures Labelled(MainMenu(cfg, st), FilamentLabels) == Labelled(ExtraItems(cfg, st), FilamentLabels)
  {
    FilamentOnly(cfg, st);
    LabelledSections(cfg, st, FilamentLabels);
    KeepFourth(Labelled([BackItem(Watch)], FilamentLabels),
      Labelled(if st.printingActive then BusyItems(cfg) else IdleItems(cfg, st), FilamentLabels),
      Labelled(SettingsItems(cfg, st), FilamentLabels), Labelled(ExtraItems(cfg, st), FilamentLabels),
      Labelled(WheelSdItems(cfg, st), FilamentLabels), Labelled(ServiceItems(cfg), FilamentLabels),
      Labelled(GamesItems(cfg), FilamentLabels));
  }

  lemma FilamentOnly(cfg: Config, st: State)
    requires Buildable(cfg)
    ensures Labelled([BackItem(Watch)], FilamentLabels) == []
    ensures Labelled(if st.printingActive then BusyItems(cfg) else IdleItems(cfg, st), FilamentLabels) == []
    ensures Labelled(SettingsItems(cfg, st), FilamentLabels) == []
    ensures Labelled(WheelSdItems(cfg, st), FilamentLabels) == []
    ensures Labelled(ServiceItems(cfg), FilamentLabels) == []
    ensures Labelled(GamesItems(cfg), FilamentLabels) == []
  {
    FilamentApart();
    BackWithout(FilamentLabels);
    if st.printingActive {
      BusyWithout(cfg, FilamentLabels);
    } else {
      IdleWithout(cfg, st, FilamentLabels);
    }
    SettingsWithout(cfg, st, FilamentLabels);
    WheelSdWithout(cfg, st, FilamentLabels);
    ServiceWithout(cfg, st, FilamentLabels);
    GamesWithout(cfg, FilamentLabels);
  }

  lemma FilamentApart()
    ensures Watch !in FilamentLabels && Games !in FilamentLabels
    ensures UserMenu !in FilamentLabels && InfoMenu !in FilamentLabels && LedControl !in FilamentLabels
    ensures BusyLabels !! FilamentLabels && IdleLabels !! FilamentLabels && SettingsLabels !! FilamentLabels
    ensures SdLabels !! FilamentLabels && ServiceLabels !! FilamentLabels && PowerLabels !! FilamentLabels
  {
  }

  /** The service reminders 1, 2 and 3, each when its interval is set, in
      this order. */
  lemma ServiceOrder(cfg: Config, st: State)
    requires Buildable(cfg)
    ensures Labelled(MainMenu(cfg, st), ServiceLabels) ==
      When(cfg.hasServiceIntervals && cfg.serviceInterval1 > 0, [SubmenuItem(ServiceName(1), MenuService(1))])
      + When(cfg.hasServiceIntervals && cfg.serviceInterval2 > 0, [SubmenuItem(ServiceName(2), MenuService(2))])
      + When(cfg.hasServiceIntervals && cfg.serviceInterval3 > 0, [SubmenuItem(ServiceName(3), MenuService(3))])
  {
    ServiceSelected(cfg, st);
    TrailerLabelled(cfg, st);
    LabelledAll(ServiceItems(cfg), ServiceLabels, ServiceLabels);
  }

  lemma ServiceSelected(cfg: Config, st: State)
    requires Buildable(cfg)
    ensures Labelled(MainMenu(cfg, st), ServiceLabels) == Labelled(ServiceItems(cfg), ServiceLabels)
  {
    ServiceOnly(cfg, st);
    LabelledSections(cfg, st, ServiceLabels);
    KeepSixth(Labelled([BackItem(Watch)], ServiceLabels),
      Labelled(if st.printingActive then BusyItems(cfg) else IdleItems(cfg, st), ServiceLabels),
      Labelled(SettingsItems(cfg, st), ServiceLabels), Labelled(ExtraItems(cfg, st), ServiceLabels),
      Labelled(WheelSdItems(cfg, st), ServiceLabels), Labelled(ServiceItems(cfg), ServiceLabels),
      Labelled(GamesItems(cfg), ServiceLabels));
  }

  lemma ServiceOnly(cfg: Config, st: State)
    requires Buildable(cfg)
    ensures Labelled([BackItem(Watch)], ServiceLabels) == []
    ensures Labelled(if st.printingActive then BusyItems(cfg) else IdleItems(cfg, st), ServiceLabels) == []
    ensures Labelled(SettingsItems(cfg, st), ServiceLabels) == []
    ensures Labelled(ExtraItems(cfg, st), ServiceLabels) == []
    ensures Labelled(WheelSdItems(cfg, st), ServiceLabels) == []
    ensures Labelled(GamesItems(cfg), ServiceLabels) == []
  {
    ServiceApart();
    BackWithout(ServiceLabels);
    if st.printingActive {
      BusyWithout(cfg, ServiceLabels);
    } else {
      IdleWithout(cfg, st, ServiceLabels);
    }
    SettingsWithout(cfg, st, ServiceLabels);
    ExtrasWithout(cfg, st, ServiceLabels);
    WheelSdWithout(cfg, st, ServiceLabels);
    GamesWithout(cfg, ServiceLabels);
  }

  lemma ServiceApart()
    ensures Watch !in ServiceLabels && Games !in ServiceLabels
    ensures BusyLabels !! ServiceLabels && IdleLabels !! ServiceLabels && SettingsLabels !! ServiceLabels
    ensures ExtraLabels !! ServiceLabels && SdLabels !! ServiceLabels
  {
  }

  /** User menu, filament change, Info, LED control and the power switch come
      in this order, each under its own flag. */
  lemma ExtrasOrder(cfg: Config, st: State)
    requires Buildable(cfg)
    ensures Labelled(MainMenu(cfg, st), ExtraLabels) ==
      When(cfg.customUserMenus, [SubmenuItem(UserMenu, MenuUser)])
      + FilamentItems(cfg, st)
      + When(cfg.lcdInfoMenu, [SubmenuItem(InfoMenu, MenuInfo)])
      + When(cfg.ledControlMenu, [SubmenuItem(LedControl, MenuLed)])
      + PowerItems(cfg, st)
  {
    ExtrasSelected(cfg, st);
    ExtrasLabelled(cfg, st);
    LabelledAll(ExtraItems(cfg, st), ExtraLabels, ExtraLabels);
  }

  lemma ExtrasSelected(cfg: Config, st: State)
    requires Buildable(cfg)
    ensures Labelled(MainMenu(cfg, st), ExtraLabels) == Labelled(ExtraItems(cfg, st), ExtraLabels)
  {
    ExtrasOnly(cfg, st);
    LabelledSections(cfg, st, ExtraLabels);
    KeepFourth(Labelled([BackItem(Watch)], ExtraLabels),
      Labelled(if st.printingActive then BusyItems(cfg) else IdleItems(cfg, st), ExtraLabels),
      Labelled(SettingsItems(cfg, st), ExtraLabels), Labelled(ExtraItems(cfg, st), ExtraLabels),
      Labelled(WheelSdItems(cfg, st), ExtraLabels), Labelled(ServiceItems(cfg), ExtraLabels),
      Labelled(GamesItems(cfg), ExtraLabels));
  }

  lemma ExtrasOnly(cfg: Config, st: State)
    requires Buildable(cfg)
    ensures Labelled([BackItem(Watch)], ExtraLabels) == []
    ensures Labelled(if st.printingActive then BusyItems(cfg) else IdleItems(cfg, st), ExtraLabels) == []
    ensures Labelled(SettingsItems(cfg, st), ExtraLabels) == []
    ensures Labelled(WheelSdItems(cfg, st), ExtraLabels) == []
    ensures Labelled(ServiceItems(cfg), ExtraLabels) == []
    ensures Labelled(GamesItems(cfg), ExtraLabels) == []
  {
    ExtrasApart();
    BackWithout(ExtraLabels);
    if st.printingActive {
      BusyWithout(cfg, ExtraLabels);
    } else {
      IdleWithout(cfg, st, ExtraLabels);
    }
    SettingsWithout(cfg, st, ExtraLabels);
    WheelSdWithout(cfg, st, ExtraLabels);
    ServiceWithout(cfg, st, ExtraLabels);
    GamesWithout(cfg, ExtraLabels);
  }

  lemma ExtrasApart()
    ensures Watch !in ExtraLabels && Games !in ExtraLabels
    ensures BusyLabels !! ExtraLabels && IdleLabels !! ExtraLabels && SettingsLabels !! ExtraLabels
    ensures SdLabels !! ExtraLabels && ServiceLabels !! ExtraLabels
  {
  }

  // The order of the sections: the last entry of the branch (Tune while
  // printing, Motion otherwise), then the whole settings section, then the
  // extras, and with the encoder wheel the media block after them.

  const AnchorLabels: set<Msg> := {Tune, Motion} + SettingsLabels + ExtraLabels

  /** The branch ends in Tune or Motion, which comes before every settings
      entry (Cutter included), which come before every extras entry. */
  lemma SectionOrder(cfg: Config, st: State)
    requires Buildable(cfg)
    ensures Labelled(MainMenu(cfg, st), AnchorLabels) ==
      [if st.printingActive then SubmenuItem(Tune, MenuTune) else SubmenuItem(Motion, MenuMotion)]
      + SettingsItems(cfg, st) + ExtraItems(cfg, st)
  {
    var branch := if st.printingActive then BusyItems(cfg) else IdleItems(cfg, st);
    AnchorSelected(cfg, st);
    BranchAnchor(cfg, st, AnchorLabels);
    SectionsAnchor(cfg, st, AnchorLabels);
    Rejoin(Labelled(MainMenu(cfg, st), AnchorLabels),
      Labelled(branch, AnchorLabels), Labelled(SettingsItems(cfg, st), AnchorLabels),
      Labelled(ExtraItems(cfg, st), AnchorLabels),
      [if st.printingActive then SubmenuItem(Tune, MenuTune) else SubmenuItem(Motion, MenuMotion)],
      SettingsItems(cfg, st), ExtraItems(cfg, st));
  }

  const WheelAnchorLabels: set<Msg> := AnchorLabels + SdLabels

  /** With the encoder wheel the media block, printing or not, follows the
      branch, the settings and the extras. */
  lemma WheelSectionOrder(cfg: Config, st: State)
    requires Buildable(cfg) && cfg.encoderWheel
    ensures Labelled(MainMenu(cfg, st), WheelAnchorLabels) ==
      [if st.printingActive then SubmenuItem(Tune, MenuTune) else SubmenuItem(Motion, MenuMotion)]
      + SettingsItems(cfg, st) + ExtraItems(cfg, st) + When(cfg.sdSupport, SdItems(cfg, st, true))
  {
    var labels := WheelAnchorLabels;
    var branch := if st.printingActive then BusyItems(cfg) else IdleItems(cfg, st);
    WheelAnchorSelected(cfg, st);
    BranchAnchor(cfg, st, labels);
    SectionsAnchor(cfg, st, labels);
    TrailerLabelled(cfg, st);
    LabelledAll(WheelSdItems(cfg, st), SdLabels, labels);
    Rejoin4(Labelled(MainMenu(cfg, st), labels),
      Labelled(branch, labels), Labelled(SettingsItems(cfg, st), labels),
      Labelled(ExtraItems(cfg, st), labels), Labelled(WheelSdItems(cfg, st), labels),
      [if st.printingActive then SubmenuItem(Tune, MenuTune) else SubmenuItem(Motion, MenuMotion)],
      SettingsItems(cfg, st), ExtraItems(cfg, st), WheelSdItems(cfg, st));
  }

  /** The settings and the extras are kept whole. */
  lemma SectionsAnchor(cfg: Config, st: State, labels: set<Msg>)
    requires AnchorLabels <= labels
    ensures Labelled(SettingsItems(cfg, st), labels) == SettingsItems(cfg, st)
    ensures Labelled(ExtraItems(cfg, st), labels) == ExtraItems(cfg, st)
  {
    SettingsLabelled(cfg, st);
    LabelledAll(SettingsItems(cfg, st), SettingsLabels, labels);
    ExtrasLabelled(cfg, st);
    LabelledAll(ExtraItems(cfg, st), ExtraLabels, labels);
  }

  lemma Rejoin<T>(r: seq<T>, b: seq<T>, c: seq<T>, d: seq<T>, b': seq<T>, c': seq<T>, d': seq<T>)
    requires r == b + c + d && b == b' && c == c' && d == d'
    ensures r == b' + c' + d'
  {
  }

  lemma Rejoin4<T>(r: seq<T>, b: seq<T>, c: seq<T>, d: seq<T>, e: seq<T>,
                   b': seq<T>, c': seq<T>, d': seq<T>, e': seq<T>)
    requires r == b + c + d + e && b == b' && c == c' && d == d' && e == e'
    ensures r == b' + c' + d' + e'
  {
  }

  lemma AnchorSelected(cfg: Config, st: State)
    requires Buildable(cfg)
    ensures Labelled(MainMenu(cfg, st), AnchorLabels) ==
      Labelled(if st.printingActive then BusyItems(cfg) else IdleItems(cfg, st), AnchorLabels)
      + Labelled(SettingsItems(cfg, st), AnchorLabels) + Labelled(ExtraItems(cfg, st), AnchorLabels)
  {
    AnchorOnly(cfg, st);
    LabelledSections(cfg, st, AnchorLabels);
    KeepSecondToFourth(Labelled([BackItem(Watch)], AnchorLabels),
      Labelled(if st.printingActive then BusyItems(cfg) else IdleItems(cfg, st), AnchorLabels),
      Labelled(SettingsItems(cfg, st), AnchorLabels), Labelled(ExtraItems(cfg, st), AnchorLabels),
      Labelled(WheelSdItems(cfg, st), AnchorLabels), Labelled(ServiceItems(cfg), AnchorLabels),
      Labelled(GamesItems(cfg), AnchorLabels));
  }

  lemma AnchorOnly(cfg: Config, st: State)
    requires Buildable(cfg)
    ensures Labelled([BackItem(Watch)], AnchorLabels) == []
    ensures Labelled(WheelSdItems(cfg, st), AnchorLabels) == []
    ensures Labelled(ServiceItems(cfg), AnchorLabels) == []
    ensures Labelled(GamesItems(cfg), AnchorLabels) == []
  {
    AnchorApart();
    BackWithout(AnchorLabels);
    WheelSdWithout(cfg, st, AnchorLabels);
    ServiceWithout(cfg, st, AnchorLabels);
    GamesWithout(cfg, AnchorLabels);
  }

  lemma WheelAnchorSelected(cfg: Config, st: State)
    requires Buildable(cfg)
    ensures Labelled(MainMenu(cfg, st), WheelAnchorLabels) ==
      Labelled(if st.printingActive then BusyItems(cfg) else IdleItems(cfg, st), WheelAnchorLabels)
      + Labelled(SettingsItems(cfg, st), WheelAnchorLabels) + Labelled(ExtraItems(cfg, st), WheelAnchorLabels)
      + Labelled(WheelSdItems(cfg, st), WheelAnchorLabels)
  {
    var labels := WheelAnchorLabels;
    AnchorApart();
    BackWithout(labels);
    ServiceWithout(cfg, st, labels);
    GamesWithout(cfg, labels);
    LabelledSections(cfg, st, labels);
    KeepSecondToFifth(Labelled([BackItem(Watch)], labels),
      Labelled(if st.printingActive then BusyItems(cfg) else IdleItems(cfg, st), labels),
      Labelled(SettingsItems(cfg, st), labels), Labelled(ExtraItems(cfg, st), labels),
      Labelled(WheelSdItems(cfg, st), labels), Labelled(ServiceItems(cfg), labels),
      Labelled(GamesItems(cfg), labels));
  }

  lemma AnchorApart()
    ensures Watch !in WheelAnchorLabels && Games !in WheelAnchorLabels
    ensures SdLabels !! AnchorLabels && ServiceLabels !! WheelAnchorLabels
    ensures ResumePrint !in WheelAnchorLabels && PausePrint !in WheelAnchorLabels
    ensures StopPrint !in WheelAnchorLabels
    ensures Tune in AnchorLabels && Motion in AnchorLabels
  {
  }

  /** Of the branch, the selection keeps only its last entry: the media block
      of the idle branch is either not selected or, with the wheel, absent. */
  lemma BranchAnchor(cfg: Config, st: State, labels: set<Msg>)
    requires labels == AnchorLabels || (labels == WheelAnchorLabels && cfg.encoderWheel)
    ensures Labelled(if st.printingActive then BusyItems(cfg) else IdleItems(cfg, st), labels) ==
      [if st.printingActive then SubmenuItem(Tune, MenuTune) else SubmenuItem(Motion, MenuMotion)]
  {
    AnchorApart();
    if st.printingActive {
      var pause := When(CanPause(cfg), [ActionItem(PausePrint, UiPausePrint)]);
      var stop := When(CanStop(cfg), [SubmenuItem(StopPrint, MenuAbortConfirm)]);
      LabelledConcat(pause + stop, [SubmenuItem(Tune, MenuTune)], labels);
      LabelledConcat(pause, stop, labels);
      LabelledWhenOut(CanPause(cfg), ActionItem(PausePrint, UiPausePrint), labels);
      LabelledWhenOut(CanStop(cfg), SubmenuItem(StopPrint, MenuAbortConfirm), labels);
      LabelledOne(SubmenuItem(Tune, MenuTune), labels);
    } else {
      var sd := When(!cfg.encoderWheel && cfg.sdSupport, SdItems(cfg, st, false));
      var resume := When(CanPause(cfg) && st.printingPaused, [ActionItem(ResumePrint, UiResumePrint)]);
      LabelledConcat(sd + resume, [SubmenuItem(Motion, MenuMotion)], labels);
      LabelledConcat(sd, resume, labels);
      if labels == AnchorLabels {
        SdLabelled(cfg, st, false);
        LabelledNone(SdItems(cfg, st, false), SdLabels, labels);
      }
      LabelledWhen(!cfg.encoderWheel && cfg.sdSupport, SdItems(cfg, st, false), labels);
      LabelledWhenOut(CanPause(cfg) && st.printingPaused, ActionItem(ResumePrint, UiResumePrint), labels);
      LabelledOne(SubmenuItem(Motion, MenuMotion), labels);
    }
  }
}
