// The two layouts of the media block: HAS_ENCODER_WHEEL moves it from the
// idle branch to after the power switch and stops gating it by printing.

module MenuWheel {
  import opened MenuTypes
  import opened MenuMain
  import opened MenuTable
  import opened MenuMainLemmas

  /** Two configurations that differ only in HAS_ENCODER_WHEEL, `a` with the
      wheel and `b` without, offer the same entries, counted with
      multiplicity, exactly when the difference in gating cannot show: out of
      print, without SD support, or with a file open (when the media block is
      empty). */
  lemma WheelLayoutsAgree(a: Config, b: Config, st: State)
    requires Buildable(a) && Buildable(b) && SameButWheel(a, b)
    requires a.encoderWheel && !b.encoderWheel
    ensures multiset(MainMenu(a, st)) == multiset(MainMenu(b, st))
      <==> !st.printingActive || !a.sdSupport || CardOpen(st)
  {
    if !st.printingActive || !a.sdSupport || CardOpen(st) {
      LayoutsAgree(a, b, st);
    } else {
      LayoutsDiffer(a, b, st);
    }
  }

  lemma LayoutsAgree(a: Config, b: Config, st: State)
    requires Buildable(a) && Buildable(b) && SameButWheel(a, b)
    requires a.encoderWheel && !b.encoderWheel
    requires !st.printingActive || !a.sdSupport || CardOpen(st)
    ensures multiset(MainMenu(a, st)) == multiset(MainMenu(b, st))
  {
    forall it
      ensures multiset(MainMenu(a, st))[it] == multiset(MainMenu(b, st))[it]
    {
      SameCount(a, b, st, it);
    }
  }

  lemma SameCount(a: Config, b: Config, st: State, it: Item)
    requires Buildable(a) && Buildable(b) && SameButWheel(a, b)
    requires !st.printingActive || !a.sdSupport || CardOpen(st)
    ensures multiset(MainMenu(a, st))[it] == multiset(MainMenu(b, st))[it]
  {
    Occurrences(a, st, it);
    Occurrences(b, st, it);
    if !it.SkipItem? {
      EntryIgnoresWheel(a, b, st, it.msg);
    }
  }

  lemma LayoutsDiffer(a: Config, b: Config, st: State)
    requires Buildable(a) && Buildable(b) && SameButWheel(a, b)
    requires a.encoderWheel && !b.encoderWheel
    requires st.printingActive && a.sdSupport && !CardOpen(st)
    ensures multiset(MainMenu(a, st))[MediaWitness(a, st)] != multiset(MainMenu(b, st))[MediaWitness(a, st)]
  {
    MediaWitnessShows(a, b, st);
    Occurrences(a, st, MediaWitness(a, st));
    Occurrences(b, st, MediaWitness(a, st));
  }

  /** An entry of the media block that is offered in every state. */
  function MediaWitness(cfg: Config, st: State): Item {
    if st.cardMounted then SubmenuItem(MediaMenu, MenuMedia)
    else if cfg.sdDetectPin then ActionItem(NoMedia, NullHandler)
    else ActionItem(MediaReleased, NullHandler)
  }

  /** While printing with SD support and no open file, the media block shows
      (through the witness) in the wheel layout and not in the other. */
  lemma MediaWitnessShows(a: Config, b: Config, st: State)
    requires Buildable(a) && Buildable(b) && SameButWheel(a, b)
    requires a.encoderWheel && !b.encoderWheel
    requires st.printingActive && a.sdSupport && !CardOpen(st)
    ensures Occurs(a, st, MediaWitness(a, st)) == 1
    ensures Occurs(b, st, MediaWitness(a, st)) == 0
  {
  }

  /** `a` and `b` agree on every flag but the encoder wheel. */
  predicate SameButWheel(a: Config, b: Config) {
    a.sdSupport == b.sdSupport && a.sdDetectPin == b.sdDetectPin &&
    a.hostPromptSupport == b.hostPromptSupport && a.parkHeadOnPause == b.parkHeadOnPause &&
    a.actionOnPause == b.actionOnPause && a.actionOnCancel == b.actionOnCancel &&
    a.menuAddAutostart == b.menuAddAutostart && a.hasCutter == b.hasCutter &&
    a.mixingExtruder == b.mixingExtruder && a.mmu2Menus == b.mmu2Menus &&
    a.customUserMenus == b.customUserMenus &&
    a.advancedPauseFeature == b.advancedPauseFeature && a.eSteppers == b.eSteppers &&
    a.filamentLoadUnloadGcodes == b.filamentLoadUnloadGcodes &&
    a.lcdInfoMenu == b.lcdInfoMenu && a.ledControlMenu == b.ledControlMenu &&
    a.hasPowerSwitch == b.hasPowerSwitch && a.hasServiceIntervals == b.hasServiceIntervals &&
    a.serviceInterval1 == b.serviceInterval1 && a.serviceInterval2 == b.serviceInterval2 &&
    a.serviceInterval3 == b.serviceInterval3 && a.hasGames == b.hasGames &&
    a.hasGameMenu == b.hasGameMenu && a.marlinBrickout == b.marlinBrickout &&
    a.marlinInvaders == b.marlinInvaders && a.marlinSnake == b.marlinSnake &&
    a.marlinMaze == b.marlinMaze && a.gamesEasterEgg == b.gamesEasterEgg
  }

  lemma EntryIgnoresWheel(a: Config, b: Config, st: State, m: Msg)
    requires Buildable(a) && Buildable(b) && SameButWheel(a, b)
    requires !st.printingActive || !a.sdSupport || CardOpen(st)
    ensures Entry(a, st, m) == Entry(b, st, m)
  {
    if m in {Watch, PausePrint, StopPrint, Tune, Autostart} {
      EntryAgreeBusy(a, b, st, m);
    } else if m in {MediaMenu, ChangeMedia, ReleaseMedia, NoMedia, InitMedia, MediaReleased} {
      EntryAgreeMedia(a, b, st, m);
    } else if m in {ResumePrint, Motion, CutterMenu, Temperature, Mixer, Mmu2Menu, Configuration} {
      EntryAgreeIdle(a, b, st, m);
    } else if m in {UserMenu, FilamentChange, InfoMenu, LedControl, SwitchPsOff, SwitchPsOn} {
      EntryAgreeExtras(a, b, st, m);
    } else if m == Games {
      EntryAgreeGames(a, b, st);
    } else if m.ServiceName? {
      EntryAgreeService(a, b, st, m);
    } else {
      EntryAgreeNone(a, b, st, m);
    }
  }

  lemma EntryAgreeBusy(a: Config, b: Config, st: State, m: Msg)
    requires Buildable(a) && Buildable(b) && SameButWheel(a, b)
    requires m in {Watch, PausePrint, StopPrint, Tune, Autostart}
    ensures Entry(a, st, m) == Entry(b, st, m)
  {
  }

  lemma EntryAgreeMedia(a: Config, b: Config, st: State, m: Msg)
    requires Buildable(a) && Buildable(b) && SameButWheel(a, b)
    requires !st.printingActive || !a.sdSupport || CardOpen(st)
    requires m in {MediaMenu, ChangeMedia, ReleaseMedia, NoMedia, InitMedia, MediaReleased}
    ensures Entry(a, st, m) == Entry(b, st, m)
  {
  }

  lemma EntryAgreeIdle(a: Config, b: Config, st: State, m: Msg)
    requires Buildable(a) && Buildable(b) && SameButWheel(a, b)
    requires m in {ResumePrint, Motion, CutterMenu, Temperature, Mixer, Mmu2Menu, Configuration}
    ensures Entry(a, st, m) == Entry(b, st, m)
  {
  }

  lemma EntryAgreeExtras(a: Config, b: Config, st: State, m: Msg)
    requires Buildable(a) && Buildable(b) && SameButWheel(a, b)
    requires m in {UserMenu, FilamentChange, InfoMenu, LedControl, SwitchPsOff, SwitchPsOn}
    ensures Entry(a, st, m) == Entry(b, st, m)
  {
  }

  lemma EntryAgreeService(a: Config, b: Config, st: State, m: Msg)
    requires Buildable(a) && Buildable(b) && SameButWheel(a, b) && m.ServiceName?
    ensures Entry(a, st, m) == Entry(b, st, m)
  {
  }

  lemma EntryAgreeGames(a: Config, b: Config, st: State)
    requires Buildable(a) && Buildable(b) && SameButWheel(a, b)
    ensures Entry(a, st, Games) == Entry(b, st, Games)
  {
    assert GamesShown(a) == GamesShown(b);
    if GamesShown(a) {
      GameTargetAgrees(a, b);
    }
  }

  lemma GameTargetAgrees(a: Config, b: Config)
    requires GameChosen(a) && SameButWheel(a, b)
    ensures GameChosen(b) && GameTarget(a) == GameTarget(b)
  {
  }

  lemma EntryAgreeNone(a: Config, b: Config, st: State, m: Msg)
    requires Buildable(a) && Buildable(b)
    requires m == ButtonStop || m == Back
    ensures Entry(a, st, m) == None && Entry(b, st, m) == None
  {
  }
}
