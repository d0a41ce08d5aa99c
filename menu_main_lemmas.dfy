// What the main menu offers in every machine state and configuration: an
// exact count for every possible entry, and the order of the entries that
// the firmware places relative to one another.

module MenuMainLemmas {
  import opened MenuTypes
  import opened ItemSeqs
  import opened MenuMain
  import opened MenuTable
  import opened MenuCounts

  /** The main menu holds exactly the entries of the table above, each as many
      times as the table says: nothing missing, nothing duplicated. */
  lemma Occurrences(cfg: Config, st: State, it: Item)
    requires Buildable(cfg)
    ensures multiset(MainMenu(cfg, st))[it] == Occurs(cfg, st, it)
  {
    CountIsMultiplicity(MainMenu(cfg, st), it);
    CountMainMenu(cfg, st, it);
    TableMatches(cfg, st, it);
  }

  /** An entry is on the menu exactly when the table gives it a positive count. */
  lemma Present(cfg: Config, st: State, it: Item)
    requires Buildable(cfg)
    ensures it in MainMenu(cfg, st) <==> Occurs(cfg, st, it) > 0
  {
    Occurrences(cfg, st, it);
  }

  /** Only the placeholder can be repeated. */
  lemma AtMostOnce(cfg: Config, st: State, it: Item)
    requires Buildable(cfg) && !it.SkipItem?
    ensures multiset(MainMenu(cfg, st))[it] <= 1
  {
    Occurrences(cfg, st, it);
  }

  lemma {:induction false} RepeatedElement<T>(s: seq<T>, i: nat, j: nat)
    requires i < j < |s| && s[i] == s[j]
    ensures multiset(s)[s[i]] >= 2
  {
    assert s == s[..j] + s[j..];
    assert s[i] in multiset(s[..j]);
    assert s[j..][0] == s[j];
  }

  /** No two entries of the menu carry the same label, placeholders aside. */
  lemma DistinctLabels(cfg: Config, st: State)
    requires Buildable(cfg)
    ensures var r := MainMenu(cfg, st);
      forall i, j :: 0 <= i < j < |r| && !r[i].SkipItem? && !r[j].SkipItem? ==> r[i].msg != r[j].msg
  {
    var r := MainMenu(cfg, st);
    forall i, j | 0 <= i < j < |r| && !r[i].SkipItem? && !r[j].SkipItem?
      ensures r[i].msg != r[j].msg
    {
      Present(cfg, st, r[i]);
      Present(cfg, st, r[j]);
      if r[i].msg == r[j].msg {
        RepeatedElement(r, i, j);
        AtMostOnce(cfg, st, r[i]);
      }
    }
  }

  /** The busy branch: Pause when the machine can pause, Stop (opening the
      abort confirmation) when it can stop, and Tune, all only while printing;
      no entry with one of these labels is offered otherwise. */
  lemma BusyEntries(cfg: Config, st: State)
    requires Buildable(cfg)
    ensures ActionItem(PausePrint, UiPausePrint) in MainMenu(cfg, st)
            <==> st.printingActive && CanPause(cfg)
    ensures SubmenuItem(StopPrint, MenuAbortConfirm) in MainMenu(cfg, st)
            <==> st.printingActive && CanStop(cfg)
    ensures SubmenuItem(Tune, MenuTune) in MainMenu(cfg, st) <==> st.printingActive
    ensures forall x :: x in MainMenu(cfg, st) && !x.SkipItem? && x.msg in {PausePrint, StopPrint, Tune} ==>
      st.printingActive
  {
    Present(cfg, st, ActionItem(PausePrint, UiPausePrint));
    Present(cfg, st, SubmenuItem(StopPrint, MenuAbortConfirm));
    Present(cfg, st, SubmenuItem(Tune, MenuTune));
    forall x | x in MainMenu(cfg, st) && !x.SkipItem? && x.msg in {PausePrint, StopPrint, Tune}
      ensures st.printingActive
    {
      Present(cfg, st, x);
      OnlyWhenBusy(cfg, st, x);
    }
  }

  /** The idle branch: Motion exactly when not printing, Resume exactly when
      not printing, the machine can pause and the print is paused; Autostart
      and the MMU2 menu never while printing. */
  lemma IdleEntries(cfg: Config, st: State)
    requires Buildable(cfg)
    ensures SubmenuItem(Motion, MenuMotion) in MainMenu(cfg, st) <==> !st.printingActive
    ensures ActionItem(ResumePrint, UiResumePrint) in MainMenu(cfg, st)
            <==> !st.printingActive && CanPause(cfg) && st.printingPaused
    ensures forall x :: x in MainMenu(cfg, st) && !x.SkipItem? && x.msg in {ResumePrint, Motion, Autostart, Mmu2Menu} ==>
      !st.printingActive
  {
    Present(cfg, st, SubmenuItem(Motion, MenuMotion));
    Present(cfg, st, ActionItem(ResumePrint, UiResumePrint));
    forall x | x in MainMenu(cfg, st) && !x.SkipItem? && x.msg in {ResumePrint, Motion, Autostart, Mmu2Menu}
      ensures !st.printingActive
    {
      Present(cfg, st, x);
      OnlyWhenIdle(cfg, st, x);
    }
  }

  lemma OnlyWhenBusy(cfg: Config, st: State, x: Item)
    requires Buildable(cfg) && !x.SkipItem? && x.msg in {PausePrint, StopPrint, Tune}
    requires Occurs(cfg, st, x) > 0
    ensures st.printingActive
  {
  }

  lemma OnlyWhenIdle(cfg: Config, st: State, x: Item)
    requires Buildable(cfg) && !x.SkipItem? && x.msg in {ResumePrint, Motion, Autostart, Mmu2Menu}
    requires Occurs(cfg, st, x) > 0
    ensures !st.printingActive
  {
  }

  /** While printing the menu opens with Back, then Pause and Stop as the
      machine allows, then Tune. */
  lemma BusyPrefix(cfg: Config, st: State)
    requires Buildable(cfg) && st.printingActive
    ensures var head := [BackItem(Watch)]
      + (When(CanPause(cfg), [ActionItem(PausePrint, UiPausePrint)])
         + When(CanStop(cfg), [SubmenuItem(StopPrint, MenuAbortConfirm)])
         + [SubmenuItem(Tune, MenuTune)]);
      |head| <= |MainMenu(cfg, st)| && MainMenu(cfg, st)[..|head|] == head
  {
    MainMenuSections(cfg, st);
    PrefixOf([BackItem(Watch)] + BusyItems(cfg), SettingsItems(cfg, st), ExtraItems(cfg, st),
      WheelSdItems(cfg, st), ServiceItems(cfg), GamesItems(cfg));
  }

  /** Out of print, the menu opens with Back, and a paused print's Resume is
      immediately followed by Motion. */
  lemma ResumeThenMotion(cfg: Config, st: State)
    requires Buildable(cfg) && !st.printingActive
    ensures MainMenu(cfg, st)[0] == BackItem(Watch)
    ensures CanPause(cfg) && st.printingPaused ==>
      exists i :: 0 <= i < |MainMenu(cfg, st)| - 1 && MainMenu(cfg, st)[i] == ActionItem(ResumePrint, UiResumePrint)
        && MainMenu(cfg, st)[i + 1] == SubmenuItem(Motion, MenuMotion)
  {
    var sd := When(!cfg.encoderWheel && cfg.sdSupport, SdItems(cfg, st, false));
    MainMenuSections(cfg, st);
    PrefixOf([BackItem(Watch)], IdleItems(cfg, st) + SettingsItems(cfg, st), ExtraItems(cfg, st),
      WheelSdItems(cfg, st), ServiceItems(cfg), GamesItems(cfg));
    if CanPause(cfg) && st.printingPaused {
      PairAt([BackItem(Watch)], sd, ActionItem(ResumePrint, UiResumePrint), SubmenuItem(Motion, MenuMotion),
        SettingsItems(cfg, st), ExtraItems(cfg, st), WheelSdItems(cfg, st), ServiceItems(cfg), GamesItems(cfg));
      var i := 1 + |sd|;
      assert MainMenu(cfg, st)[i] == ActionItem(ResumePrint, UiResumePrint);
    }
  }

  /** The menu ends with the service reminders and then the games entry. */
  lemma TrailerAtEnd(cfg: Config, st: State)
    requires Buildable(cfg)
    ensures EndsIn(MainMenu(cfg, st), ServiceItems(cfg) + GamesItems(cfg))
  {
    var branch := if st.printingActive then BusyItems(cfg) else IdleItems(cfg, st);
    MainMenuSections(cfg, st);
    Regroup(MainMenu(cfg, st), [BackItem(Watch)] + branch + SettingsItems(cfg, st) + ExtraItems(cfg, st)
      + WheelSdItems(cfg, st), ServiceItems(cfg), GamesItems(cfg));
  }

  /** The games entry, when compiled in, is the very last item, right after
      the two placeholders of the easter egg. */
  lemma GamesLast(cfg: Config, st: State)
    requires Buildable(cfg) && GamesShown(cfg)
    ensures var r := MainMenu(cfg, st);
      |r| >= 2 && r[|r| - 1] == SubmenuItem(Games, GameTarget(cfg))
    ensures var r := MainMenu(cfg, st);
      cfg.gamesEasterEgg ==> |r| >= 4 && r[|r| - 3] == SkipItem && r[|r| - 2] == SkipItem
  {
    var p := [BackItem(Watch)] + (if st.printingActive then BusyItems(cfg) else IdleItems(cfg, st))
      + SettingsItems(cfg, st) + ExtraItems(cfg, st) + WheelSdItems(cfg, st) + ServiceItems(cfg);
    MainMenuSections(cfg, st);
    EndsWith(p, GamesItems(cfg));
    HeadOf([BackItem(Watch)], (if st.printingActive then BusyItems(cfg) else IdleItems(cfg, st)),
      SettingsItems(cfg, st), ExtraItems(cfg, st), WheelSdItems(cfg, st), ServiceItems(cfg));
  }

  /** Placeholders are emitted only for the easter egg, exactly two. */
  lemma Placeholders(cfg: Config, st: State)
    requires Buildable(cfg)
    ensures multiset(MainMenu(cfg, st))[SkipItem] == if GamesShown(cfg) && cfg.gamesEasterEgg then 2 else 0
  {
    Occurrences(cfg, st, SkipItem);
  }

  /** No entry carries the games label unless the games entry is compiled in,
      and then it opens the first enabled game. */
  lemma GamesEntry(cfg: Config, st: State)
    requires Buildable(cfg)
    ensures forall x :: x in MainMenu(cfg, st) && !x.SkipItem? && x.msg == Games ==>
      GamesShown(cfg) && x == SubmenuItem(Games, GameTarget(cfg))
  {
    forall x | x in MainMenu(cfg, st) && !x.SkipItem? && x.msg == Games
      ensures GamesShown(cfg) && x == SubmenuItem(Games, GameTarget(cfg))
    {
      Present(cfg, st, x);
      EntryOf(cfg, st, x);
    }
  }

  /** A service reminder entry names one of the three configured intervals,
      and only an enabled one. */
  lemma ServiceEntries(cfg: Config, st: State)
    requires Buildable(cfg)
    ensures forall x :: x in MainMenu(cfg, st) && !x.SkipItem? && x.msg.ServiceName? ==>
      1 <= x.msg.n <= 3 && ServiceEnabled(cfg, x.msg.n) && x == SubmenuItem(x.msg, MenuService(x.msg.n))
  {
    forall x | x in MainMenu(cfg, st) && !x.SkipItem? && x.msg.ServiceName?
      ensures 1 <= x.msg.n <= 3 && ServiceEnabled(cfg, x.msg.n) && x == SubmenuItem(x.msg, MenuService(x.msg.n))
    {
      Present(cfg, st, x);
      EntryOf(cfg, st, x);
      assert x.msg == ServiceName(x.msg.n);
      ServiceEntry(cfg, st, x.msg.n);
    }
  }

  lemma ServiceEntry(cfg: Config, st: State, n: nat)
    requires Buildable(cfg)
    ensures Entry(cfg, st, ServiceName(n)).Some? ==>
      1 <= n <= 3 && ServiceEnabled(cfg, n) && Entry(cfg, st, ServiceName(n)) == Some(SubmenuItem(ServiceName(n), MenuService(n)))
  {
  }

  /** The menu links to the abort confirmation only through Stop, and only
      while printing on a machine that can stop, which is exactly when the
      confirmation screen is compiled in. */
  lemma StopOpensAbortConfirm(cfg: Config, st: State)
    requires Buildable(cfg)
    ensures forall x :: x in MainMenu(cfg, st) && x.SubmenuItem? && x.target == MenuAbortConfirm ==>
      x.msg == StopPrint && st.printingActive && AbortConfirm(cfg).Some?
  {
    forall x | x in MainMenu(cfg, st) && x.SubmenuItem? && x.target == MenuAbortConfirm
      ensures x.msg == StopPrint && st.printingActive && AbortConfirm(cfg).Some?
    {
      Present(cfg, st, x);
      AbortTarget(cfg, st, x);
    }
  }

  lemma EntryOf(cfg: Config, st: State, x: Item)
    requires Buildable(cfg) && !x.SkipItem? && Occurs(cfg, st, x) > 0
    ensures Entry(cfg, st, x.msg) == Some(x)
  {
  }

  lemma AbortTarget(cfg: Config, st: State, x: Item)
    requires Buildable(cfg) && x.SubmenuItem? && x.target == MenuAbortConfirm
    requires Occurs(cfg, st, x) > 0
    ensures x.msg == StopPrint && st.printingActive && CanStop(cfg)
  {
    EntryOf(cfg, st, x);
    assert x == SubmenuItem(x.msg, MenuAbortConfirm);
    OpensAbortConfirm(cfg, st, x.msg);
  }

  /** Only the stop entry opens the abort confirmation. */
  lemma OpensAbortConfirm(cfg: Config, st: State, m: Msg)
    requires Buildable(cfg)
    ensures Entry(cfg, st, m) == Some(SubmenuItem(m, MenuAbortConfirm)) ==>
      m == StopPrint && st.printingActive && CanStop(cfg)
  {
  }

  /** The abort confirmation exists exactly when the machine can stop; its yes
      choice is Stop, which aborts the print, its no choice is Back, which
      returns to the previous screen, and its prompt is "Stop print?". Where
      the two choices appear on screen is up to do_select_screen. */
  lemma AbortConfirmScreen(cfg: Config)
    ensures AbortConfirm(cfg).Some? <==> CanStop(cfg)
    ensures AbortConfirm(cfg).Some? ==>
      var s := AbortConfirm(cfg).value;
      s.yes == ButtonStop && s.yesHandler == UiAbortPrint && s.no == Back && s.noHandler == UiGotoPreviousScreen
    ensures AbortConfirm(cfg).Some? ==>
      var s := AbortConfirm(cfg).value;
      s.promptLabel == StopPrint && s.promptText == None && s.promptSuffix == "?"
  {
  }

  /** A card-reader machine with no optional menus. */
  predicate PlainSdMachine(cfg: Config) {
    cfg.sdSupport && cfg.sdDetectPin && !cfg.encoderWheel && !cfg.menuAddAutostart
    && !cfg.hasCutter && !cfg.mixingExtruder && !cfg.mmu2Menus && !cfg.customUserMenus
    && !cfg.advancedPauseFeature && !cfg.lcdInfoMenu && !cfg.ledControlMenu
    && !cfg.hasPowerSwitch && !cfg.hasServiceIntervals && !cfg.hasGames
  }

  /** Such a machine, idle with a mounted card and no file open, offers Back,
      the media menu, Change media, Motion, Temperature and Configuration. */
  lemma IdleWithCard(cfg: Config, st: State)
    requires PlainSdMachine(cfg)
    requires !st.printingActive && !st.printingPaused && st.cardMounted && !st.fileOpen
    ensures MainMenu(cfg, st) ==
      [BackItem(Watch), SubmenuItem(MediaMenu, MenuMedia), GcodeItem(ChangeMedia, "M21"),
       SubmenuItem(Motion, MenuMotion), SubmenuItem(Temperature, MenuTemperature),
       SubmenuItem(Configuration, MenuConfiguration)]
  {
    MainMenuSections(cfg, st);
  }

  /** While printing, the same machine offers Back, Pause, Stop, Tune,
      Temperature and Configuration, whatever the card. */
  lemma WhilePrinting(cfg: Config, st: State)
    requires PlainSdMachine(cfg) && st.printingActive
    ensures MainMenu(cfg, st) ==
      [BackItem(Watch), ActionItem(PausePrint, UiPausePrint), SubmenuItem(StopPrint, MenuAbortConfirm),
       SubmenuItem(Tune, MenuTune), SubmenuItem(Temperature, MenuTemperature),
       SubmenuItem(Configuration, MenuConfiguration)]
  {
    MainMenuSections(cfg, st);
  }

  // Facts about concatenations of six segments, the shape of the main menu.

  lemma PrefixOf<T>(h: seq<T>, a: seq<T>, b: seq<T>, c: seq<T>, d: seq<T>, e: seq<T>)
    ensures |h| <= |h + a + b + c + d + e| && (h + a + b + c + d + e)[..|h|] == h
  {
    var r := h + a + b + c + d + e;
    assert forall i :: 0 <= i < |h| ==> r[i] == h[i];
  }

  lemma PairAt<T>(h: seq<T>, p: seq<T>, x: T, y: T, a: seq<T>, b: seq<T>, c: seq<T>, d: seq<T>, e: seq<T>)
    ensures var r := h + (p + [x] + [y]) + a + b + c + d + e;
      |h| + |p| + 1 < |r| && r[|h| + |p|] == x && r[|h| + |p| + 1] == y
  {
  }

  lemma Regroup<T>(r: seq<T>, p: seq<T>, d: seq<T>, e: seq<T>)
    requires r == p + d + e
    ensures EndsIn(r, d + e)
  {
    assert r == p + (d + e);
  }

  lemma EndsWith<T>(p: seq<T>, g: seq<T>)
    ensures |p + g| == |p| + |g| && forall k :: 0 <= k < |g| ==> (p + g)[|p| + k] == g[k]
  {
  }

  lemma HeadOf<T>(h: seq<T>, a: seq<T>, b: seq<T>, c: seq<T>, d: seq<T>, e: seq<T>)
    ensures |h + a + b + c + d + e| >= |h|
  {
  }
}
