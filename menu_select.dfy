// Looking at the main menu through a set of labels: the entries that carry
// one of them, in menu order, with everything else hidden.

module MenuSelect {
  import opened MenuTypes
  import opened ItemSeqs
  import opened MenuMain

  predicate Carries(x: Item, labels: set<Msg>) {
    !x.SkipItem? && x.msg in labels
  }

  /** The entries of `s` that carry a label of `labels`, in their order in `s`. */
  function Labelled(s: seq<Item>, labels: set<Msg>): seq<Item> {
    if s == [] then []
    else (if Carries(s[0], labels) then [s[0]] else []) + Labelled(s[1..], labels)
  }

  lemma {:induction false} LabelledConcat(a: seq<Item>, b: seq<Item>, labels: set<Msg>)
    ensures Labelled(a + b, labels) == Labelled(a, labels) + Labelled(b, labels)
  {
    if a == [] {
      assert a + b == b;
    } else {
      assert (a + b)[0] == a[0];
      assert (a + b)[1..] == a[1..] + b;
      LabelledConcat(a[1..], b, labels);
    }
  }

  /** A segment whose entries carry only labels outside the selection
      disappears. */
  lemma {:induction false} LabelledNone(s: seq<Item>, own: set<Msg>, labels: set<Msg>)
    requires forall x :: x in s ==> Carries(x, own)
    requires own !! labels
    ensures Labelled(s, labels) == []
  {
    if s != [] {
      assert s[0] in s;
      assert forall x :: x in s[1..] ==> x in s;
      LabelledNone(s[1..], own, labels);
    }
  }

  /** A segment whose entries carry only selected labels stays whole. */
  lemma {:induction false} LabelledAll(s: seq<Item>, own: set<Msg>, labels: set<Msg>)
    requires forall x :: x in s ==> Carries(x, own)
    requires own <= labels
    ensures Labelled(s, labels) == s
  {
    if s != [] {
      assert s[0] in s;
      assert forall x :: x in s[1..] ==> x in s;
      LabelledAll(s[1..], own, labels);
      assert s == [s[0]] + s[1..];
    }
  }

  lemma LabelledOne(x: Item, labels: set<Msg>)
    ensures Labelled([x], labels) == if Carries(x, labels) then [x] else []
  {
    assert [x][1..] == [];
  }

  lemma LabelledWhenOut(b: bool, x: Item, labels: set<Msg>)
    requires !Carries(x, labels)
    ensures Labelled(When(b, [x]), labels) == []
  {
    LabelledOne(x, labels);
  }

  lemma LabelledWhen(b: bool, s: seq<Item>, labels: set<Msg>)
    ensures Labelled(When(b, s), labels) == When(b, Labelled(s, labels))
  {
  }

  // The labels each section can carry.

  const BusyLabels: set<Msg> := {PausePrint, StopPrint, Tune}
  const MediaLabels: set<Msg> := {MediaMenu, ChangeMedia, ReleaseMedia, NoMedia, InitMedia, MediaReleased}
  const SdLabels: set<Msg> := MediaLabels + {Autostart}
  const IdleLabels: set<Msg> := SdLabels + {ResumePrint, Motion}
  const SettingsLabels: set<Msg> := {CutterMenu, Temperature, Mixer, Mmu2Menu, Configuration}
  const FilamentLabels: set<Msg> := {FilamentChange}
  const PowerLabels: set<Msg> := {SwitchPsOff, SwitchPsOn}
  const ExtraLabels: set<Msg> := {UserMenu, InfoMenu, LedControl} + FilamentLabels + PowerLabels
  const ServiceLabels: set<Msg> := {ServiceName(1), ServiceName(2), ServiceName(3)}

  lemma SdLabelled(cfg: Config, st: State, wheel: bool)
    ensures forall x :: x in MediaItems(cfg, st, wheel) ==> Carries(x, MediaLabels)
    ensures forall x :: x in SdItems(cfg, st, wheel) ==> Carries(x, SdLabels)
  {
  }

  lemma BranchLabelled(cfg: Config, st: State)
    ensures forall x :: x in BusyItems(cfg) ==> Carries(x, BusyLabels)
    ensures forall x :: x in IdleItems(cfg, st) ==> Carries(x, IdleLabels)
  {
    SdLabelled(cfg, st, false);
  }

  lemma SettingsLabelled(cfg: Config, st: State)
    ensures forall x :: x in SettingsItems(cfg, st) ==> Carries(x, SettingsLabels)
  {
  }

  lemma ExtrasLabelled(cfg: Config, st: State)
    ensures forall x :: x in FilamentItems(cfg, st) ==> Carries(x, FilamentLabels)
    ensures forall x :: x in PowerItems(cfg, st) ==> Carries(x, PowerLabels)
    ensures forall x :: x in ExtraItems(cfg, st) ==> Carries(x, ExtraLabels)
  {
  }

  lemma TrailerLabelled(cfg: Config, st: State)
    requires Buildable(cfg)
    ensures forall x :: x in WheelSdItems(cfg, st) ==> Carries(x, SdLabels)
    ensures forall x :: x in ServiceItems(cfg) ==> Carries(x, ServiceLabels)
  {
    SdLabelled(cfg, st, true);
  }

  // Sections that carry none of a set of labels contribute nothing to the
  // selection.

  lemma BackWithout(labels: set<Msg>)
    requires Watch !in labels
    ensures Labelled([BackItem(Watch)], labels) == []
  {
    LabelledNone([BackItem(Watch)], {Watch}, labels);
  }

  lemma BusyWithout(cfg: Config, labels: set<Msg>)
    requires BusyLabels !! labels
    ensures Labelled(BusyItems(cfg), labels) == []
  {
    BranchLabelled(cfg, State(true, false, false, false, false, false));
    LabelledNone(BusyItems(cfg), BusyLabels, labels);
  }

  lemma IdleWithout(cfg: Config, st: State, labels: set<Msg>)
    requires IdleLabels !! labels
    ensures Labelled(IdleItems(cfg, st), labels) == []
  {
    BranchLabelled(cfg, st);
    LabelledNone(IdleItems(cfg, st), IdleLabels, labels);
  }

  lemma SettingsWithout(cfg: Config, st: State, labels: set<Msg>)
    requires SettingsLabels !! labels
    ensures Labelled(SettingsItems(cfg, st), labels) == []
  {
    SettingsLabelled(cfg, st);
    LabelledNone(SettingsItems(cfg, st), SettingsLabels, labels);
  }

  lemma ExtrasWithout(cfg: Config, st: State, labels: set<Msg>)
    requires ExtraLabels !! labels
    ensures Labelled(ExtraItems(cfg, st), labels) == []
  {
    ExtrasLabelled(cfg, st);
    LabelledNone(ExtraItems(cfg, st), ExtraLabels, labels);
  }

  lemma WheelSdWithout(cfg: Config, st: State, labels: set<Msg>)
    requires Buildable(cfg) && SdLabels !! labels
    ensures Labelled(WheelSdItems(cfg, st), labels) == []
  {
    TrailerLabelled(cfg, st);
    LabelledNone(WheelSdItems(cfg, st), SdLabels, labels);
  }

  lemma ServiceWithout(cfg: Config, st: State, labels: set<Msg>)
    requires Buildable(cfg) && ServiceLabels !! labels
    ensures Labelled(ServiceItems(cfg), labels) == []
  {
    TrailerLabelled(cfg, st);
    LabelledNone(ServiceItems(cfg), ServiceLabels, labels);
  }

  lemma GamesWithout(cfg: Config, labels: set<Msg>)
    requires Buildable(cfg) && Games !in labels
    ensures Labelled(GamesItems(cfg), labels) == []
  {
    if GamesShown(cfg) {
      var skips := When(cfg.gamesEasterEgg, [SkipItem, SkipItem]);
      LabelledConcat(skips, [SubmenuItem(Games, GameTarget(cfg))], labels);
      LabelledOne(SubmenuItem(Games, GameTarget(cfg)), labels);
      if cfg.gamesEasterEgg {
        LabelledConcat([SkipItem], [SkipItem], labels);
        LabelledOne(SkipItem, labels);
        assert skips == [SkipItem] + [SkipItem];
      }
    }
  }

  // What a selection keeps of the sections that mix several groups.

  lemma SdMedia(cfg: Config, st: State, wheel: bool)
    ensures Labelled(SdItems(cfg, st, wheel), MediaLabels) == MediaItems(cfg, st, wheel)
  {
    var auto := ActionItem(Autostart, CardBeginAutostart);
    LabelledConcat(When(cfg.menuAddAutostart && !st.printingActive, [auto]), MediaItems(cfg, st, wheel), MediaLabels);
    LabelledOne(auto, MediaLabels);
    SdLabelled(cfg, st, wheel);
    LabelledAll(MediaItems(cfg, st, wheel), MediaLabels, MediaLabels);
  }

  lemma SdAutostart(cfg: Config, st: State, wheel: bool)
    ensures Labelled(SdItems(cfg, st, wheel), {Autostart})
      == When(cfg.menuAddAutostart && !st.printingActive, [ActionItem(Autostart, CardBeginAutostart)])
  {
    var auto := ActionItem(Autostart, CardBeginAutostart);
    LabelledConcat(When(cfg.menuAddAutostart && !st.printingActive, [auto]), MediaItems(cfg, st, wheel), {Autostart});
    LabelledOne(auto, {Autostart});
    SdLabelled(cfg, st, wheel);
    LabelledNone(MediaItems(cfg, st, wheel), MediaLabels, {Autostart});
  }

  lemma IdleSelect(cfg: Config, st: State, labels: set<Msg>)
    requires ResumePrint !in labels && Motion !in labels
    ensures Labelled(IdleItems(cfg, st), labels)
      == When(!cfg.encoderWheel && cfg.sdSupport, Labelled(SdItems(cfg, st, false), labels))
  {
    var sd := When(!cfg.encoderWheel && cfg.sdSupport, SdItems(cfg, st, false));
    var resume := When(CanPause(cfg) && st.printingPaused, [ActionItem(ResumePrint, UiResumePrint)]);
    LabelledConcat(sd + resume, [SubmenuItem(Motion, MenuMotion)], labels);
    LabelledConcat(sd, resume, labels);
    LabelledOne(SubmenuItem(Motion, MenuMotion), labels);
    LabelledOne(ActionItem(ResumePrint, UiResumePrint), labels);
  }

  lemma ExtrasSelect(cfg: Config, st: State, labels: set<Msg>)
    requires UserMenu !in labels && InfoMenu !in labels && LedControl !in labels
    ensures Labelled(ExtraItems(cfg, st), labels)
      == Labelled(FilamentItems(cfg, st), labels) + Labelled(PowerItems(cfg, st), labels)
  {
    var user := When(cfg.customUserMenus, [SubmenuItem(UserMenu, MenuUser)]);
    var filament := FilamentItems(cfg, st);
    var info := When(cfg.lcdInfoMenu, [SubmenuItem(InfoMenu, MenuInfo)]);
    var led := When(cfg.ledControlMenu, [SubmenuItem(LedControl, MenuLed)]);
    LabelledConcat(user + filament + info + led, PowerItems(cfg, st), labels);
    LabelledConcat(user + filament + info, led, labels);
    LabelledConcat(user + filament, info, labels);
    LabelledConcat(user, filament, labels);
    LabelledOne(SubmenuItem(UserMenu, MenuUser), labels);
    LabelledOne(SubmenuItem(InfoMenu, MenuInfo), labels);
    LabelledOne(SubmenuItem(LedControl, MenuLed), labels);
  }

  // A selection from the seven sections of which only some are non-empty:
  // the selection consists of those.

  lemma KeepSecond<T>(a: seq<T>, b: seq<T>, c: seq<T>, d: seq<T>, e: seq<T>, f: seq<T>, g: seq<T>)
    requires a == [] && c == [] && d == [] && e == [] && f == [] && g == []
    ensures a + b + c + d + e + f + g == b
  {
  }

  lemma KeepSecondFifth<T>(a: seq<T>, b: seq<T>, c: seq<T>, d: seq<T>, e: seq<T>, f: seq<T>, g: seq<T>)
    requires a == [] && c == [] && d == [] && f == [] && g == []
    ensures a + b + c + d + e + f + g == b + e
  {
  }

  lemma KeepFourthFifth<T>(a: seq<T>, b: seq<T>, c: seq<T>, d: seq<T>, e: seq<T>, f: seq<T>, g: seq<T>)
    requires a == [] && b == [] && c == [] && f == [] && g == []
    ensures a + b + c + d + e + f + g == d + e
  {
  }

  lemma KeepSecondToFourth<T>(a: seq<T>, b: seq<T>, c: seq<T>, d: seq<T>, e: seq<T>, f: seq<T>, g: seq<T>)
    requires a == [] && e == [] && f == [] && g == []
    ensures a + b + c + d + e + f + g == b + c + d
  {
  }

  lemma KeepSecondToFifth<T>(a: seq<T>, b: seq<T>, c: seq<T>, d: seq<T>, e: seq<T>, f: seq<T>, g: seq<T>)
    requires a == [] && f == [] && g == []
    ensures a + b + c + d + e + f + g == b + c + d + e
  {
  }

  lemma KeepThird<T>(a: seq<T>, b: seq<T>, c: seq<T>, d: seq<T>, e: seq<T>, f: seq<T>, g: seq<T>)
    requires a == [] && b == [] && d == [] && e == [] && f == [] && g == []
    ensures a + b + c + d + e + f + g == c
  {
  }

  lemma KeepFourth<T>(a: seq<T>, b: seq<T>, c: seq<T>, d: seq<T>, e: seq<T>, f: seq<T>, g: seq<T>)
    requires a == [] && b == [] && c == [] && e == [] && f == [] && g == []
    ensures a + b + c + d + e + f + g == d
  {
  }

  lemma KeepSixth<T>(a: seq<T>, b: seq<T>, c: seq<T>, d: seq<T>, e: seq<T>, f: seq<T>, g: seq<T>)
    requires a == [] && b == [] && c == [] && d == [] && e == [] && g == []
    ensures a + b + c + d + e + f + g == f
  {
  }

  /** Selecting labels from the main menu selects them section by section. */
  lemma LabelledSections(cfg: Config, st: State, labels: set<Msg>)
    requires Buildable(cfg)
    ensures Labelled(MainMenu(cfg, st), labels) ==
      Labelled([BackItem(Watch)], labels)
      + Labelled(if st.printingActive then BusyItems(cfg) else IdleItems(cfg, st), labels)
      + Labelled(SettingsItems(cfg, st), labels) + Labelled(ExtraItems(cfg, st), labels)
      + Labelled(WheelSdItems(cfg, st), labels) + Labelled(ServiceItems(cfg), labels)
      + Labelled(GamesItems(cfg), labels)
  {
    var a := [BackItem(Watch)];
    var b := if st.printingActive then BusyItems(cfg) else IdleItems(cfg, st);
    var c := SettingsItems(cfg, st);
    var d := ExtraItems(cfg, st);
    var e := WheelSdItems(cfg, st);
    var f := ServiceItems(cfg);
    var g := GamesItems(cfg);
    MainMenuSections(cfg, st);
    LabelledConcat(a + b + c + d + e + f, g, labels);
    LabelledConcat(a + b + c + d + e, f, labels);
    LabelledConcat(a + b + c + d, e, labels);
    LabelledConcat(a + b + c, d, labels);
    LabelledConcat(a + b, c, labels);
    LabelledConcat(a, b, labels);
  }
}
