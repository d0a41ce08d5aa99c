# Marlin main menu, modelled in Dafny

This project models the main menu of Marlin's LCD user interface, as defined in
`Marlin/src/lcd/menu/menu_main.cpp`. It covers three things:

- the capability derivations `MACHINE_CAN_STOP` and `MACHINE_CAN_PAUSE`;
- the two-choice abort confirmation `menu_abort_confirm()`;
- `menu_main()` itself, which rebuilds the main menu on each call from the
  compile-time feature flags and the live machine state.

`menu_main()` emits its entries one after the other. The model describes this
output in two ways:

- `MenuMain.MainMenu(cfg, st)` is the entry list as a function. It joins the
  sections in source order: Back, busy or idle branch, settings, extras,
  encoder-wheel media block, service reminders, games.
- `MenuMain.BuildMainMenu` is the imperative form. It appends entry by entry
  and is proved to produce exactly `MainMenu`.

The types are as follows:

- `Config` holds the preprocessor flags.
- `State` holds the runtime queries: printing, paused, card mounted, file
  open, power supply on, hotend hot enough.
- `Item` is one emitted entry: Back, action with a handler, submenu with a
  target screen, G-code command with its text, or placeholder.

The proofs build on an entry table, `MenuTable.Entry`. It gives, for each
label, the one entry the menu may show under it and the condition for showing
it. `MenuMainLemmas.Occurrences` proves that the menu holds every possible
entry exactly as often as that table says. Every presence, absence and
uniqueness fact follows from it.

The order of entries is stated with `MenuSelect.Labelled(r, labels)`, the
subsequence of entries carrying one of the given labels. The `MenuOrder`
lemmas compute that subsequence for each section: settings, extras, media,
autostart, the idle branch, the power switch, filament change and service
reminders. `MenuOrder.SectionOrder` fixes the order between the sections:
the branch ends with Tune or Motion, then comes the whole settings section,
Cutter included, then the extras. `MenuOrder.WheelSectionOrder` adds that,
with the encoder wheel, the media block comes after the extras.
`MenuMainLemmas.BusyPrefix` and `MenuOrder.IdleOrder` order the branch
itself, and `MenuMainLemmas.TrailerAtEnd` puts the service and games entries
last.

Two facts about the code are worth stating up front:

- `HAS_ENCODER_WHEEL` changes more than the order of the media entries. It
  moves the media block after the power switch and stops gating the block by
  printing. So while a print runs with SD support, a card mounted and no file
  open, the media entries appear only in the wheel layout.
  `MenuWheel.WheelLayoutsAgree` states exactly when the two layouts contain
  the same entries.
- Autostart is emitted only under `MENU_ADDAUTOSTART`, and no placeholder
  takes its place when it is absent. Placeholders appear only before the
  games entry, under `GAMES_EASTER_EGG`.

## Model

| member | source | states |
|---|---|---|
| MenuTable.Entry | Marlin/src/lcd/menu/menu_main.cpp:98-272 | the entry shown under a label carries that label and is never a placeholder; only Watch is shown as a Back entry |
| MenuMainLemmas.Occurrences | Marlin/src/lcd/menu/menu_main.cpp:98-272 | every possible entry occurs in the menu exactly as many times as the entry table says: nothing missing, nothing duplicated |
| MenuMainLemmas.Present | Marlin/src/lcd/menu/menu_main.cpp:98-272 | an entry is on the menu if and only if the table gives it a positive count |
| MenuMainLemmas.AtMostOnce | Marlin/src/lcd/menu/menu_main.cpp:98-272 | every entry except the placeholder occurs at most once |
| MenuMainLemmas.DistinctLabels | Marlin/src/lcd/menu/menu_main.cpp:98-272 | no two non-placeholder entries carry the same label |
| MenuMain.BuildMainMenu | Marlin/src/lcd/menu/menu_main.cpp:98-272 | emitting the entries one by one, section by section, yields exactly the main menu |
| MenuMain.EmitBusy | Marlin/src/lcd/menu/menu_main.cpp:109-117 | the busy branch emits Pause when the machine can pause, Stop when it can stop, then Tune |
| MenuMain.EmitSd | Marlin/src/lcd/menu/menu_main.cpp:119-147 | the media block emits Autostart when not printing, then the mounted, open or absent card case, in the order of the chosen layout; with `wheel` set it models the second copy of the block at lines 209-237 |
| MenuMain.EmitIdle | Marlin/src/lcd/menu/menu_main.cpp:118-154 | the idle branch emits the media block without the wheel, Resume when pausable and paused, then Motion |
| MenuMain.EmitSettings | Marlin/src/lcd/menu/menu_main.cpp:156-170 | emits Cutter, Temperature, Mixer, MMU2 only when not printing, then Configuration |
| MenuMain.EmitExtras | Marlin/src/lcd/menu/menu_main.cpp:172-207 | emits User menu, filament change, Info, LED control and the power switch, in that order |
| MenuMain.EmitFilament | Marlin/src/lcd/menu/menu_main.cpp:180-189 | emits the one filament-change entry that the configuration and hotend temperature select |
| MenuMain.EmitPower | Marlin/src/lcd/menu/menu_main.cpp:202-207 | emits M81 when the supply is on, M80 when it is off |
| MenuMain.EmitService | Marlin/src/lcd/menu/menu_main.cpp:239-249 | emits the service entries 1, 2, 3 whose interval is positive |
| MenuMainLemmas.BusyEntries | Marlin/src/lcd/menu/menu_main.cpp:109-117 | Pause is shown if and only if printing and able to pause (SD, host prompt, park head or pause action); Stop, opening the abort confirmation, if and only if printing and able to stop; Tune if and only if printing; these labels never appear otherwise |
| MenuMainLemmas.IdleEntries | Marlin/src/lcd/menu/menu_main.cpp:118-154 | Motion is shown if and only if not printing; Resume if and only if not printing, able to pause and paused; Resume, Motion, Autostart and MMU2 never while printing |
| MenuMainLemmas.BusyPrefix | Marlin/src/lcd/menu/menu_main.cpp:100-117 | while printing, the menu starts with Back, then Pause and Stop as the machine allows, then Tune |
| MenuMainLemmas.ResumeThenMotion | Marlin/src/lcd/menu/menu_main.cpp:149-153 | when not printing the first entry is Back, and Resume, when shown, is immediately followed by Motion |
| MenuOrder.MediaOrder | Marlin/src/lcd/menu/menu_main.cpp:127-146 | the media entries of the menu, in order, for each case: card mounted and no file open (media menu and M21 or M22, in the order of the layout), file open (none), no card (No media, or M21 plus Media released) |
| MenuOrder.AutostartOrder | Marlin/src/lcd/menu/menu_main.cpp:123-125 | Autostart is shown, once, exactly with SD support and MENU_ADDAUTOSTART while not printing |
| MenuOrder.IdleOrder | Marlin/src/lcd/menu/menu_main.cpp:118-154 | without the wheel, out of print, the media block comes before Resume, which comes before Motion |
| MenuOrder.WheelOrder | Marlin/src/lcd/menu/menu_main.cpp:199-237 | with the wheel, the power switch comes before the media block, which is present whether or not printing |
| MenuWheel.WheelLayoutsAgree | Marlin/src/lcd/menu/menu_main.cpp:209-237 | two configurations differing only in the wheel show the same entries, counted with multiplicity, if and only if not printing, or no SD support, or a file is open |
| MenuOrder.SettingsOrder | Marlin/src/lcd/menu/menu_main.cpp:156-170 | the settings entries, in order: Cutter, Temperature, Mixer, MMU2 (not while printing), Configuration |
| MenuOrder.TemperatureThenConfiguration | Marlin/src/lcd/menu/menu_main.cpp:160-170 | Temperature and Configuration are always present, once each, Temperature first |
| MenuOrder.ExtrasOrder | Marlin/src/lcd/menu/menu_main.cpp:172-207 | the extras entries, in order: User menu, filament change, Info, LED control, power switch, each under its own flag |
| MenuOrder.SectionOrder | Marlin/src/lcd/menu/menu_main.cpp:109-207 | Tune (while printing) or Motion (otherwise) comes before every settings entry, Cutter included, in the settings' own order, and those come before every extras entry, in the extras' own order |
| MenuOrder.WheelSectionOrder | Marlin/src/lcd/menu/menu_main.cpp:109-237 | with the encoder wheel, Tune or Motion, then the settings, then the extras, then, with SD support, the whole media block of the wheel layout, whether printing or not |
| MenuOrder.FilamentOrder | Marlin/src/lcd/menu/menu_main.cpp:180-189 | exactly one filament-change entry under ADVANCED_PAUSE_FEATURE: M600 B0 when hot, or the load submenu when cold, for one extruder without load/unload G-codes; the change-filament submenu otherwise |
| MenuOrder.PowerOrder | Marlin/src/lcd/menu/menu_main.cpp:202-207 | exactly one power entry with a power switch, M81 when on and M80 when off |
| MenuOrder.ServiceOrder | Marlin/src/lcd/menu/menu_main.cpp:239-249 | the service entries, in order 1, 2, 3, one for each positive interval |
| MenuMainLemmas.ServiceEntries | Marlin/src/lcd/menu/menu_main.cpp:239-249 | every service entry of the menu names interval 1, 2 or 3, is enabled, and opens that interval's screen |
| MenuMainLemmas.TrailerAtEnd | Marlin/src/lcd/menu/menu_main.cpp:239-271 | the menu ends with the service entries followed by the games section |
| MenuMainLemmas.GamesLast | Marlin/src/lcd/menu/menu_main.cpp:251-269 | when games are compiled in, the games entry is the very last entry, directly after two placeholders with the easter egg |
| MenuMainLemmas.Placeholders | Marlin/src/lcd/menu/menu_main.cpp:252-255 | the menu holds exactly two placeholders with games and the easter egg, and none otherwise |
| MenuMainLemmas.GamesEntry | Marlin/src/lcd/menu/menu_main.cpp:251-268 | an entry labelled Games appears only when games are compiled in, and opens the first enabled game target |
| MenuMainLemmas.StopOpensAbortConfirm | Marlin/src/lcd/menu/menu_main.cpp:113-115 | only Stop opens the abort confirmation, only while printing, and only when that screen exists |
| MenuMainLemmas.AbortConfirmScreen | Marlin/src/lcd/menu/menu_main.cpp:42-48 | the abort confirmation exists if and only if the machine can stop; its yes choice is Stop (abort print), its no choice is Back (previous screen), and its prompt is "Stop print?" |
| MenuMainLemmas.IdleWithCard | Marlin/src/lcd/menu/menu_main.cpp:98-272 | a card-reader machine without optional menus, idle with a card and no file open, shows Back, media menu, Change media, Motion, Temperature, Configuration |
| MenuMainLemmas.WhilePrinting | Marlin/src/lcd/menu/menu_main.cpp:98-272 | the same machine while printing shows Back, Pause, Stop, Tune, Temperature, Configuration |

## Left out

- The list machinery behind `START_MENU`, `END_MENU` and the item macros is left out. This covers screen-line iteration, the encoder position, the item counter and rendering. It is defined in files that are not part of this model, so the model keeps only the emitted entry sequence.
- The navigation stack, cursor saving and clamping, and dispatch of activated entries are left out. None of them is implemented in `menu_main.cpp`.
- The effects of handlers and targets are left out. This covers pausing, resuming, aborting, starting autostart, queueing G-code, the submenu screens and the game entry points. Each is an opaque constructor of `Handler` or `Screen`.
- The hardware queries become plain `State` fields: `printingIsActive`, `printingIsPaused`, `card.isMounted`, `card.isFileOpen`, `powersupply_on` and `targetHotEnoughToExtrude`.
- Derived flags are taken as given `Config` fields rather than re-derived: `HAS_CUTTER`, `HAS_POWER_SWITCH`, `HAS_SERVICE_INTERVALS`, `HAS_GAMES`, `HAS_GAME_MENU` and `HAS_ENCODER_WHEEL`. Their definitions are in files that are not part of this model.
- Localised text and flash strings are replaced by the `Msg` label type. This covers `GET_TEXT`, `PSTR`, `MSG_CUTTER(MENU)` and the `CUSTOM_USER_MENU_TITLE` renaming (lines 173-176). The user menu is always the `UserMenu` label, whatever its title.
- The `SERVICE_NAME_n` strings are the labels `ServiceName(n)`.
- `do_select_screen` is modelled only as the request it is given: the yes and no choices, their callbacks and the prompt parts. Its behaviour is not part of this model: where the two choices appear on screen, which one is highlighted, and what happens on confirm or cancel.
- `MenuMain.MainMenu`: its precondition `Buildable` excludes configurations that do not compile. With games compiled in but no game chosen, the `#if`/`#elif` chain at lines 256-268 leaves `SUBMENU` without a target.
- The include directives and forward declarations at lines 31-96 carry no behaviour.
