# NetworkTrayAppWpf, modelled in Dafny

NetworkTrayAppWpf is a Windows tray application that shows the state of the
network connection as a tray icon. This project models its core:

- **Startup.** The entry point chooses among three roles. A plain launch spawns a crash watcher. The watcher relaunches the application with `--monitored --watcher-pid N` and restarts it after a crash, unless it crashed five times within 30 seconds. A monitored launch runs the application itself.
- **Network state.** The network monitor classifies the internet connection profile into one of the icon states. It builds the list of connections shown in the tooltip and raises a change event only when the state changes.
- **Icon drawing.** The icon provider and the tray icon renderer pick a glyph and a colour per state. They use either the user's colours or the hard-coded theme colours, depending on the theme and on the "apply colours to light theme" setting.
- **Icon registration.** The shell notify icon registers the icon with the shell through the add / modify / delete protocol. It also covers the click debounce, the delayed refresh after display changes and the context-menu guard.
- **Settings windows.** The settings flyout and the settings window validate `#RRGGBB` / `#AARRGGBB` text. Their change handlers do nothing until the window has loaded the settings, and a window closes at most once.
- **Theme.** The theme manager and theme helper read `SystemUsesLightTheme` and raise a change only when the detected value flips.
- **Window helpers.** These cover the window style bit operations, the accent policy (acrylic blur) with its ABGR colour packing, the `RECT` point test and `RelayCommand`.
- **Adapter-settings monitor.** This monitor opens the network adapter settings (`ncpa.cpl` or a shell folder) and adopts the new "factory" explorer process that hosts the window. It then waits for that process's folder window, waits for the window's destruction, and finally takes the pid off the monitored set and ends the process if it is still running.

The operating system is always an input. Registry reads, connection profiles, the shell's answers to `Shell_NotifyIconW`, hook installation, WMI command lines, win events and process states are all parameters of the operations that consume them. Where the source changes state, the model is a class: the notify icon, the monitors, the settings windows, the theme watchers and the renderer. Each such class records the outside calls it makes in a log field, and its methods state the exact new state and log. Pure computations are functions, and lemmas relate each of them to a reference definition or an inverse.

One file per source file: `adapter_settings_monitor.dfy`, `crash_handler.dfy`, `program.dfy`, `network_monitor.dfy`, `icon_provider.dfy`, `tray_icon_renderer.dfy`, `shell_notify_icon.dfy`, `settings_flyout.dfy`, `settings_window.dfy`, `theme_manager.dfy`, `theme_helper.dfy`, `app_settings.dfy` (module `Settings`), `window_extensions.dfy`, `accent_policy_helper.dfy`, `shell32.dfy`, `relay_command.dfy`, `network_icon_state.dfy` (module `NetworkIconStates`). The shared pieces are `wrappers.dfy` (`Option`), `text.dfy` (the .NET string operations used), `colors.dfy` (colours and two-digit hexadecimal bytes) and `registry_values.dfy` (a boxed registry read).

## Model

| member | source | states |
|---|---|---|
| AdapterSettingsShellProcessMonitor.MatchesAnyFactory | AdapterSettingsShellProcessMonitor.cs:116-120 | true exactly when some factory command occurs in the command line, ignoring case |
| AdapterSettingsShellProcessMonitor.IsFactoryExplorerSpec | AdapterSettingsShellProcessMonitor.cs:105-129 | a pid is a factory explorer iff its command line is readable and one of the two `/factory,{…} -Embedding` strings occurs at some position, ignoring case; no command line or a failed query gives false |
| AdapterSettingsShellProcessMonitor.FactoryTestIgnoresCase | AdapterSettingsShellProcessMonitor.cs:118 | two command lines equal up to case get the same factory verdict |
| AdapterSettingsShellProcessMonitor.MatchesAtIgnoresCase | AdapterSettingsShellProcessMonitor.cs:118 | a case-insensitive match at a position survives replacing the text by one equal up to case |
| AdapterSettingsShellProcessMonitor.GetExplorerFactoryPids | AdapterSettingsShellProcessMonitor.cs:83-103 | the result is exactly the set of running explorer pids that pass the factory test |
| AdapterSettingsShellProcessMonitor.IgnoreSet | AdapterSettingsShellProcessMonitor.cs:39-45 | the ignore set contains every running factory explorer and every monitored pid, and nothing else |
| AdapterSettingsShellProcessMonitor.ProcessPhaseRejects | AdapterSettingsShellProcessMonitor.cs:269-280 | phase 1 never adopts a non-window object, a null window, pid 0, an ignored pid or a non-factory process |
| AdapterSettingsShellProcessMonitor.MainWindowPhaseIgnores | AdapterSettingsShellProcessMonitor.cs:335-379 | phase 2 hands off iff a create or show event concerns a window whose class is exactly `CabinetWClass`; its hook, installed for the create-to-show range, is also called for the destroy event, which never hands off, and a lower-case class name never hands off |
| AdapterSettingsShellProcessMonitor.KillStep | AdapterSettingsShellProcessMonitor.cs:478-487 | a kill is requested, at most once, exactly when the process is still running |
| AdapterSettingsShellProcessMonitor.Machine.constructor | AdapterSettingsShellProcessMonitor.cs:22-23 | the monitored-pid set starts as given with an empty call log |
| AdapterSettingsShellProcessMonitor.Machine.AddMonitoredPid | AdapterSettingsShellProcessMonitor.cs:67-73 | the set gains the pid and no other pid changes |
| AdapterSettingsShellProcessMonitor.Machine.RemoveMonitoredPid | AdapterSettingsShellProcessMonitor.cs:75-81 | the set loses the pid; an absent pid leaves it unchanged |
| AdapterSettingsShellProcessMonitor.WindowDestroyMonitor.constructor | AdapterSettingsShellProcessMonitor.cs:399-410 | a phase 3 monitor for one pid, with no hook, no quit and no clean-up yet |
| AdapterSettingsShellProcessMonitor.WindowDestroyMonitor.Cleanup | AdapterSettingsShellProcessMonitor.cs:468-488 | releases a held hook, takes the pid off the monitored set, then asks for a kill only if the process still runs, in that order |
| AdapterSettingsShellProcessMonitor.WindowDestroyMonitor.Start | AdapterSettingsShellProcessMonitor.cs:421-452 | with a hook the loop waits; without one, clean-up runs twice (early return plus `finally`): the pid leaves the set and each clean-up asks for a kill exactly when the process is then still running |
| AdapterSettingsShellProcessMonitor.WindowDestroyMonitor.OnWinEvent | AdapterSettingsShellProcessMonitor.cs:454-466 | the quit is posted exactly for a destroyed `CabinetWClass` window; nothing else changes |
| AdapterSettingsShellProcessMonitor.WindowDestroyMonitor.EndLoop | AdapterSettingsShellProcessMonitor.cs:448-451 | the loop ends with the hook released and the pid out of the monitored set |
| AdapterSettingsShellProcessMonitor.MainWindowMonitor.constructor | AdapterSettingsShellProcessMonitor.cs:302-316 | a phase 2 monitor for one pid, with no hook and no successor |
| AdapterSettingsShellProcessMonitor.MainWindowMonitor.Start | AdapterSettingsShellProcessMonitor.cs:318-345 | with a hook the loop waits; without one, the pid leaves the monitored set and no phase 3 follows |
| AdapterSettingsShellProcessMonitor.MainWindowMonitor.OnWinEvent | AdapterSettingsShellProcessMonitor.cs:366-393 | on a create or show event for a folder window it hands off as `HandOff` states, again for a second such event; on any other event nothing changes |
| AdapterSettingsShellProcessMonitor.MainWindowMonitor.HandOff | AdapterSettingsShellProcessMonitor.cs:381-391 | releases a held hook, starts phase 3 for the same pid and posts the quit, with the exact log; when phase 3's hook fails, its two clean-ups (each removal and a kill for a still-running process) come before the quit and the pid leaves the registry |
| AdapterSettingsShellProcessMonitor.MainWindowMonitor.EndLoop | AdapterSettingsShellProcessMonitor.cs:356-362 | the loop ends with no hook held; a hook still held is released in `finally` |
| AdapterSettingsShellProcessMonitor.ProcessMonitor.constructor | AdapterSettingsShellProcessMonitor.cs:200-215 | phase 1 starts with the given ignore set, not ready and with nothing adopted |
| AdapterSettingsShellProcessMonitor.ProcessMonitor.Start | AdapterSettingsShellProcessMonitor.cs:217-247 | ready is always signalled, and the hook is held exactly when it was installed; a failed hook ends the loop and `finally` signals ready a second time |
| AdapterSettingsShellProcessMonitor.ProcessMonitor.OnWinEvent | AdapterSettingsShellProcessMonitor.cs:269-296 | an adoptable process is handled in order: release the hook, add the pid, start phase 2, post the quit, with the exact log; phase 2's hook state is given, and any other event changes nothing |
| AdapterSettingsShellProcessMonitor.ProcessMonitor.Adopt | AdapterSettingsShellProcessMonitor.cs:282-295 | adopting releases a held hook first, registers the pid, starts phase 2 for exactly that pid and posts the quit; a failed phase-2 hook unregisters the pid again |
| AdapterSettingsShellProcessMonitor.ProcessMonitor.Deliver | AdapterSettingsShellProcessMonitor.cs:234-237 | a creation event delivered while the hook is held is handled: an adoptable one is adopted with `OnWinEvent`'s exact log and registry change; every other event, and any event once the hook is released, changes nothing |
| AdapterSettingsShellProcessMonitor.ProcessMonitor.EndLoop | AdapterSettingsShellProcessMonitor.cs:257-266 | the loop ends with no hook held and ready signalled once more |
| AdapterSettingsShellProcessMonitor.AdoptsAtMostOne | AdapterSettingsShellProcessMonitor.cs:269-296 | over any sequence of events one phase 1 adopts at most one process, never pid 0 or an ignored pid |
| AdapterSettingsShellProcessMonitor.OpenAndMonitor | AdapterSettingsShellProcessMonitor.cs:35-65 | the ignore set is taken before the launch, and the launch is recorded after the ready signal with `null` arguments sent as "" |
| AdapterSettingsShellProcessMonitor.OpenAndMonitorControlPanel | AdapterSettingsShellProcessMonitor.cs:25-28 | launches `ncpa.cpl` with no arguments, after the ready signal |
| AdapterSettingsShellProcessMonitor.OpenAndMonitorExplorerShell | AdapterSettingsShellProcessMonitor.cs:30-33 | launches `explorer.exe` with the network-connections shell folder, after the ready signal |
| AdapterSettingsShellProcessMonitor.FullRun | AdapterSettingsShellProcessMonitor.cs:269-488 | after the three phases run to completion, the adopted pid is no longer monitored, and the last call is a kill request exactly when the process is still running |
| CrashHandler.Prune | CrashHandler.cs:89-93 | pruning never grows the queue, and the oldest time left lies within 30 s of now |
| CrashHandler.PruneSpec | CrashHandler.cs:89-93 | pruning only dequeues from the front, every time dropped is more than 30 s before now, and it stops at the first time within the window |
| CrashHandler.PruneWithinWindow | CrashHandler.cs:89-93 | on a sorted queue every time left lies within the window, and the queue stays sorted |
| CrashHandler.PruneKeepsMembers | CrashHandler.cs:89-93 | pruning adds no time |
| CrashHandler.PruneKeepsLatest | CrashHandler.cs:86-93 | the crash just recorded survives pruning as the last entry |
| CrashHandler.PruneWithinWindowKeeps | CrashHandler.cs:89-93 | a queue already within the window is unchanged |
| CrashHandler.PruneDropsOlder | CrashHandler.cs:89-93 | a crash more than 30 s after the previous one leaves only itself |
| CrashHandler.EnqueueSorted | CrashHandler.cs:86-87 | enqueuing a time no earlier than the others keeps the queue sorted |
| CrashHandler.RunWatcher | CrashHandler.cs:28-122 | returns 1 when there is no executable or neither a running instance nor a first launch; otherwise runs the supervision loop from an empty queue and returns 0 once it stops |
| CrashHandler.Supervise | CrashHandler.cs:62-119 | the watcher loop over the child's exits as a function; its properties are stated by `UserExitStops`, `CrashRelaunches`, `SuperviseCrash`, `RestartQueueBounded` and `FiveRapidCrashesStop` |
| CrashHandler.UserExitStops | CrashHandler.cs:78-83 | exit code 0 or 1 stops the watcher with no restart and the queue untouched |
| CrashHandler.CrashRelaunches | CrashHandler.cs:85-114 | any other exit code, while the window holds fewer than five crashes, counts one relaunch and continues with the pruned queue |
| CrashHandler.SuperviseCrash | CrashHandler.cs:85-114 | a relaunched crash is one more relaunch than the rest of the run from the pruned queue |
| CrashHandler.CrashKeepsQueueInvariant | CrashHandler.cs:86-93 | with non-decreasing ticks, recording a crash keeps the queue sorted, within the window and in step with later ticks |
| CrashHandler.RestartQueueBounded | CrashHandler.cs:62-118 | over any run the queue never holds more than five times, stays sorted, and stays within the window of its latest crash |
| CrashHandler.FiveRapidCrashesStop | CrashHandler.cs:95-103 | five crashes within 30 s stop the watcher at the fifth, after four relaunches |
| CrashHandler.SpacedCrashesKeepRestarting | CrashHandler.cs:89-114 | crashes more than 30 s apart are all relaunched and never trip the limit |
| CrashHandler.LaunchArguments | CrashHandler.cs:180 | the child's arguments are `--monitored --watcher-pid` and the decimal pid |
| CrashHandler.FindExistingMonitoredProcess | CrashHandler.cs:198-225 | the first same-named pid that is not the current one; none when there is no path, the enumeration throws, or every pid is the current one |
| Program.PairValues | Program.cs:47-53 | one candidate per position that has a successor, each the parse of the next argument after a `--watcher-pid` |
| Program.ParseWatcherPid | Program.cs:45-56 | the loop returns exactly the pid of the first valid `--watcher-pid` pair |
| Program.FirstSomeSpec | Program.cs:47-55 | the scan finds the first position that has a value, and nothing iff there is none |
| Program.ParseWatcherPidSpec | Program.cs:45-56 | the result is none iff no position has `--watcher-pid` (any case) followed by a parsable integer; otherwise it is the value at the first such position |
| Program.WatcherPidIn | Program.cs:45-56 | the first valid `--watcher-pid` pair's value, as a function; characterised by `ParseWatcherPidSpec` |
| Program.FirstSomeAppendNone | Program.cs:47-55 | appending a position with no value does not change the result |
| Program.FlagIsNotANumber | Program.cs:50 | `--watcher-pid` itself never parses as a pid |
| Program.PairValuesAppend | Program.cs:47 | appending an argument keeps the earlier candidates and adds the one ending at it |
| Program.TrailingWatcherPidIgnored | Program.cs:47 | a `--watcher-pid` in last position is never read |
| Program.BadValueKeepsScanning | Program.cs:49-52 | an unparsable value does not end the scan; a later valid pair still counts |
| Program.FirstSomeSkip | Program.cs:47-55 | positions without a value are passed over |
| Program.FirstSomeDrop | Program.cs:47-55 | scanning from a later position is scanning the suffix |
| Program.FirstSomeShift | Program.cs:47-55 | leading positions without a value can be dropped |
| Program.LaunchArgumentsWords | CrashHandler.cs:180 | the watcher's argument string splits back into its three words |
| Program.LaunchWordsPid | Program.cs:45-56 | those words give back the watcher's pid |
| Program.LaunchWordsFlags | Program.cs:18-19 | those words carry `--monitored` and not `--watcher` |
| Program.LaunchArgumentsRoundTrip | Program.cs:18-37 | the child launched by the watcher reads back the watcher's pid and is a monitored, non-watcher instance |
| Program.ModeForSpec | Program.cs:16-43 | `--watcher` wins over every flag; the watcher is spawned only from a plain launch without a debugger; an application run carries the parsed watcher pid; `--watcher-pid` is not `--watcher` |
| Program.ModeFor | Program.cs:16-43 | the dispatch of `Main` on its flags and the debugger; its contract is stated by `ModeForSpec` |
| Program.LaunchedChildRunsApp | Program.cs:16-43 | the child the watcher launches runs the application with the watcher's pid |
| NetworkMonitor.EntryOf | NetworkMonitor.cs:51-57 | a connection is Wi-Fi iff it reports signal bars and has internet iff its level is internet access; a null name reads "Unknown" |
| NetworkMonitor.ConnectionsFailIffThrows | NetworkMonitor.cs:49-58 | enumerating the profiles fails exactly when some profile cannot be read |
| NetworkMonitor.ConnectionsAreConnectedProfiles | NetworkMonitor.cs:49-58 | every listed connection comes from a connected profile, and without a failure every connected profile is listed |
| NetworkMonitor.ConnectionsOf | NetworkMonitor.cs:49-58 | the connected profiles in order, and whether a read failed; characterised by `ConnectionsFailIffThrows` and `ConnectionsAreConnectedProfiles` |
| NetworkMonitor.BuildConnections | NetworkMonitor.cs:49-58 | the loop yields the list and failure flag of the reference enumeration |
| NetworkMonitor.Clamp | NetworkMonitor.cs:62 | the result lies within the bounds and equals the value when that is already within them |
| NetworkMonitor.WifiStateSpec | NetworkMonitor.cs:60-78 | for one to four bars the state is Wi-Fi, shows exactly that many bars, and is drawn as connected exactly with internet access |
| NetworkMonitor.WiredState | NetworkMonitor.cs:83-89 | Ethernet connected iff internet access, no internet iff local or constrained access, disconnected iff no connectivity |
| NetworkMonitor.ClassifyWifi | NetworkMonitor.cs:60-78 | a readable Wi-Fi profile shows a Wi-Fi state with one to four bars (never zero), that state's bar count, and is drawn as connected exactly with internet access |
| NetworkMonitor.Classify | NetworkMonitor.cs:35-96 | the state, bars, name and connections `RefreshState` publishes; characterised by `ClassifyWifi`, `ClassifyWired`, `ClassifyFailure` and `ClassifyNeverProduces` |
| NetworkMonitor.ClassifyWired | NetworkMonitor.cs:80-91 | a wired profile shows no bars and its wired state |
| NetworkMonitor.ClassifyFailure | NetworkMonitor.cs:35-96 | no profile, or a failure anywhere, shows no network with no bars and no name, keeping the connections read so far |
| NetworkMonitor.ClassifyNeverProduces | NetworkMonitor.cs:28-97 | the monitor never reports Wi-Fi disconnected, connecting or zero bars |
| NetworkMonitor.EntryTexts | NetworkMonitor.cs:113-114 | one entry per connection, in order |
| NetworkMonitor.TooltipTextSpec | NetworkMonitor.cs:109-125 | with connections the tooltip ignores the state and begins with the first entry; without connections every state but the three with their own text reads "No network connection"; never empty |
| NetworkMonitor.TooltipText | NetworkMonitor.cs:109-125 | the tooltip of a connection list and state; characterised by `TooltipTextSpec` |
| NetworkMonitor.Monitor.GetTooltipText | NetworkMonitor.cs:109-125 | the tooltip of the monitor's current connections and state |
| NetworkMonitor.Monitor.constructor | NetworkMonitor.cs:12-20 | starts at no network, no bars, no name, no connections, no events |
| NetworkMonitor.Monitor.UpdateState | NetworkMonitor.cs:99-107 | all four properties are overwritten, and an event is raised exactly when the state changed; consecutive events never repeat a state |
| NetworkMonitor.Monitor.RefreshState | NetworkMonitor.cs:28-97 | the published state is the classification of what the system reports, raised only on change |
| NetworkMonitor.Monitor.Initialize | NetworkMonitor.cs:22-26 | subscribes, then publishes the classified state, bars, network name and connections, raising the event only when the state changed |
| NetworkMonitor.Monitor.Dispose | NetworkMonitor.cs:127-132 | unsubscribes once; later calls change nothing; the published state, bars, name and connections stay |
| IconProvider.GetGlyph | IconProvider.cs:39-53 | every state maps to one of the seven glyphs |
| IconProvider.GlyphAssignment | IconProvider.cs:39-53 | Ethernet states share the Ethernet glyph; Wi-Fi states show their bar count whether or not they have internet; disconnected shows 0 bars and connecting 1 |
| IconProvider.UseCustomColors | IconProvider.cs:58 | custom colours are used exactly when the "apply to light theme" setting matches the taskbar theme |
| IconProvider.GetColorByCategory | IconProvider.cs:55-83 | each state is drawn in the parsed colour of its role (connected, no internet, disconnected), custom or hard-coded as the setting says |
| IconProvider.GetColor | IconProvider.cs:55-83 | the colour of a state; characterised by `GetColorByCategory` and `HardCodedColorsWhenNotCustom` |
| IconProvider.StateColorTextByCategory | IconProvider.cs:55-83 | the switch gives every network state the colour text of its role: custom text when custom colours apply, the theme constant otherwise |
| IconProvider.ParseColorSpec | IconProvider.cs:90-124 | one `#` is dropped; a valid six- or eight-digit body reads as opaque RGB or ARGB; anything else is white |
| IconProvider.ParseColor | IconProvider.cs:90-124 | the colour of a hex text; characterised by `ParseColorSpec` and `ParseColorRoundTrip` |
| IconProvider.ParseColorRoundTrip | IconProvider.cs:90-124 | `#RRGGBB` of an opaque colour and `#AARRGGBB` of any colour read back as that colour |
| IconProvider.ThemeColorsParse | IconProvider.cs:11-16 | each hard-coded colour text reads as the intended colour |
| IconProvider.LightThemeColorsParse | IconProvider.cs:14-16 | the light theme constants read as black, dark amber and grey |
| IconProvider.DarkThemeColorsParse | IconProvider.cs:11-13 | the dark theme constants read as white, amber and grey |
| IconProvider.ThemeColorTextsValid | IconProvider.cs:11-16 | each hard-coded colour text is a valid colour |
| IconProvider.HardCodedColorsWhenNotCustom | IconProvider.cs:58-65 | without custom colours every state gets its theme's hard-coded colour |
| IconProvider.CreateForThemeMatchesHardCoded | AppSettings.cs:123-140 | settings created for a theme, shown on that theme, use exactly that theme's hard-coded colours |
| TrayIconRenderer.GetGlyphsForState | TrayIconRenderer.cs:75-98 | any backdrop glyph is the full-signal glyph |
| TrayIconRenderer.GlyphsAgreeWithIconProvider | TrayIconRenderer.cs:75-98 | the foreground glyph is the icon provider's, and a backdrop is drawn exactly for Wi-Fi states that are not at full signal |
| TrayIconRenderer.ParseColorSpec | TrayIconRenderer.cs:228-252 | a valid body reads as in the icon provider; anything else falls back to black on a light taskbar and white on a dark one |
| TrayIconRenderer.ParseColor | TrayIconRenderer.cs:228-252 | the renderer's colour of a hex text; characterised by `ParseColorSpec` |
| TrayIconRenderer.GetColorAgreesWithIconProvider | TrayIconRenderer.cs:190-225 | same colour text as the icon provider for every state; same colour when valid, the theme fallback otherwise |
| TrayIconRenderer.GetColor | TrayIconRenderer.cs:190-225 | the renderer's colour of a state; related to the icon provider's by `GetColorAgreesWithIconProvider` and `SameColorWhenNotCustom` |
| TrayIconRenderer.StateColorTextAgrees | TrayIconRenderer.cs:190-225 | the renderer's own copy of the colour choice picks the same text as the icon provider for every state and theme |
| TrayIconRenderer.SameColorWhenNotCustom | TrayIconRenderer.cs:190-225 | without custom colours renderer and provider draw the same colour |
| TrayIconRenderer.Renderer.constructor | TrayIconRenderer.cs:15-18 | no current icon, not disposed |
| TrayIconRenderer.Renderer.CreateIcon | TrayIconRenderer.cs:48-69 | the new icon carries the state's glyphs and colour, becomes current, and only the previous icon is disposed |
| TrayIconRenderer.Renderer.Dispose | TrayIconRenderer.cs:297-303 | the first call disposes the current icon; later calls change nothing |
| ShellNotifyIcon.MessageCodeInjective | Interop/Shell32.cs:14-21 | the four messages have distinct codes (0, 1, 2 and 4), so the code sent names the message |
| ShellNotifyIcon.TruncateTip | Interop/ShellNotifyIcon.cs:94 | the tip is a prefix of the text of at most 127 characters, the whole text when it fits |
| ShellNotifyIcon.TruncateTipIdempotent | Interop/ShellNotifyIcon.cs:94 | truncating twice is truncating once |
| ShellNotifyIcon.LowWord | Interop/ShellNotifyIcon.cs:165 | `(short)` gives a signed 16-bit value congruent to the word modulo 65536 |
| ShellNotifyIcon.ClickPointRoundTrip | Interop/ShellNotifyIcon.cs:164-166 | a point packed with x in the low word and y in the high word reads back as that point |
| ShellNotifyIcon.NotifyIcon.MakeData | Interop/ShellNotifyIcon.cs:85-95 | the data carries the current icon and the truncated tooltip |
| ShellNotifyIcon.NotifyIcon.constructor | Interop/ShellNotifyIcon.cs:57-71 | not created, not visible, empty tooltip, no calls, subscribed to display changes |
| ShellNotifyIcon.NotifyIcon.Update | Interop/ShellNotifyIcon.cs:98-130 | brings the shell in line with visibility: add (plus set-version) when not created, modify when created, a refused modify re-adds once, delete when hidden; nothing after disposal |
| ShellNotifyIcon.NotifyIcon.SetIsVisible | Interop/ShellNotifyIcon.cs:44-55 | a changed value updates the shell exactly as `Update` does, including no call when a refused icon is hidden; an unchanged value makes no call; tooltip, icon, timer, clicks and menu stay |
| ShellNotifyIcon.NotifyIcon.SetIcon | Interop/ShellNotifyIcon.cs:73-77 | stores the icon and updates the shell exactly as `Update` does, with the new icon in the data sent; a visible icon's last call carries the new icon; timer, clicks, menu and window stay |
| ShellNotifyIcon.NotifyIcon.SetTooltip | Interop/ShellNotifyIcon.cs:79-83 | null is stored as empty, the shell is updated exactly as `Update` does, and every call made carries the truncated text; timer, clicks, menu and window stay |
| ShellNotifyIcon.NotifyIcon.TakeHasProcessedButtonUp | Interop/ShellNotifyIcon.cs:33-42 | the getter returns the flag and clears it |
| ShellNotifyIcon.NotifyIcon.CallbackMessage | Interop/ShellNotifyIcon.cs:146-170 | select or left-up raises `LeftClick` unless the previous one did; right-up or context menu raises `RightClick` at the point from `WParam`; other notifications do nothing |
| ShellNotifyIcon.NotifyIcon.ScheduleIconUpdate | Interop/ShellNotifyIcon.cs:179-184 | ten ticks left, the timer running, and the shell updated at once exactly as `Update` does |
| ShellNotifyIcon.NotifyIcon.TimerTick | Interop/ShellNotifyIcon.cs:186-194 | one tick fewer; the timer stops exactly when the ticks run out, and that tick performs the final update exactly as `Update` does; a running tick makes no shell call |
| ShellNotifyIcon.NotifyIcon.WndProc | Interop/ShellNotifyIcon.cs:132-144 | a mouse callback is handled as `CallbackMessage` with no shell call; a recreated taskbar or a work-area change schedules a refresh and updates the shell at once with the unchanged tooltip and icon; other messages change nothing, the registration included; visibility, tooltip, icon, menu and window always stay |
| ShellNotifyIcon.NotifyIcon.ShowContextMenu | Interop/ShellNotifyIcon.cs:199-215 | a menu opens only when none is open; no shell call, and visibility, tooltip, icon, timer, clicks and window stay |
| ShellNotifyIcon.NotifyIcon.ContextMenuClosed | Interop/ShellNotifyIcon.cs:259-267 | clears the open-menu flag; no shell call, and visibility, tooltip, icon, timer, clicks and window stay |
| ShellNotifyIcon.NotifyIcon.Dispose | Interop/ShellNotifyIcon.cs:269-279 | as written: timer and display subscription stopped, hidden, window released, but no shell call, so a registered icon stays registered; tooltip, icon, clicks and menu stay, and a second call changes nothing |
| ShellNotifyIcon.NotifyIcon.DisposeRemovingIcon | Interop/ShellNotifyIcon.cs:269-279 | corrected order: a registered icon is deleted from the tray before the object is marked disposed |
| ShellNotifyIcon.ClickBurst | Interop/ShellNotifyIcon.cs:152-160 | n consecutive clicks raise `LeftClick` (n + 1) / 2 times |
| ShellNotifyIcon.TenTicksThenStop | Interop/ShellNotifyIcon.cs:179-194 | after a scheduled refresh, ten ticks leave the timer stopped with no ticks remaining (the loop invariant keeps it running before the tenth) |
| ShellNotifyIcon.DisposeLeavesIconRegistered | Interop/ShellNotifyIcon.cs:269-279 | a visible registered icon is still registered after `Dispose`, and the corrected disposal removes it |
| SettingsFlyout.HexColorTextNotBlank | SettingsFlyout.xaml.cs:239 | a valid colour text is never blank, so the blank test never rejects one |
| SettingsFlyout.TryParseColorSpec | SettingsFlyout.xaml.cs:234-271 | succeeds iff the text is non-null and its body after one `#` is valid; the colour is then the icon provider's reading, otherwise the default colour |
| SettingsFlyout.TryParseColor | SettingsFlyout.xaml.cs:234-271 | the flyout's colour parser; characterised by `TryParseColorSpec` |
| SettingsFlyout.Flyout.constructor | SettingsFlyout.xaml.cs:20-29 | initialising, not closing, subscribed to `Loaded`, nothing saved |
| SettingsFlyout.Flyout.UpdateColorPreview | SettingsFlyout.xaml.cs:226-232 | the swatch changes only to a parsed colour |
| SettingsFlyout.Flyout.OnLoaded | SettingsFlyout.xaml.cs:79-144 | unsubscribes, shows the settings in every control (each valid colour previewed), saves nothing, then ends initialisation |
| SettingsFlyout.Flyout.WindowDeactivated | SettingsFlyout.xaml.cs:97-107 | the first deactivation marks the flyout closing and calls `Close`; later ones call nothing |
| SettingsFlyout.Flyout.FlyoutStyleSelectionChanged | SettingsFlyout.xaml.cs:146-158 | after loading, a tag naming a style stores and saves it; otherwise nothing changes |
| SettingsFlyout.Flyout.AdapterSettingsStyleSelectionChanged | SettingsFlyout.xaml.cs:160-172 | the same for the adapter-settings style |
| SettingsFlyout.Flyout.ColorTextChanged | SettingsFlyout.xaml.cs:179-216 | after loading, text that parses becomes that slot's colour only, is saved and previewed; other text changes nothing |
| SettingsFlyout.Flyout.ApplyColorsToLightThemeChanged | SettingsFlyout.xaml.cs:218-224 | after loading, stores and saves whether the box is checked, indeterminate as unchecked |
| SettingsWindow.TryParseColorSameAsFlyout | SettingsWindow.xaml.cs:206-243 | the window's parser equals the flyout's on every input |
| SettingsWindow.TryParseColor | SettingsWindow.xaml.cs:206-243 | the window's colour parser; proved equal to the flyout's by `TryParseColorSameAsFlyout` |
| SettingsWindow.Window.constructor | SettingsWindow.xaml.cs:14-25 | initialising, not closing, nothing saved |
| SettingsWindow.Window.UpdateColorPreview | SettingsWindow.xaml.cs:198-204 | the swatch changes only to a parsed colour |
| SettingsWindow.Window.OnLoaded | SettingsWindow.xaml.cs:50-116 | shows the settings in every control, saves nothing, then ends initialisation |
| SettingsWindow.Window.WindowClosing | SettingsWindow.xaml.cs:65-69 | marks the window closing and closes nothing |
| SettingsWindow.Window.WindowDeactivated | SettingsWindow.xaml.cs:71-79 | closes unless already closing |
| SettingsWindow.Window.FlyoutStyleSelectionChanged | SettingsWindow.xaml.cs:118-130 | after loading, a tag naming a style stores and saves it |
| SettingsWindow.Window.AdapterSettingsStyleSelectionChanged | SettingsWindow.xaml.cs:132-144 | the same for the adapter-settings style |
| SettingsWindow.Window.ColorTextChanged | SettingsWindow.xaml.cs:151-188 | after loading, only text that parses is stored in its slot, saved and previewed |
| SettingsWindow.Window.ApplyColorsToLightThemeChanged | SettingsWindow.xaml.cs:190-196 | after loading, stores and saves the checkbox, indeterminate as unchecked |
| SettingsWindow.ClosingThenDeactivated | SettingsWindow.xaml.cs:65-79 | once closing, deactivation never calls `Close` |
| Settings.DefaultIconSettings | AppSettings.cs:108-121 | a new icon setting holds the dark colours and does not apply to the light theme |
| Settings.DefaultTraySettings | AppSettings.cs:143-147 | Windows 10 flyout, Explorer adapter settings |
| Settings.CreateForTheme | AppSettings.cs:123-140 | the light or dark colour set, applying to that theme |
| Settings.DefaultIsDarkTheme | AppSettings.cs:118-140 | the default icon settings are the dark-theme set |
| Settings.CreateWithSystemThemeDefaults | AppSettings.cs:44-66 | icon colours for the light theme exactly when `SystemUsesLightTheme` is a boxed 1; tray settings default |
| Settings.WithColorText | SettingsFlyout.xaml.cs:186-212 | assigning one slot's colour leaves the other slots and the theme flag unchanged |
| NetworkIconStates.ParseFlyoutStyle | SettingsFlyout.xaml.cs:152 | a parsed tag is the style's name, and a failure means no style has that name |
| NetworkIconStates.ParseAdapterSettingsStyle | SettingsFlyout.xaml.cs:166 | the same for the adapter-settings styles |
| ThemeManager.AcrylicIsTranslucentBackground | ThemeManager.cs:23-49 | each acrylic colour is its theme's background with alpha 0xD0; every other themed colour is opaque |
| ThemeManager.ThemesDiffer | ThemeManager.cs:23-50 | the themes never share a background, foreground or acrylic colour |
| ThemeManager.DetectSystemLightThemeSpec | ThemeManager.cs:86-112 | both theme reads are light exactly when the read yields a boxed int 1; missing, other or failed reads are dark |
| ThemeManager.DetectSystemLightTheme | ThemeManager.cs:86-98 | the system theme read; characterised by `DetectSystemLightThemeSpec` |
| ThemeManager.DetectAppsLightTheme | ThemeManager.cs:100-112 | the apps theme read; characterised by `DetectSystemLightThemeSpec` |
| ThemeManager.Manager.ThemedColor | ThemeManager.cs:52-60 | each getter returns the light value on a light theme and the dark one otherwise |
| ThemeManager.Manager.constructor | ThemeManager.cs:62-69 | starts at the detected theme, subscribed, no events |
| ThemeManager.Manager.OnUserPreferenceChanged | ThemeManager.cs:71-84 | only a General change whose detected value differs updates the theme and raises it; events always report a flip |
| ThemeManager.Manager.UserPreferenceChanged | ThemeManager.cs:68 | while subscribed a change is handled exactly as `OnUserPreferenceChanged` states; once unsubscribed it changes nothing |
| ThemeManager.Manager.Dispose | ThemeManager.cs:114-119 | unsubscribes once; later calls change nothing |
| ThemeManager.RepeatedChangeRaisesOnce | ThemeManager.cs:71-84 | the same change delivered twice raises at most one event |
| ThemeHelper.TaskbarDetectionAgrees | ThemeHelper.cs:47-64 | `value is int v && v == 1` agrees with `value is 1` on every read |
| ThemeHelper.DetectTaskbarLightTheme | ThemeHelper.cs:47-64 | the taskbar theme read; characterised by `TaskbarDetectionAgrees` |
| ThemeHelper.Helper.constructor | ThemeHelper.cs:23-30 | starts at the detected taskbar theme, subscribed |
| ThemeHelper.Helper.OnUserPreferenceChanged | ThemeHelper.cs:32-45 | raises the new value only for a General change that flips it |
| ThemeHelper.Helper.Dispose | ThemeHelper.cs:66-71 | unsubscribes once |
| ThemeHelper.RepeatedChangeRaisesOnce | ThemeHelper.cs:32-45 | the same change twice raises at most one event |
| WindowExtensions.MaximizeMaskWidens | Interop/WindowExtensions.cs:115 | `~WS_MAXIMIZEBOX` sign-extends to a 64-bit mask that clears only that bit |
| WindowExtensions.SetBitsOn | Interop/WindowExtensions.cs:92-104 | or-ing turns the style bits on |
| WindowExtensions.SetBitsKeepsOthers | Interop/WindowExtensions.cs:92-104 | or-ing leaves every other bit as it was |
| WindowExtensions.SetBitsIdempotent | Interop/WindowExtensions.cs:92-104 | or-ing the same bits a second time changes nothing |
| WindowExtensions.ClearBitsOff | Interop/WindowExtensions.cs:115 | and-not turns the bit off |
| WindowExtensions.ClearBitsKeepsOthers | Interop/WindowExtensions.cs:115 | and-not leaves every other bit as it was |
| WindowExtensions.ClearBitsIdempotent | Interop/WindowExtensions.cs:115 | clearing the same bits a second time changes nothing |
| WindowExtensions.WindowManager.ApplyToolWindowStyle | Interop/WindowExtensions.cs:88-94 | only that window's extended style changes, gaining `WS_EX_TOOLWINDOW` |
| WindowExtensions.WindowManager.ApplyNoActivateStyle | Interop/WindowExtensions.cs:99-105 | only that window's extended style changes, gaining `WS_EX_NOACTIVATE` |
| WindowExtensions.WindowManager.RemoveMaximizeBox | Interop/WindowExtensions.cs:110-116 | only that window's style changes, losing `WS_MAXIMIZEBOX` |
| WindowExtensions.WindowManager.Cloak | Interop/WindowExtensions.cs:26-41 | writes attribute 13 as 1 to hide and 0 to show |
| WindowExtensions.WindowManager.EnableRoundedCorners | Interop/WindowExtensions.cs:46-63 | nothing before Windows 11; from build 22000 on, the round corner preference |
| WindowExtensions.WindowManager.SetDarkMode | Interop/WindowExtensions.cs:68-83 | writes attribute 20 as 1 exactly when enabling |
| WindowExtensions.ToolWindowStyleIdempotent | Interop/WindowExtensions.cs:88-94 | applying the tool window style twice has exactly the effect of applying it once |
| WindowExtensions.NoActivateStyleIdempotent | Interop/WindowExtensions.cs:99-105 | applying the no-activate style twice has exactly the effect of applying it once |
| WindowExtensions.RemoveMaximizeBoxIdempotent | Interop/WindowExtensions.cs:110-116 | removing the maximize box twice has exactly the effect of removing it once |
| AccentPolicyHelper.AccentStateValueInjective | Interop/User32.cs:112-120 | the six accent states have distinct values, so the value sent names the state |
| AccentPolicyHelper.EnableAcrylic | Interop/AccentPolicyHelper.cs:17-32 | nothing without a handle; otherwise acrylic (4) from build 17134 on and blur (3) before, with the caller's flags and the ABGR tint |
| AccentPolicyHelper.DisableAcrylic | Interop/AccentPolicyHelper.cs:34-45 | nothing without a handle; otherwise the disabled state with every other field zero |
| AccentPolicyHelper.EnableDisableDiffer | Interop/AccentPolicyHelper.cs:17-45 | enabling and disabling never send the same policy |
| AccentPolicyHelper.ToAbgrChannels | Interop/AccentPolicyHelper.cs:71-74 | alpha sits in bits 24-31, blue 16-23, green 8-15 and red 0-7 of the packed word |
| AccentPolicyHelper.ToAbgr | Interop/AccentPolicyHelper.cs:71-74 | the packed tint word; its channel positions are stated by `ToAbgrChannels` and its injectivity by `ToAbgrInjective` |
| AccentPolicyHelper.ToAbgrInjective | Interop/AccentPolicyHelper.cs:71-74 | distinct colours pack to distinct words |
| AccentPolicyHelper.PackChannels | Interop/AccentPolicyHelper.cs:73 | each channel comes back by shift and mask |
| Shell32.Points | Interop/Shell32.cs:92-101 | the reference set of points inside the closed rectangle |
| Shell32.ContainsIsMembership | Interop/Shell32.cs:100-101 | `Contains` holds exactly for points of the closed rectangle |
| Shell32.CornersContained | Interop/Shell32.cs:100-101 | the edges are inclusive: all four corners are inside |
| Shell32.InvertedContainsNothing | Interop/Shell32.cs:100-101 | an inverted rectangle contains no point |
| Shell32.OutsideExcluded | Interop/Shell32.cs:100-101 | a point beyond any edge is outside |
| RelayCommand.Create | RelayCommand.cs:5-7 | a null action is rejected with `ArgumentNullException("execute")`; otherwise both delegates are kept |
| RelayCommand.CanExecute | RelayCommand.cs:11 | the predicate's answer, or true without one |
| RelayCommand.CanExecuteIgnoresParameter | RelayCommand.cs:11 | the parameter never changes the answer |
| RelayCommand.Execute | RelayCommand.cs:13 | runs exactly the stored action once |
| RelayCommand.ExecuteRunsConstructedAction | RelayCommand.cs:5-13 | a command built from an action runs that action whatever the parameter |
| Colors.ParseHexByte | IconProvider.cs:103-113 | a pair reads iff both characters are hexadecimal digits, with value 16 × first + second |
| Colors.ParseFormatHexByte | IconProvider.cs:103-113 | reading the two-digit text of a byte gives the byte back |
| Colors.FromRgb | ThemeManager.cs:23-46 | an opaque colour with the given channels |
| Text.ContainsIgnoreCase | AdapterSettingsShellProcessMonitor.cs:118 | true exactly when the needle matches, ignoring case, at some position |
| Text.TryParseInt32 | Program.cs:50 | a parsed value is always within the 32-bit range |
| Text.TryParseInt32Accepts | Program.cs:50 | white space, an optional `+` or `-`, one or more decimal digits and white space parse to the signed value of the digits when it fits in 32 bits, and fail otherwise |
| Text.TryParseInt32OnlyNumberChars | Program.cs:50 | a text with any character other than number white space, a sign or a decimal digit fails to parse |
| Text.ParseSignedDigitsSpec | Program.cs:50 | an optional sign followed by digits reads as their signed value when it fits in 32 bits |
| Text.ParseFormatNat | Program.cs:50 | a non-negative 32-bit pid's decimal text parses back to it |
| Text.FormatNatRoundTrip | CrashHandler.cs:180 | the decimal text of a number denotes that number |
| Text.Trim | NetworkMonitor.cs:43 | the result is no longer than the text and neither starts nor ends with white space |
| Text.TrimSpec | NetworkMonitor.cs:43 | the result is a slice of the text with only white space before and after it, so trimming removes white space at the ends and nothing else |
| Text.SplitJoin | CrashHandler.cs:180 | splitting at a separator undoes joining with it, for parts that lack the separator |

## Left out

- Threads, message loops, locks and `ManualResetEventSlim`: each monitor phase is driven step by step. The interleaving of two launches is not modelled. Neither is the phase 1 thread disposing its ready event in `finally` while the launching thread may still be about to wait on it.
- AdapterSettingsShellProcessMonitor.ProcessMonitor.Deliver: events are delivered only while the hook is held. An event already queued when the hook is released is not modelled.
- AdapterSettingsShellProcessMonitor.OpenAndMonitor: a failure of `Process.GetProcessesByName` or of `Process.Start`, swallowed by the `catch`, is not modelled. The launch is always recorded.
- AdapterSettingsShellProcessMonitor.WindowDestroyMonitor.Start: the model records two kill requests for a process that is still running at both clean-ups. Whether the second `Kill` finds the process already exiting is an operating-system answer given as input.
- The WMI query is a map from pid to command line. Several rows for one pid, and the query's own failure modes, are folded into "no command line".
- Colors.ParseHexByte: `Convert.ToByte(pair, 16)` is modelled as two hexadecimal digits, which is weaker than .NET. .NET also skips one leading `+`, so a pair such as `+F` reads as 15. A text such as `#+F+F+F` is therefore a valid colour (opaque, each channel 15) in IconProvider.cs:100-105, SettingsFlyout.xaml.cs:248-250, SettingsWindow.xaml.cs:220-222 and TrayIconRenderer.cs:238-240. The model gives White, a failed parse or the theme fallback for it. The optional `0x` prefix cannot fit in a two-character pair together with a digit.
- Text.EqualsIgnoreCase: ordinal ignore-case comparison folds ASCII letters only.
- `char.IsWhiteSpace` is the Unicode White_Space list. Culture-specific forms of `int.TryParse` are not modelled.
- Text.TryParseInt32OnlyNumberChars: `int.TryParse` is modelled as white space, an optional sign and decimal digits. .NET also accepts trailing `'\0'` characters (`"5\0"` parses as 5), which the model rejects; a process command-line argument cannot contain a NUL, so Program.cs:50 never sees one.
- NetworkIconStates.ParseFlyoutStyle: `Enum.TryParse` is an exact match on member names. Numeric strings and case variants are not modelled.
- The settings windows assume every style value has a combo box item whose tag is its name. `PositionWindow`, `ApplyTheme` and the brushes are WPF layout and rendering and are not modelled.
- Program.ArgsOf: the child's command line is split at spaces, which matches the watcher's argument string. General Windows command-line quoting is not modelled.
- CrashHandler.RunWatcher: the loop ends only on an event that stops it. A run whose events all relaunch reports `StillWatching` and no exit code. `Thread.Sleep`, `GC.Collect` and the message box are not modelled.
- CrashHandler.LaunchWatcherDetached and AppSettings `Load` / `Save` / `OpenSettingsFile`: process spawning and file and JSON I/O. Saves are modelled as a log of saved values in the settings windows.
- Rendering: DPI, icon size, font selection, bitmap drawing and `GetDpiScale` are not modelled. Neither is floating-point arithmetic.
- WindowExtensions.WindowManager.Cloak, EnableRoundedCorners and SetDarkMode: the DWM call is assumed to succeed. The swallowed exception path records no write.
- ShellFlyout.cs (COM) and App.xaml.cs, the application's wiring, are not part of this model. The declaration-only interop files are used only for their constants.
- TrayIconRenderer.Renderer, SettingsFlyout.Flyout and SettingsWindow.Window: in the source they share one `AppSettings` object, and the renderer reads `settings.Icon` on every `GetColor` (TrayIconRenderer.cs:201-208). The model gives the renderer its settings as a value fixed at construction, and each settings window keeps its own value. So a colour saved in a settings window never reaches the renderer in the model, and the aliasing of that shared reference is not modelled. Each window's save log and the renderer's `GetColor` are modelled separately.
- ShellNotifyIcon.NotifyIcon.Update: a refused re-add after a refused modify is not retried. This matches the source, which recurses once.

## Findings

| source | as written | input that shows it | evidently intended | confidence | as-written member | corrected member |
|---|---|---|---|---|---|---|
| Interop/ShellNotifyIcon.cs:269-279 | `Dispose` sets `_disposed` before `IsVisible = false`. `Update` then returns at its first line (98-100) and `NIM_DELETE` is never sent, so the icon stays in the tray until the shell notices its window is gone | a visible icon that the shell has accepted (`NIM_ADD` succeeded), then `Dispose()` | hide the icon (sending `NIM_DELETE`) before marking the object disposed | not executed (medium) | ShellNotifyIcon.NotifyIcon.Dispose | ShellNotifyIcon.NotifyIcon.DisposeRemovingIcon |
