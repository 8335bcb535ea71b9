# powerkit / powerdwarf power-management core in Dafny

This project models the decision logic of the powerdwarf desktop power manager:

- **`lib/powerkit.cpp`**: the newer power-management service.
  - It keeps a registry of upower devices and rescans it when devices come and go.
  - It turns repeated readings of the lid and power-source flags into edge signals.
  - It picks the first available backend (logind, then ConsoleKit, then upower for suspend and hibernate) to answer capability queries and carry out actions.
  - It averages battery levels and sums battery times.
  - It keeps two inhibitor ledgers (screen saver and power management) keyed by cookie, and lists them in cookie order.
- **`lib/power.cpp`**: the older manager the tray actually uses.
  - Same registry and edge tracker.
  - A battery level that *sums* percentages.
  - Sleep, hibernate and shutdown that prefer logind and fall back to upower or ConsoleKit.
- **`app/systray.cpp`**: the tray's policy.
  - The idle scheduler that auto-suspends after a timeout unless inhibited.
  - The lid-close action, vetoed while an external monitor is connected (when so configured).
  - The monitor map.
  - The critical-battery action.
  - The battery icon bands.
  - The conversion of X idle time to minutes.

Conventions of the model:

- Everything the D-Bus services answer is an input: service presence, properties, call replies and the device enumeration. These are `UPowerState`, `LogindState`, `Services`, `found` and `probe`.
- Each property is read once per call.
- A signal the source emits, or an action it asks for, is an element appended to an output sequence: `emitted` in the managers, `out` in the tray.
- Stateful objects (`PowerKit`, `Power`, `SysTray`) are classes whose methods update their fields. Their loops over the device map are `while` loops with invariants.
- The `PowerKit` and `Power` methods are proved against the order-independent sums of `Devices`. The listing of an inhibitor ledger is proved against the ascending-cookie listing of `Ledger`.

Modules:

| file | module | contents |
|---|---|---|
| common.dfy | Common | `Option`, `StartsWith`, the edge detector and its multi-reading trace |
| bus.dfy | Bus | upower/logind property reads |
| ledger.dfy | Ledger | `quint32` cookies, ascending-key listing of an inhibitor map |
| devices.dfy | Devices | device records, the rescan rule, battery sums |
| selector.dfy | Selector | backend fallback chains of powerkit's `Can*` and action methods |
| powerkit.dfy | PowerKit | the `PowerKit` class |
| power.dfy | Power | the older `Power` class and its command selection |
| systray.dfy | Tray | the `SysTray` class and its pure policy functions |

## Model

| member | source | states |
|---|---|---|
| Common.EdgeOf | lib/powerkit.cpp:336-342 | a rising edge exactly when the flag goes false to true, a falling edge exactly when it goes true to false, none when it is unchanged |
| Common.EdgeTraceAlternates | lib/powerkit.cpp:334-355 | over any run of readings, the edges reported alternate; the first leaves the starting state, the last enters the final reading, and a final reading that differs from the start yields at least one edge |
| Common.RepeatedReadingIsSilent | lib/powerkit.cpp:336-343 | reading the same value twice reports no more edges than reading it once |
| Bus.OnBattery | lib/powerkit.cpp:566-570 | true only with a valid upower, then upower's OnBattery property; the same read as Power::onBattery at lib/power.cpp:57-61 |
| Bus.LidIsClosed | lib/powerkit.cpp:560-564 | true only with a valid upower, then upower's LidIsClosed property; the same read as Power::lidIsClosed at lib/power.cpp:51-55 |
| Bus.LidIsPresent | lib/powerkit.cpp:554-558 | true only with a valid upower, then upower's LidIsPresent property; the same read as Power::lidIsPresent at lib/power.cpp:45-49 |
| Bus.IsDocked | lib/powerkit.cpp:547-552 | logind's Docked when logind is valid, else upower's IsDocked when upower is valid, else false; the same choice as Power::isDocked at lib/power.cpp:38-43 |
| Ledger.Values | lib/powerkit.cpp:666-675 | the loop over the map lists exactly the values in ascending cookie order |
| Ledger.ValuesAt | lib/powerkit.cpp:670-673 | one value per key, in the order of the keys given |
| Ledger.SortedKeysSorted | lib/powerkit.cpp:668-673 | the iteration order visits every cookie once, in strictly ascending order |
| Ledger.ListingIsOrdered | lib/powerkit.cpp:666-686 | a listing has one entry per inhibitor, and entry i is the application of the i-th smallest cookie |
| Ledger.SortedKeysAppend | lib/powerkit.cpp:668-673 | a cookie above all present ones is visited last |
| Ledger.NewestCookieListedLast | lib/powerkit.cpp:388-393 | registering an application under a cookie larger than all held ones appends it to the end of the listing, the rest unchanged |
| Devices.Scanned | lib/powerkit.cpp:286-301 | after a rescan the registry tracks the old paths plus every enumerated path; old records are kept; new ones are freshly probed |
| Devices.ScanIsIdempotent | lib/powerkit.cpp:289-292 | rescanning with the same enumeration changes nothing more |
| Devices.RescanGivesFreshRecord | lib/powerkit.cpp:321-332 | a device taken out and enumerated again gets a new record, not the removed one |
| Devices.SumRealRemove | lib/powerkit.cpp:576-586 | the percentage total does not depend on the order the map is walked |
| Devices.SumIntRemove | lib/powerkit.cpp:615-623 | the count and time totals do not depend on the order the map is walked |
| Devices.BatteryCountBounds | lib/powerkit.cpp:578-588 | the battery count lies between 0 and the number of devices, and is positive exactly when some device passes the battery filter |
| Devices.PercentSumBounds | lib/powerkit.cpp:576-588 | with percentages in 0..100, the total lies between 0 and 100 times the battery count |
| Devices.MeanIsAPercentage | lib/powerkit.cpp:572-589 | with at least one battery, the mean level is within 0..100 |
| Devices.UncountedDeviceIsIgnored | lib/powerkit.cpp:580-586 | a device that is not a present battery with a native path changes neither the level, the count nor the times |
| Devices.TwoBatteries | lib/powerkit.cpp:572-589 | batteries at 80 and 40 give a total of 120 over 2 batteries, a mean of 60 |
| Selector.FirstAvailable | lib/powerkit.cpp:439-489 | no backend exactly when no backend of the chain is present; otherwise a present backend of the chain |
| Selector.ArgText | lib/powerkit.cpp:107 | a string argument reads as itself; a boolean never reads as the affirmative string |
| Selector.ArgTruth | lib/powerkit.cpp:108 | a boolean argument reads as its value; a string reads as false when, lower-cased, it is empty, "0" or "false", and as true whenever it is non-empty and does not start with 0, f or F |
| Selector.AvailableAction | lib/powerkit.cpp:55-111 | false for an absent service; a first argument reading as "yes" means available; otherwise available exactly when the argument's boolean reading is true and the reply carries no error |
| Selector.RefusalReadsAsAvailable | lib/powerkit.cpp:107-110 | with logind present, a "no", "na" or "challenge" answer without error makes CanSuspend true |
| Selector.IntendedAvailable | lib/powerkit.cpp:105-110 | a string answer counts exactly when it is "yes"; a boolean answer and the "yes" answer are read as availableAction reads them |
| Selector.CanRestart | lib/powerkit.cpp:439-447 | the answer of the first present backend of logind, ConsoleKit; false with neither |
| Selector.CanPowerOff | lib/powerkit.cpp:449-457 | the answer of the first present backend of logind, ConsoleKit; false with neither |
| Selector.CanSuspend | lib/powerkit.cpp:459-469 | the answer of the first present backend of logind, ConsoleKit, upower (upower asked SuspendAllowed); false with none |
| Selector.CanHibernate | lib/powerkit.cpp:471-481 | the answer of the first present backend of logind, ConsoleKit, upower (upower asked HibernateAllowed); false with none |
| Selector.CanHybridSleep | lib/powerkit.cpp:483-491 | the answer of the first present backend of logind, ConsoleKit; false with neither |
| Selector.FallbackOrder | lib/powerkit.cpp:439-491 | with logind present every capability is logind's answer; without logind but with ConsoleKit every capability is ConsoleKit's answer; with neither, suspend and hibernate are upower's SuspendAllowed and HibernateAllowed answers; with no backend every capability is false |
| Selector.ExecuteAction | lib/powerkit.cpp:113-164 | an absent service fails with the connection message and sends nothing; a present one receives the requested action, with the interactive flag except on upower |
| Selector.Restart | lib/powerkit.cpp:493-501 | the action goes to the first present backend of logind, ConsoleKit, otherwise "no backend" |
| Selector.PowerOff | lib/powerkit.cpp:503-511 | the action goes to the first present backend of logind, ConsoleKit, otherwise "no backend" |
| Selector.Suspend | lib/powerkit.cpp:513-523 | the action goes to the first present backend of logind, ConsoleKit, upower, otherwise "no backend" |
| Selector.Hibernate | lib/powerkit.cpp:525-535 | the action goes to the first present backend of logind, ConsoleKit, upower, otherwise "no backend" |
| Selector.HybridSleep | lib/powerkit.cpp:537-545 | the action goes to the first present backend of logind, ConsoleKit, otherwise "no backend" |
| Selector.SuccessMeansSent | lib/powerkit.cpp:113-164 | an action that reports no error was sent to some backend |
| Selector.UPowerOnlyAsLastResort | lib/powerkit.cpp:493-545 | restart, power-off and hybrid sleep never reach upower; suspend and hibernate reach it only without logind and ConsoleKit |
| PowerKit.RepeatedChangeIsQuiet | lib/powerkit.cpp:334-355 | a change report emits LidClosed/LidOpened/SwitchedToBattery/SwitchedToAC exactly on the corresponding flag change, always ends with UpdatedDevices, and an unchanged reading emits UpdatedDevices only |
| PowerKit.PowerKit.constructor | lib/powerkit.cpp:19-31 | empty ledgers, both flags false; the registry is the first scan's (and UpdatedDevices emitted) when the bus is connected, empty otherwise |
| PowerKit.PowerKit.Scan | lib/powerkit.cpp:286-301 | the registry becomes the rescan of the old one, then UpdatedDevices is emitted |
| PowerKit.PowerKit.DeviceAdded | lib/powerkit.cpp:308-314 | ignored without upower or for a job path; otherwise DeviceWasAdded, then a rescan |
| PowerKit.PowerKit.DeviceRemoved | lib/powerkit.cpp:321-332 | ignored without upower or for a job path; a tracked path the first enumeration still lists is kept with no signal; a tracked path it no longer lists is dropped, DeviceWasRemoved, then a rescan with the second enumeration; an untracked path only rescans |
| PowerKit.PowerKit.ClearDevices | lib/powerkit.cpp:378-386 | the registry is empty |
| PowerKit.PowerKit.DeviceChanged | lib/powerkit.cpp:334-355 | stored flags become the current readings; signals are the lid edge, the power edge, then UpdatedDevices |
| PowerKit.PowerKit.HandleDeviceChanged | lib/powerkit.cpp:357-361 | an empty device path changes nothing; otherwise as DeviceChanged |
| PowerKit.PowerKit.HandleResume | lib/powerkit.cpp:363-366 | emits PrepareForSuspend(false) |
| PowerKit.PowerKit.HandleSuspend | lib/powerkit.cpp:368-371 | emits PrepareForSuspend(true) |
| PowerKit.PowerKit.HandlePrepareForSuspend | lib/powerkit.cpp:373-376 | re-emits PrepareForSuspend with the same flag |
| PowerKit.PowerKit.UpdateConfig | lib/powerkit.cpp:661-664 | emits Update (ConfigUpdated) and changes nothing else |
| PowerKit.PowerKit.HandleNewInhibitScreenSaver | lib/powerkit.cpp:388-393 | the cookie maps to the application (replacing any previous one), UpdatedInhibitors emitted |
| PowerKit.PowerKit.HandleNewInhibitPowerManagement | lib/powerkit.cpp:395-400 | the cookie maps to the application (replacing any previous one), UpdatedInhibitors emitted |
| PowerKit.PowerKit.HandleDelInhibitScreenSaver | lib/powerkit.cpp:402-408 | a held cookie is removed and UpdatedInhibitors emitted; an unknown cookie changes and emits nothing |
| PowerKit.PowerKit.HandleDelInhibitPowerManagement | lib/powerkit.cpp:410-416 | a held cookie is removed and UpdatedInhibitors emitted; an unknown cookie changes and emits nothing |
| PowerKit.PowerKit.ScreenSaverInhibitors | lib/powerkit.cpp:666-675 | the applications in ascending cookie order, one per inhibitor |
| PowerKit.PowerKit.PowerManagementInhibitors | lib/powerkit.cpp:677-686 | the applications in ascending cookie order, one per inhibitor |
| PowerKit.PowerKit.BatteryLeft | lib/powerkit.cpp:572-589 | the mean percentage of the counted batteries; no number (the source's 0/0) without any |
| PowerKit.PowerKit.HasBattery | lib/powerkit.cpp:601-609 | true exactly when some tracked device is a battery (no presence or path filter) |
| PowerKit.PowerKit.TimeToEmpty | lib/powerkit.cpp:611-624 | the sum of time-to-empty over the counted batteries |
| PowerKit.PowerKit.TimeToFull | lib/powerkit.cpp:626-639 | the sum of time-to-full over the counted batteries |
| Power.CanHibernate | lib/power.cpp:63-68 | logind's answer when logind is valid, else upower's CanHibernate when valid, else false |
| Power.CanSuspend | lib/power.cpp:70-75 | logind's answer when logind is valid, else upower's CanSuspend when valid, else false |
| Power.Sleep | lib/power.cpp:95-104 | a suspend call exactly when suspend is possible: logind's when logind is valid, else upower's |
| Power.Hibernate | lib/power.cpp:111-120 | a hibernate call exactly when hibernation is possible: logind's when logind is valid, else upower's |
| Power.Shutdown | lib/power.cpp:128-139 | logind's power-off when logind is valid and allows it, else ConsoleKit's when upower is valid and ConsoleKit allows it, else nothing |
| Power.LogindFirst | lib/power.cpp:95-120 | with logind valid, upower is never called; with neither service nothing is called |
| Power.ChangeSignalsAreEdges | lib/power.cpp:247-268 | closedLid/openedLid/switchedToBattery/switchedToAC exactly on a change of the stored flag; the last signal is always updatedDevices; a repeated reading emits only updatedDevices |
| Power.Power.constructor | lib/power.cpp:19-36 | both flags false; the registry is the first scan's (and updatedDevices emitted) when the bus is connected, empty otherwise |
| Power.Power.ScanDevices | lib/power.cpp:206-221 | the registry becomes the rescan of the old one, then updatedDevices |
| Power.Power.DeviceAdded | lib/power.cpp:224-230 | ignored without upower or for a job path; otherwise a rescan |
| Power.Power.DeviceRemoved | lib/power.cpp:233-244 | ignored without upower or for a job path; a tracked path the first enumeration still lists is kept; a tracked path it no longer lists is dropped before the rescan with the second enumeration; an untracked path only rescans |
| Power.Power.DeviceChanged | lib/power.cpp:247-268 | stored flags become the current readings; signals are the lid edge, the power edge, then updatedDevices |
| Power.Power.HandleDeviceChanged | lib/power.cpp:271-275 | an empty path changes nothing; otherwise as DeviceChanged |
| Power.Power.BatteryLeft | lib/power.cpp:78-92 | the plain sum of the counted batteries' percentages, 0 without any |
| Power.NoBatteryNoPercent | lib/power.cpp:78-92 | without a counted battery the summed level is 0 |
| Power.TotalExceedsAPercentage | lib/power.cpp:78-92 | two batteries at 80 and 40 make the level 120, beyond 100 |
| Tray.LidCommand | app/systray.cpp:248-262 | lock, sleep, hibernate and shutdown requests for the lock, sleep, hibernate and shutdown lid actions respectively, and nothing for none |
| Tray.SuspendCommand | app/systray.cpp:569-580 | sleep, hibernate and shutdown requests for the sleep, hibernate and shutdown actions respectively, nothing for none; never a lock |
| Tray.CriticalCommand | app/systray.cpp:420-428 | hibernate exactly for the hibernate action, shutdown exactly for the shutdown action, nothing for none |
| Tray.InhibitedNeverFires | app/systray.cpp:561-565 | while a power-management inhibitor is held, ticks never fire and the counter grows by one per tick |
| Tray.CountsBelowTimeout | app/systray.cpp:561-565 | before the counter reaches the timeout, ticks never fire whatever the idle time |
| Tray.FiresOnceAfterTimeout | app/systray.cpp:561-567 | from a reset counter with the user idle and nothing inhibiting, the action fires exactly once, on tick timeout+1, and the counter is 0 afterwards |
| Tray.RunSplit | app/systray.cpp:537-582 | a run of ticks can be split: the counter carries over and the firings add up |
| Tray.IdleMinutes | app/systray.cpp:598-600 | below 597 hours of idle time, where the `int` product `hours*1000*60*60` still fits, the idle minutes lie in 0..59 |
| Tray.IdleMinutesWithinHour | app/systray.cpp:598-600 | below 597 hours, the idle minutes are the total idle minutes modulo 60 |
| Tray.IdleOverflowsAt597Hours | app/systray.cpp:599 | 596 hours and 1 minute read as 1 minute; at 597 hours the product wraps and the reading is 71582 |
| Tray.TotalIdleMinutes | app/systray.cpp:598-600 | the whole minutes contained in the idle time |
| Tray.IdleWrapsAfterAnHour | app/systray.cpp:598-600 | 61 minutes of idle time read as 1 minute |
| Tray.LongTimeoutNeverFires | app/systray.cpp:561-564 | below 597 hours of idle time, a timeout of 60 minutes or more can never fire on the idle minutes |
| Tray.TotalIdleReachesTimeout | app/systray.cpp:561-564 | on total idle minutes a timeout is reached once the user has been idle that long, and stays reached |
| Tray.CriticalRepeats | app/systray.cpp:224-226 | n checks that each find the battery critical dispatch the critical action n times (no debounce) |
| Tray.CriticalThreshold | app/systray.cpp:224-226 | exactly the critical value triggers; one above does not; neither does an empty reading or running on AC |
| Tray.BatteryIcon | app/systray.cpp:443-461 | the AC icon exactly for 0; otherwise a battery-variant icon exactly when on battery; the critical band up to 10, low up to 25, good up to 75, full up to 90; above 90 full on battery and charged on AC |
| Tray.IconLevelIsMonotone | app/systray.cpp:450-460 | a higher level never shows a lower icon band |
| Tray.CriticalShowsCritIcon | app/systray.cpp:224-226 | with a critical value of at most 10, a critical reading on battery shows the critical icon |
| Tray.SysTray.constructor | app/systray.cpp:16-34 | zero counter, no monitors, empty ledgers, no output |
| Tray.SysTray.Timeout | app/systray.cpp:537-582 | the timeout and action of the current power source; when the guard holds the action is dispatched and the counter reset, otherwise the counter grows by one; an inhibitor always prevents the dispatch |
| Tray.SysTray.ResetTimer | app/systray.cpp:604-607 | the counter is 0 |
| Tray.SysTray.HandleHasInhibitChanged | app/systray.cpp:411-414 | a new inhibitor resets the counter; a release leaves it |
| Tray.SysTray.HandleClosedLid | app/systray.cpp:233-263 | nothing when the veto is enabled and an external monitor is connected; otherwise the lid action of the current power source |
| Tray.SysTray.HandleDisplay | app/systray.cpp:610-616 | the output's state is recorded; updatedMonitors is emitted exactly when it differs from the previous state (false when unknown) |
| Tray.SysTray.HandleFoundDisplays | app/systray.cpp:619-623 | the monitor map is replaced |
| Tray.SysTray.SetInternalMonitor | app/systray.cpp:626-630 | the internal output is the one given |
| Tray.SysTray.InternalMonitorIsConnected | app/systray.cpp:633-644 | the stored state of the internal output, false when it is unknown |
| Tray.SysTray.ExternalMonitorIsConnected | app/systray.cpp:647-659 | true exactly when some connected output is neither internal nor virtual |
| Tray.SysTray.HandleNewInhibitScreenSaver | app/systray.cpp:662-667 | the cookie maps to the application |
| Tray.SysTray.HandleNewInhibitPowerManagement | app/systray.cpp:669-674 | the cookie maps to the application |
| Tray.SysTray.HandleDelInhibitScreenSaver | app/systray.cpp:676-682 | the cookie is no longer held, nothing else changes |
| Tray.SysTray.HandleDelInhibitPowerManagement | app/systray.cpp:684-690 | the cookie is no longer held, nothing else changes |
| Tray.SysTray.HandleCritical | app/systray.cpp:417-429 | the configured critical action is dispatched |
| Tray.SysTray.CheckDevices | app/systray.cpp:223-226 | the critical action is dispatched exactly when the level is positive, at most the critical value, and the machine is on battery |

The tray's manager is the older `Power` class (app/systray.cpp:64). A tray dispatch of sleep, hibernate or shutdown therefore stands for `Power.Sleep`, `Power.Hibernate` or `Power.Shutdown`, and the level the tray checks is `Power.Power.BatteryLeft`.

## Left out

- D-Bus connection management (`setup`, `check`, `availableService`, `setupDBus`, `checkUPower`): the presence and validity of each service is an input. The first scan that `setup` and `setupDBus` run is part of the constructors, taken when their `connected` input holds; the signal subscriptions and interface objects are not modelled.
- PowerKit.PowerKit.constructor, Power.Power.constructor: with no system bus at construction the source never creates its upower and logind interfaces, which stay null pointers, so any later query (`onBattery`, `lidIsClosed`, the `Can*` methods) or device slot dereferences null and crashes; the tray reaches that at its first `timeout` tick. The model's unconnected object does not capture the crash: its queries and device slots keep answering from their `up`, `logind` and `Services` inputs as if the interfaces existed.
- `find` and `UPower::getDevices` (parsing the introspection XML into device paths): the enumeration is the input `found` (in `DeviceRemoved` the membership test's enumeration is a second input, `listed`), and a new `Device`'s record is the input `probe`.
- `Device::update`, `UpdateDevices`, `UpdateBattery`: they refresh records from the bus; the model reads records as they are.
- `LockScreen` / `lockScreen` (starting a screen-locker process): I/O with no decision in it.
- The tray's UI: showing and hiding the icon, tooltips, notifications, the theme check, settings loading, service registration, the screen-saver process.
- Timers: the tray's scheduler tick and powerkit's periodic `check` are calls of `Timeout` and of nothing, respectively.
- Header constants:
  - The text of powerkit's "no backend" and "failed connection" messages is a stand-in.
  - The virtual-output prefix is a constructor parameter of `SysTray`.
  - The upower path is `/org/freedesktop/UPower`.
- Selector.AvailableAction: a reply is assumed to carry a first argument; the source reads `arguments().first()` without checking that the list is non-empty. The lower-casing of the string reading covers ASCII letters only.
- Selector.ExecuteAction: the reply of a successful bus call is an input function (`errorOf`), so what the backend answers is not modelled.
- PowerKit.PowerKit.TimeToEmpty, PowerKit.PowerKit.TimeToFull: `qlonglong` is an unbounded integer; the 64-bit wrap-around of the sum is not modelled.
- Tray.IdleMinutes: the idle time is a natural number. X reports it unsigned and the source copies it into a signed `long`; the model takes `long` to be 64 bits, where the copy stays non-negative. With a 32-bit `long` the reading turns negative from 2^31 ms (about 596.5 hours), and the 0..59 bound, `Tray.IdleMinutesWithinHour`, `Tray.LongTimeoutNeverFires` and the value 71582 of `Tray.IdleOverflowsAt597Hours` would not hold as stated. Signed `int` overflow is undefined in C; the model assumes the usual two's-complement wrap-around for the conversion of the hours, for each factor of `hours*1000*60*60` and for the returned minutes. The 0..59 bound and `Tray.LongTimeoutNeverFires` are stated only below 597 hours of idle time, where that product fits in an `int`.
- Each D-Bus property is read once per call; the source reads some of them twice (for instance `LidIsClosed` in `deviceChanged`), and a change between the two reads is not modelled.
- Tray.SysTray.Timeout: the power-management inhibit state (`pm->HasInhibit()`) and xIdle's minutes are inputs.
- The `reason` argument of every inhibitor handler is unused by the source and dropped.
- PowerKit.PowerKit.BatteryLeft: with no counted battery the source divides 0 by 0 and returns NaN; the model returns `None`. The behaviour of NaN in the tray's comparisons is not modelled.
- The critical check has no debounce: every qualifying `checkDevices` call dispatches the critical action again (`Tray.CriticalRepeats`).
- The tray's `drawBattery` returns early, without setting an icon, only when the tray is configured hidden but still visible (it hides it then); otherwise it shows the tray if configured and available, and sets the icon even while the tray stays hidden. The model gives the icon choice (`Tray.BatteryIcon`) without this visibility handling.
- Battery percentages are C++ `double`s in the source and `real`s in the model: rounding is not modelled, and neither is the dependence of a `double` sum on the order the device map is walked (`Devices.SumRealRemove` holds for reals, not for floating-point addition).

## Findings

| source | as written | input that shows it | evidently intended | confidence | as-written member | corrected member |
|---|---|---|---|---|---|---|
| app/systray.cpp:598-600 | xIdle subtracts the whole hours and returns only the minutes within the current hour | 61 minutes idle reads as 1; with a 60-minute auto-suspend timeout the guard `xIdle() >= autoSuspend` does not hold at any idle time below 597 hours, where the `int` product `hours*1000*60*60` overflows and the reading jumps to 71582 | the total idle time in minutes, so that any configured timeout can be reached | not executed; high | Tray.IdleMinutes, Tray.LongTimeoutNeverFires, Tray.IdleOverflowsAt597Hours | Tray.TotalIdleMinutes, Tray.TotalIdleReachesTimeout |
| lib/power.cpp:78-92 | batteryLeft adds up the percentages of all batteries | two batteries at 80 and 40 percent give 120 | the mean level, as the newer manager computes it | not executed; medium | Power.Power.BatteryLeft, Power.TotalExceedsAPercentage | PowerKit.PowerKit.BatteryLeft, Devices.MeanIsAPercentage |
| lib/powerkit.cpp:107-110 | availableAction falls back to the boolean reading of the first argument, and a string other than empty, "0" or "false" reads as true | logind answers CanSuspend with "no" (or "na", "challenge") and no error: CanSuspend reports true | a string answer counts only when it is "yes"; the boolean reading serves upower's boolean answers | not executed; high | Selector.AvailableAction, Selector.RefusalReadsAsAvailable | Selector.IntendedAvailable |
