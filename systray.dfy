/** The tray's power policy of app/systray.cpp: the idle scheduler, the lid-close
    dispatch with its external-monitor veto, the monitor map, the critical-battery
    check, the inhibitor ledgers, the battery icon bands and the idle-minutes
    arithmetic. What the tray asks of the power manager (lock, sleep, hibernate,
    shut down) and the signals it emits are appended to `out`. */
module Tray {
  import opened Common
  import Ledger

  /** Configured reactions; every configuration value outside the named ones acts like the `None` case. */
  datatype LidAction = LidNone | LidLock | LidSleep | LidHibernate | LidShutdown
  datatype SuspendAction = SuspendNone | SuspendSleep | SuspendHibernate | SuspendShutdown
  datatype CriticalAction = CriticalNone | CriticalHibernate | CriticalShutdown

  /** A request to the power manager. */
  datatype Command = Lock | Sleep | Hibernate | Shutdown

  datatype Output = Dispatch(command: Command) | UpdatedMonitors

  datatype Settings = Settings(
    autoSuspendBattery: int,
    autoSuspendAC: int,
    autoSuspendBatteryAction: SuspendAction,
    autoSuspendACAction: SuspendAction,
    lidActionBattery: LidAction,
    lidActionAC: LidAction,
    criticalAction: CriticalAction,
    critBatteryValue: int,
    disableLidOnExternalMonitors: bool)

  function LidCommand(a: LidAction): (c: Option<Command>)
    ensures c == Some(Lock) <==> a == LidLock
    ensures c == Some(Sleep) <==> a == LidSleep
    ensures c == Some(Hibernate) <==> a == LidHibernate
    ensures c == Some(Shutdown) <==> a == LidShutdown
    ensures c.None? <==> a == LidNone
  {
    match a
    case LidLock => Some(Lock)
    case LidSleep => Some(Sleep)
    case LidHibernate => Some(Hibernate)
    case LidShutdown => Some(Shutdown)
    case LidNone => None
  }

  function SuspendCommand(a: SuspendAction): (c: Option<Command>)
    ensures c == Some(Sleep) <==> a == SuspendSleep
    ensures c == Some(Hibernate) <==> a == SuspendHibernate
    ensures c == Some(Shutdown) <==> a == SuspendShutdown
    ensures c.None? <==> a == SuspendNone
    ensures c != Some(Lock)
  {
    match a
    case SuspendSleep => Some(Sleep)
    case SuspendHibernate => Some(Hibernate)
    case SuspendShutdown => Some(Shutdown)
    case SuspendNone => None
  }

  function CriticalCommand(a: CriticalAction): (c: Option<Command>)
    ensures c == Some(Hibernate) <==> a == CriticalHibernate
    ensures c == Some(Shutdown) <==> a == CriticalShutdown
    ensures c.None? <==> a == CriticalNone
    ensures c.Some? ==> c.value == Hibernate || c.value == Shutdown
  {
    match a
    case CriticalHibernate => Some(Hibernate)
    case CriticalShutdown => Some(Shutdown)
    case CriticalNone => None
  }

  function Dispatched(c: Option<Command>): seq<Output>
  {
    match c
    case None => []
    case Some(x) => [Dispatch(x)]
  }

  // ---------------------------------------------------------------------------
  // Idle scheduler

  /** The timeout and action that apply on the current power source. */
  function AutoSuspend(s: Settings, onBattery: bool): (int, SuspendAction)
  {
    if onBattery then (s.autoSuspendBattery, s.autoSuspendBatteryAction)
    else (s.autoSuspendAC, s.autoSuspendACAction)
  }

  /** The guard of timeout: a positive timeout, reached both by the tick counter and
      by the user's idle minutes, with no power-management inhibitor. */
  predicate Fires(limit: int, timeouts: int, idle: int, inhibited: bool)
  {
    limit > 0 && timeouts >= limit && idle >= limit && !inhibited
  }

  /** One tick's observations. */
  datatype Tick = Tick(idle: int, inhibited: bool)

  /** Counter and number of firings after a run of ticks with a fixed timeout. */
  datatype RunResult = RunResult(timeouts: int, fired: nat)

  function Run(limit: int, timeouts: int, ticks: seq<Tick>): RunResult
    decreases |ticks|
  {
    if ticks == [] then RunResult(timeouts, 0)
    else if Fires(limit, timeouts, ticks[0].idle, ticks[0].inhibited) then
      var r := Run(limit, 0, ticks[1..]);
      RunResult(r.timeouts, r.fired + 1)
    else Run(limit, timeouts + 1, ticks[1..])
  }

  /** While a power-management inhibitor is held, no tick fires and every tick counts. */
  lemma {:induction false} InhibitedNeverFires(limit: int, timeouts: int, ticks: seq<Tick>)
    requires forall i :: 0 <= i < |ticks| ==> ticks[i].inhibited
    ensures Run(limit, timeouts, ticks) == RunResult(timeouts + |ticks|, 0)
    decreases |ticks|
  {
    if ticks != [] {
      InhibitedNeverFires(limit, timeouts + 1, ticks[1..]);
    }
  }

  /** Before the counter reaches the timeout, ticks only count, whatever the idle time. */
  lemma {:induction false} CountsBelowTimeout(limit: int, timeouts: int, ticks: seq<Tick>)
    requires timeouts + |ticks| <= limit
    ensures Run(limit, timeouts, ticks) == RunResult(timeouts + |ticks|, 0)
    decreases |ticks|
  {
    if ticks != [] {
      CountsBelowTimeout(limit, timeouts + 1, ticks[1..]);
    }
  }

  /** From a reset counter, with the user idle and nothing inhibiting, the action fires
      exactly once, on tick limit + 1, and the counter is 0 right after. */
  lemma FiresOnceAfterTimeout(limit: int, ticks: seq<Tick>)
    requires limit > 0 && |ticks| == limit + 1
    requires forall i :: 0 <= i < |ticks| ==> ticks[i].idle >= limit && !ticks[i].inhibited
    ensures Run(limit, 0, ticks[..limit]) == RunResult(limit, 0)
    ensures Run(limit, 0, ticks) == RunResult(0, 1)
  {
    CountsBelowTimeout(limit, 0, ticks[..limit]);
    RunSplit(limit, 0, ticks[..limit], ticks[limit..]);
    assert ticks[..limit] + ticks[limit..] == ticks;
    assert ticks[limit..] == [ticks[limit]];
    assert [ticks[limit]][1..] == [];
  }

  /** Running two stretches of ticks one after the other. */
  lemma {:induction false} RunSplit(limit: int, timeouts: int, a: seq<Tick>, b: seq<Tick>)
    ensures var ra := Run(limit, timeouts, a);
      var rb := Run(limit, ra.timeouts, b);
      Run(limit, timeouts, a + b) == RunResult(rb.timeouts, ra.fired + rb.fired)
    decreases |a|
  {
    if a != [] {
      assert (a + b)[0] == a[0];
      assert (a + b)[1..] == a[1..] + b;
      if Fires(limit, timeouts, a[0].idle, a[0].inhibited) {
        RunSplit(limit, 0, a[1..], b);
      } else {
        RunSplit(limit, timeouts + 1, a[1..], b);
      }
    } else {
      assert a + b == b;
    }
  }

  // ---------------------------------------------------------------------------
  // Idle minutes

  /** A 32-bit signed `int` result, wrapped around in two's complement. */
  function Int32(x: int): (r: int)
    ensures -0x8000_0000 <= r < 0x8000_0000
    ensures -0x8000_0000 <= x < 0x8000_0000 ==> r == x
  {
    (x + 0x8000_0000) % 0x1_0000_0000 - 0x8000_0000
  }

  /** C's integer division, which truncates toward zero. */
  function CDiv(a: int, b: int): (q: int)
    requires b > 0
    ensures a >= 0 ==> q == a / b
    ensures a < 0 ==> q == -((-a) / b)
  {
    if a >= 0 then a / b else -((-a) / b)
  }

  /** Idle time from which the `int` product `hours*1000*60*60` no longer fits:
      597 hours, about 24.9 days. */
  const OverflowIdle: nat := 597 * 3600000

  /** xIdle: the X idle time in milliseconds (a `long`) less its whole hours, in whole
      minutes. `hours` is an `int`, and `hours*1000*60*60` is evaluated in `int`,
      factor by factor; the minutes are returned as an `int`. */
  function IdleMinutes(idle: nat): (minutes: int)
    ensures idle < OverflowIdle ==> 0 <= minutes < 60
  {
    var hours := Int32(idle / (1000 * 60 * 60));
    var product := Int32(Int32(Int32(hours * 1000) * 60) * 60);
    Int32(CDiv(idle - product, 1000 * 60))
  }

  /** Below the overflow, the idle minutes are the total idle minutes modulo an hour. */
  lemma IdleMinutesWithinHour(idle: nat)
    requires idle < OverflowIdle
    ensures IdleMinutes(idle) == TotalIdleMinutes(idle) % 60
  {
    var h := idle / 3600000;
    assert h < 597;
    var rem := idle - h * 3600000;
    var m := rem / 60000;
    assert idle == (h * 60 + m) * 60000 + rem % 60000;
    assert idle / 60000 == h * 60 + m;
  }

  /** At 597 hours of idle time the `int` product wraps, and xIdle reads 71582 minutes;
      an hour earlier it still reads within the hour. */
  lemma IdleOverflowsAt597Hours()
    ensures IdleMinutes(596 * 3600000 + 60000) == 1
    ensures IdleMinutes(597 * 3600000) == 71582
  {
    var idle := 597 * 3600000;
    assert idle / 3600000 == 597;
    assert Int32(597 * 1000 * 60 * 60) == -2145767296 by {
      assert (2149200000 + 0x8000_0000) % 0x1_0000_0000 == 1716352;
    }
    assert CDiv(idle - -2145767296, 60000) == 71582 by {
      assert idle - -2145767296 == 4294967296;
      assert 4294967296 / 60000 == 71582;
    }
    var earlier := 596 * 3600000 + 60000;
    assert earlier / 3600000 == 596;
    assert CDiv(earlier - 596 * 3600000, 60000) == 1;
  }

  /** The total idle minutes: what the comparison with the configured timeout needs. */
  function TotalIdleMinutes(idle: nat): (minutes: nat)
    ensures minutes * 60000 <= idle < (minutes + 1) * 60000
  {
    idle / 60000
  }

  /** As written, one hour and one minute of idle time reads as 1 minute. */
  lemma IdleWrapsAfterAnHour()
    ensures IdleMinutes(61 * 60000) == 1
    ensures TotalIdleMinutes(61 * 60000) == 61
  {
    assert (61 * 60000) / 3600000 == 1;
    assert CDiv(61 * 60000 - 3600000, 60000) == 1;
  }

  /** As written, a timeout of an hour or more can never be met by xIdle before the
      overflow at 597 hours of idle time, so such a timeout does not fire. */
  lemma LongTimeoutNeverFires(limit: int, timeouts: int, idle: nat, inhibited: bool)
    requires limit >= 60 && idle < OverflowIdle
    ensures !Fires(limit, timeouts, IdleMinutes(idle), inhibited)
  {
  }

  /** With the total idle minutes, every timeout is reached once the user has been
      idle that many minutes, and stays reached while the idle time grows. */
  lemma TotalIdleReachesTimeout(limit: nat, idle: nat, later: nat)
    requires idle >= limit * 60000 && later >= idle
    ensures TotalIdleMinutes(idle) >= limit
    ensures TotalIdleMinutes(later) >= TotalIdleMinutes(idle)
  {
  }

  // ---------------------------------------------------------------------------
  // Battery level

  /** The critical condition of checkDevices. */
  predicate IsCritical(left: real, critBatteryValue: int, onBattery: bool)
  {
    left > 0.0 && left <= critBatteryValue as real && onBattery
  }

  /** What a run of checkDevices calls dispatches: the critical command once for every
      call that finds the battery critical (there is no debounce state). */
  function CriticalOutputs(s: Settings, checks: seq<(real, bool)>): seq<Output>
  {
    if checks == [] then []
    else
      (if IsCritical(checks[0].0, s.critBatteryValue, checks[0].1)
       then Dispatched(CriticalCommand(s.criticalAction)) else [])
      + CriticalOutputs(s, checks[1..])
  }

  /** Level-triggered: n checks that all find the battery critical dispatch the
      configured critical command n times. */
  lemma {:induction false} CriticalRepeats(s: Settings, checks: seq<(real, bool)>)
    requires s.criticalAction != CriticalNone
    requires forall i :: 0 <= i < |checks| ==> IsCritical(checks[i].0, s.critBatteryValue, checks[i].1)
    ensures |CriticalOutputs(s, checks)| == |checks|
    ensures forall i :: 0 <= i < |checks| ==>
      CriticalOutputs(s, checks)[i] == Dispatch(CriticalCommand(s.criticalAction).value)
    decreases |checks|
  {
    if checks != [] {
      CriticalRepeats(s, checks[1..]);
    }
  }

  /** The threshold is inclusive: exactly the critical value triggers, one more does not,
      and neither does an empty reading or being on AC. */
  lemma CriticalThreshold(crit: int)
    requires crit > 0
    ensures IsCritical(crit as real, crit, true)
    ensures !IsCritical((crit + 1) as real, crit, true)
    ensures !IsCritical(0.0, crit, true)
    ensures !IsCritical(crit as real, crit, false)
  {
  }

  /** Tray icons. */
  datatype Icon =
    | ACIcon
    | BatteryCrit | BatteryCritAC
    | BatteryLow | BatteryLowAC
    | BatteryGood | BatteryGoodAC
    | BatteryFull | BatteryFullAC
    | BatteryCharged

  /** The fill level an icon shows, from 0 (critical) to 4 (charged); -1 for the AC icon. */
  function Level(i: Icon): int
  {
    match i
    case ACIcon => -1
    case BatteryCrit => 0
    case BatteryCritAC => 0
    case BatteryLow => 1
    case BatteryLowAC => 1
    case BatteryGood => 2
    case BatteryGoodAC => 2
    case BatteryFull => 3
    case BatteryFullAC => 3
    case BatteryCharged => 4
  }

  /** The icons drawn while running on battery. */
  predicate BatteryVariant(i: Icon)
  {
    i == BatteryCrit || i == BatteryLow || i == BatteryGood || i == BatteryFull
  }

  /** drawBattery's choice: the AC icon for 0, then bands up to 10, 25, 75, 90 and above,
      each in a battery and an AC variant; above 90 the AC variant is "charged". */
  function BatteryIcon(left: real, onBattery: bool): (i: Icon)
    ensures i == ACIcon <==> left == 0.0
    ensures left != 0.0 ==> BatteryVariant(i) == onBattery
    ensures left != 0.0 && left <= 10.0 ==> Level(i) == 0
    ensures 10.0 < left <= 25.0 ==> Level(i) == 1
    ensures 25.0 < left <= 75.0 ==> Level(i) == 2
    ensures 75.0 < left <= 90.0 ==> Level(i) == 3
    ensures left > 90.0 ==> Level(i) == (if onBattery then 3 else 4)
  {
    if left == 0.0 then ACIcon
    else if left <= 10.0 then (if onBattery then BatteryCrit else BatteryCritAC)
    else if left <= 25.0 then (if onBattery then BatteryLow else BatteryLowAC)
    else if left <= 75.0 then (if onBattery then BatteryGood else BatteryGoodAC)
    else if left <= 90.0 then (if onBattery then BatteryFull else BatteryFullAC)
    else (if onBattery then BatteryFull else BatteryCharged)
  }

  /** A higher battery level never shows a lower icon level. */
  lemma IconLevelIsMonotone(a: real, b: real, onBattery: bool)
    requires a != 0.0 && b != 0.0 && a <= b
    ensures Level(BatteryIcon(a, onBattery)) <= Level(BatteryIcon(b, onBattery))
  {
  }

  /** Every critical reading on battery shows the critical icon when the critical value
      is within the first band. */
  lemma CriticalShowsCritIcon(left: real, crit: int)
    requires 0 < crit <= 10 && IsCritical(left, crit, true)
    ensures BatteryIcon(left, true) == BatteryCrit
  {
  }

  // ---------------------------------------------------------------------------
  // Monitors

  /** The value operator[] reads for a key: the stored one, or false if absent. */
  function Lookup(monitors: map<string, bool>, display: string): bool
  {
    if display in monitors then monitors[display] else false
  }

  /** A connected output that is neither the internal panel nor a virtual output. */
  predicate IsExternal(monitors: map<string, bool>, k: string, internal: string, virtualPrefix: string)
    requires k in monitors
  {
    k != internal && !StartsWith(k, virtualPrefix) && monitors[k]
  }

  predicate ExternalConnected(monitors: map<string, bool>, internal: string, virtualPrefix: string)
  {
    exists k :: k in monitors && IsExternal(monitors, k, internal, virtualPrefix)
  }

  class SysTray {
    const virtualPrefix: string
    var settings: Settings
    var timeouts: int
    var monitors: map<string, bool>
    var internalMonitor: string
    var ssInhibitors: map<Ledger.Cookie, string>
    var pmInhibitors: map<Ledger.Cookie, string>
    var out: seq<Output>

    constructor (settings: Settings, virtualPrefix: string)
      ensures this.settings == settings && this.virtualPrefix == virtualPrefix
      ensures timeouts == 0 && monitors == map[] && internalMonitor == ""
      ensures ssInhibitors == map[] && pmInhibitors == map[] && out == []
    {
      this.virtualPrefix := virtualPrefix;
      this.settings := settings;
      timeouts := 0;
      monitors := map[];
      internalMonitor := "";
      ssInhibitors := map[];
      pmInhibitors := map[];
      out := [];
    }

    /** timeout: one scheduler tick. `idle` is xIdle's minutes and `hasInhibit` the
        power-management service's inhibit state. Either the action of the current
        power source is dispatched and the counter reset, or the counter grows by one. */
    method Timeout(onBattery: bool, idle: int, hasInhibit: bool)
      modifies this`timeouts, this`out
      ensures var (limit, action) := AutoSuspend(settings, onBattery);
        if Fires(limit, old(timeouts), idle, hasInhibit)
        then timeouts == 0 && out == old(out) + Dispatched(SuspendCommand(action))
        else timeouts == old(timeouts) + 1 && out == old(out)
      ensures hasInhibit ==> timeouts == old(timeouts) + 1 && out == old(out)
    {
      var autoSuspend := 0;
      var autoSuspendAction := SuspendNone;
      if onBattery {
        autoSuspend := settings.autoSuspendBattery;
        autoSuspendAction := settings.autoSuspendBatteryAction;
      } else {
        autoSuspend := settings.autoSuspendAC;
        autoSuspendAction := settings.autoSuspendACAction;
      }
      var doSuspend := false;
      if autoSuspend > 0 && timeouts >= autoSuspend && idle >= autoSuspend && !hasInhibit {
        doSuspend := true;
      }
      if !doSuspend {
        timeouts := timeouts + 1;
      } else {
        timeouts := 0;
        match autoSuspendAction {
          case SuspendSleep => out := out + [Dispatch(Sleep)];
          case SuspendHibernate => out := out + [Dispatch(Hibernate)];
          case SuspendShutdown => out := out + [Dispatch(Shutdown)];
          case SuspendNone =>
        }
      }
    }

    method ResetTimer()
      modifies this`timeouts
      ensures timeouts == 0
    {
      timeouts := 0;
    }

    /** A new power-management inhibitor restarts the idle count; a release leaves it. */
    method HandleHasInhibitChanged(hasInhibit: bool)
      modifies this`timeouts
      ensures hasInhibit ==> timeouts == 0
      ensures !hasInhibit ==> timeouts == old(timeouts)
    {
      if hasInhibit { ResetTimer(); }
    }

    /** handleClosedLid: nothing when the external-monitor veto applies; otherwise the
        lid action configured for the current power source. */
    method HandleClosedLid(onBattery: bool)
      modifies this`out
      ensures settings.disableLidOnExternalMonitors && ExternalConnected(monitors, internalMonitor, virtualPrefix)
        ==> out == old(out)
      ensures !(settings.disableLidOnExternalMonitors && ExternalConnected(monitors, internalMonitor, virtualPrefix))
        ==> out == old(out)
               + Dispatched(LidCommand(if onBattery then settings.lidActionBattery else settings.lidActionAC))
    {
      var kind := LidNone;
      if onBattery {
        kind := settings.lidActionBattery;
      } else {
        kind := settings.lidActionAC;
      }
      if settings.disableLidOnExternalMonitors {
        var external := ExternalMonitorIsConnected();
        if external { return; }
      }
      match kind {
        case LidLock => out := out + [Dispatch(Lock)];
        case LidSleep => out := out + [Dispatch(Sleep)];
        case LidHibernate => out := out + [Dispatch(Hibernate)];
        case LidShutdown => out := out + [Dispatch(Shutdown)];
        case LidNone =>
      }
    }

    /** handleDisplay: records the output's state (reading an absent output first
        stores false) and reports updatedMonitors only when the state changed. */
    method HandleDisplay(display: string, connected: bool)
      modifies this`monitors, this`out
      ensures monitors == old(monitors)[display := connected]
      ensures Lookup(old(monitors), display) != connected ==> out == old(out) + [UpdatedMonitors]
      ensures Lookup(old(monitors), display) == connected ==> out == old(out)
    {
      if display !in monitors {
        monitors := monitors[display := false];
      }
      if monitors[display] == connected { return; }
      monitors := monitors[display := connected];
      out := out + [UpdatedMonitors];
    }

    /** handleFoundDisplays: the probe's map replaces the known outputs. */
    method HandleFoundDisplays(displays: map<string, bool>)
      modifies this`monitors
      ensures monitors == displays
    {
      monitors := displays;
    }

    /** setInternalMonitor: `name` is the built-in output the screen probe reports. */
    method SetInternalMonitor(name: string)
      modifies this`internalMonitor
      ensures internalMonitor == name
    {
      internalMonitor := name;
    }

    /** The stored state of the internal output, false when it is not known. */
    method InternalMonitorIsConnected() returns (r: bool)
      ensures r == (internalMonitor in monitors && monitors[internalMonitor])
    {
      var rest := monitors.Keys;
      while rest != {}
        invariant rest <= monitors.Keys
        invariant internalMonitor in monitors ==> internalMonitor in rest
        decreases |rest|
      {
        var k :| k in rest;
        if k == internalMonitor {
          return monitors[k];
        }
        rest := rest - {k};
      }
      return false;
    }

    /** True iff some connected output is neither internal nor virtual. */
    method ExternalMonitorIsConnected() returns (r: bool)
      ensures r == ExternalConnected(monitors, internalMonitor, virtualPrefix)
    {
      var rest := monitors.Keys;
      while rest != {}
        invariant rest <= monitors.Keys
        invariant forall k :: k in monitors.Keys - rest ==> !IsExternal(monitors, k, internalMonitor, virtualPrefix)
        decreases |rest|
      {
        var k :| k in rest;
        if k != internalMonitor && !StartsWith(k, virtualPrefix) {
          if monitors[k] {
            return true;
          }
        }
        rest := rest - {k};
      }
      return false;
    }

    method HandleNewInhibitScreenSaver(application: string, cookie: Ledger.Cookie)
      modifies this`ssInhibitors
      ensures ssInhibitors == old(ssInhibitors)[cookie := application]
    {
      ssInhibitors := ssInhibitors[cookie := application];
    }

    method HandleNewInhibitPowerManagement(application: string, cookie: Ledger.Cookie)
      modifies this`pmInhibitors
      ensures pmInhibitors == old(pmInhibitors)[cookie := application]
    {
      pmInhibitors := pmInhibitors[cookie := application];
    }

    method HandleDelInhibitScreenSaver(cookie: Ledger.Cookie)
      modifies this`ssInhibitors
      ensures ssInhibitors == old(ssInhibitors) - {cookie}
    {
      if cookie in ssInhibitors {
        ssInhibitors := ssInhibitors - {cookie};
      }
    }

    method HandleDelInhibitPowerManagement(cookie: Ledger.Cookie)
      modifies this`pmInhibitors
      ensures pmInhibitors == old(pmInhibitors) - {cookie}
    {
      if cookie in pmInhibitors {
        pmInhibitors := pmInhibitors - {cookie};
      }
    }

    /** handleCritical: hibernate or shut down as configured, nothing otherwise. */
    method HandleCritical()
      modifies this`out
      ensures out == old(out) + Dispatched(CriticalCommand(settings.criticalAction))
    {
      match settings.criticalAction {
        case CriticalHibernate => out := out + [Dispatch(Hibernate)];
        case CriticalShutdown => out := out + [Dispatch(Shutdown)];
        case CriticalNone =>
      }
    }

    /** The critical-battery part of checkDevices: every call that finds the battery
        level positive, at most the critical value and the machine on battery
        dispatches the critical action again. */
    method CheckDevices(batteryLeft: real, onBattery: bool)
      modifies this`out
      ensures out == old(out) + CriticalOutputs(settings, [(batteryLeft, onBattery)])
    {
      if batteryLeft > 0.0 && batteryLeft <= settings.critBatteryValue as real && onBattery {
        HandleCritical();
      }
      assert [(batteryLeft, onBattery)][1..] == [];
    }
  }
}
