/** The older power manager of lib/power.cpp: its device registry, edge tracker and
    summing battery level, and the backend choice of its sleep, hibernate and
    shutdown commands. The answers of the Login1, CKit and UPower helper calls are
    inputs; a command's result is the helper call it makes, if any. */
module Power {
  import opened Common
  import opened Bus
  import opened Devices

  datatype Signal = UpdatedDevices | ClosedLid | OpenedLid | SwitchedToBattery | SwitchedToAC

  /** The helper call a command ends in. */
  datatype PowerCall = Login1Suspend | UPowerSuspend | Login1Hibernate | UPowerHibernate | Login1PowerOff | CKitPowerOff

  /** canHibernate/canSuspend: logind's answer when logind is valid, else upower's
      property when upower is valid, else false. */
  function CanHibernate(logind: LogindState, up: UPowerState): (r: bool)
    ensures logind.valid ==> r == logind.canHibernate
    ensures !logind.valid ==> r == (up.valid && up.canHibernate)
  {
    if logind.valid then logind.canHibernate
    else if up.valid then up.canHibernate
    else false
  }

  function CanSuspend(logind: LogindState, up: UPowerState): (r: bool)
    ensures logind.valid ==> r == logind.canSuspend
    ensures !logind.valid ==> r == (up.valid && up.canSuspend)
  {
    if logind.valid then logind.canSuspend
    else if up.valid then up.canSuspend
    else false
  }

  /** sleep: nothing unless suspend is possible; then logind when valid, otherwise upower. */
  function Sleep(logind: LogindState, up: UPowerState): (c: Option<PowerCall>)
    ensures c.Some? <==> CanSuspend(logind, up)
    ensures c == Some(Login1Suspend) <==> logind.valid && logind.canSuspend
    ensures c == Some(UPowerSuspend) <==> !logind.valid && up.valid && up.canSuspend
  {
    if CanSuspend(logind, up) then
      if logind.valid then Some(Login1Suspend)
      else if up.valid then Some(UPowerSuspend)
      else None
    else None
  }

  /** hibernate: nothing unless hibernation is possible; then logind when valid, otherwise upower. */
  function Hibernate(logind: LogindState, up: UPowerState): (c: Option<PowerCall>)
    ensures c.Some? <==> CanHibernate(logind, up)
    ensures c == Some(Login1Hibernate) <==> logind.valid && logind.canHibernate
    ensures c == Some(UPowerHibernate) <==> !logind.valid && up.valid && up.canHibernate
  {
    if CanHibernate(logind, up) then
      if logind.valid then Some(Login1Hibernate)
      else if up.valid then Some(UPowerHibernate)
      else None
    else None
  }

  /** shutdown: logind's power-off when logind is valid and allows it; otherwise
      ConsoleKit's power-off when upower is valid and ConsoleKit allows it. */
  function Shutdown(logind: LogindState, up: UPowerState, ckitCanPowerOff: bool): (c: Option<PowerCall>)
    ensures c == Some(Login1PowerOff) <==> logind.valid && logind.canPowerOff
    ensures c == Some(CKitPowerOff) <==> !(logind.valid && logind.canPowerOff) && up.valid && ckitCanPowerOff
    ensures c.Some? ==> c == Some(Login1PowerOff) || c == Some(CKitPowerOff)
  {
    if logind.valid && logind.canPowerOff then Some(Login1PowerOff)
    else if up.valid && ckitCanPowerOff then Some(CKitPowerOff)
    else None
  }

  /** Sleep and hibernate reach upower only when logind is not valid. */
  lemma LogindFirst(logind: LogindState, up: UPowerState)
    ensures logind.valid ==> Sleep(logind, up) != Some(UPowerSuspend) && Hibernate(logind, up) != Some(UPowerHibernate)
    ensures !logind.valid && !up.valid ==> Sleep(logind, up) == None && Hibernate(logind, up) == None
  {
  }

  function LidSignals(was: bool, now: bool): seq<Signal>
  {
    match EdgeOf(was, now)
    case Some(Rise) => [ClosedLid]
    case Some(Fall) => [OpenedLid]
    case None => []
  }

  function PowerSignals(was: bool, now: bool): seq<Signal>
  {
    match EdgeOf(was, now)
    case Some(Rise) => [SwitchedToBattery]
    case Some(Fall) => [SwitchedToAC]
    case None => []
  }

  function ChangeSignals(wasLid: bool, lid: bool, wasBattery: bool, battery: bool): seq<Signal>
  {
    LidSignals(wasLid, lid) + PowerSignals(wasBattery, battery) + [UpdatedDevices]
  }

  /** closedLid/openedLid and switchedToBattery/switchedToAC fire exactly on a change
      of the stored flag; a repeated identical reading reports only updatedDevices. */
  lemma ChangeSignalsAreEdges(wasLid: bool, lid: bool, wasBattery: bool, battery: bool)
    ensures ClosedLid in ChangeSignals(wasLid, lid, wasBattery, battery) <==> !wasLid && lid
    ensures OpenedLid in ChangeSignals(wasLid, lid, wasBattery, battery) <==> wasLid && !lid
    ensures SwitchedToBattery in ChangeSignals(wasLid, lid, wasBattery, battery) <==> !wasBattery && battery
    ensures SwitchedToAC in ChangeSignals(wasLid, lid, wasBattery, battery) <==> wasBattery && !battery
    ensures ChangeSignals(lid, lid, battery, battery) == [UpdatedDevices]
    ensures var t := ChangeSignals(wasLid, lid, wasBattery, battery); t[|t| - 1] == UpdatedDevices
  {
  }

  class Power {
    var devices: Registry
    var wasLidClosed: bool
    var wasOnBattery: bool
    var emitted: seq<Signal>

    /** Both flags start false; setupDBus scans the devices when the system bus is
        `connected`, with the enumeration `found` at that time. */
    constructor (connected: bool, found: seq<string>, probe: string -> Device)
      ensures !wasLidClosed && !wasOnBattery
      ensures connected ==> devices == Scanned(map[], found, probe) && emitted == [UpdatedDevices]
      ensures !connected ==> devices == map[] && emitted == []
    {
      devices := map[];
      wasLidClosed := false;
      wasOnBattery := false;
      emitted := [];
      new;
      if connected {
        ScanDevices(found, probe);
      }
    }

    /** scanDevices: adds enumerated paths not tracked yet, leaves tracked entries
        untouched, then reports updatedDevices. */
    method ScanDevices(found: seq<string>, probe: string -> Device)
      modifies this`devices, this`emitted
      ensures devices == Scanned(old(devices), found, probe)
      ensures emitted == old(emitted) + [UpdatedDevices]
    {
      var i := 0;
      while i < |found|
        invariant 0 <= i <= |found|
        invariant devices.Keys == old(devices).Keys + set p | p in found[..i]
        invariant forall p :: p in old(devices) ==> devices[p] == old(devices)[p]
        invariant forall p :: p in devices && p !in old(devices) ==> devices[p] == probe(p)
        invariant emitted == old(emitted)
      {
        var path := found[i];
        assert found[..i + 1] == found[..i] + [path];
        var hasDevice := path in devices;
        if !hasDevice {
          devices := devices[path := probe(path)];
        }
        i := i + 1;
      }
      assert found[..|found|] == found;
      assert devices == Scanned(old(devices), found, probe);
      emitted := emitted + [UpdatedDevices];
    }

    /** deviceAdded: ignored while upower is not valid and for job paths; otherwise a rescan. */
    method DeviceAdded(path: string, up: UPowerState, found: seq<string>, probe: string -> Device)
      modifies this`devices, this`emitted
      ensures !up.valid || IsJobPath(path) ==> devices == old(devices) && emitted == old(emitted)
      ensures up.valid && !IsJobPath(path) ==>
        devices == Scanned(old(devices), found, probe) && emitted == old(emitted) + [UpdatedDevices]
    {
      if !up.valid { return; }
      if IsJobPath(path) { return; }
      ScanDevices(found, probe);
    }

    /** deviceRemoved: a tracked path is dropped only when the enumeration `listed` no
        longer holds it; while it is still listed the call returns without a rescan.
        The rescan enumerates again, as `found`. */
    method DeviceRemoved(path: string, up: UPowerState, listed: seq<string>, found: seq<string>,
                         probe: string -> Device)
      modifies this`devices, this`emitted
      ensures !up.valid || IsJobPath(path) ==> devices == old(devices) && emitted == old(emitted)
      ensures up.valid && !IsJobPath(path) && path in old(devices) && path in listed ==>
        devices == old(devices) && emitted == old(emitted)
      ensures up.valid && !IsJobPath(path) && path in old(devices) && path !in listed ==>
        devices == Scanned(old(devices) - {path}, found, probe) && (path !in found ==> path !in devices)
        && emitted == old(emitted) + [UpdatedDevices]
      ensures up.valid && !IsJobPath(path) && path !in old(devices) ==>
        devices == Scanned(old(devices), found, probe) && emitted == old(emitted) + [UpdatedDevices]
    {
      if !up.valid { return; }
      var deviceExists := path in devices;
      if IsJobPath(path) { return; }
      if deviceExists {
        if path in listed { return; }
        devices := devices - {path};
      }
      ScanDevices(found, probe);
    }

    /** deviceChanged: lid and power-source signals only on a change of the stored flag. */
    method DeviceChanged(up: UPowerState)
      modifies this`wasLidClosed, this`wasOnBattery, this`emitted
      ensures wasLidClosed == LidIsClosed(up) && wasOnBattery == OnBattery(up)
      ensures emitted == old(emitted)
        + ChangeSignals(old(wasLidClosed), LidIsClosed(up), old(wasOnBattery), OnBattery(up))
    {
      var lid := LidIsClosed(up);
      var lidSignals := LidSignals(wasLidClosed, lid);
      wasLidClosed := lid;
      var battery := OnBattery(up);
      var powerSignals := PowerSignals(wasOnBattery, battery);
      wasOnBattery := battery;
      emitted := emitted + (lidSignals + powerSignals + [UpdatedDevices]);
    }

    /** handleDeviceChanged: a change report without a device path is ignored. */
    method HandleDeviceChanged(devicePath: string, up: UPowerState)
      modifies this`wasLidClosed, this`wasOnBattery, this`emitted
      ensures devicePath == "" ==> unchanged(this)
      ensures devicePath != "" ==> wasLidClosed == LidIsClosed(up) && wasOnBattery == OnBattery(up)
      ensures devicePath != "" ==>
        emitted == old(emitted) + ChangeSignals(old(wasLidClosed), LidIsClosed(up), old(wasOnBattery), OnBattery(up))
    {
      if devicePath == "" { return; }
      DeviceChanged(up);
    }

    /** batteryLeft: the plain sum of the counted batteries' percentages, 0 without any. */
    method BatteryLeft() returns (r: real)
      ensures r == PercentSum(devices)
      ensures BatteryCount(devices) == 0 ==> r == 0.0
    {
      var rest := devices;
      r := 0.0;
      while rest != map[]
        invariant r + SumReal(rest, Percent) == PercentSum(devices)
        decreases |rest|
      {
        var p :| p in rest;
        SumRealRemove(rest, Percent, p);
        var d := rest[p];
        if d.isBattery && d.isPresent && d.nativePath != "" {
          r := r + d.percentage;
        }
        assert (rest - {p}).Keys == rest.Keys - {p};
        rest := rest - {p};
      }
      if BatteryCount(devices) == 0 { NoBatteryNoPercent(devices); }
    }
  }

  /** Without a counted battery the percentage sum is 0. */
  lemma {:induction false} NoBatteryNoPercent(m: Registry)
    requires BatteryCount(m) == 0
    ensures PercentSum(m) == 0.0
    decreases |m|
  {
    if m != map[] {
      var p :| p in m;
      SumRealRemove(m, Percent, p);
      SumIntRemove(m, One, p);
      BatteryCountBounds(m - {p});
      assert |m - {p}| < |m| by { assert (m - {p}).Keys == m.Keys - {p}; }
      NoBatteryNoPercent(m - {p});
    }
  }

  /** Two batteries at 80 and 40 percent make batteryLeft 120, beyond any percentage,
      where the newer manager's mean gives 60. */
  lemma TotalExceedsAPercentage(a: string, b: string)
    requires a != b
    ensures var m := map[a := Device(true, true, "BAT0", 80.0, 0, 0), b := Device(true, true, "BAT1", 40.0, 0, 0)];
      PercentSum(m) == 120.0 > 100.0
  {
    TwoBatteries(a, b);
  }
}
