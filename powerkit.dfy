/** The newer power manager of lib/powerkit.cpp: the device registry, the lid and
    power-source edge tracker, the two inhibitor ledgers and the battery aggregates.
    Every signal the object emits is appended to `emitted`. The capability and
    action chains of the same file are in module Selector. */
module PowerKit {
  import opened Common
  import opened Bus
  import opened Devices
  import Ledger

  datatype Signal =
    | DeviceWasAdded(path: string)
    | DeviceWasRemoved(path: string)
    | UpdatedDevices
    | LidClosed
    | LidOpened
    | SwitchedToBattery
    | SwitchedToAC
    | UpdatedInhibitors
    | PrepareForSuspend(suspend: bool)
    | ConfigUpdated

  /** Lid signal owed for a change of the lid flag. */
  function LidSignals(was: bool, now: bool): seq<Signal>
  {
    match EdgeOf(was, now)
    case Some(Rise) => [LidClosed]
    case Some(Fall) => [LidOpened]
    case None => []
  }

  /** Power-source signal owed for a change of the on-battery flag. */
  function PowerSignals(was: bool, now: bool): seq<Signal>
  {
    match EdgeOf(was, now)
    case Some(Rise) => [SwitchedToBattery]
    case Some(Fall) => [SwitchedToAC]
    case None => []
  }

  /** What deviceChanged emits for given stored flags and readings. */
  function ChangeSignals(wasLid: bool, lid: bool, wasBattery: bool, battery: bool): seq<Signal>
  {
    LidSignals(wasLid, lid) + PowerSignals(wasBattery, battery) + [UpdatedDevices]
  }

  /** A second deviceChanged with identical readings emits only UpdatedDevices,
      and at most one lid and one power-source signal is ever emitted per call. */
  lemma RepeatedChangeIsQuiet(wasLid: bool, lid: bool, wasBattery: bool, battery: bool)
    ensures ChangeSignals(lid, lid, battery, battery) == [UpdatedDevices]
    ensures 1 <= |ChangeSignals(wasLid, lid, wasBattery, battery)| <= 3
    ensures var t := ChangeSignals(wasLid, lid, wasBattery, battery); t[|t| - 1] == UpdatedDevices
    ensures LidClosed in ChangeSignals(wasLid, lid, wasBattery, battery) <==> !wasLid && lid
    ensures LidOpened in ChangeSignals(wasLid, lid, wasBattery, battery) <==> wasLid && !lid
    ensures SwitchedToBattery in ChangeSignals(wasLid, lid, wasBattery, battery) <==> !wasBattery && battery
    ensures SwitchedToAC in ChangeSignals(wasLid, lid, wasBattery, battery) <==> wasBattery && !battery
  {
  }

  class PowerKit {
    var devices: Registry
    var wasLidClosed: bool
    var wasOnBattery: bool
    var ssInhibitors: map<Ledger.Cookie, string>
    var pmInhibitors: map<Ledger.Cookie, string>
    var emitted: seq<Signal>

    /** Both flags start false and both ledgers empty; setup scans the devices when
        the system bus is `connected`, with the enumeration `found` at that time. */
    constructor (connected: bool, found: seq<string>, probe: string -> Device)
      ensures ssInhibitors == map[] && pmInhibitors == map[] && !wasLidClosed && !wasOnBattery
      ensures connected ==> devices == Scanned(map[], found, probe) && emitted == [UpdatedDevices]
      ensures !connected ==> devices == map[] && emitted == []
    {
      devices := map[];
      wasLidClosed := false;
      wasOnBattery := false;
      ssInhibitors := map[];
      pmInhibitors := map[];
      emitted := [];
      new;
      if connected {
        Scan(found, probe);
      }
    }

    /** scan: adds the enumerated paths that are not tracked yet, never drops or
        replaces an entry, then reports UpdatedDevices. */
    method Scan(found: seq<string>, probe: string -> Device)
      modifies this`devices, this`emitted
      ensures devices == Scanned(old(devices), found, probe)
      ensures devices.Keys == old(devices).Keys + set p | p in found
      ensures emitted == old(emitted) + [UpdatedDevices]
    {
      var i := 0;
      while i < |found|
        invariant 0 <= i <= |found|
        invariant devices.Keys == old(devices).Keys + set p | p in found[..i]
        invariant forall p :: p in old(devices) ==> devices[p] == old(devices)[p]
        invariant forall p :: p in devices && p !in old(devices) ==> devices[p] == probe(p)
        invariant emitted == old(emitted)
      {
        var path := found[i];
        assert found[..i + 1] == found[..i] + [path];
        if path !in devices {
          devices := devices[path := probe(path)];
        }
        i := i + 1;
      }
      assert found[..|found|] == found;
      assert devices == Scanned(old(devices), found, probe);
      emitted := emitted + [UpdatedDevices];
    }

    /** deviceAdded: ignored while upower is not valid and for job paths; otherwise
        announces the path and rescans. */
    method DeviceAdded(path: string, up: UPowerState, found: seq<string>, probe: string -> Device)
      modifies this`devices, this`emitted
      ensures !up.valid || IsJobPath(path) ==> devices == old(devices) && emitted == old(emitted)
      ensures up.valid && !IsJobPath(path) ==>
        devices == Scanned(old(devices), found, probe)
        && emitted == old(emitted) + [DeviceWasAdded(path), UpdatedDevices]
    {
      if !up.valid { return; }
      if IsJobPath(path) { return; }
      emitted := emitted + [DeviceWasAdded(path)];
      Scan(found, probe);
    }

    /** deviceRemoved: ignored while upower is not valid and for job paths. The devices
        are enumerated twice: `listed` by the membership test, `found` by the rescan.
        A tracked path that `listed` still holds is kept and nothing is emitted; a
        tracked path it no longer holds is dropped and announced; a rescan follows in
        both of the latter cases. */
    method DeviceRemoved(path: string, up: UPowerState, listed: seq<string>, found: seq<string>,
                         probe: string -> Device)
      modifies this`devices, this`emitted
      ensures !up.valid || IsJobPath(path) ==> devices == old(devices) && emitted == old(emitted)
      ensures up.valid && !IsJobPath(path) && path in old(devices) && path in listed ==>
        devices == old(devices) && emitted == old(emitted)
      ensures up.valid && !IsJobPath(path) && path in old(devices) && path !in listed ==>
        devices == Scanned(old(devices) - {path}, found, probe)
        && (path !in found ==> path !in devices)
        && emitted == old(emitted) + [DeviceWasRemoved(path), UpdatedDevices]
      ensures up.valid && !IsJobPath(path) && path !in old(devices) ==>
        devices == Scanned(old(devices), found, probe)
        && emitted == old(emitted) + [UpdatedDevices]
    {
      if !up.valid { return; }
      var deviceExists := path in devices;
      if IsJobPath(path) { return; }
      if deviceExists {
        if path in listed { return; }
        devices := devices - {path};
        emitted := emitted + [DeviceWasRemoved(path)];
      }
      Scan(found, probe);
    }

    /** clearDevices: forgets every tracked device. */
    method ClearDevices()
      modifies this`devices
      ensures devices == map[]
    {
      devices := map[];
    }

    /** deviceChanged: reports a lid or power-source transition only when the reading
        differs from the stored flag, stores the readings, then reports UpdatedDevices. */
    method DeviceChanged(up: UPowerState)
      modifies this`wasLidClosed, this`wasOnBattery, this`emitted
      ensures wasLidClosed == LidIsClosed(up) && wasOnBattery == OnBattery(up)
      ensures emitted == old(emitted)
        + ChangeSignals(old(wasLidClosed), LidIsClosed(up), old(wasOnBattery), OnBattery(up))
    {
      var lid := LidIsClosed(up);
      var lidSignals := LidSignals(wasLidClosed, lid);
      wasLidClosed := lid;
      var battery := OnBattery(up);
      var powerSignals := PowerSignals(wasOnBattery, battery);
      wasOnBattery := battery;
      emitted := emitted + (lidSignals + powerSignals + [UpdatedDevices]);
    }

    /** handleDeviceChanged: a change report without a device path is ignored. */
    method HandleDeviceChanged(device: string, up: UPowerState)
      modifies this`wasLidClosed, this`wasOnBattery, this`emitted
      ensures device == "" ==> unchanged(this)
      ensures device != "" ==> wasLidClosed == LidIsClosed(up) && wasOnBattery == OnBattery(up)
      ensures device != "" ==>
        emitted == old(emitted) + ChangeSignals(old(wasLidClosed), LidIsClosed(up), old(wasOnBattery), OnBattery(up))
    {
      if device == "" { return; }
      DeviceChanged(up);
    }

    method HandleResume()
      modifies this`emitted
      ensures emitted == old(emitted) + [PrepareForSuspend(false)]
    {
      emitted := emitted + [PrepareForSuspend(false)];
    }

    method HandleSuspend()
      modifies this`emitted
      ensures emitted == old(emitted) + [PrepareForSuspend(true)]
    {
      emitted := emitted + [PrepareForSuspend(true)];
    }

    method HandlePrepareForSuspend(suspend: bool)
      modifies this`emitted
      ensures emitted == old(emitted) + [PrepareForSuspend(suspend)]
    {
      emitted := emitted + [PrepareForSuspend(suspend)];
    }

    /** A configuration change is only announced to the clients. */
    method UpdateConfig()
      modifies this`emitted
      ensures emitted == old(emitted) + [ConfigUpdated]
    {
      emitted := emitted + [ConfigUpdated];
    }

    /** A new screen-saver inhibit stores (or overwrites) the cookie's application;
        the power-management ledger is untouched. */
    method HandleNewInhibitScreenSaver(application: string, cookie: Ledger.Cookie)
      modifies this`ssInhibitors, this`emitted
      ensures ssInhibitors == old(ssInhibitors)[cookie := application]
      ensures emitted == old(emitted) + [UpdatedInhibitors]
    {
      ssInhibitors := ssInhibitors[cookie := application];
      emitted := emitted + [UpdatedInhibitors];
    }

    method HandleNewInhibitPowerManagement(application: string, cookie: Ledger.Cookie)
      modifies this`pmInhibitors, this`emitted
      ensures pmInhibitors == old(pmInhibitors)[cookie := application]
      ensures emitted == old(emitted) + [UpdatedInhibitors]
    {
      pmInhibitors := pmInhibitors[cookie := application];
      emitted := emitted + [UpdatedInhibitors];
    }

    /** Releasing a held cookie removes it and reports; an unknown cookie changes nothing. */
    method HandleDelInhibitScreenSaver(cookie: Ledger.Cookie)
      modifies this`ssInhibitors, this`emitted
      ensures cookie in old(ssInhibitors) ==>
        ssInhibitors == old(ssInhibitors) - {cookie} && emitted == old(emitted) + [UpdatedInhibitors]
      ensures cookie !in old(ssInhibitors) ==>
        ssInhibitors == old(ssInhibitors) && emitted == old(emitted)
    {
      if cookie in ssInhibitors {
        ssInhibitors := ssInhibitors - {cookie};
        emitted := emitted + [UpdatedInhibitors];
      }
    }

    method HandleDelInhibitPowerManagement(cookie: Ledger.Cookie)
      modifies this`pmInhibitors, this`emitted
      ensures cookie in old(pmInhibitors) ==>
        pmInhibitors == old(pmInhibitors) - {cookie} && emitted == old(emitted) + [UpdatedInhibitors]
      ensures cookie !in old(pmInhibitors) ==>
        pmInhibitors == old(pmInhibitors) && emitted == old(emitted)
    {
      if cookie in pmInhibitors {
        pmInhibitors := pmInhibitors - {cookie};
        emitted := emitted + [UpdatedInhibitors];
      }
    }

    /** The screen-saver inhibitors' applications, in ascending cookie order. */
    method ScreenSaverInhibitors() returns (r: seq<string>)
      ensures r == Ledger.InKeyOrder(ssInhibitors)
      ensures |r| == |ssInhibitors|
    {
      Ledger.ListingIsOrdered(ssInhibitors);
      r := Ledger.Values(ssInhibitors);
    }

    method PowerManagementInhibitors() returns (r: seq<string>)
      ensures r == Ledger.InKeyOrder(pmInhibitors)
      ensures |r| == |pmInhibitors|
    {
      Ledger.ListingIsOrdered(pmInhibitors);
      r := Ledger.Values(pmInhibitors);
    }

    /** Mean percentage over the counted batteries. With no counted battery the
        division is 0.0 / 0, a NaN, modelled as None. */
    method BatteryLeft() returns (r: Option<real>)
      ensures BatteryCount(devices) > 0 ==> r == Some(PercentSum(devices) / BatteryCount(devices) as real)
      ensures BatteryCount(devices) == 0 ==> r == None
    {
      var rest := devices;
      var sum := 0.0;
      var batteries := 0;
      while rest != map[]
        invariant sum + SumReal(rest, Percent) == PercentSum(devices)
        invariant batteries + SumInt(rest, One) == BatteryCount(devices)
        decreases |rest|
      {
        var p :| p in rest;
        SumRealRemove(rest, Percent, p);
        SumIntRemove(rest, One, p);
        var d := rest[p];
        if d.isBattery && d.isPresent && d.nativePath != "" {
          sum := sum + d.percentage;
          batteries := batteries + 1;
        } else {
          assert Percent(d) == 0.0 && One(d) == 0;
        }
        assert (rest - {p}).Keys == rest.Keys - {p};
        rest := rest - {p};
      }
      assert sum == PercentSum(devices) && batteries == BatteryCount(devices);
      if batteries == 0 { r := None; } else { r := Some(sum / batteries as real); }
    }

    /** True when some tracked device is a battery, present or not. */
    method HasBattery() returns (r: bool)
      ensures r <==> exists p :: p in devices && devices[p].isBattery
    {
      var rest := devices.Keys;
      while rest != {}
        invariant rest <= devices.Keys
        invariant forall p :: p in devices.Keys - rest ==> !devices[p].isBattery
        decreases |rest|
      {
        var p :| p in rest;
        if devices[p].isBattery { return true; }
        rest := rest - {p};
      }
      return false;
    }

    /** Sum of the counted batteries' time to empty, in seconds. */
    method TimeToEmpty() returns (r: int)
      ensures r == EmptyTimeSum(devices)
    {
      var rest := devices;
      r := 0;
      while rest != map[]
        invariant r + SumInt(rest, EmptyTime) == EmptyTimeSum(devices)
        decreases |rest|
      {
        var p :| p in rest;
        SumIntRemove(rest, EmptyTime, p);
        var d := rest[p];
        if d.isBattery && d.isPresent && d.nativePath != "" {
          r := r + d.timeToEmpty;
        }
        assert (rest - {p}).Keys == rest.Keys - {p};
        rest := rest - {p};
      }
    }

    /** Sum of the counted batteries' time to full, in seconds. */
    method TimeToFull() returns (r: int)
      ensures r == FullTimeSum(devices)
    {
      var rest := devices;
      r := 0;
      while rest != map[]
        invariant r + SumInt(rest, FullTime) == FullTimeSum(devices)
        decreases |rest|
      {
        var p :| p in rest;
        SumIntRemove(rest, FullTime, p);
        var d := rest[p];
        if d.isBattery && d.isPresent && d.nativePath != "" {
          r := r + d.timeToFull;
        }
        assert (rest - {p}).Keys == rest.Keys - {p};
        rest := rest - {p};
      }
    }
  }
}
