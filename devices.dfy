/** The device registry's data: device records keyed by their upower object path,
    the rescan rule shared by both managers, and the battery aggregates as sums
    over the registry (independent of the order in which the map is walked). */
module Devices {
  import opened Common

  /** A power-supply device as read from upower. `percentage` is 0.0 to 100.0 when
      upower reports sensibly; times are seconds, 0 meaning unknown. */
  datatype Device = Device(
    isBattery: bool,
    isPresent: bool,
    nativePath: string,
    percentage: real,
    timeToEmpty: int,
    timeToFull: int)

  type Registry = map<string, Device>

  /** The object path of the upower manager and the job namespace under it. */
  const UPowerPath: string := "/org/freedesktop/UPower"
  const JobsPrefix: string := UPowerPath + "/jobs"

  predicate IsJobPath(path: string)
  {
    StartsWith(path, JobsPrefix)
  }

  /** The batteries that the aggregates take into account. */
  predicate Counted(d: Device)
  {
    d.isBattery && d.isPresent && d.nativePath != ""
  }

  /** A rescan: every enumerated path not yet tracked gets the record its new
      Device reads (`probe`); tracked entries are kept as they are. */
  function Scanned(m: Registry, found: seq<string>, probe: string -> Device): (r: Registry)
    ensures r.Keys == m.Keys + set p | p in found
    ensures forall p :: p in m ==> r[p] == m[p]
    ensures forall p :: p in r && p !in m ==> r[p] == probe(p)
  {
    m + map p | p in found && p !in m :: probe(p)
  }

  /** Scanning twice with the same enumeration is scanning once. */
  lemma ScanIsIdempotent(m: Registry, found: seq<string>, probe: string -> Device)
    ensures Scanned(Scanned(m, found, probe), found, probe) == Scanned(m, found, probe)
  {
  }

  /** After a device is taken out, a rescan that lists it again tracks a fresh
      record for it, not the removed one. */
  lemma RescanGivesFreshRecord(m: Registry, path: string, found: seq<string>, probe: string -> Device)
    requires path in found
    ensures path in Scanned(m - {path}, found, probe)
    ensures Scanned(m - {path}, found, probe)[path] == probe(path)
  {
  }

  // Per-device contributions to the aggregates.

  function Percent(d: Device): real
  {
    if Counted(d) then d.percentage else 0.0
  }

  function One(d: Device): int
  {
    if Counted(d) then 1 else 0
  }

  function EmptyTime(d: Device): int
  {
    if Counted(d) then d.timeToEmpty else 0
  }

  function FullTime(d: Device): int
  {
    if Counted(d) then d.timeToFull else 0
  }

  /** Sum of `f` over the registry's records, whatever order the map is walked in. */
  ghost function SumReal(m: Registry, f: Device -> real): real
    decreases |m|
  {
    if m == map[] then 0.0
    else
      var p :| p in m;
      assert |m - {p}| < |m| by { assert (m - {p}).Keys == m.Keys - {p}; }
      f(m[p]) + SumReal(m - {p}, f)
  }

  ghost function SumInt(m: Registry, f: Device -> int): int
    decreases |m|
  {
    if m == map[] then 0
    else
      var p :| p in m;
      assert |m - {p}| < |m| by { assert (m - {p}).Keys == m.Keys - {p}; }
      f(m[p]) + SumInt(m - {p}, f)
  }

  /** Any entry may be taken first: the sum is its contribution plus the sum of the rest. */
  lemma {:induction false} SumRealRemove(m: Registry, f: Device -> real, p: string)
    requires p in m
    ensures SumReal(m, f) == f(m[p]) + SumReal(m - {p}, f)
    decreases |m|
  {
    var q :| q in m && SumReal(m, f) == f(m[q]) + SumReal(m - {q}, f);
    if q != p {
      assert (m - {q}).Keys == m.Keys - {q};
      assert (m - {p}).Keys == m.Keys - {p};
      SumRealRemove(m - {q}, f, p);
      SumRealRemove(m - {p}, f, q);
      assert m - {q} - {p} == m - {p} - {q};
    }
  }

  lemma {:induction false} SumIntRemove(m: Registry, f: Device -> int, p: string)
    requires p in m
    ensures SumInt(m, f) == f(m[p]) + SumInt(m - {p}, f)
    decreases |m|
  {
    var q :| q in m && SumInt(m, f) == f(m[q]) + SumInt(m - {q}, f);
    if q != p {
      assert (m - {q}).Keys == m.Keys - {q};
      assert (m - {p}).Keys == m.Keys - {p};
      SumIntRemove(m - {q}, f, p);
      SumIntRemove(m - {p}, f, q);
      assert m - {q} - {p} == m - {p} - {q};
    }
  }

  /** Sum of battery percentages, number of batteries, and the two time sums. */
  ghost function PercentSum(m: Registry): real { SumReal(m, Percent) }
  ghost function BatteryCount(m: Registry): int { SumInt(m, One) }
  ghost function EmptyTimeSum(m: Registry): int { SumInt(m, EmptyTime) }
  ghost function FullTimeSum(m: Registry): int { SumInt(m, FullTime) }

  /** Battery count is the number of tracked records that pass the filter. */
  lemma {:induction false} BatteryCountBounds(m: Registry)
    ensures 0 <= BatteryCount(m) <= |m|
    ensures BatteryCount(m) > 0 <==> exists p :: p in m && Counted(m[p])
    decreases |m|
  {
    if m != map[] {
      var p :| p in m;
      SumIntRemove(m, One, p);
      assert |m - {p}| < |m| by { assert (m - {p}).Keys == m.Keys - {p}; }
      BatteryCountBounds(m - {p});
      if exists q :: q in m && Counted(m[q]) {
        var q :| q in m && Counted(m[q]);
        if q != p { assert q in m - {p}; }
      }
    }
  }

  /** When every counted battery reports 0..100 percent, the percentage sum lies
      between 0 and 100 times the number of batteries. */
  lemma {:induction false} PercentSumBounds(m: Registry)
    requires forall p :: p in m && Counted(m[p]) ==> 0.0 <= m[p].percentage <= 100.0
    ensures 0.0 <= PercentSum(m) <= 100.0 * BatteryCount(m) as real
    decreases |m|
  {
    if m != map[] {
      var p :| p in m;
      SumRealRemove(m, Percent, p);
      SumIntRemove(m, One, p);
      assert |m - {p}| < |m| by { assert (m - {p}).Keys == m.Keys - {p}; }
      PercentSumBounds(m - {p});
    }
  }

  /** The mean battery level stays within 0..100 percent. */
  lemma MeanIsAPercentage(m: Registry)
    requires forall p :: p in m && Counted(m[p]) ==> 0.0 <= m[p].percentage <= 100.0
    requires BatteryCount(m) > 0
    ensures 0.0 <= PercentSum(m) / BatteryCount(m) as real <= 100.0
  {
    PercentSumBounds(m);
    var n := BatteryCount(m) as real;
    assert PercentSum(m) / n <= 100.0 * n / n;
  }

  /** A record that does not pass the battery filter changes none of the aggregates. */
  lemma UncountedDeviceIsIgnored(m: Registry, p: string, d: Device)
    requires p !in m && !Counted(d)
    ensures PercentSum(m[p := d]) == PercentSum(m)
    ensures BatteryCount(m[p := d]) == BatteryCount(m)
    ensures EmptyTimeSum(m[p := d]) == EmptyTimeSum(m)
    ensures FullTimeSum(m[p := d]) == FullTimeSum(m)
  {
    var m' := m[p := d];
    assert m' - {p} == m;
    SumRealRemove(m', Percent, p);
    SumIntRemove(m', One, p);
    SumIntRemove(m', EmptyTime, p);
    SumIntRemove(m', FullTime, p);
  }

  /** Two present batteries at 80 and 40 percent: the percentages add up to 120
      over two batteries, a mean of 60. */
  lemma TwoBatteries(a: string, b: string)
    requires a != b
    ensures var m := map[a := Device(true, true, "BAT0", 80.0, 0, 0), b := Device(true, true, "BAT1", 40.0, 0, 0)];
      PercentSum(m) == 120.0 && BatteryCount(m) == 2 && PercentSum(m) / BatteryCount(m) as real == 60.0
  {
    var m := map[a := Device(true, true, "BAT0", 80.0, 0, 0), b := Device(true, true, "BAT1", 40.0, 0, 0)];
    var rest := m - {a};
    assert rest == map[b := Device(true, true, "BAT1", 40.0, 0, 0)];
    assert rest - {b} == map[];
    SumRealRemove(m, Percent, a);
    SumRealRemove(rest, Percent, b);
    SumIntRemove(m, One, a);
    SumIntRemove(rest, One, b);
  }
}
