/** What the daemon reads from the system services. Every property read of the
    upower and logind interfaces, and every answer of the helper namespaces the
    older manager calls, is an input of the model: one snapshot per call. */
module Bus {

  /** The upower manager interface: whether it is valid and the properties read from it. */
  datatype UPowerState = UPowerState(
    valid: bool,
    onBattery: bool,
    lidIsClosed: bool,
    lidIsPresent: bool,
    isDocked: bool,
    canSuspend: bool,
    canHibernate: bool)

  /** The logind manager interface: whether it is valid, its "Docked" property and
      the answers of its capability calls. */
  datatype LogindState = LogindState(
    valid: bool,
    docked: bool,
    canSuspend: bool,
    canHibernate: bool,
    canPowerOff: bool)

  /** A property of upower reads as false whenever upower is not valid. */
  function OnBattery(up: UPowerState): (r: bool)
    ensures r ==> up.valid
    ensures up.valid ==> r == up.onBattery
  {
    up.valid && up.onBattery
  }

  function LidIsClosed(up: UPowerState): (r: bool)
    ensures r ==> up.valid
    ensures up.valid ==> r == up.lidIsClosed
  {
    up.valid && up.lidIsClosed
  }

  function LidIsPresent(up: UPowerState): (r: bool)
    ensures r ==> up.valid
    ensures up.valid ==> r == up.lidIsPresent
  {
    up.valid && up.lidIsPresent
  }

  /** Docked state: logind is asked first, upower second, false when neither is valid. */
  function IsDocked(logind: LogindState, up: UPowerState): (r: bool)
    ensures logind.valid ==> r == logind.docked
    ensures !logind.valid && up.valid ==> r == up.isDocked
    ensures r ==> logind.valid || up.valid
  {
    if logind.valid then logind.docked
    else if up.valid then up.isDocked
    else false
  }
}
