/** Backend selection of the newer manager: capability queries and power actions
    go to the first available service of a fixed preference chain, re-evaluated
    on every call. */
module Selector {
  import opened Common

  datatype Backend = Logind | ConsoleKit | UPower

  /** Which services answer on the system bus at the time of the call. */
  datatype Services = Services(logind: bool, consoleKit: bool, upower: bool)

  predicate Has(s: Services, b: Backend)
  {
    match b
    case Logind => s.logind
    case ConsoleKit => s.consoleKit
    case UPower => s.upower
  }

  /** Reference selection: the first backend of `chain` that is available. */
  function FirstAvailable(chain: seq<Backend>, s: Services): (r: Option<Backend>)
    ensures r.None? <==> forall b :: b in chain ==> !Has(s, b)
    ensures r.Some? ==> exists i :: 0 <= i < |chain| && chain[i] == r.value && Has(s, r.value)
                         && forall j :: 0 <= j < i ==> !Has(s, chain[j])
  {
    if chain == [] then None
    else if Has(s, chain[0]) then Some(chain[0])
    else
      var r := FirstAvailable(chain[1..], s);
      assert forall b :: b in chain ==> b == chain[0] || b in chain[1..];
      if r.Some? then
        var i :| 0 <= i < |chain[1..]| && chain[1..][i] == r.value && Has(s, r.value)
                 && forall j :: 0 <= j < i ==> !Has(s, chain[1..][j]);
        assert chain[i + 1] == r.value;
        r
      else r
  }

  /** Restart, power-off and hybrid sleep are only offered by the session managers;
      suspend and hibernate may fall back to upower. */
  const SessionChain: seq<Backend> := [Logind, ConsoleKit]
  const SleepChain: seq<Backend> := [Logind, ConsoleKit, UPower]

  /** The capability methods a backend is asked. */
  datatype Query =
    | AskRestart | AskPowerOff | AskSuspend | AskHibernate | AskHybridSleep
    | AskSuspendAllowed | AskHibernateAllowed

  /** The action methods a backend is called with. */
  datatype Action = RestartCmd | PowerOffCmd | SuspendCmd | HibernateCmd | HybridSleepCmd

  /** The first argument of a capability reply: a string (the session managers answer
      "yes", "no", "na" or "challenge") or a boolean (upower's "Allowed" methods). */
  datatype Arg = Str(text: string) | Flag(value: bool)

  /** A capability reply: its first argument and its error message (empty when the
      call succeeded). */
  datatype Reply = Reply(first: Arg, errorMessage: string)

  /** The affirmative reply string of the session managers. */
  const OkReply: string := "yes"

  function LowerChar(c: char): char
  {
    if 'A' <= c <= 'Z' then (c as int + 32) as char else c
  }

  function Lower(t: string): string
  {
    seq(|t|, i requires 0 <= i < |t| => LowerChar(t[i]))
  }

  /** The argument read as a string: a boolean reads as "true" or "false". */
  function ArgText(a: Arg): (t: string)
    ensures a.Str? ==> t == a.text
    ensures a.Flag? ==> t != OkReply
  {
    match a
    case Str(text) => text
    case Flag(value) => if value then "true" else "false"
  }

  /** The argument read as a boolean: a string is true unless, lower-cased, it is
      empty, "0" or "false". */
  function ArgTruth(a: Arg): (r: bool)
    ensures a.Flag? ==> r == a.value
    ensures a.Str? && Lower(a.text) in {"", "0", "false"} ==> !r
    ensures a.Str? && |a.text| > 0 && a.text[0] != '0' && a.text[0] != 'f' && a.text[0] != 'F' ==> r
  {
    match a
    case Flag(value) => value
    case Str(text) =>
      var l := Lower(text);
      assert |text| > 0 && text[0] != 'f' && text[0] != 'F' ==> l[0] != 'f';
      !(l == "" || l == "0" || l == "false")
  }

  /** availableAction: false when the backend's interface is not valid; true when the
      first argument reads as the affirmative string; otherwise its boolean reading,
      unless the reply carries an error. */
  function AvailableAction(q: Query, b: Backend, s: Services, ask: (Backend, Query) -> Reply): (r: bool)
    ensures !Has(s, b) ==> !r
    ensures Has(s, b) && ArgText(ask(b, q).first) == OkReply ==> r
    ensures ArgText(ask(b, q).first) != OkReply ==>
      (r <==> Has(s, b) && ArgTruth(ask(b, q).first) && ask(b, q).errorMessage == "")
  {
    if !Has(s, b) then false
    else
      var reply := ask(b, q);
      if ArgText(reply.first) == OkReply then true
      else
        var result := ArgTruth(reply.first);
        if reply.errorMessage != "" then false else result
  }

  /** As written, a session manager that declines ("no"), cannot ("na") or asks for
      authentication ("challenge") without an error is read as offering suspend:
      every such string converts to true. */
  lemma RefusalReadsAsAvailable(s: Services, ask: (Backend, Query) -> Reply, answer: string)
    requires s.logind
    requires answer == "no" || answer == "na" || answer == "challenge"
    requires ask(Logind, AskSuspend) == Reply(Str(answer), "")
    ensures CanSuspend(s, ask)
  {
    assert answer[0] == 'n' || answer[0] == 'c';
  }

  /** The evident intent of availableAction: a string reply counts only when it is the
      affirmative string, and a boolean reply as before. */
  function IntendedAvailable(q: Query, b: Backend, s: Services, ask: (Backend, Query) -> Reply): (r: bool)
    ensures ask(b, q).first.Str? ==> (r <==> Has(s, b) && ask(b, q).first.text == OkReply)
    ensures ask(b, q).first.Flag? ==> r == AvailableAction(q, b, s, ask)
    ensures ask(b, q).first == Str(OkReply) ==> r == AvailableAction(q, b, s, ask)
  {
    if !Has(s, b) then false
    else
      var reply := ask(b, q);
      match reply.first
      case Str(text) => text == OkReply
      case Flag(value) => value && reply.errorMessage == ""
  }

  /** The answer of the chosen backend, false when none is available. */
  function Answer(choice: Option<Backend>, q: Backend -> Query, s: Services, ask: (Backend, Query) -> Reply): bool
  {
    match choice
    case None => false
    case Some(b) => AvailableAction(q(b), b, s, ask)
  }

  /** The query sent for suspend and hibernate: upower has its own "Allowed" methods. */
  function SuspendQuery(b: Backend): Query
  {
    if b == UPower then AskSuspendAllowed else AskSuspend
  }

  function HibernateQuery(b: Backend): Query
  {
    if b == UPower then AskHibernateAllowed else AskHibernate
  }

  function CanRestart(s: Services, ask: (Backend, Query) -> Reply): (r: bool)
    ensures r == Answer(FirstAvailable(SessionChain, s), _ => AskRestart, s, ask)
  {
    if s.logind then AvailableAction(AskRestart, Logind, s, ask)
    else if s.consoleKit then AvailableAction(AskRestart, ConsoleKit, s, ask)
    else false
  }

  function CanPowerOff(s: Services, ask: (Backend, Query) -> Reply): (r: bool)
    ensures r == Answer(FirstAvailable(SessionChain, s), _ => AskPowerOff, s, ask)
  {
    if s.logind then AvailableAction(AskPowerOff, Logind, s, ask)
    else if s.consoleKit then AvailableAction(AskPowerOff, ConsoleKit, s, ask)
    else false
  }

  function CanSuspend(s: Services, ask: (Backend, Query) -> Reply): (r: bool)
    ensures r == Answer(FirstAvailable(SleepChain, s), SuspendQuery, s, ask)
  {
    if s.logind then AvailableAction(AskSuspend, Logind, s, ask)
    else if s.consoleKit then AvailableAction(AskSuspend, ConsoleKit, s, ask)
    else if s.upower then AvailableAction(AskSuspendAllowed, UPower, s, ask)
    else false
  }

  function CanHibernate(s: Services, ask: (Backend, Query) -> Reply): (r: bool)
    ensures r == Answer(FirstAvailable(SleepChain, s), HibernateQuery, s, ask)
  {
    if s.logind then AvailableAction(AskHibernate, Logind, s, ask)
    else if s.consoleKit then AvailableAction(AskHibernate, ConsoleKit, s, ask)
    else if s.upower then AvailableAction(AskHibernateAllowed, UPower, s, ask)
    else false
  }

  function CanHybridSleep(s: Services, ask: (Backend, Query) -> Reply): (r: bool)
    ensures r == Answer(FirstAvailable(SessionChain, s), _ => AskHybridSleep, s, ask)
  {
    if s.logind then AvailableAction(AskHybridSleep, Logind, s, ask)
    else if s.consoleKit then AvailableAction(AskHybridSleep, ConsoleKit, s, ask)
    else false
  }

  /** With logind present, every capability answer is logind's; with logind gone, the
      legacy session manager's; with neither, upower answers suspend and hibernate
      through its "Allowed" queries. With no session manager and no upower, suspend and
      hibernate are refused, and without a session manager restart, power-off and
      hybrid sleep are refused. */
  lemma FallbackOrder(s: Services, ask: (Backend, Query) -> Reply)
    ensures s.logind ==>
      CanRestart(s, ask) == AvailableAction(AskRestart, Logind, s, ask)
      && CanPowerOff(s, ask) == AvailableAction(AskPowerOff, Logind, s, ask)
      && CanSuspend(s, ask) == AvailableAction(AskSuspend, Logind, s, ask)
      && CanHibernate(s, ask) == AvailableAction(AskHibernate, Logind, s, ask)
      && CanHybridSleep(s, ask) == AvailableAction(AskHybridSleep, Logind, s, ask)
    ensures !s.logind && s.consoleKit ==>
      CanRestart(s, ask) == AvailableAction(AskRestart, ConsoleKit, s, ask)
      && CanPowerOff(s, ask) == AvailableAction(AskPowerOff, ConsoleKit, s, ask)
      && CanSuspend(s, ask) == AvailableAction(AskSuspend, ConsoleKit, s, ask)
      && CanHibernate(s, ask) == AvailableAction(AskHibernate, ConsoleKit, s, ask)
      && CanHybridSleep(s, ask) == AvailableAction(AskHybridSleep, ConsoleKit, s, ask)
    ensures !s.logind && !s.consoleKit && s.upower ==>
      CanSuspend(s, ask) == AvailableAction(AskSuspendAllowed, UPower, s, ask)
      && CanHibernate(s, ask) == AvailableAction(AskHibernateAllowed, UPower, s, ask)
    ensures !s.logind && !s.consoleKit && !s.upower ==> !CanSuspend(s, ask) && !CanHibernate(s, ask)
    ensures !s.logind && !s.consoleKit ==> !CanRestart(s, ask) && !CanPowerOff(s, ask) && !CanHybridSleep(s, ask)
  {
  }

  /** A message bus call: the backend, the action, and the arguments sent with it. */
  datatype BusCall = BusCall(backend: Backend, action: Action, args: seq<bool>)

  /** The outcome of an action: the call that was sent, if any, and the returned
      message, empty on success. */
  datatype Outcome = Outcome(sent: Option<BusCall>, message: string)

  /** Stand-ins for the translated "no backend" and "failed connection" messages;
      only their being non-empty matters to the callers. */
  const NoBackend: string := "No backend available."
  const FailedConnection: string := "Failed to connect to D-Bus."

  /** executeAction: a call on a backend whose interface is not valid fails with the
      connection message; otherwise the action is sent, with the interactive flag
      `true` to the session managers and without arguments to upower, and the
      reply's error message is returned. */
  function ExecuteAction(a: Action, b: Backend, s: Services, errorOf: BusCall -> string): (o: Outcome)
    ensures !Has(s, b) ==> o == Outcome(None, FailedConnection)
    ensures Has(s, b) ==> o.sent.Some? && o.sent.value.backend == b && o.sent.value.action == a
                          && o.message == errorOf(o.sent.value)
    ensures o.sent.Some? ==> (o.sent.value.args == [] <==> b == UPower)
    ensures o.sent.Some? && b != UPower ==> o.sent.value.args == [true]
  {
    if !Has(s, b) then Outcome(None, FailedConnection)
    else
      var call := BusCall(b, a, if b == UPower then [] else [true]);
      Outcome(Some(call), errorOf(call))
  }

  /** The action run on the chosen backend; the "no backend" message when none is available. */
  function Perform(choice: Option<Backend>, a: Action, s: Services, errorOf: BusCall -> string): Outcome
  {
    match choice
    case None => Outcome(None, NoBackend)
    case Some(b) => ExecuteAction(a, b, s, errorOf)
  }

  function Restart(s: Services, errorOf: BusCall -> string): (o: Outcome)
    ensures o == Perform(FirstAvailable(SessionChain, s), RestartCmd, s, errorOf)
  {
    if s.logind then ExecuteAction(RestartCmd, Logind, s, errorOf)
    else if s.consoleKit then ExecuteAction(RestartCmd, ConsoleKit, s, errorOf)
    else Outcome(None, NoBackend)
  }

  function PowerOff(s: Services, errorOf: BusCall -> string): (o: Outcome)
    ensures o == Perform(FirstAvailable(SessionChain, s), PowerOffCmd, s, errorOf)
  {
    if s.logind then ExecuteAction(PowerOffCmd, Logind, s, errorOf)
    else if s.consoleKit then ExecuteAction(PowerOffCmd, ConsoleKit, s, errorOf)
    else Outcome(None, NoBackend)
  }

  function Suspend(s: Services, errorOf: BusCall -> string): (o: Outcome)
    ensures o == Perform(FirstAvailable(SleepChain, s), SuspendCmd, s, errorOf)
  {
    if s.logind then ExecuteAction(SuspendCmd, Logind, s, errorOf)
    else if s.consoleKit then ExecuteAction(SuspendCmd, ConsoleKit, s, errorOf)
    else if s.upower then ExecuteAction(SuspendCmd, UPower, s, errorOf)
    else Outcome(None, NoBackend)
  }

  function Hibernate(s: Services, errorOf: BusCall -> string): (o: Outcome)
    ensures o == Perform(FirstAvailable(SleepChain, s), HibernateCmd, s, errorOf)
  {
    if s.logind then ExecuteAction(HibernateCmd, Logind, s, errorOf)
    else if s.consoleKit then ExecuteAction(HibernateCmd, ConsoleKit, s, errorOf)
    else if s.upower then ExecuteAction(HibernateCmd, UPower, s, errorOf)
    else Outcome(None, NoBackend)
  }

  function HybridSleep(s: Services, errorOf: BusCall -> string): (o: Outcome)
    ensures o == Perform(FirstAvailable(SessionChain, s), HybridSleepCmd, s, errorOf)
  {
    if s.logind then ExecuteAction(HybridSleepCmd, Logind, s, errorOf)
    else if s.consoleKit then ExecuteAction(HybridSleepCmd, ConsoleKit, s, errorOf)
    else Outcome(None, NoBackend)
  }

  /** An action reports success (an empty message) only when a call was actually
      sent to an available backend and that backend returned no error. */
  lemma SuccessMeansSent(s: Services, errorOf: BusCall -> string)
    ensures forall o :: o in [Restart(s, errorOf), PowerOff(s, errorOf), Suspend(s, errorOf),
                              Hibernate(s, errorOf), HybridSleep(s, errorOf)] && o.message == "" ==>
      o.sent.Some? && Has(s, o.sent.value.backend) && errorOf(o.sent.value) == ""
  {
  }

  /** Restart, power-off and hybrid sleep never reach upower; suspend and hibernate
      reach it only when neither session manager is available. */
  lemma UPowerOnlyAsLastResort(s: Services, errorOf: BusCall -> string)
    ensures Restart(s, errorOf).sent.Some? ==> Restart(s, errorOf).sent.value.backend != UPower
    ensures PowerOff(s, errorOf).sent.Some? ==> PowerOff(s, errorOf).sent.value.backend != UPower
    ensures HybridSleep(s, errorOf).sent.Some? ==> HybridSleep(s, errorOf).sent.value.backend != UPower
    ensures Suspend(s, errorOf).sent.Some? && Suspend(s, errorOf).sent.value.backend == UPower
            <==> !s.logind && !s.consoleKit && s.upower
    ensures Hibernate(s, errorOf).sent.Some? && Hibernate(s, errorOf).sent.value.backend == UPower
            <==> !s.logind && !s.consoleKit && s.upower
  {
  }
}
