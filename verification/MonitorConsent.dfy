/** The consent ladder of mailbox monitoring: off, notify, queue, agent, and an agent whose output
    may leave the machine, one approved command at a time. */
module MonitorConsent {
  import opened Wrappers

  datatype Mode = Off | Notify | Queue | Agent

  /** `egress` of a runner; modes without a runner have none. */
  datatype Egress = Local | Remote

  datatype Monitor = Monitor(mode: Mode, runner: Option<Egress>)

  /** One run of the enable command. The last four stand for checks against the outside: that the
      platform can notify, the daemon is stopped, the rest of the settings are valid and the update
      of the file succeeds. */
  datatype Request = Request(
    mode: Mode,
    approve: bool,
    approveRemote: bool,
    egress: Egress,
    runner: bool,
    runnerDetails: bool,
    notificationFields: bool,
    quietValues: nat,
    canNotify: bool,
    daemonStopped: bool,
    settingsValid: bool,
    updated: bool)

  /** One run of the disable command. */
  datatype Removal = Removal(approve: bool, retainQueue: bool, purgeQueue: bool, daemonStopped: bool, updated: bool)

  function ModeOf(monitor: Option<Monitor>): Mode {
    if monitor.Some? then monitor.value.mode else Off
  }

  predicate ValidTransition(current: Mode, requested: Mode) {
    if current == requested then current != Off
    else
      match current
      case Off => requested == Notify
      case Notify => requested == Queue
      case Queue => requested == Agent
      case Agent => false
  }

  /** A runner's egress and its separate approval must agree. */
  predicate EgressValid(egress: Egress, approved: bool) {
    egress == Remote <==> approved
  }

  /** The monitor that is stored, if the command gets that far. */
  function Enabled(monitor: Option<Monitor>, request: Request): Option<Monitor> {
    var current := ModeOf(monitor);
    if !request.approve || (request.mode == Notify && !request.canNotify) || !request.daemonStopped then None
    else if !ValidTransition(current, request.mode) then None
    else if current != Agent && request.mode == Agent && request.egress == Remote then None
    else if request.quietValues != 0 && request.quietValues != 3 then None
    else
      var plain := !request.runner && !request.runnerDetails && !request.approveRemote && request.egress == Local;
      var accepted :=
        match request.mode
        case Off => false
        case Notify => plain
        case Queue => plain && !request.notificationFields
        case Agent => request.runner && !request.notificationFields && EgressValid(request.egress, request.approveRemote);
      if !accepted || !request.settingsValid || !request.updated then None
      else Some(Monitor(request.mode, if request.mode == Agent then Some(request.egress) else None))
  }

  predicate Disables(removal: Removal) {
    removal.retainQueue != removal.purgeQueue && removal.approve && removal.daemonStopped && removal.updated
  }

  datatype Command = Enable(request: Request) | Disable(removal: Removal)

  function Run(monitor: Option<Monitor>, command: Command): Option<Monitor> {
    match command
    case Enable(request) => if Enabled(monitor, request).Some? then Enabled(monitor, request) else monitor
    case Disable(removal) => if Disables(removal) then None else monitor
  }

  /** The stored monitoring of one account. */
  class AccountConfiguration {
    var monitor: Option<Monitor>

    constructor ()
      ensures monitor == None
    {
      monitor := None;
    }

    method EnableMonitor(request: Request) returns (enabled: bool)
      modifies this
      ensures enabled == Enabled(old(monitor), request).Some?
      ensures monitor == Run(old(monitor), Enable(request))
      ensures enabled ==> monitor == Some(Monitor(request.mode, if request.mode == Agent then Some(request.egress) else None))
      ensures !enabled ==> monitor == old(monitor)
    {
      if !request.approve || (request.mode == Notify && !request.canNotify) || !request.daemonStopped {
        return false;
      }
      var currentMode := Off;
      if monitor.Some? {
        currentMode := monitor.value.mode;
      }
      if !ValidTransition(currentMode, request.mode) {
        return false;
      }
      if currentMode != Agent && request.mode == Agent && request.egress == Remote {
        return false;
      }
      if request.quietValues != 0 && request.quietValues != 3 {
        return false;
      }
      var runner: Option<Egress> := None;
      match request.mode {
        case Off => return false;
        case Notify =>
          if request.runner || request.runnerDetails || request.approveRemote || request.egress != Local {
            return false;
          }
        case Queue =>
          if request.notificationFields || request.runner || request.runnerDetails || request.approveRemote || request.egress != Local {
            return false;
          }
        case Agent =>
          if !request.runner || request.notificationFields {
            return false;
          }
          runner := Some(request.egress);
      }
      if runner.Some? && !EgressValid(runner.value, request.approveRemote) {
        return false;
      }
      if !request.settingsValid || !request.updated {
        return false;
      }
      monitor := Some(Monitor(request.mode, runner));
      return true;
    }

    method DisableMonitor(removal: Removal) returns (disabled: bool)
      modifies this
      ensures disabled == Disables(removal) && monitor == Run(old(monitor), Disable(removal))
      ensures monitor == if disabled then None else old(monitor)
    {
      if removal.retainQueue == removal.purgeQueue || !removal.approve || !removal.daemonStopped || !removal.updated {
        return false;
      }
      monitor := None;
      return true;
    }
  }

  // ---------------------------------------------------------------------------------------------
  // Whole histories.
  // ---------------------------------------------------------------------------------------------

  /** The monitoring after the first `n` commands, starting from none. */
  function After(commands: seq<Command>, n: nat): Option<Monitor>
    requires n <= |commands|
  {
    if n == 0 then None else Run(After(commands, n - 1), commands[n - 1])
  }

  /** How far up the ladder. */
  function Level(monitor: Option<Monitor>): nat {
    if monitor == None then 0
    else
      match monitor.value.mode
      case Off => 0
      case Notify => 1
      case Queue => 2
      case Agent => if monitor.value.runner == Some(Remote) then 4 else 3
  }

  /** The rung that a request asks for. */
  function Rung(request: Request): nat {
    match request.mode
    case Off => 0
    case Notify => 1
    case Queue => 2
    case Agent => if request.egress == Remote then 4 else 3
  }

  /** Everything about a request that does not depend on the present monitoring: approved, possible
      here and now, and with exactly the settings of its rung. */
  predicate WellFormed(request: Request) {
    && request.approve && request.daemonStopped && request.settingsValid && request.updated
    && request.quietValues in {0, 3}
    && match request.mode
       case Off => false
       case Notify => request.canNotify && Unarmed(request)
       case Queue => !request.notificationFields && Unarmed(request)
       case Agent => request.runner && !request.notificationFields && (request.approveRemote <==> request.egress == Remote)
  }

  /** Nothing in the request is about a runner. */
  predicate Unarmed(request: Request) {
    !request.runner && !request.runnerDetails && !request.approveRemote && request.egress == Local
  }

  /** Exactly which requests are accepted: the well-formed ones for the next rung, for the present
      one again, or for a local agent in place of a remote one. What is stored is that rung. */
  lemma EnableMeaning(monitor: Option<Monitor>, request: Request)
    ensures Enabled(monitor, request).Some? <==>
            && WellFormed(request)
            && (Rung(request) in {Level(monitor), Level(monitor) + 1} || (Level(monitor) == 4 && Rung(request) == 3))
    ensures Enabled(monitor, request).Some? ==>
              && Level(Enabled(monitor, request)) == Rung(request)
              && Enabled(monitor, request).value == Monitor(request.mode, if request.mode == Agent then Some(request.egress) else None)
  {
  }

  /** What a command leaves: a request that is accepted its rung, a removal that is approved, names
      exactly one treatment of the queue, finds the daemon stopped and is stored nothing at all, and
      any other command what was there before. */
  lemma CommandsMeaning(commands: seq<Command>, i: nat)
    requires i < |commands|
    ensures var before, after := After(commands, i), After(commands, i + 1);
            match commands[i]
            case Enable(request) =>
              after == if Enabled(before, request).Some? then Enabled(before, request) else before
            case Disable(removal) =>
              after == if removal.approve && removal.retainQueue != removal.purgeQueue && removal.daemonStopped && removal.updated
                       then None else before
  {
  }

  function Step(level: nat): Command
    requires 0 < level <= 4
  {
    var mode := if level == 1 then Notify else if level == 2 then Queue else Agent;
    Enable(Request(mode, true, level == 4, if level == 4 then Remote else Local, level > 2, false, false, 0, true, true, true, true))
  }

  /** The ladder can be climbed: `level` well-formed commands in a row reach every rung. */
  lemma {:induction false} EveryRungIsReached(level: nat) returns (commands: seq<Command>)
    requires level <= 4
    ensures |commands| == level && Level(After(commands, level)) == level
    ensures forall i :: 0 <= i < level ==> commands[i].Enable? && WellFormed(commands[i].request) && Rung(commands[i].request) == i + 1
  {
    if level == 0 {
      commands := [];
    } else {
      var lower := EveryRungIsReached(level - 1);
      commands := lower + [Step(level)];
      PrefixDecides(lower, commands, level - 1);
      EnableMeaning(After(lower, level - 1), Step(level).request);
      CommandsMeaning(commands, level - 1);
    }
  }

  lemma {:induction false} PrefixDecides(shorter: seq<Command>, longer: seq<Command>, n: nat)
    requires n <= |shorter| && shorter <= longer
    ensures After(shorter, n) == After(longer, n)
  {
    if n > 0 {
      PrefixDecides(shorter, longer, n - 1);
    }
  }

  /** Command `i` is an approved enable command that set the given mode and egress. */
  predicate Approved(commands: seq<Command>, i: nat, mode: Mode, egress: Egress)
    requires i < |commands|
  {
    && commands[i].Enable? && commands[i].request.approve
    && commands[i].request.mode == mode && commands[i].request.egress == egress
    && (egress == Remote ==> commands[i].request.approveRemote)
    && Enabled(After(commands, i), commands[i].request).Some?
  }

  /** One command climbs at most one rung, and whatever raises the level was an approved enable
      command for exactly the new rung. */
  lemma OneRungAtATime(commands: seq<Command>, i: nat)
    requires i < |commands|
    ensures var before, after := Level(After(commands, i)), Level(After(commands, i + 1));
            && after <= before + 1
            && (after > before ==>
                  Approved(commands, i, if after == 1 then Notify else if after == 2 then Queue else Agent, if after == 4 then Remote else Local))
  {
  }

  /** The last command that rose from below the level `level`, after which the level stayed up. */
  lemma {:induction false} LastRise(commands: seq<Command>, n: nat, level: nat) returns (i: nat)
    requires n <= |commands| && 0 < level <= Level(After(commands, n))
    ensures i < n && Level(After(commands, i)) == level - 1 && Level(After(commands, i + 1)) == level
    ensures forall j :: i < j <= n ==> Level(After(commands, j)) >= level
    decreases n
  {
    OneRungAtATime(commands, n - 1);
    if Level(After(commands, n - 1)) < level {
      i := n - 1;
    } else {
      i := LastRise(commands, n - 1, level);
    }
  }

  /** A removal that is carried out. */
  predicate Removes(command: Command) {
    command.Disable? && Disables(command.removal)
  }

  /** Messages may leave the machine only after four separately approved commands, in this order
      and with monitoring never off in between: notify, queue, a local agent, a remote agent. All
      four came after the last removal that was carried out. */
  lemma RemoteNeedsEveryConsent(commands: seq<Command>, n: nat)
    requires n <= |commands| && After(commands, n).Some? && After(commands, n).value.runner == Some(Remote)
    ensures exists notify, queue, agent, remote :: 0 <= notify < queue < agent < remote < n
              && Approved(commands, notify, Notify, Local) && Approved(commands, queue, Queue, Local)
              && Approved(commands, agent, Agent, Local) && Approved(commands, remote, Agent, Remote)
              && (forall j :: notify < j <= n ==> After(commands, j).Some?)
              && (forall d :: 0 <= d < n && Removes(commands[d]) ==> d < notify)
  {
    RunnersAreAgents(commands, n);
    var remote := LastRise(commands, n, 4);
    var agent := LastRise(commands, remote, 3);
    var queue := LastRise(commands, agent, 2);
    var notify := LastRise(commands, queue, 1);
    OneRungAtATime(commands, remote);
    OneRungAtATime(commands, agent);
    OneRungAtATime(commands, queue);
    OneRungAtATime(commands, notify);
    forall j | notify < j <= n ensures After(commands, j).Some? {
      assert Level(After(commands, j)) >= 1;
    }
    forall d | 0 <= d < n && Removes(commands[d]) ensures d < notify {
      CommandsMeaning(commands, d);
      assert After(commands, d + 1) == None;
    }
  }

  lemma {:induction false} RunnersAreAgents(commands: seq<Command>, n: nat)
    requires n <= |commands|
    ensures After(commands, n).Some? && After(commands, n).value.runner.Some? ==> After(commands, n).value.mode == Agent
  {
    if n > 0 {
      RunnersAreAgents(commands, n - 1);
    }
  }
}
