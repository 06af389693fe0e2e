/** One journaled power operation on a persistent host, over any number of crashes and reruns. */
module Power {
  import opened Options

  datatype Action = Start | Stop | Reboot
  datatype HostStatus = Active | Shutoff
  datatype Status = Running | RecoveryRequired | Succeeded
  datatype Phase = Validated | Powering | PowerRequested | Powered
  datatype Outcome = Done | Failed | Crashed

  /** What a boot leaves on the console. */
  datatype Marker = Ready | Unready

  /** A command that reached the provider, and what the journal said at that moment. */
  datatype Command = Command(server: nat, phase: Phase, journaled: Option<nat>)

  /** Where an attempt may be interrupted. */
  datatype Point = BeforeCheckpoint | BeforeCommand | AfterCommand | AfterRequest | BeforePowered | BeforeEnd

  /** Everything the environment decides in one attempt: whether the host can be observed at
      first and at last, whether the command takes effect, is answered and boots well, and where
      the process dies. */
  datatype Luck = Luck(seen: bool, applied: bool, answered: bool, boots: bool, watched: bool, crash: Option<Point>)

  const FINE := Luck(true, true, true, true, true, None)

  function Wanted(action: Action): HostStatus { if action == Stop then Shutoff else Active }

  /** The provider carries out a start only of a stopped host, and the others only of a running one. */
  predicate Applicable(action: Action, status: HostStatus) { (action == Start) == (status == Shutoff) }

  function Boots(console: seq<Marker>): nat {
    if console == [] then 0
    else Boots(console[..|console| - 1]) + if console[|console| - 1] == Ready then 1 else 0
  }

  lemma BootsMore(console: seq<Marker>, marker: Marker)
    ensures Boots(console + [marker]) == Boots(console) + if marker == Ready then 1 else 0
  {
    assert (console + [marker])[..|console|] == console;
  }

  /** One more marker is a fresh readiness exactly when it says so. */
  lemma FreshMarker(console: seq<Marker>, marker: Marker)
    ensures FreshlyReady(console + [marker], Boots(console)) <==> marker == Ready
  {
    BootsMore(console, marker);
  }

  /** More boots than before became ready, and the latest one did. */
  predicate FreshlyReady(console: seq<Marker>, baseline: nat) {
    Boots(console) > baseline && console[|console| - 1] == Ready
  }

  /** The first attempt meets no trouble and the provider carries the command out. */
  predicate Smooth(action: Action, status: HostStatus, luck: Luck) {
    && Applicable(action, status) && luck.seen && luck.applied && luck.answered && luck.watched
    && (action == Stop || luck.boots) && luck.crash.None?
  }

  /** The host, changed only by the commands of this operation, and the operation's journal. */
  class Operation {
    const action: Action
    const host: nat
    var hostStatus: HostStatus
    var console: seq<Marker>

    var status: Status
    var phase: Phase
    var server: Option<nat>
    var baseline: nat

    ghost var sent: seq<Command>

    /** At most one command was ever sent, after a durable checkpoint naming its server. */
    ghost predicate Valid()
      reads this
    {
      && |sent| <= 1 && (sent != [] ==> sent[0] == Command(host, Powering, Some(host)))
      && (phase == Validated ==> sent == [])
      && (phase != Validated ==> server == Some(host))
      && (phase == PowerRequested ==> sent != [])
      && (phase != Validated && action != Stop && sent == [] ==> Boots(console) == baseline)
      && (phase == Powered ==> Delivered())
      && (status == Succeeded ==> phase == Powered)
    }

    /** The host is as asked, and has booted well since the checkpoint unless it was stopped. */
    predicate Delivered()
      reads this
    {
      hostStatus == Wanted(action) && (action != Stop ==> FreshlyReady(console, baseline))
    }

    constructor (action: Action, host: nat, hostStatus: HostStatus, console: seq<Marker>)
      ensures Valid() && status == Running && phase == Validated && sent == []
      ensures this.action == action && this.host == host && this.hostStatus == hostStatus && this.console == console
    {
      this.action, this.host, this.hostStatus, this.console := action, host, hostStatus, console;
      status, phase, server, baseline, sent := Running, Validated, None, 0, [];
    }

    /** Send the one command. */
    method Send(luck: Luck) returns (ok: bool)
      requires Valid() && phase == Powering && server == Some(host) && sent == []
      modifies this`hostStatus, this`console, this`sent
      ensures Valid() && sent == [Command(host, phase, server)]
      ensures ok <==> Applicable(action, old(hostStatus)) && luck.answered
      ensures if Applicable(action, old(hostStatus)) && luck.applied
              then Delivered() <==> action == Stop || luck.boots
              else hostStatus == old(hostStatus) && console == old(console)
    {
      sent := sent + [Command(host, phase, server)];
      ok := Applicable(action, hostStatus) && luck.answered;
      if Applicable(action, hostStatus) && luck.applied {
        hostStatus := Wanted(action);
        if action != Stop {
          FreshMarker(console, if luck.boots then Ready else Unready);
          console := console + [if luck.boots then Ready else Unready];
        }
      }
    }

    /** The first attempt: checkpoint, command, observation. */
    method PowerHost(luck: Luck) returns (outcome: Outcome)
      requires Valid() && phase == Validated
      modifies this`hostStatus, this`console, this`sent, this`phase, this`server, this`baseline
      ensures Valid() && (outcome == Done ==> Delivered() && sent != [])
      ensures phase == Validated || phase == Powering || phase == PowerRequested
      ensures luck.seen && luck.crash == Some(BeforeCommand) ==>
                phase == Powering && sent == [] && hostStatus == old(hostStatus) && console == old(console)
                && outcome == Crashed
      ensures outcome == Done <==>
                Smooth(action, old(hostStatus), luck.(crash := None))
                && (luck.crash == None || luck.crash == Some(BeforePowered) || luck.crash == Some(BeforeEnd))
      ensures luck.seen && luck.crash.None? && !Applicable(action, old(hostStatus)) ==>
                phase == Powering && hostStatus == old(hostStatus) && console == old(console)
                && (Delivered() <==> action == Stop)
      ensures luck.seen && luck.crash.None? && Applicable(action, old(hostStatus)) ==>
                phase == if luck.answered then PowerRequested else Powering
    {
      if !luck.seen { return Failed; }
      var counted := if action != Stop then Boots(console) else 0;
      if luck.crash == Some(BeforeCheckpoint) { return Crashed; }
      phase, server, baseline := Powering, Some(host), counted;
      if luck.crash == Some(BeforeCommand) { return Crashed; }
      var ok := Send(luck);
      if luck.crash == Some(AfterCommand) { return Crashed; }
      if !ok { return Failed; }
      phase := PowerRequested;
      if luck.crash == Some(AfterRequest) { return Crashed; }
      assert luck.crash.Some? ==> luck.crash.value == BeforePowered || luck.crash.value == BeforeEnd;
      outcome := if luck.watched && Delivered() then Done else Failed;
    }

    /** One invocation of the driver. A rerun past the checkpoint sends nothing, so it completes
        exactly when it can observe that the first command was delivered. */
    method Attempt(luck: Luck) returns (outcome: Outcome)
      requires Valid() && status != Succeeded
      modifies this
      ensures Valid() && (outcome == Done <==> status == Succeeded) && (outcome == Failed ==> status == RecoveryRequired)
              && (outcome == Crashed ==> status == old(status))
      ensures outcome == Done ==>
                if action == Stop then hostStatus == Shutoff
                else hostStatus == Active && console != [] && console[|console| - 1] == Ready
      ensures old(phase) != Validated ==>
                && sent == old(sent) && hostStatus == old(hostStatus) && console == old(console) && baseline == old(baseline)
                && phase != Validated
      ensures old(phase) == Powered ==> outcome == Done
      ensures old(phase) == Powering || old(phase) == PowerRequested ==>
                (outcome == Done <==> old(Delivered()) && luck.seen && luck.watched
                                      && luck.crash != Some(BeforePowered) && luck.crash != Some(BeforeEnd))
      ensures old(phase) == Validated ==> (outcome == Done <==> Smooth(action, old(hostStatus), luck))
      ensures old(phase) == Validated && luck.seen && luck.crash == Some(BeforeCommand) ==>
                phase == Powering && sent == [] && hostStatus == old(hostStatus) && console == old(console)
      ensures old(phase) == Validated && luck.seen && luck.crash.None? && !Applicable(action, old(hostStatus)) ==>
                phase == Powering && hostStatus == old(hostStatus) && console == old(console)
                && (Delivered() <==> action == Stop)
      ensures old(phase) == Validated && luck.seen && luck.crash.None? && Applicable(action, old(hostStatus)) ==>
                phase == if outcome == Done then Powered else if luck.answered then PowerRequested else Powering
    {
      if phase == Powered {
        status := Succeeded;
        return Done;
      }
      if phase == Validated {
        outcome := PowerHost(luck);
      } else {
        outcome := if luck.seen && server == Some(host) && luck.watched && Delivered() then Done else Failed;
      }
      if outcome == Crashed { return; }
      if outcome == Failed { status := RecoveryRequired; return; }
      if luck.crash == Some(BeforePowered) { return Crashed; }
      phase := Powered;
      if luck.crash == Some(BeforeEnd) { return Crashed; }
      status := Succeeded;
    }

    /** Any number of invocations send at most one command, and once the checkpoint is durable
        none of them sends one. */
    method Reruns(lucks: nat -> Luck, attempts: nat)
      requires Valid() && status != Succeeded
      modifies this
      ensures Valid()
      ensures old(phase) != Validated ==> sent == old(sent) && hostStatus == old(hostStatus) && console == old(console)
      ensures old(phase) != Validated && !old(Delivered()) ==> status != Succeeded
    {
      for i := 0 to attempts
        invariant Valid()
        invariant old(phase) != Validated ==>
                    && sent == old(sent) && phase != Validated && hostStatus == old(hostStatus)
                    && console == old(console) && baseline == old(baseline)
        invariant old(phase) != Validated && !old(Delivered()) ==> status != Succeeded
      {
        if status == Succeeded { return; }
        var outcome := Attempt(lucks(i));
      }
    }
  }

  /** A run: a start is interrupted between its checkpoint and its command, and stays undone
      whatever is tried afterwards. */
  method InterruptedStart(host: nat, console: seq<Marker>, lucks: nat -> Luck, attempts: nat) returns (operation: Operation)
    ensures fresh(operation) && operation.status != Succeeded && operation.sent == [] && operation.hostStatus == Shutoff
  {
    operation := new Operation(Start, host, Shutoff, console);
    var outcome := operation.Attempt(FINE.(crash := Some(BeforeCommand)));
    operation.Reruns(lucks, attempts);
  }

  /** Another: a start of a host that is already running is refused, and can never be finished. */
  method NeedlessStart(host: nat, console: seq<Marker>, lucks: nat -> Luck, attempts: nat) returns (operation: Operation)
    ensures fresh(operation) && operation.status != Succeeded && operation.hostStatus == Active && operation.console == console
  {
    operation := new Operation(Start, host, Active, console);
    var outcome := operation.Attempt(FINE);
    operation.Reruns(lucks, attempts);
  }
}
