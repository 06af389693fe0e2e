/** Persistent-host replacement as a crash-interruptible protocol.

    A state holds the provider project, the durable operation journal and the
    volatile process.  `Next` is one atomic action: a provider command with or
    without its effect, an observation, a journal transaction, or a crash.  The
    action carries every choice the environment makes, so a run is a sequence of
    actions and `Execute`d deterministically. */
module Replacement {
  import opened Options
  import opened Cloud

  /** What the first observation fixes for the whole operation. */
  datatype Plan = Plan(
    op: Id, name: Text, away: Text,
    oldServer: Id, oldPower: Power, oldImage: Id, oldFlavor: Id,
    port: Id, devices: map<Id, Text>, order: seq<Id>,
    image: Id, flavor: Id)

  datatype Phase =
    | Validated | Observed | OldStopped | OldRenamed | OldRetained | ResourcesDetached
    | Ambiguous | ReplacementCreated | ReplacementDeleted | Accepted | Complete | RolledBack

  datatype Status = Running | RecoveryRequired | Failed | Succeeded

  /** `replacement` and `observations` are the refs that recovery reads besides the plan. */
  datatype Journal = Journal(status: Status, phase: Phase, replacement: Option<Id>, observations: bool)

  datatype Recovery = Rollback | Continue | CleanupOld

  /** Every provider mutation that is issued and then verified. `Restored` and
      `Revive` verify the rollback; `Restored` issues nothing. */
  datatype Step =
    | StopOld | RenameAway | FreePort | FreeVolume(i: nat)
    | DropReplacement | TakePort | TakeVolume(i: nat) | RenameBack | Restored | Revive
    | DropOld

  datatype Refs = Keep | Set(replacement: Option<Id>)
  datatype Error = Plain | Ambiguity(refs: Refs)
  datatype Result = Restoration | Replaced | Retained

  datatype Pc =
    | Preflight
    | Mutate(step: Step) | Confirm(step: Step)
    | PowerBack
    | Save(phase: Phase) | SaveComplete(confirmed: bool)
    | CreateServer | CreateRefused | Judge
    | Survey | Recheck | CheckOld
    | Raise(error: Error) | Return(result: Result)

  datatype Mode = Fresh | Recovering(phase: Phase, action: Recovery)

  datatype Process = Down | Up(mode: Mode, pc: Pc, replacement: Option<Id>)

  datatype State = State(cloud: Project, journal: Journal, process: Process)

  datatype Reply = Accept | Refuse | Silence

  datatype Action =
    | Crash
    | Boot(server: Id, power: Power)
    | Launch(recovery: Recovery)
    | Observe | Decline
    | Issue(applied: bool)
    | IssueCreate(server: Id, applied: bool, reply: Reply)
    | Verified | Unverified | Unanswered
    | Checkpoint
    | Mark

  predicate Committed(phase: Phase) { phase == Accepted || phase == Complete }

  predicate Unfinished(j: Journal) { j.status == Running || j.status == RecoveryRequired }

  /** Recovery actions that the recorded phase permits. */
  predicate Allowed(phase: Phase, r: Recovery) {
    match phase
    case Observed | OldStopped | OldRenamed | OldRetained | ResourcesDetached | Ambiguous | ReplacementDeleted =>
      r == Rollback
    case ReplacementCreated => r == Rollback || r == Continue
    case Accepted | Complete => r == Continue || r == CleanupOld
    case Validated | RolledBack => false
  }

  /** The one server with this name is `s`, and it owns exactly the fixed port and volumes. */
  predicate Owns(p: Plan, c: Project, s: Id) {
    && Named(c, p.name) == {s}
    && PortsOf(c, s) == {p.port}
    && DevicesOf(c, s) == p.devices
  }

  predicate Identity(p: Plan, c: Project, s: Id) {
    && s in c.servers
    && c.servers[s].name == p.name
    && c.servers[s].image == p.image
    && c.servers[s].flavor == p.flavor
    && c.servers[s].tag == Some(p.op)
  }

  function Candidate(p: Plan): Server { Server(p.name, Other, p.image, p.flavor, Some(p.op)) }

  /** The command a step issues, if any. */
  function CommandOf(p: Plan, c: Project, step: Step, r: Option<Id>): Option<Command> {
    match step
    case StopOld => Some(Stop(p.oldServer))
    case RenameAway => Some(Rename(p.oldServer, p.away))
    case FreePort => Some(DetachPort(p.oldServer, p.port))
    case FreeVolume(i) => if i < |p.order| then Some(DetachVolume(p.oldServer, p.order[i])) else None
    case DropReplacement => if r.Some? then Some(Delete(r.value)) else None
    case TakePort => Some(AttachPort(p.oldServer, p.port))
    case TakeVolume(i) =>
      if i < |p.order| && p.order[i] in p.devices
      then Some(AttachVolume(p.oldServer, p.order[i], p.devices[p.order[i]])) else None
    case RenameBack => Some(Rename(p.oldServer, p.name))
    case Restored => None
    case Revive => if p.oldServer in c.servers && c.servers[p.oldServer].power == Active then None else Some(Start(p.oldServer))
    case DropOld => Some(Delete(p.oldServer))
  }

  /** What verification of a step looks for. */
  predicate Goal(p: Plan, c: Project, step: Step, r: Option<Id>) {
    match step
    case StopOld => p.oldServer in c.servers && c.servers[p.oldServer].power == Shutoff && c.servers[p.oldServer].name == p.name
    case RenameAway => Named(c, p.away) == {p.oldServer}
    case FreePort => p.port in c.ports && c.ports[p.port] == None
    case FreeVolume(i) => i < |p.order| && !AttachedTo(c, p.order[i], p.oldServer)
    case DropReplacement => r.Some? && r.value !in c.servers
    case TakePort => p.port in c.ports && c.ports[p.port] == Some(p.oldServer)
    case TakeVolume(i) => i < |p.order| && AttachedTo(c, p.order[i], p.oldServer)
    case RenameBack => Named(c, p.name) == {p.oldServer}
    case Restored => Owns(p, c, p.oldServer)
    case Revive => p.oldServer in c.servers && c.servers[p.oldServer].power == Active
    case DropOld => p.oldServer !in c.servers
  }

  /** Control after a verified step. */
  function After(p: Plan, step: Step): Pc {
    match step
    case StopOld => Save(OldStopped)
    case RenameAway => Save(OldRenamed)
    case FreePort => if |p.order| == 0 then Save(ResourcesDetached) else Mutate(FreeVolume(0))
    case FreeVolume(i) => if i + 1 < |p.order| then Mutate(FreeVolume(i + 1)) else Save(ResourcesDetached)
    case DropReplacement => Save(ReplacementDeleted)
    case TakePort => if |p.order| == 0 then Mutate(RenameBack) else Mutate(TakeVolume(0))
    case TakeVolume(i) => if i + 1 < |p.order| then Mutate(TakeVolume(i + 1)) else Mutate(RenameBack)
    case RenameBack => Confirm(Restored)
    case Restored => if p.oldPower == Active then Mutate(Revive) else Save(RolledBack)
    case Revive => Save(RolledBack)
    case DropOld => SaveComplete(true)
  }

  predicate IsRollbackStep(step: Step) {
    step.DropReplacement? || step.TakePort? || step.TakeVolume? || step.RenameBack? || step.Restored? || step.Revive?
  }

  /** An unverified or unanswered step. Recovery just reports; a fresh run journals first. */
  function Failure(u: Process, step: Step, answered: bool): Process
    requires u.Up?
  {
    if u.mode.Recovering? then Down
    else if step == StopOld then u.(pc := PowerBack)
    else if step == DropOld then u.(pc := if answered then SaveComplete(false) else Raise(Plain))
    else if step == Revive then u.(pc := Raise(Ambiguity(Set(u.replacement))))
    else if !answered then u.(pc := Raise(Plain))
    else u.(pc := Raise(Ambiguity(if IsRollbackStep(step) then Set(u.replacement) else Keep)))
  }

  function StartRollback(u: Process, r: Option<Id>): Process
    requires u.Up?
  {
    Up(u.mode, if r.Some? then Mutate(DropReplacement) else Mutate(TakePort), r)
  }

  /** What one look at the project shows the client. */
  datatype Sighting = Sighting(oldHere: bool, intact: bool, alive: set<Id>, tagged: set<Id>, genuine: set<Id>)

  predicate IsOld(p: Plan, server: Server) {
    server.name in {p.name, p.away} && server.power != Other && server.image == p.oldImage && server.flavor == p.oldFlavor
  }

  function Look(p: Plan, c: Project): Sighting {
    Sighting(
      p.oldServer in c.servers,
      p.oldServer in c.servers && IsOld(p, c.servers[p.oldServer]),
      c.servers.Keys,
      Tagged(c, p.op),
      set x | x in c.servers && Identity(p, c, x))
  }

  /** What recovery concludes from its observations, before it changes anything. */
  function Surveyed(u: Process, seen: Sighting): Process
    requires u.Up? && u.mode.Recovering?
  {
    if !seen.oldHere && !Committed(u.mode.phase) then Down
    else if seen.oldHere && !seen.intact then Down
    else if u.replacement.None? && |seen.tagged| > 1 then Down
    else
      var r := if u.replacement.Some? then u.replacement
               else if |seen.tagged| == 1 then Some(Only(seen.tagged)) else None;
      var r' := if u.mode.action == Rollback && r.Some? && r.value !in seen.alive then None else r;
      if r'.Some? && r'.value !in seen.genuine then Down
      else if u.mode.action == Rollback then StartRollback(u, r')
      else if r'.None? then Down
      else Up(u.mode, Recheck, r')
  }

  function Only(s: set<Id>): (x: Id)
    requires |s| == 1
    ensures s == {x}
  {
    OneElement(s);
    var x :| x in s; x
  }

  lemma OneElement(s: set<Id>)
    requires |s| == 1
    ensures exists x :: s == {x}
  {
    var x :| x in s;
    assert |s - {x}| == 0;
    assert s == {x};
  }

  function Merge(recorded: Option<Id>, refs: Refs): Option<Id> {
    match refs
    case Keep => recorded
    case Set(r) => r
  }

  /** The client's durable and volatile state. */
  datatype Local = Local(journal: Journal, process: Process)

  /** Journal and control after `checkpoint(phase, ...)`. */
  function Saved(p: Plan, j: Journal, u: Process, phase: Phase): Local
    requires u.Up?
  {
    match phase
    case Observed =>
      Local(j.(phase := phase),
            u.(pc := if p.oldPower == Active then Mutate(StopOld)
                     else if p.oldPower == Shutoff then Save(OldStopped)
                     else Raise(Plain)))
    case OldStopped => Local(j.(phase := phase), u.(pc := Mutate(RenameAway)))
    case OldRenamed => Local(j.(phase := phase), u.(pc := Mutate(FreePort)))
    case ResourcesDetached => Local(j.(phase := phase), u.(pc := CreateServer))
    case ReplacementCreated => Local(j.(phase := phase, replacement := u.replacement), u.(pc := Judge))
    case ReplacementDeleted => Local(j.(phase := phase, replacement := u.replacement), u.(pc := Mutate(TakePort)))
    case Accepted =>
      Local(j.(phase := phase, replacement := u.replacement, observations := true),
            u.(pc := if u.mode.Fresh? then Mutate(DropOld) else CheckOld))
    case RolledBack => Local(j.(phase := phase), u.(pc := Return(Restoration)))
    case _ => Local(j, u)
  }

  /** The operator command run again while the operation is unfinished. */
  function Launched(p: Plan, j: Journal, r: Recovery): Option<Local> {
    if !Unfinished(j) then None
    else if j.phase == Validated then Some(Local(j.(status := Failed), Down))
    else if !Allowed(j.phase, r) || p.oldPower == Other then None
    else Some(Local(j, Up(Recovering(j.phase, r), Survey, j.replacement)))
  }

  /** The client's reaction to one action, given what it sees; `None` when it does not apply. */
  function Client(p: Plan, j: Journal, u: Process, a: Action, seen: Sighting): Option<Local> {
    if a == Crash then if u.Up? then Some(Local(j, Down)) else None
    else if a.Boot? then Some(Local(j, u))
    else if u.Down? then if a.Launch? then Launched(p, j, a.recovery) else None
    else
      match (u.pc, a)
      case (Preflight, Observe) => Some(Local(j, u.(pc := Save(Observed))))
      case (Preflight, Decline) => Some(Local(j, u.(pc := Raise(Plain))))
      case (Mutate(step), Issue(_)) => Some(Local(j, u.(pc := Confirm(step))))
      case (Confirm(step), Verified) => Some(Local(j, u.(pc := After(p, step))))
      case (Confirm(step), Unverified) => Some(Local(j, Failure(u, step, true)))
      case (Confirm(step), Unanswered) => Some(Local(j, Failure(u, step, false)))
      case (PowerBack, Issue(_)) => Some(Local(j, u.(pc := Raise(Ambiguity(Keep)))))
      case (Save(phase), Checkpoint) => Some(Saved(p, j, u, phase))
      case (SaveComplete(confirmed), Checkpoint) =>
        Some(Local(j.(phase := Complete, replacement := u.replacement, observations := true),
                   u.(pc := Return(if confirmed then Replaced else Retained))))
      case (CreateServer, IssueCreate(x, _, reply)) =>
        Some(Local(j, match reply
                      case Accept => u.(pc := Save(ReplacementCreated), replacement := Some(x))
                      case Refuse => u.(pc := CreateRefused)
                      case Silence => u.(pc := Raise(Ambiguity(Keep)))))
      case (CreateRefused, Observe) =>
        Some(Local(j, if seen.tagged == {} then StartRollback(u, None) else u.(pc := Raise(Ambiguity(Keep)))))
      case (CreateRefused, Unanswered) => Some(Local(j, u.(pc := Raise(Ambiguity(Keep)))))
      case (Judge, Verified) => Some(Local(j, u.(pc := Save(Accepted))))
      case (Judge, Unverified) => Some(Local(j, StartRollback(u, u.replacement)))
      case (Survey, Observe) => if u.mode.Recovering? then Some(Local(j, Surveyed(u, seen))) else None
      case (Survey, Unanswered) => Some(Local(j, Down))
      case (Recheck, Verified) =>
        Some(Local(j, if u.mode.Recovering? && u.mode.phase == ReplacementCreated then u.(pc := Save(Accepted))
                      else if j.observations then u.(pc := CheckOld) else Down))
      case (Recheck, Unverified) => Some(Local(j, Down))
      case (CheckOld, Observe) => Some(Local(j, u.(pc := if seen.oldHere then Mutate(DropOld) else SaveComplete(true))))
      case (CheckOld, Unanswered) => Some(Local(j, Down))
      case (Raise(Ambiguity(refs)), Checkpoint) =>
        Some(Local(j.(phase := Ambiguous, replacement := Merge(j.replacement, refs)), u.(pc := Raise(Plain))))
      case (Raise(Plain), Mark) =>
        Some(Local(j.(status := if j.phase == Validated then Failed else RecoveryRequired), Down))
      case (Return(result), Mark) =>
        Some(Local(j.(status := match result
                                case Restoration => Failed
                                case Replaced => Succeeded
                                case Retained => RecoveryRequired), Down))
      case _ => None
  }

  /** The project after an action: commands have their whole effect or none. */
  function Effect(p: Plan, c: Project, u: Process, a: Action): Project {
    match a
    case Boot(x, w) => if x in c.servers then c.(servers := c.servers[x := c.servers[x].(power := w)]) else c
    case Issue(applied) =>
      if !applied || u.Down? then c
      else if u.pc.Mutate? then
        var cmd := CommandOf(p, c, u.pc.step, u.replacement);
        if cmd.Some? then Execute(c, cmd.value) else c
      else if u.pc.PowerBack? then Execute(c, Start(p.oldServer))
      else c
    case IssueCreate(x, applied, _) =>
      if applied && u.Up? && u.pc.CreateServer? then Execute(c, Create(x, Candidate(p), p.port, p.devices)) else c
    case _ => c
  }

  /** Observations are truthful when they are answered at all; health may fail at any time;
      a create request that succeeds reports its own fresh server. */
  predicate Truthful(p: Plan, c: Project, u: Process, a: Action) {
    match a
    case Boot(x, _) => x in c.servers && c.servers[x].tag == Some(p.op)
    case IssueCreate(x, _, reply) =>
      Unused(c, x) && x != p.oldServer && (reply == Accept ==> x in Effect(p, c, u, a).servers)
    case Verified =>
      u.Up? ==>
        && (u.pc.Confirm? ==> Goal(p, c, u.pc.step, u.replacement))
        && (u.pc.Judge? || u.pc.Recheck? ==>
              u.replacement.Some? && Identity(p, c, u.replacement.value) && Owns(p, c, u.replacement.value))
    case Unverified =>
      u.Up? && u.pc.Confirm? && u.pc.step != Revive ==> !Goal(p, c, u.pc.step, u.replacement)
    case _ => true
  }

  /** One atomic action, or `None` when the state does not allow it. */
  function Next(p: Plan, s: State, a: Action): Option<State> {
    if !Truthful(p, s.cloud, s.process, a) then None
    else
      match Client(p, s.journal, s.process, a, Look(p, s.cloud))
      case None => None
      case Some(local) => Some(State(Effect(p, s.cloud, s.process, a), local.journal, local.process))
  }
}
