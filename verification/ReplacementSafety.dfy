/** What every action of a replacement keeps, and what follows over whole runs. */
module ReplacementSafety {
  import opened Options
  import opened Cloud
  import opened Replacement
  import Runs

  /** The situation in which a replacement may begin: the configured host owns exactly
      its port and volumes, and nothing carries the fresh operation tag. */
  ghost predicate Ready(p: Plan, base: Project) {
    && p.oldServer in base.servers
    && base.servers[p.oldServer].power == p.oldPower
    && base.servers[p.oldServer].image == p.oldImage && base.servers[p.oldServer].flavor == p.oldFlavor
    && Owns(p, base, p.oldServer)
    && Tagged(base, p.op) == {}
    && p.name != p.away
    && (forall v :: v in p.order <==> v in p.devices)
    && (forall v, w :: v in p.devices && w in p.devices && p.devices[v] == p.devices[w] ==> v == w)
  }

  function Begin(base: Project): State {
    State(base, Journal(Running, Validated, None, false), Up(Fresh, Preflight, None))
  }

  /** The old server still is what was observed, up to its two names and being stopped. */
  ghost predicate OldIntact(p: Plan, base: Project, c: Project)
    requires p.oldServer in base.servers && p.oldServer in c.servers
  {
    var before, now := base.servers[p.oldServer], c.servers[p.oldServer];
    && now == before.(name := now.name, power := now.power)
    && (now.name == p.name || now.name == p.away)
    && (now.power == p.oldPower || (p.oldPower == Active && now.power == Shutoff))
  }

  /** The project differs from `base` only in the old server, its port and volumes, and
      at most one new server `r`, which holds all of them from birth. */
  ghost predicate Shape(p: Plan, base: Project, c: Project, r: Option<Id>)
    requires p.oldServer in base.servers
  {
    && c.ports.Keys == base.ports.Keys
    && c.volumes.Keys == base.volumes.Keys
    && (forall q :: q in base.ports && q != p.port ==> c.ports[q] == base.ports[q])
    && (forall v :: v in base.volumes && v !in p.devices ==> c.volumes[v] == base.volumes[v])
    && (forall x :: x in base.servers && x != p.oldServer ==> x in c.servers && c.servers[x] == base.servers[x])
    && (forall x :: x in c.servers ==> x in base.servers || r == Some(x))
    && (p.oldServer in c.servers ==> OldIntact(p, base, c))
    && match r
       case None =>
         && p.oldServer in c.servers
         && p.port in c.ports && (c.ports[p.port] == None || c.ports[p.port] == Some(p.oldServer))
         && (forall v :: v in p.devices ==>
               v in c.volumes && (c.volumes[v] == None || c.volumes[v] == Some(Slot(p.oldServer, p.devices[v]))))
       case Some(x) =>
         && Unused(base, x)
         && Identity(p, c, x)
         && p.port in c.ports && c.ports[p.port] == Some(x)
         && (forall v :: v in p.devices ==> v in c.volumes && c.volumes[v] == Some(Slot(x, p.devices[v])))
  }

  /** What the protocol's control depends on: `live` is the replacement that exists now,
      `born` the one ever created, `original` that the project is exactly as it began. */
  datatype Facts = Facts(
    live: Option<Id>, born: Option<Id>, oldHere: bool, oldOwns: bool, oldActive: bool, liveOwns: bool, original: bool)

  ghost function FactsOf(p: Plan, base: Project, c: Project, live: Option<Id>, born: Option<Id>): Facts {
    Facts(live, born,
          p.oldServer in c.servers,
          Owns(p, c, p.oldServer),
          p.oldServer in c.servers && c.servers[p.oldServer].power == Active,
          live.Some? && Owns(p, c, live.value),
          c == base)
  }

  predicate Coherent(p: Plan, f: Facts) {
    && (f.live.Some? ==> f.born == f.live)
    && (f.live.None? ==> f.oldHere)
    && (f.liveOwns ==> f.live.Some?)
    && (f.live.None? && f.oldOwns && (p.oldPower == Active ==> f.oldActive) ==> f.original)
  }

  /** A recorded replacement is the one this operation created. */
  predicate Recorded(f: Facts, id: Option<Id>) { id.Some? ==> f.born == id }

  predicate Undecided(phase: Phase) { !Committed(phase) && phase != RolledBack && phase != Validated }

  predicate JournalInv(f: Facts, j: Journal) {
    && Recorded(f, j.replacement)
    && (j.phase == Validated || j.phase == RolledBack ==> f.original && f.live == None)
    && (!Committed(j.phase) ==> f.oldHere)
    && (j.phase == ReplacementCreated || j.phase == ReplacementDeleted ==> j.replacement.Some?)
    && (Committed(j.phase) ==> f.live.Some? && j.replacement == f.live && j.observations && f.liveOwns)
    && (j.status == Failed ==> j.phase == Validated || j.phase == RolledBack)
    && (j.status == Succeeded ==> j.phase == Complete && !f.oldHere)
  }

  /** A fresh run that has not asked for a server yet. */
  predicate Forward(f: Facts, u: Process)
    requires u.Up?
  {
    u.mode == Fresh && u.replacement == None && f.live == None && f.born == None
  }

  predicate StepInv(p: Plan, f: Facts, j: Journal, u: Process, step: Step)
    requires u.Up?
  {
    if step == DropOld then Committed(j.phase) && u.replacement == f.live
    else if !IsRollbackStep(step) then
      Forward(f, u) && Undecided(j.phase) && (step == StopOld ==> p.oldPower == Active)
    else
      && Undecided(j.phase)
      && (step == DropReplacement ==> u.replacement.Some?)
      && (step != DropReplacement ==> f.live == None)
      && (step == Revive ==> p.oldPower == Active && f.oldOwns)
  }

  /** What a delete is about to be sent for is there. */
  predicate Aimed(f: Facts, u: Process, step: Step)
    requires u.Up?
  {
    (step == DropReplacement ==> u.replacement == f.live) && (step == DropOld ==> f.oldHere)
  }

  predicate SaveInv(p: Plan, f: Facts, j: Journal, u: Process, phase: Phase)
    requires u.Up?
  {
    match phase
    case Observed => Forward(f, u) && j.phase == Validated
    case OldStopped | OldRenamed | ResourcesDetached => Forward(f, u) && Undecided(j.phase)
    case ReplacementCreated => u.mode == Fresh && Undecided(j.phase) && f.live.Some? && u.replacement == f.live
    case ReplacementDeleted => Undecided(j.phase) && f.live == None && u.replacement.Some?
    case Accepted => Undecided(j.phase) && f.live.Some? && u.replacement == f.live && f.liveOwns
    case RolledBack => Undecided(j.phase) && f.live == None && f.original
    case _ => false
  }

  predicate ProcessInv(p: Plan, f: Facts, j: Journal, u: Process) {
    u.Up? ==>
      && Unfinished(j)
      && Recorded(f, u.replacement)
      && match u.pc
         case Preflight => Forward(f, u) && j.phase == Validated
         case Mutate(step) => StepInv(p, f, j, u, step) && Aimed(f, u, step)
         case Confirm(step) => StepInv(p, f, j, u, step)
         case PowerBack => Forward(f, u) && Undecided(j.phase) && p.oldPower == Active
         case Save(phase) => SaveInv(p, f, j, u, phase)
         case SaveComplete(confirmed) =>
           Committed(j.phase) && u.replacement == f.live && confirmed == !f.oldHere
         case CreateServer => Forward(f, u) && Undecided(j.phase)
         case CreateRefused => u.mode == Fresh && Undecided(j.phase) && u.replacement == None
         case Judge => u.mode == Fresh && Undecided(j.phase) && f.live.Some? && u.replacement == f.live
         case Survey =>
           && u.mode.Recovering? && u.mode.phase == j.phase && Allowed(j.phase, u.mode.action)
           && u.replacement == j.replacement
         case Recheck =>
           && u.mode.Recovering? && u.mode.phase == j.phase && u.mode.action != Rollback
           && Allowed(j.phase, u.mode.action) && u.replacement.Some?
         case CheckOld => u.mode.Recovering? && Committed(j.phase) && u.replacement == f.live
         case Raise(e) =>
           && u.mode == Fresh && j.phase != RolledBack
           && (e.Ambiguity? ==>
                 Undecided(j.phase) && (e.refs.Set? ==> Recorded(f, e.refs.replacement)))
         case Return(result) =>
           match result
           case Restoration => j.phase == RolledBack
           case Replaced => j.phase == Complete && !f.oldHere
           case Retained => j.phase == Complete && f.oldHere
  }

  predicate Control(p: Plan, f: Facts, j: Journal, u: Process) {
    Coherent(p, f) && JournalInv(f, j) && ProcessInv(p, f, j, u)
  }

  ghost predicate Inv(p: Plan, base: Project, s: State, live: Option<Id>, born: Option<Id>) {
    && Grounded(p, base, s.cloud, live, born)
    && Control(p, FactsOf(p, base, s.cloud, live, born), s.journal, s.process)
  }

  /** Steps that act on the old server while no replacement exists. */
  lemma OldServerKeepsShape(p: Plan, base: Project, c: Project, cmd: Command)
    requires Ready(p, base) && Shape(p, base, c, None)
    requires cmd.Stop? || cmd.Start? ==> p.oldPower == Active && cmd.server == p.oldServer
    requires cmd.Rename? ==> cmd.server == p.oldServer && (cmd.name == p.name || cmd.name == p.away)
    requires cmd.Stop? || cmd.Start? || cmd.Rename?
    ensures Shape(p, base, Execute(c, cmd), None)
  {
  }

  lemma OldPortKeepsShape(p: Plan, base: Project, c: Project, cmd: Command)
    requires Ready(p, base) && Shape(p, base, c, None)
    requires cmd == AttachPort(p.oldServer, p.port) || cmd == DetachPort(p.oldServer, p.port)
    ensures Shape(p, base, Execute(c, cmd), None)
  {
  }

  lemma OldVolumeKeepsShape(p: Plan, base: Project, c: Project, cmd: Command)
    requires Ready(p, base) && Shape(p, base, c, None)
    requires cmd.AttachVolume? || cmd.DetachVolume?
    requires cmd.server == p.oldServer && cmd.volume in p.devices
    requires cmd.AttachVolume? ==> cmd.device == p.devices[cmd.volume]
    ensures Shape(p, base, Execute(c, cmd), None)
  {
  }

  lemma OldCommandKeepsShape(p: Plan, base: Project, c: Project, step: Step, r: Option<Id>)
    requires Ready(p, base) && Shape(p, base, c, None)
    requires step != DropReplacement && step != DropOld
    requires step == StopOld || step == Revive ==> p.oldPower == Active
    ensures var cmd := CommandOf(p, c, step, r);
            cmd.Some? ==> Shape(p, base, Execute(c, cmd.value), None)
  {
    var cmd := CommandOf(p, c, step, r);
    if cmd.Some? {
      match cmd.value
      case Stop(_) => OldServerKeepsShape(p, base, c, cmd.value);
      case Start(_) => OldServerKeepsShape(p, base, c, cmd.value);
      case Rename(_, _) => OldServerKeepsShape(p, base, c, cmd.value);
      case AttachPort(_, _) => OldPortKeepsShape(p, base, c, cmd.value);
      case DetachPort(_, _) => OldPortKeepsShape(p, base, c, cmd.value);
      case AttachVolume(_, _, _) => OldVolumeKeepsShape(p, base, c, cmd.value);
      case DetachVolume(_, _) => OldVolumeKeepsShape(p, base, c, cmd.value);
    }
  }

  lemma DropReplacementKeepsShape(p: Plan, base: Project, c: Project, x: Id, r: Option<Id>)
    requires Ready(p, base) && Shape(p, base, c, r) && Unused(base, x) && (r.Some? ==> r == Some(x))
    requires p.oldServer in c.servers
    ensures Shape(p, base, Execute(c, Delete(x)), if r == Some(x) then None else r)
    ensures p.oldServer in Execute(c, Delete(x)).servers
  {
  }

  lemma ReleaseKeepsOwner(p: Plan, c: Project, x: Id, y: Id)
    requires Owns(p, c, x) && y != x
    ensures Owns(p, Release(c, y), x)
  {
    var c' := Release(c, y);
    assert Named(c', p.name) == {x} by {
      assert x in Named(c, p.name);
      forall z | z in Named(c', p.name) ensures z == x { assert z in Named(c, p.name); }
    }
    assert PortsOf(c', x) == PortsOf(c, x);
    assert DevicesOf(c', x) == DevicesOf(c, x);
  }

  lemma DropOldKeepsShape(p: Plan, base: Project, c: Project, x: Id)
    requires Ready(p, base) && Shape(p, base, c, Some(x)) && Owns(p, c, x)
    ensures Shape(p, base, Execute(c, Delete(p.oldServer)), Some(x))
    ensures Owns(p, Execute(c, Delete(p.oldServer)), x)
  {
    ReleaseKeepsOwner(p, c, x, p.oldServer);
    forall q | q in base.ports && q != p.port ensures base.ports[q] != Some(p.oldServer) {
      assert q !in PortsOf(base, p.oldServer);
    }
    forall v | v in base.volumes && v !in p.devices ensures !AttachedTo(base, v, p.oldServer) {
      assert v !in DevicesOf(base, p.oldServer);
    }
  }

  lemma CreateKeepsShape(p: Plan, base: Project, c: Project, x: Id)
    requires Ready(p, base) && Shape(p, base, c, None) && Unused(c, x) && x != p.oldServer
    ensures var c' := Execute(c, Create(x, Candidate(p), p.port, p.devices));
            Shape(p, base, c', if x in c'.servers then Some(x) else None)
  {
    assert Unused(base, x) by {
      assert PortsOf(base, p.oldServer) == {p.port};
      forall q | q in base.ports ensures base.ports[q] != Some(x) {
        if q == p.port { assert q in PortsOf(base, p.oldServer); }
      }
      forall v | v in base.volumes ensures !AttachedTo(base, v, x) {
        if v in p.devices { assert v in DevicesOf(base, p.oldServer); }
        else { assert base.volumes[v] == c.volumes[v]; assert !AttachedTo(c, v, x); }
      }
    }
  }

  lemma BootKeepsShape(p: Plan, base: Project, c: Project, x: Id, w: Power, r: Option<Id>)
    requires Ready(p, base) && Shape(p, base, c, r)
    requires x in c.servers && c.servers[x].tag == Some(p.op)
    ensures r == Some(x)
    ensures var c' := c.(servers := c.servers[x := c.servers[x].(power := w)]);
            Shape(p, base, c', r) && (Owns(p, c, x) <==> Owns(p, c', x))
  {
    assert x in Tagged(c, p.op);
    TaggedIsReplacement(p, base, c, r);
    BootKeepsOwner(p, c, x, w);
  }

  lemma BootKeepsOwner(p: Plan, c: Project, x: Id, w: Power)
    requires x in c.servers
    ensures Owns(p, c, x) <==> Owns(p, c.(servers := c.servers[x := c.servers[x].(power := w)]), x)
  {
    var c' := c.(servers := c.servers[x := c.servers[x].(power := w)]);
    assert Named(c', p.name) == Named(c, p.name);
    assert PortsOf(c', x) == PortsOf(c, x);
    assert DevicesOf(c', x) == DevicesOf(c, x);
  }

  /** Once the old server owns its name, port and volumes again and there is no
      replacement, the project is the original one up to the old server's power. */
  lemma RestoredIsBase(p: Plan, base: Project, c: Project)
    requires Ready(p, base) && Shape(p, base, c, None) && Owns(p, c, p.oldServer)
    requires c.servers[p.oldServer].power == p.oldPower
    ensures c == base
  {
    assert p.oldServer in Named(c, p.name);
    assert p.oldServer in Named(base, p.name);
    assert p.port in PortsOf(c, p.oldServer);
    assert p.port in PortsOf(base, p.oldServer);
    forall v | v in p.devices ensures c.volumes[v] == base.volumes[v] {
      assert v in DevicesOf(c, p.oldServer);
      assert v in DevicesOf(base, p.oldServer);
    }
    assert c.servers == base.servers;
    assert c.ports == base.ports;
    assert c.volumes == base.volumes;
  }

  lemma TaggedIsReplacement(p: Plan, base: Project, c: Project, r: Option<Id>)
    requires Ready(p, base) && Shape(p, base, c, r)
    ensures Tagged(c, p.op) == (if r.Some? then {r.value} else {})
  {
    forall x | x in Tagged(c, p.op) ensures r == Some(x) {
      assert x !in Tagged(base, p.op);
    }
  }

  /** What the look at a project of this shape shows. */
  predicate SeenAs(f: Facts, seen: Sighting) {
    && seen.oldHere == f.oldHere
    && seen.tagged == seen.genuine == (if f.live.Some? then {f.live.value} else {})
    && (f.born.Some? ==> (f.born.value in seen.alive <==> f.live == f.born))
  }

  /** How the facts before and after one action are related, by the project alone. */
  predicate Linked(p: Plan, f: Facts, u: Process, a: Action, f': Facts) {
    match a
    case Boot(_, _) => f.live.Some? && f' == f.(oldOwns := f'.oldOwns, original := f'.original)
    case Issue(_) =>
      && f'.born == f.born
      && (u.Up? && u.pc.Mutate? ==>
            match u.pc.step
            case DropReplacement => f'.oldHere && (f'.live == f.live || (f'.live == None && f.live == u.replacement))
            case DropOld => f'.live == f.live && f'.liveOwns
            case _ => f'.live == None && (u.pc.step == Revive ==> f'.oldOwns))
      && (u.Up? && u.pc.PowerBack? ==> f'.live == None)
    case IssueCreate(x, _, reply) =>
      u.Up? && u.pc.CreateServer? ==>
        && f'.oldHere
        && ((f'.live == None && f'.born == None) || f'.live == f'.born == Some(x))
        && (reply == Accept ==> f'.live == Some(x))
    case Verified =>
      && f' == f
      && (u.Up? && u.pc.Confirm? ==>
            && (u.pc.step == DropOld ==> !f.oldHere)
            && (u.pc.step == DropReplacement ==> f.live != u.replacement)
            && (u.pc.step == Restored ==> f.oldOwns)
            && (u.pc.step == Revive ==> f.oldActive))
      && (u.Up? && (u.pc.Judge? || u.pc.Recheck?) ==> f.live == u.replacement && f.liveOwns)
    case Unverified => f' == f && (u.Up? && u.pc == Confirm(DropOld) ==> f.oldHere)
    case _ => f' == f
  }

  predicate Enabled(p: Plan, f: Facts, j: Journal, u: Process, a: Action, seen: Sighting, f': Facts) {
    && Control(p, f, j, u) && Coherent(p, f') && SeenAs(f, seen) && Linked(p, f, u, a, f')
    && Client(p, j, u, a, seen).Some?
  }

  predicate Kept(p: Plan, j: Journal, u: Process, a: Action, seen: Sighting, f': Facts) {
    match Client(p, j, u, a, seen)
    case None => false
    case Some(local) => Control(p, f', local.journal, local.process)
  }

  lemma ControlOutside(p: Plan, f: Facts, j: Journal, u: Process, a: Action, seen: Sighting, f': Facts)
    requires Enabled(p, f, j, u, a, seen, f')
    requires a.Crash? || a.Boot? || a.Launch?
    ensures Kept(p, j, u, a, seen, f')
  {
  }

  lemma ControlIssue(p: Plan, f: Facts, j: Journal, u: Process, a: Action, seen: Sighting, f': Facts)
    requires Enabled(p, f, j, u, a, seen, f')
    requires u.Up? && a.Issue?
    ensures Kept(p, j, u, a, seen, f')
  {
  }

  lemma ControlCreate(p: Plan, f: Facts, j: Journal, u: Process, a: Action, seen: Sighting, f': Facts)
    requires Enabled(p, f, j, u, a, seen, f')
    requires u.Up? && a.IssueCreate?
    ensures Kept(p, j, u, a, seen, f')
  {
  }

  lemma ControlVerified(p: Plan, f: Facts, j: Journal, u: Process, a: Action, seen: Sighting, f': Facts)
    requires Enabled(p, f, j, u, a, seen, f')
    requires u.Up? && u.pc.Confirm? && a.Verified?
    ensures Kept(p, j, u, a, seen, f')
  {
  }

  lemma ControlUnverified(p: Plan, f: Facts, j: Journal, u: Process, a: Action, seen: Sighting, f': Facts)
    requires Enabled(p, f, j, u, a, seen, f')
    requires u.Up? && u.pc.Confirm? && a.Unverified?
    ensures Kept(p, j, u, a, seen, f')
  {
  }

  lemma ControlUnanswered(p: Plan, f: Facts, j: Journal, u: Process, a: Action, seen: Sighting, f': Facts)
    requires Enabled(p, f, j, u, a, seen, f')
    requires u.Up? && u.pc.Confirm? && a.Unanswered?
    ensures Kept(p, j, u, a, seen, f')
  {
  }

  lemma ControlSaveForward(p: Plan, f: Facts, j: Journal, u: Process, a: Action, seen: Sighting, f': Facts)
    requires Enabled(p, f, j, u, a, seen, f')
    requires u.Up? && u.pc.Save? && a.Checkpoint?
    requires u.pc.phase in {Observed, OldStopped, OldRenamed, ResourcesDetached}
    ensures Kept(p, j, u, a, seen, f')
  {
  }

  lemma ControlSaveOutcome(p: Plan, f: Facts, j: Journal, u: Process, a: Action, seen: Sighting, f': Facts)
    requires Enabled(p, f, j, u, a, seen, f')
    requires u.Up? && u.pc.Save? && a.Checkpoint?
    requires u.pc.phase in {ReplacementCreated, ReplacementDeleted, Accepted, RolledBack}
    ensures Kept(p, j, u, a, seen, f')
  {
  }

  lemma ControlSurvey(p: Plan, f: Facts, j: Journal, u: Process, a: Action, seen: Sighting, f': Facts)
    requires Enabled(p, f, j, u, a, seen, f')
    requires u.Up? && u.pc.Survey?
    ensures Kept(p, j, u, a, seen, f')
  {
  }

  lemma ControlJudge(p: Plan, f: Facts, j: Journal, u: Process, a: Action, seen: Sighting, f': Facts)
    requires Enabled(p, f, j, u, a, seen, f')
    requires u.Up? && (u.pc.Preflight? || u.pc.CreateRefused? || u.pc.Judge?)
    requires !a.Crash? && !a.Boot?
    ensures Kept(p, j, u, a, seen, f')
  {
  }

  lemma ControlRecheck(p: Plan, f: Facts, j: Journal, u: Process, a: Action, seen: Sighting, f': Facts)
    requires Enabled(p, f, j, u, a, seen, f')
    requires u.Up? && (u.pc.Recheck? || u.pc.CheckOld?)
    requires !a.Crash? && !a.Boot?
    ensures Kept(p, j, u, a, seen, f')
  {
  }

  lemma ControlEnd(p: Plan, f: Facts, j: Journal, u: Process, a: Action, seen: Sighting, f': Facts)
    requires Enabled(p, f, j, u, a, seen, f')
    requires u.Up? && (u.pc.SaveComplete? || u.pc.Raise? || u.pc.Return?)
    requires !a.Crash? && !a.Boot?
    ensures Kept(p, j, u, a, seen, f')
  {
  }

  lemma ControlConfirm(p: Plan, f: Facts, j: Journal, u: Process, a: Action, seen: Sighting, f': Facts)
    requires Enabled(p, f, j, u, a, seen, f') && u.Up? && u.pc.Confirm?
    requires a.Verified? || a.Unverified? || a.Unanswered?
    ensures Kept(p, j, u, a, seen, f')
  {
    if a.Verified? { ControlVerified(p, f, j, u, a, seen, f'); }
    else if a.Unverified? { ControlUnverified(p, f, j, u, a, seen, f'); }
    else { ControlUnanswered(p, f, j, u, a, seen, f'); }
  }

  lemma ControlSave(p: Plan, f: Facts, j: Journal, u: Process, a: Action, seen: Sighting, f': Facts)
    requires Enabled(p, f, j, u, a, seen, f') && u.Up? && u.pc.Save? && a.Checkpoint?
    ensures Kept(p, j, u, a, seen, f')
  {
    if u.pc.phase in {Observed, OldStopped, OldRenamed, ResourcesDetached} { ControlSaveForward(p, f, j, u, a, seen, f'); }
    else { ControlSaveOutcome(p, f, j, u, a, seen, f'); }
  }

  /** Which actions the confirming and the saving process accepts at all. */
  lemma ActionFits(p: Plan, j: Journal, u: Process, a: Action, seen: Sighting)
    requires Client(p, j, u, a, seen).Some? && u.Up? && !a.Crash? && !a.Boot?
    ensures u.pc.Confirm? ==> a.Verified? || a.Unverified? || a.Unanswered?
    ensures u.pc.Save? ==> a.Checkpoint?
    ensures u.pc.Mutate? || u.pc.PowerBack? ==> a.Issue?
    ensures u.pc.CreateServer? ==> a.IssueCreate?
  {
  }

  lemma ControlInside(p: Plan, f: Facts, j: Journal, u: Process, a: Action, seen: Sighting, f': Facts)
    requires Enabled(p, f, j, u, a, seen, f')
    requires u.Up? && !a.Crash? && !a.Boot? && !a.Launch? && !a.Issue? && !a.IssueCreate?
    ensures Kept(p, j, u, a, seen, f')
  {
    ActionFits(p, j, u, a, seen);
    if u.pc.Confirm? { ControlConfirm(p, f, j, u, a, seen, f'); }
    else if u.pc.Save? { ControlSave(p, f, j, u, a, seen, f'); }
    else if u.pc.Survey? { ControlSurvey(p, f, j, u, a, seen, f'); }
    else if u.pc.Preflight? || u.pc.CreateRefused? || u.pc.Judge? { ControlJudge(p, f, j, u, a, seen, f'); }
    else if u.pc.Recheck? || u.pc.CheckOld? { ControlRecheck(p, f, j, u, a, seen, f'); }
    else { ControlEnd(p, f, j, u, a, seen, f'); }
  }

  /** The client keeps its part of the invariant, whatever the environment chooses. */
  lemma ControlStep(p: Plan, f: Facts, j: Journal, u: Process, a: Action, seen: Sighting, f': Facts)
    requires Enabled(p, f, j, u, a, seen, f')
    ensures Kept(p, j, u, a, seen, f')
  {
    if a.Crash? || a.Boot? || a.Launch? { ControlOutside(p, f, j, u, a, seen, f'); }
    else if a.Issue? { ControlIssue(p, f, j, u, a, seen, f'); }
    else if a.IssueCreate? { ControlCreate(p, f, j, u, a, seen, f'); }
    else { ControlInside(p, f, j, u, a, seen, f'); }
  }

  lemma LookShows(p: Plan, base: Project, c: Project, live: Option<Id>, born: Option<Id>)
    requires Ready(p, base) && Shape(p, base, c, live)
    requires (live.Some? ==> born == live) && (born.Some? ==> Unused(base, born.value))
    ensures SeenAs(FactsOf(p, base, c, live, born), Look(p, c))
  {
    TaggedIsReplacement(p, base, c, live);
    assert Look(p, c).genuine == Look(p, c).tagged;
  }

  lemma FactsCohere(p: Plan, base: Project, c: Project, live: Option<Id>, born: Option<Id>)
    requires Ready(p, base) && Shape(p, base, c, live) && (live.Some? ==> born == live)
    ensures Coherent(p, FactsOf(p, base, c, live, born))
  {
    if live.None? && Owns(p, c, p.oldServer) && c.servers[p.oldServer].power == p.oldPower {
      RestoredIsBase(p, base, c);
    }
  }

  lemma StartKeepsOwner(p: Plan, c: Project)
    requires Owns(p, c, p.oldServer)
    ensures Owns(p, Execute(c, Start(p.oldServer)), p.oldServer)
  {
    var c' := Execute(c, Start(p.oldServer));
    assert Named(c', p.name) == Named(c, p.name);
    assert PortsOf(c', p.oldServer) == PortsOf(c, p.oldServer);
    assert DevicesOf(c', p.oldServer) == DevicesOf(c, p.oldServer);
  }

  /** The project part of the invariant, with the ghost identities of the replacement. */
  ghost predicate Grounded(p: Plan, base: Project, c: Project, live: Option<Id>, born: Option<Id>) {
    && Ready(p, base)
    && Shape(p, base, c, live)
    && (live.Some? ==> born == live)
    && (born.Some? ==> Unused(base, born.value))
  }

  lemma LinkOldStep(p: Plan, base: Project, c: Project, u: Process, born: Option<Id>)
    requires Grounded(p, base, c, None, born)
    requires u.Up? && u.pc.Mutate? && u.pc.step != DropReplacement && u.pc.step != DropOld
    requires u.pc.step == StopOld || u.pc.step == Revive ==> p.oldPower == Active
    requires u.pc.step == Revive ==> Owns(p, c, p.oldServer)
    ensures var c' := Effect(p, c, u, Issue(true));
            Shape(p, base, c', None) && (u.pc.step == Revive ==> Owns(p, c', p.oldServer))
  {
    OldCommandKeepsShape(p, base, c, u.pc.step, u.replacement);
    if u.pc.step == Revive { StartKeepsOwner(p, c); }
  }

  /** What the invariant says wherever a command or a create request may be issued. */
  predicate CanIssue(p: Plan, f: Facts, u: Process) {
    && u.Up?
    && (u.pc.PowerBack? || (u.pc.Mutate? && u.pc.step != DropReplacement && u.pc.step != DropOld) ==> f.live == None)
    && (u.pc.PowerBack? || u.pc == Mutate(StopOld) || u.pc == Mutate(Revive) ==> p.oldPower == Active)
    && (u.pc == Mutate(DropReplacement) ==> u.replacement.Some? && u.replacement == f.born && f.oldHere)
    && (u.pc == Mutate(DropOld) ==> f.liveOwns)
    && (u.pc == Mutate(Revive) ==> f.oldOwns)
    && (u.pc.CreateServer? ==> f.live == None && f.born == None)
  }

  lemma ControlCanIssue(p: Plan, f: Facts, j: Journal, u: Process, a: Action, seen: Sighting)
    requires Control(p, f, j, u) && Client(p, j, u, a, seen).Some? && (a.Issue? || a.IssueCreate?)
    ensures CanIssue(p, f, u)
    ensures a.Issue? ==> u.pc.Mutate? || u.pc.PowerBack?
    ensures a.IssueCreate? ==> u.pc.CreateServer?
  {
  }

  lemma LinkDropReplacement(p: Plan, base: Project, c: Project, u: Process, live: Option<Id>, born: Option<Id>)
    requires Grounded(p, base, c, live, born) && CanIssue(p, FactsOf(p, base, c, live, born), u)
    requires u.pc == Mutate(DropReplacement)
    ensures Grounded(p, base, Effect(p, c, u, Issue(true)), None, born)
    ensures Linked(p, FactsOf(p, base, c, live, born), u, Issue(true),
                   FactsOf(p, base, Effect(p, c, u, Issue(true)), None, born))
  {
    ReplacementDropped(p, base, c, u.replacement.value, live, born);
  }

  lemma ReplacementDropped(p: Plan, base: Project, c: Project, x: Id, live: Option<Id>, born: Option<Id>)
    requires Grounded(p, base, c, live, born) && born == Some(x) && p.oldServer in c.servers
    ensures Grounded(p, base, Execute(c, Delete(x)), None, born) && p.oldServer in Execute(c, Delete(x)).servers
  {
    DropReplacementKeepsShape(p, base, c, x, live);
  }

  lemma LinkDropOld(p: Plan, base: Project, c: Project, u: Process, live: Option<Id>, born: Option<Id>)
    requires Grounded(p, base, c, live, born) && CanIssue(p, FactsOf(p, base, c, live, born), u)
    requires u.pc == Mutate(DropOld)
    ensures Grounded(p, base, Effect(p, c, u, Issue(true)), live, born)
    ensures Linked(p, FactsOf(p, base, c, live, born), u, Issue(true),
                   FactsOf(p, base, Effect(p, c, u, Issue(true)), live, born))
  {
    EffectOfDrop(p, c, u);
    OldDropped(p, base, c, live.value, born);
    var c' := Execute(c, Delete(p.oldServer));
    LinkedByDropOld(p, FactsOf(p, base, c, live, born), u, FactsOf(p, base, c', live, born));
  }

  lemma EffectOfDrop(p: Plan, c: Project, u: Process)
    requires u.Up? && u.pc == Mutate(DropOld)
    ensures Effect(p, c, u, Issue(true)) == Execute(c, Delete(p.oldServer))
  {
  }

  lemma LinkedByDropOld(p: Plan, f: Facts, u: Process, f': Facts)
    requires u.Up? && u.pc == Mutate(DropOld) && f'.live == f.live && f'.born == f.born && f'.liveOwns
    ensures Linked(p, f, u, Issue(true), f')
  {
  }

  lemma OldDropped(p: Plan, base: Project, c: Project, x: Id, born: Option<Id>)
    requires Grounded(p, base, c, Some(x), born) && Owns(p, c, x)
    ensures Grounded(p, base, Execute(c, Delete(p.oldServer)), Some(x), born) && Owns(p, Execute(c, Delete(p.oldServer)), x)
  {
    DropOldKeepsShape(p, base, c, x);
  }

  lemma LinkBoot(p: Plan, base: Project, c: Project, u: Process, live: Option<Id>, born: Option<Id>, x: Id, w: Power)
    requires Grounded(p, base, c, live, born) && Truthful(p, c, u, Boot(x, w))
    ensures Grounded(p, base, Effect(p, c, u, Boot(x, w)), live, born)
    ensures Linked(p, FactsOf(p, base, c, live, born), u, Boot(x, w),
                   FactsOf(p, base, Effect(p, c, u, Boot(x, w)), live, born))
  {
    BootKeepsShape(p, base, c, x, w, live);
  }

  lemma LinkIssue(p: Plan, base: Project, c: Project, u: Process, live: Option<Id>, born: Option<Id>, applied: bool)
      returns (live': Option<Id>)
    requires Grounded(p, base, c, live, born) && CanIssue(p, FactsOf(p, base, c, live, born), u)
    requires u.pc.Mutate? || u.pc.PowerBack?
    ensures Grounded(p, base, Effect(p, c, u, Issue(applied)), live', born)
    ensures Linked(p, FactsOf(p, base, c, live, born), u, Issue(applied),
                   FactsOf(p, base, Effect(p, c, u, Issue(applied)), live', born))
  {
    live' := live;
    if !applied {
    } else if u.pc.PowerBack? {
      OldServerKeepsShape(p, base, c, Start(p.oldServer));
    } else if u.pc.step == DropReplacement {
      LinkDropReplacement(p, base, c, u, live, born);
      live' := None;
    } else if u.pc.step == DropOld {
      LinkDropOld(p, base, c, u, live, born);
    } else {
      LinkOldStep(p, base, c, u, born);
    }
  }

  lemma LinkObservation(p: Plan, base: Project, c: Project, u: Process, live: Option<Id>, born: Option<Id>, a: Action)
    requires Grounded(p, base, c, live, born) && Truthful(p, c, u, a)
    requires !a.Boot? && !a.Issue? && !a.IssueCreate?
    ensures var f := FactsOf(p, base, c, live, born); Linked(p, f, u, a, f)
  {
    if a.Verified? && u.Up? && (u.pc.Judge? || u.pc.Recheck?) {
      TaggedIsReplacement(p, base, c, live);
      assert u.replacement.value in Tagged(c, p.op);
    }
  }

  lemma LinkCreate(p: Plan, base: Project, c: Project, u: Process, a: Action)
      returns (live': Option<Id>)
    requires Grounded(p, base, c, None, None) && u.Up? && u.pc.CreateServer? && a.IssueCreate? && Truthful(p, c, u, a)
    ensures Grounded(p, base, Effect(p, c, u, a), live', live')
    ensures Linked(p, FactsOf(p, base, c, None, None), u, a, FactsOf(p, base, Effect(p, c, u, a), live', live'))
  {
    live' := None;
    CreateKeepsShape(p, base, c, a.server);
    if a.server in Effect(p, c, u, a).servers { live' := Some(a.server); }
  }

  /** The facts before and after any action are linked. */
  lemma LinkNext(p: Plan, base: Project, s: State, live: Option<Id>, born: Option<Id>, a: Action)
      returns (live': Option<Id>, born': Option<Id>)
    requires Inv(p, base, s, live, born) && Next(p, s, a).Some?
    ensures Grounded(p, base, Effect(p, s.cloud, s.process, a), live', born')
    ensures Linked(p, FactsOf(p, base, s.cloud, live, born), s.process, a,
                   FactsOf(p, base, Effect(p, s.cloud, s.process, a), live', born'))
  {
    live', born' := live, born;
    var f := FactsOf(p, base, s.cloud, live, born);
    if a.Boot? {
      LinkBoot(p, base, s.cloud, s.process, live, born, a.server, a.power);
    } else if a.Issue? {
      ControlCanIssue(p, f, s.journal, s.process, a, Look(p, s.cloud));
      live' := LinkIssue(p, base, s.cloud, s.process, live, born, a.applied);
    } else if a.IssueCreate? {
      ControlCanIssue(p, f, s.journal, s.process, a, Look(p, s.cloud));
      live' := LinkCreate(p, base, s.cloud, s.process, a);
      born' := live';
    } else {
      LinkObservation(p, base, s.cloud, s.process, live, born, a);
    }
  }

  /** Every action keeps the invariant. */
  lemma NextKeepsInv(p: Plan, base: Project, s: State, live: Option<Id>, born: Option<Id>, a: Action)
      returns (live': Option<Id>, born': Option<Id>)
    requires Inv(p, base, s, live, born) && Next(p, s, a).Some?
    ensures Inv(p, base, Next(p, s, a).value, live', born')
  {
    live', born' := LinkNext(p, base, s, live, born, a);
    var c' := Effect(p, s.cloud, s.process, a);
    var f, f' := FactsOf(p, base, s.cloud, live, born), FactsOf(p, base, c', live', born');
    LookShows(p, base, s.cloud, live, born);
    FactsCohere(p, base, c', live', born');
    ControlStep(p, f, s.journal, s.process, a, Look(p, s.cloud), f');
  }

  lemma BeginInv(p: Plan, base: Project)
    requires Ready(p, base)
    ensures Inv(p, base, Begin(base), None, None)
  {
    assert p.oldServer in Named(base, p.name);
    assert p.port in PortsOf(base, p.oldServer);
    forall v | v in p.devices
      ensures v in base.volumes && base.volumes[v] == Some(Slot(p.oldServer, p.devices[v]))
    {
      assert v in DevicesOf(base, p.oldServer);
    }
  }

  function Transition(p: Plan): (State, Action) -> Option<State> { (s, a) => Next(p, s, a) }

  /** A run: consecutive states of one operation, from its beginning. */
  ghost predicate IsRun(p: Plan, base: Project, states: seq<State>, actions: seq<Action>) {
    && Ready(p, base)
    && Runs.IsPath(Transition(p), states, actions)
    && states[0] == Begin(base)
  }

  ghost predicate Sound(p: Plan, base: Project, s: State) {
    exists live, born :: Inv(p, base, s, live, born)
  }

  lemma NextIsSound(p: Plan, base: Project, s: State, a: Action)
    requires Sound(p, base, s) && Next(p, s, a).Some?
    ensures Sound(p, base, Next(p, s, a).value)
  {
    var live, born :| Inv(p, base, s, live, born);
    var live', born' := NextKeepsInv(p, base, s, live, born, a);
  }

  lemma RunIsSound(p: Plan, base: Project, states: seq<State>, actions: seq<Action>, i: nat)
    requires IsRun(p, base, states, actions) && i < |states|
    ensures Sound(p, base, states[i])
  {
    BeginInv(p, base);
    NextsAreSound(p, base);
    Runs.Persists(Transition(p), s => Sound(p, base, s), states, actions, 0, i);
  }

  lemma NextsAreSound(p: Plan, base: Project)
    ensures Runs.Kept(Transition(p), s => Sound(p, base, s))
  {
    forall s, a | Sound(p, base, s) && Next(p, s, a).Some? ensures Sound(p, base, Next(p, s, a).value) {
      NextIsSound(p, base, s, a);
    }
  }
}
