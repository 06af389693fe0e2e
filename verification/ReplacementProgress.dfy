/** How far a first attempt has really taken the role apart whenever it goes one step further. */
module ReplacementProgress {
  import opened Options
  import opened Cloud
  import opened Replacement
  import opened ReplacementSafety
  import opened ReplacementTheorems
  import Runs

  predicate Stopped(p: Plan, c: Project) { p.oldServer in c.servers && c.servers[p.oldServer].power == Shutoff }

  predicate Renamed(p: Plan, c: Project) { Stopped(p, c) && c.servers[p.oldServer].name == p.away }

  predicate PortFree(p: Plan, c: Project) { Renamed(p, c) && p.port in c.ports && c.ports[p.port] == None }

  /** The port and the first `n` volumes are free. */
  predicate VolumesFree(p: Plan, c: Project, n: nat) {
    && PortFree(p, c) && n <= |p.order|
    && forall k :: 0 <= k < n ==> p.order[k] in c.volumes && c.volumes[p.order[k]] == None
  }

  predicate Done(p: Plan, c: Project, step: Step) {
    match step
    case RenameAway => Stopped(p, c)
    case FreePort => Renamed(p, c)
    case FreeVolume(i) => VolumesFree(p, c, i)
    case _ => true
  }

  predicate Progress(p: Plan, c: Project, u: Process) {
    u.Up? ==>
      match u.pc
      case Mutate(step) => Done(p, c, step)
      case Confirm(step) => Done(p, c, step)
      case Save(OldStopped) => Stopped(p, c)
      case Save(OldRenamed) => Renamed(p, c)
      case Save(ResourcesDetached) => VolumesFree(p, c, |p.order|)
      case CreateServer => VolumesFree(p, c, |p.order|)
      case _ => true
  }

  ghost predicate Advancing(p: Plan, base: Project, s: State) { Sound(p, base, s) && Progress(p, s.cloud, s.process) }

  /** No command of the way forward undoes what came before it. */
  lemma CommandKeepsProgress(p: Plan, c: Project, step: Step)
    requires Done(p, c, step) && p.name != p.away
    ensures var cmd := CommandOf(p, c, step, None);
            step.RenameAway? || step.FreePort? || step.FreeVolume? ==> cmd.Some? ==> Done(p, Execute(c, cmd.value), step)
  {
  }

  /** A verified step is done. */
  lemma GoalIsProgress(p: Plan, base: Project, c: Project, u: Process, step: Step)
    requires Ready(p, base) && Shape(p, base, c, None) && Done(p, c, step) && Goal(p, c, step, None)
    requires u.Up? && u.pc == After(p, step)
    requires step.StopOld? || step.RenameAway? || step.FreePort? || step.FreeVolume?
    ensures Progress(p, c, u)
  {
    if step.RenameAway? { assert p.oldServer in Named(c, p.away); }
    if step.FreeVolume? { assert p.order[step.i] in p.order; }
  }

  predicate OnTheWay(u: Process) {
    u.Up? && match u.pc
             case Mutate(step) => step.RenameAway? || step.FreePort? || step.FreeVolume?
             case Confirm(step) => step.StopOld? || step.RenameAway? || step.FreePort? || step.FreeVolume?
             case Save(phase) => phase == Observed || phase == OldStopped || phase == OldRenamed || phase == ResourcesDetached
             case CreateServer => true
             case _ => false
  }

  /** On the way there is no replacement, and nothing that others do reaches the old server. */
  lemma WayIsForward(p: Plan, f: Facts, j: Journal, u: Process)
    requires Control(p, f, j, u) && OnTheWay(u)
    ensures f.live == None && u.replacement == None && f.oldHere
  {
  }

  lemma NothingBoots(p: Plan, base: Project, c: Project, x: Id)
    requires Ready(p, base) && Shape(p, base, c, None) && x in c.servers
    ensures c.servers[x].tag != Some(p.op)
  {
    TaggedIsReplacement(p, base, c, None);
    assert x !in Tagged(c, p.op);
  }

  /** An action that leaves the way needs nothing, and one that stays on it comes from it. */
  lemma ComesFromTheWay(p: Plan, j: Journal, u: Process, a: Action, seen: Sighting)
    requires Client(p, j, u, a, seen).Some?
    ensures var v := Client(p, j, u, a, seen).value.process;
            v.Up? && (OnTheWay(v) || v.pc.CreateServer?) && v.pc != Confirm(StopOld) && v.pc != Save(Observed) ==>
              && OnTheWay(u)
              && (a.Boot? ==> v == u)
              && (!a.Boot? ==>
                    match u.pc
                    case Mutate(step) => a.Issue? && v.pc == Confirm(step)
                    case Confirm(step) => a == Verified && v.pc == After(p, step)
                    case Save(phase) => a == Checkpoint && v.pc == Saved(p, j, u, phase).process.pc
                    case _ => false)
  {
  }

  lemma ProgressIsTrivial(p: Plan, c: Project, u: Process)
    requires !OnTheWay(u) || u.pc == Confirm(StopOld) || u.pc == Save(Observed)
    ensures Progress(p, c, u)
  {
  }

  lemma ProgressNext(p: Plan, base: Project, s: State, a: Action)
    requires Advancing(p, base, s) && Next(p, s, a).Some?
    ensures Progress(p, Next(p, s, a).value.cloud, Next(p, s, a).value.process)
  {
    var t, u := Next(p, s, a).value, s.process;
    ComesFromTheWay(p, s.journal, u, a, Look(p, s.cloud));
    if OnTheWay(t.process) && t.process.pc != Confirm(StopOld) && t.process.pc != Save(Observed) {
      var live, born :| Inv(p, base, s, live, born);
      WayIsForward(p, FactsOf(p, base, s.cloud, live, born), s.journal, u);
      StepOnTheWay(p, base, s, a, t);
    } else {
      ProgressIsTrivial(p, t.cloud, t.process);
    }
  }

  lemma StepOnTheWay(p: Plan, base: Project, s: State, a: Action, t: State)
    requires Ready(p, base) && Shape(p, base, s.cloud, None) && Progress(p, s.cloud, s.process)
    requires OnTheWay(s.process) && s.process.replacement == None && Next(p, s, a) == Some(t) && OnTheWay(t.process)
    requires a.Boot? ==> t.process == s.process
    requires !a.Boot? ==>
               match s.process.pc
               case Mutate(step) => a.Issue? && t.process.pc == Confirm(step)
               case Confirm(step) => a == Verified && t.process.pc == After(p, step)
               case Save(phase) => a == Checkpoint && t.process.pc == Saved(p, s.journal, s.process, phase).process.pc
               case _ => false
    ensures Progress(p, t.cloud, t.process)
  {
    if a.Boot? { NothingBoots(p, base, s.cloud, a.server); }
    else if s.process.pc.Mutate? { CommandKeepsProgress(p, s.cloud, s.process.pc.step); }
    else if s.process.pc.Confirm? { GoalIsProgress(p, base, s.cloud, t.process, s.process.pc.step); }
    else { SaveIsProgress(p, base, s.cloud, s.journal, s.process, s.process.pc.phase); }
  }

  lemma SaveIsProgress(p: Plan, base: Project, c: Project, j: Journal, u: Process, phase: Phase)
    requires Ready(p, base) && Shape(p, base, c, None) && u.Up? && u.pc == Save(phase) && OnTheWay(u) && Progress(p, c, u)
    requires OnTheWay(Saved(p, j, u, phase).process)
    ensures Progress(p, c, Saved(p, j, u, phase).process)
  {
  }

  ghost function Advances(p: Plan, base: Project): State -> bool { s => Advancing(p, base, s) }

  /** Over every run: each command of a first attempt that takes the role apart finds everything
      before it really done. The old server is stopped before it is renamed, renamed before its port
      is detached, and when the replacement is asked for, the port and every volume are free. */
  lemma TakenApartInOrder(p: Plan, base: Project, states: seq<State>, actions: seq<Action>, i: nat)
    requires IsRun(p, base, states, actions) && i < |actions|
    ensures var c := states[i].cloud;
            match Issued(p, states[i], actions[i])
            case Some(Rename(x, name)) => name == p.away ==> x == p.oldServer && Stopped(p, c)
            case Some(DetachPort(x, q)) => x == p.oldServer && q == p.port && Renamed(p, c)
            case Some(DetachVolume(x, v)) => x == p.oldServer && v in p.devices && PortFree(p, c)
            case Some(Create(x, what, q, devices)) =>
              && what == Server(p.name, Other, p.image, p.flavor, Some(p.op)) && q == p.port && devices == p.devices
              && PortFree(p, c) && forall v :: v in p.devices ==> v in c.volumes && c.volumes[v] == None
            case _ => true
  {
    AlwaysAdvancing(p, base, states, actions, i);
    var live, born :| Inv(p, base, states[i], live, born);
    NextCommand(p, base, states[i], actions[i]);
  }

  lemma AlwaysAdvancing(p: Plan, base: Project, states: seq<State>, actions: seq<Action>, i: nat)
    requires IsRun(p, base, states, actions) && i < |states|
    ensures Advancing(p, base, states[i])
  {
    RunIsSound(p, base, states, actions, 0);
    forall s, a | Advances(p, base)(s) && Transition(p)(s, a).Some? ensures Advances(p, base)(Transition(p)(s, a).value) {
      ProgressNext(p, base, s, a);
      NextIsSound(p, base, s, a);
    }
    Runs.Persists(Transition(p), Advances(p, base), states, actions, 0, i);
  }

  lemma NextCommand(p: Plan, base: Project, s: State, a: Action)
    requires Progress(p, s.cloud, s.process) && Ready(p, base)
    ensures var c := s.cloud;
            match Issued(p, s, a)
            case Some(Rename(x, name)) => name == p.away ==> x == p.oldServer && Stopped(p, c)
            case Some(DetachPort(x, q)) => x == p.oldServer && q == p.port && Renamed(p, c)
            case Some(DetachVolume(x, v)) => x == p.oldServer && v in p.devices && PortFree(p, c)
            case Some(Create(x, what, q, devices)) =>
              && what == Server(p.name, Other, p.image, p.flavor, Some(p.op)) && q == p.port && devices == p.devices
              && PortFree(p, c) && forall v :: v in p.devices ==> v in c.volumes && c.volumes[v] == None
            case _ => true
  {
    if s.process.Up? && s.process.pc.CreateServer? {
      forall v | v in p.devices ensures v in s.cloud.volumes && s.cloud.volumes[v] == None {
        var k :| 0 <= k < |p.order| && p.order[k] == v;
      }
    }
  }
}
