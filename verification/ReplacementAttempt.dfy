/** What a first attempt does on the way, stated on commands, phases and server fields. */
module ReplacementAttempt {
  import opened Options
  import opened Cloud
  import opened Replacement
  import opened ReplacementSafety
  import opened ReplacementTheorems
  import Runs

  /** The old server's stop was issued and has not been verified. */
  predicate Stopping(p: Plan, s: State) {
    && s.process.Up? && s.process.mode == Fresh && p.oldPower == Active
    && (s.process.pc == Confirm(StopOld) || s.process.pc == PowerBack)
  }

  /** The attempt is about to end; if a restoring start was applied, the host is powered as found. */
  predicate Reporting(p: Plan, s: State, applied: bool) {
    && s.process.Up? && s.process.mode == Fresh && s.process.pc.Raise?
    && (applied ==> p.oldServer in s.cloud.servers && s.cloud.servers[p.oldServer].power == p.oldPower)
  }

  lemma StopIsUnverified(p: Plan, base: Project, s: State, a: Action)
    requires Sound(p, base, s) && Next(p, s, a).Some? && Issued(p, s, a) == Some(Stop(p.oldServer))
    ensures Stopping(p, Next(p, s, a).value)
  {
    var live, born :| Inv(p, base, s, live, born);
  }

  lemma StoppingStep(p: Plan, base: Project, s: State, a: Action)
    requires Sound(p, base, s) && Stopping(p, s) && Next(p, s, a).Some? && a != Crash && !a.Verified?
    ensures var t := Next(p, s, a).value;
            || Stopping(p, t)
            || (Issued(p, s, a) == Some(Start(p.oldServer)) && Reporting(p, t, a == Issue(true)))
  {
    var live, born :| Inv(p, base, s, live, born);
  }

  lemma ReportingClient(p: Plan, j: Journal, u: Process, a: Action, seen: Sighting)
    requires u.Up? && u.mode == Fresh && u.pc.Raise? && Client(p, j, u, a, seen).Some? && a != Crash
    ensures a.Boot? || a == Checkpoint || a == Mark
    ensures var t := Client(p, j, u, a, seen).value.process;
            if a == Mark then t.Down? else t.Up? && t.mode == Fresh && t.pc.Raise?
  {
  }

  /** A report changes no server but, at most, boots the replacement. */
  lemma ReportingSpares(p: Plan, base: Project, s: State, a: Action)
    requires Sound(p, base, s) && s.process.Up? && s.process.pc.Raise? && Truthful(p, s.cloud, s.process, a)
    requires a.Boot? || a == Checkpoint || a == Mark
    requires p.oldServer in s.cloud.servers
    ensures var c := Effect(p, s.cloud, s.process, a);
            p.oldServer in c.servers && c.servers[p.oldServer] == s.cloud.servers[p.oldServer]
  {
    var live, born :| Inv(p, base, s, live, born);
    OldIsNotTagged(p, base, s.cloud, live);
  }

  lemma OldIsNotTagged(p: Plan, base: Project, c: Project, live: Option<Id>)
    requires Ready(p, base) && Shape(p, base, c, live) && p.oldServer in c.servers
    ensures c.servers[p.oldServer].tag != Some(p.op)
  {
    assert p.oldServer !in Tagged(base, p.op);
  }

  lemma ReportingStep(p: Plan, base: Project, s: State, a: Action, applied: bool)
    requires Sound(p, base, s) && Reporting(p, s, applied) && Next(p, s, a).Some? && a != Crash
    ensures var t := Next(p, s, a).value;
            && (applied ==> p.oldServer in t.cloud.servers && t.cloud.servers[p.oldServer].power == p.oldPower)
            && (a != Mark ==> Reporting(p, t, applied))
  {
    ReportingClient(p, s.journal, s.process, a, Look(p, s.cloud));
    if applied { ReportingSpares(p, base, s, a); }
  }

  /** The stop is not verified, and the attempt neither crashes nor ends. */
  predicate GoesOn(s: State, a: Action) {
    a != Crash && a != Mark && (s.process.Up? && s.process.pc == Confirm(StopOld) ==> !a.Verified?)
  }

  predicate Restarts(p: Plan, s: State, a: Action) { Issued(p, s, a) == Some(Start(p.oldServer)) }

  function Fits(): (State, Action) -> bool { (s, a) => GoesOn(s, a) }
  ghost function First(p: Plan, base: Project): State -> bool { s => Sound(p, base, s) && Stopping(p, s) }
  function Hit(p: Plan): (State, Action) -> bool { (s, a) => Restarts(p, s, a) }
  ghost function Second(p: Plan, base: Project): (State, bool) -> bool { (s, applied) => Sound(p, base, s) && Reporting(p, s, applied) }
  function Flag(): Action -> bool { a => a == Issue(true) }

  lemma StopTurnsOnce(p: Plan, base: Project, s: State, a: Action)
    requires First(p, base)(s) && GoesOn(s, a)
    ensures Runs.Turns(Transition(p), First(p, base), Hit(p), Second(p, base), Flag(), s, a)
  {
    if Next(p, s, a).Some? {
      if a.Verified? { VerifiedNeedsConfirm(p, s, a); }
      StoppingStep(p, base, s, a);
      NextIsSound(p, base, s, a);
    }
  }

  lemma ReportStays(p: Plan, base: Project, s: State, a: Action, applied: bool)
    requires Second(p, base)(s, applied) && GoesOn(s, a)
    ensures Runs.Stays(Transition(p), Second(p, base), s, a, applied)
  {
    if Next(p, s, a).Some? {
      ReportingStep(p, base, s, a, applied);
      NextIsSound(p, base, s, a);
    }
  }

  lemma StopTurns(p: Plan, base: Project)
    ensures Runs.AllTurn(Transition(p), Fits(), First(p, base), Hit(p), Second(p, base), Flag())
  {
    forall s, a | First(p, base)(s) && Fits()(s, a)
      ensures Runs.Turns(Transition(p), First(p, base), Hit(p), Second(p, base), Flag(), s, a)
    {
      StopTurnsOnce(p, base, s, a);
    }
    forall s, a, applied | Second(p, base)(s, applied) && Fits()(s, a)
      ensures Runs.Stays(Transition(p), Second(p, base), s, a, applied)
    {
      ReportStays(p, base, s, a, applied);
    }
  }

  lemma VerifiedNeedsConfirm(p: Plan, s: State, a: Action)
    requires Stopping(p, s) && Next(p, s, a).Some? && a.Verified?
    ensures s.process.pc == Confirm(StopOld)
  {
  }

  /** A first attempt that stops the old server, never sees it stopped, and ends without a crash,
      issues a start of it before it reports; if the provider carries that start out, the host is
      powered as it was found when the attempt ends. */
  lemma UnverifiedStopIsUndone(p: Plan, base: Project, states: seq<State>, actions: seq<Action>, i: nat, m: nat)
    requires IsRun(p, base, states, actions) && i < m < |actions|
    requires Issued(p, states[i], actions[i]) == Some(Stop(p.oldServer)) && actions[m] == Mark
    requires forall j :: i < j < m ==>
               && actions[j] != Crash && actions[j] != Mark
               && (states[j].process.Up? && states[j].process.pc == Confirm(StopOld) ==> !actions[j].Verified?)
    ensures exists k :: i < k < m && Restarts(p, states[k], actions[k])
                        && (actions[k] == Issue(true) ==>
                              p.oldServer in states[m + 1].cloud.servers
                              && states[m + 1].cloud.servers[p.oldServer].power == p.oldPower)
  {
    FirstAfterStop(p, base, states, actions, i);
    StopTurns(p, base);
    Runs.TurnsOnce(Transition(p), Fits(), First(p, base), Hit(p), Second(p, base), Flag(), states, actions, i + 1, m);
    LastOfAttempt(p, base, states, actions, i, m);
  }

  lemma FirstAfterStop(p: Plan, base: Project, states: seq<State>, actions: seq<Action>, i: nat)
    requires IsRun(p, base, states, actions) && i < |actions| && Issued(p, states[i], actions[i]) == Some(Stop(p.oldServer))
    ensures First(p, base)(states[i + 1])
  {
    RunIsSound(p, base, states, actions, i);
    RunIsSound(p, base, states, actions, i + 1);
    assert Transition(p)(states[i], actions[i]) == Some(states[i + 1]);
    StopIsUnverified(p, base, states[i], actions[i]);
  }

  lemma LastOfAttempt(p: Plan, base: Project, states: seq<State>, actions: seq<Action>, i: nat, m: nat)
    requires IsRun(p, base, states, actions) && i < m < |actions| && actions[m] == Mark
    requires First(p, base)(states[m])
             || exists k :: i + 1 <= k < m && Hit(p)(states[k], actions[k]) && Second(p, base)(states[m], Flag()(actions[k]))
    ensures exists k :: i < k < m && Restarts(p, states[k], actions[k])
                        && (actions[k] == Issue(true) ==>
                              p.oldServer in states[m + 1].cloud.servers
                              && states[m + 1].cloud.servers[p.oldServer].power == p.oldPower)
  {
    assert Transition(p)(states[m], actions[m]) == Some(states[m + 1]);
    if First(p, base)(states[m]) {
      NoMarkWhileStopping(p, states[m]);
    } else {
      var k :| i + 1 <= k < m && Hit(p)(states[k], actions[k]) && Second(p, base)(states[m], Flag()(actions[k]));
      ReportingStep(p, base, states[m], Mark, actions[k] == Issue(true));
      assert Restarts(p, states[k], actions[k]);
    }
  }

  lemma NoMarkWhileStopping(p: Plan, s: State)
    requires Stopping(p, s)
    ensures Next(p, s, Mark).None?
  {
  }

  /** A first attempt that is about to journal, or has journaled, an ambiguous result. */
  predicate Doubting(s: State) {
    && s.process.Up? && s.process.mode == Fresh
    && (s.process.pc == PowerBack || (s.process.pc.Raise? && (s.process.pc.error.Ambiguity? || s.journal.phase == Ambiguous)))
  }

  lemma DoubtStays(p: Plan, s: State, a: Action)
    requires Doubting(s) && Next(p, s, a).Some? && a != Crash && a != Mark
    ensures Doubting(Next(p, s, a).value)
  {
  }

  lemma DoubtBegins(p: Plan, s: State, a: Action)
    requires s.process.Up? && s.process.mode == Fresh && Next(p, s, a).Some?
    requires || (s.process.pc.Confirm? && s.process.pc.step != DropOld && a.Unverified?)
             || (s.process.pc.CreateServer? && a.IssueCreate? && a.reply == Silence)
    ensures Doubting(Next(p, s, a).value)
  {
  }

  lemma DoubtEnds(p: Plan, s: State)
    requires Doubting(s) && Next(p, s, Mark).Some?
    ensures var t := Next(p, s, Mark).value;
            t.journal.phase == Ambiguous && t.journal.status == RecoveryRequired
  {
  }

  function Working(): (State, Action) -> bool { (s, a) => a != Crash && a != Mark }
  function Doubt(): State -> bool { s => Doubting(s) }
  function Never(): (State, Action) -> bool { (s, a) => false }
  function Nothing(): (State, bool) -> bool { (s, b) => false }

  lemma DoubtTurns(p: Plan, s: State, a: Action)
    requires Doubt()(s) && Working()(s, a)
    ensures Runs.Turns(Transition(p), Doubt(), Never(), Nothing(), Flag(), s, a)
  {
    if Next(p, s, a).Some? { DoubtStays(p, s, a); }
  }

  lemma DoubtPersists(p: Plan, states: seq<State>, actions: seq<Action>, i: nat, m: nat)
    requires Runs.IsPath(Transition(p), states, actions) && i <= m < |states| && Doubting(states[i])
    requires forall j :: i <= j < m ==> actions[j] != Crash && actions[j] != Mark
    ensures Doubting(states[m])
  {
    forall s, a | Doubt()(s) && Working()(s, a)
      ensures Runs.Turns(Transition(p), Doubt(), Never(), Nothing(), Flag(), s, a)
    {
      DoubtTurns(p, s, a);
    }
    Runs.TurnsOnce(Transition(p), Working(), Doubt(), Never(), Nothing(), Flag(), states, actions, i, m);
  }

  /** A change that is looked for and not found, or a create request without an answer, is journaled
      as ambiguous before a first attempt reports that it needs recovery. */
  lemma UnverifiedIsJournaled(p: Plan, base: Project, states: seq<State>, actions: seq<Action>, i: nat, m: nat)
    requires IsRun(p, base, states, actions) && i < m < |actions| && actions[m] == Mark
    requires states[i].process.Up? && states[i].process.mode == Fresh
    requires || (states[i].process.pc.Confirm? && states[i].process.pc.step != DropOld && actions[i].Unverified?)
             || (states[i].process.pc.CreateServer? && actions[i].IssueCreate? && actions[i].reply == Silence)
    requires forall j :: i < j < m ==> actions[j] != Crash && actions[j] != Mark
    ensures states[m + 1].journal.phase == Ambiguous && states[m + 1].journal.status == RecoveryRequired
  {
    StepOf(p, base, states, actions, i);
    StepOf(p, base, states, actions, m);
    DoubtBegins(p, states[i], actions[i]);
    DoubtPersists(p, states, actions, i + 1, m);
    DoubtEnds(p, states[m]);
  }

  /** The old server was still there after its delete, and the accepted replacement serves. */
  predicate Retaining(s: State) {
    && s.process.Up? && s.process.mode == Fresh
    && (s.process.pc == SaveComplete(false) || (s.process.pc == Return(Retained) && s.journal.phase == Complete))
  }

  lemma RetainingBegins(p: Plan, s: State)
    requires s.process.Up? && s.process.mode == Fresh && s.process.pc == Confirm(DropOld) && Next(p, s, Unverified).Some?
    ensures Retaining(Next(p, s, Unverified).value)
  {
  }

  lemma RetainingStays(p: Plan, s: State, a: Action)
    requires Retaining(s) && Next(p, s, a).Some? && a != Crash && a != Mark
    ensures Retaining(Next(p, s, a).value)
  {
  }

  lemma RetainingEnds(p: Plan, s: State)
    requires Retaining(s) && Next(p, s, Mark).Some?
    ensures var t := Next(p, s, Mark).value;
            t.journal.phase == Complete && t.journal.status == RecoveryRequired
  {
  }

  function Retains(): State -> bool { s => Retaining(s) }

  lemma RetainingTurns(p: Plan, s: State, a: Action)
    requires Retains()(s) && Working()(s, a)
    ensures Runs.Turns(Transition(p), Retains(), Never(), Nothing(), Flag(), s, a)
  {
    if Next(p, s, a).Some? { RetainingStays(p, s, a); }
  }

  /** A first attempt that deletes the old server and still finds it is journaled as complete, with
      its cleanup left to a recovery. */
  lemma RetainedIsJournaled(p: Plan, base: Project, states: seq<State>, actions: seq<Action>, i: nat, m: nat)
    requires IsRun(p, base, states, actions) && i < m < |actions| && actions[m] == Mark && actions[i] == Unverified
    requires states[i].process.Up? && states[i].process.mode == Fresh && states[i].process.pc == Confirm(DropOld)
    requires forall j :: i < j < m ==> actions[j] != Crash && actions[j] != Mark
    ensures states[m + 1].journal.phase == Complete && states[m + 1].journal.status == RecoveryRequired
  {
    StepOf(p, base, states, actions, i);
    StepOf(p, base, states, actions, m);
    RetainingBegins(p, states[i]);
    forall s, a | Retains()(s) && Working()(s, a)
      ensures Runs.Turns(Transition(p), Retains(), Never(), Nothing(), Flag(), s, a)
    {
      RetainingTurns(p, s, a);
    }
    Runs.TurnsOnce(Transition(p), Working(), Retains(), Never(), Nothing(), Flag(), states, actions, i + 1, m);
    RetainingEnds(p, states[m]);
  }

  lemma StepOf(p: Plan, base: Project, states: seq<State>, actions: seq<Action>, i: nat)
    requires IsRun(p, base, states, actions) && i < |actions|
    ensures Next(p, states[i], actions[i]) == Some(states[i + 1])
  {
    assert Transition(p)(states[i], actions[i]) == Some(states[i + 1]);
  }

  /** The phase that is durable while a first attempt does its next thing. */
  predicate PhaseFits(j: Journal, u: Process) {
    u.Up? && u.mode == Fresh ==>
      match u.pc
      case Preflight => j.phase == Validated
      case Mutate(step) => StepFits(j.phase, step)
      case Confirm(step) => StepFits(j.phase, step)
      case Save(phase) =>
        (match phase
         case Observed => j.phase == Validated
         case OldStopped => j.phase == Observed
         case OldRenamed => j.phase == OldStopped
         case ResourcesDetached => j.phase == OldRenamed
         case ReplacementCreated => j.phase == ResourcesDetached
         case Accepted => j.phase == ReplacementCreated
         case _ => j.phase != Complete)
      case CreateServer | CreateRefused => j.phase == ResourcesDetached
      case PowerBack | Raise(_) => j.phase != Complete
      case Judge => j.phase == ReplacementCreated
      case Survey | Recheck | CheckOld => false
      case _ => true
  }

  predicate StepFits(phase: Phase, step: Step) {
    match step
    case StopOld => phase == Observed
    case RenameAway => phase == OldStopped
    case FreePort | FreeVolume(_) => phase == OldRenamed
    case DropOld => phase == Accepted
    case _ => phase != Complete
  }

  lemma PhaseFitsNext(p: Plan, j: Journal, u: Process, a: Action, seen: Sighting)
    requires PhaseFits(j, u) && Client(p, j, u, a, seen).Some?
    ensures var local := Client(p, j, u, a, seen).value;
            PhaseFits(local.journal, local.process)
  {
  }

  function Fitting(): State -> bool { (s: State) => PhaseFits(s.journal, s.process) }

  lemma PhasesFit(p: Plan, base: Project, states: seq<State>, actions: seq<Action>, i: nat)
    requires IsRun(p, base, states, actions) && i < |states|
    ensures PhaseFits(states[i].journal, states[i].process)
  {
    forall s, a | Fitting()(s) && Transition(p)(s, a).Some? ensures Fitting()(Transition(p)(s, a).value) {
      PhaseFitsNext(p, s.journal, s.process, a, Look(p, s.cloud));
    }
    Runs.Persists(Transition(p), Fitting(), states, actions, 0, i);
  }

  /** No command that takes the role apart is issued before the checkpoint that leads to it is
      durable, so the journaled phase always tells how far the provider can have got. */
  lemma CommandsFollowCheckpoints(p: Plan, base: Project, states: seq<State>, actions: seq<Action>, i: nat)
    requires IsRun(p, base, states, actions) && i < |actions|
    ensures var phase := states[i].journal.phase;
            match Issued(p, states[i], actions[i])
            case Some(Stop(_)) => phase == Observed
            case Some(Rename(_, name)) => name == p.away ==> phase == OldStopped
            case Some(DetachPort(_, _)) => phase == OldRenamed
            case Some(DetachVolume(_, _)) => phase == OldRenamed
            case Some(Create(_, _, _, _)) => phase == ResourcesDetached
            case _ => true
  {
    PhasesFit(p, base, states, actions, i);
    RunIsSound(p, base, states, actions, i);
    CommandFollows(p, base, states[i], actions[i]);
  }

  lemma CommandFollows(p: Plan, base: Project, s: State, a: Action)
    requires Sound(p, base, s) && PhaseFits(s.journal, s.process)
    ensures FollowsPhase(p, s.journal.phase, Issued(p, s, a))
  {
    ForwardIsFresh(p, base, s);
    CommandFits(p, s, a);
  }

  /** Only a first attempt takes the role apart. */
  predicate Dismantles(u: Process) {
    u.Up? && (u.pc.CreateServer? || (u.pc.Mutate? && u.pc.step != DropOld && !IsRollbackStep(u.pc.step)))
  }

  lemma ForwardIsFresh(p: Plan, base: Project, s: State)
    requires Sound(p, base, s)
    ensures Dismantles(s.process) ==> s.process.mode == Fresh
    ensures p.name != p.away
  {
    var live, born :| Inv(p, base, s, live, born);
    ForwardControl(p, FactsOf(p, base, s.cloud, live, born), s.journal, s.process);
  }

  lemma ForwardControl(p: Plan, f: Facts, j: Journal, u: Process)
    requires Control(p, f, j, u)
    ensures Dismantles(u) ==> u.mode == Fresh
  {
  }

  lemma CommandFits(p: Plan, s: State, a: Action)
    requires PhaseFits(s.journal, s.process) && (Dismantles(s.process) ==> s.process.mode == Fresh) && p.name != p.away
    ensures FollowsPhase(p, s.journal.phase, Issued(p, s, a))
  {
  }

  predicate FollowsPhase(p: Plan, phase: Phase, command: Option<Command>) {
    match command
    case Some(Stop(_)) => phase == Observed
    case Some(Rename(_, name)) => name == p.away ==> phase == OldStopped
    case Some(DetachPort(_, _)) => phase == OldRenamed
    case Some(DetachVolume(_, _)) => phase == OldRenamed
    case Some(Create(_, _, _, _)) => phase == ResourcesDetached
    case _ => true
  }

  /** How an attempt or a recovery ends is told by the phase it reached: failed exactly when nothing
      was begun or everything was put back, successful exactly when the replacement is complete and
      the old server gone, and left for recovery otherwise. */
  lemma EndIsTrue(p: Plan, base: Project, states: seq<State>, actions: seq<Action>, i: nat)
    requires IsRun(p, base, states, actions) && i < |actions| && actions[i] == Mark
    ensures var j, c := states[i + 1].journal, states[i + 1].cloud;
            && j.phase == states[i].journal.phase && c == states[i].cloud && states[i + 1].process.Down?
            && (j.status == Failed <==> j.phase == Validated || j.phase == RolledBack)
            && (j.status == Succeeded <==> j.phase == Complete && p.oldServer !in c.servers)
            && j.status != Running
  {
    StepOf(p, base, states, actions, i);
    PhasesFit(p, base, states, actions, i);
    RunIsSound(p, base, states, actions, i);
    var live, born :| Inv(p, base, states[i], live, born);
    MarkIsTrue(p, FactsOf(p, base, states[i].cloud, live, born), states[i].journal, states[i].process, Look(p, states[i].cloud));
  }

  lemma MarkIsTrue(p: Plan, f: Facts, j: Journal, u: Process, seen: Sighting)
    requires Control(p, f, j, u) && PhaseFits(j, u) && u.Up? && Client(p, j, u, Mark, seen).Some?
    ensures var local := Client(p, j, u, Mark, seen).value;
            && local.journal.phase == j.phase && local.process.Down? && local.journal.status != Running
            && (local.journal.status == Failed <==> j.phase == Validated || j.phase == RolledBack)
            && (local.journal.status == Succeeded <==> j.phase == Complete && !f.oldHere)
  {
  }

  /** A start is issued only for the old server, only if it was found running, and by a rollback only
      if it is not running now. */
  lemma StartsAreNeeded(p: Plan, base: Project, states: seq<State>, actions: seq<Action>, i: nat)
    requires IsRun(p, base, states, actions) && i < |actions|
    ensures var c := states[i].cloud;
            match Issued(p, states[i], actions[i])
            case Some(Start(x)) =>
              && x == p.oldServer && x in base.servers && base.servers[x].power == Active && x in c.servers
              && (states[i].process.pc != PowerBack ==> c.servers[x].power != Active)
            case _ => true
  {
    RunIsSound(p, base, states, actions, i);
    StartIsKnown(p, states[i], actions[i]);
    if states[i].process.Up? && (states[i].process.pc == PowerBack || states[i].process.pc == Mutate(Revive)) {
      StartFits(p, base, states[i]);
    }
  }

  /** Two steps issue starts. */
  lemma StartIsKnown(p: Plan, s: State, a: Action)
    ensures match Issued(p, s, a)
            case Some(Start(x)) =>
              && x == p.oldServer && (s.process.pc == PowerBack || s.process.pc == Mutate(Revive))
              && (s.process.pc != PowerBack && x in s.cloud.servers ==> s.cloud.servers[x].power != Active)
            case _ => true
  {
  }

  lemma StartFits(p: Plan, base: Project, s: State)
    requires Sound(p, base, s) && s.process.Up? && (s.process.pc == PowerBack || s.process.pc == Mutate(Revive))
    ensures p.oldServer in base.servers && base.servers[p.oldServer].power == Active && p.oldServer in s.cloud.servers
  {
    var live, born :| Inv(p, base, s, live, born);
    StartIsForward(p, FactsOf(p, base, s.cloud, live, born), s.journal, s.process);
  }

  lemma StartIsForward(p: Plan, f: Facts, j: Journal, u: Process)
    requires Control(p, f, j, u) && u.Up? && (u.pc == PowerBack || u.pc == Mutate(Revive))
    ensures p.oldPower == Active && f.oldHere
  {
  }

  /** The journal names the replacement as soon as its creation is journaled, and what it names is
      the only server that carries the tag. */
  lemma JournalNamesReplacement(p: Plan, base: Project, states: seq<State>, actions: seq<Action>, i: nat, x: Id)
    requires IsRun(p, base, states, actions) && i < |states|
    ensures var j, c := states[i].journal, states[i].cloud;
            && (j.phase == ReplacementCreated || j.phase == ReplacementDeleted || j.phase == Accepted || j.phase == Complete ==>
                  j.replacement.Some?)
            && (j.replacement.Some? && x in c.servers && c.servers[x].tag == Some(p.op) ==> j.replacement == Some(x))
  {
    RunIsSound(p, base, states, actions, i);
    var live, born :| Inv(p, base, states[i], live, born);
    TaggedIsReplacement(p, base, states[i].cloud, live);
    assert x in Tagged(states[i].cloud, p.op) <==> x in states[i].cloud.servers && states[i].cloud.servers[x].tag == Some(p.op);
  }

  /** `r` alone has this name, is what was asked for, and alone holds the port and every volume at
      its device. */
  ghost predicate HoldsAll(p: Plan, c: Project, r: Id, image: Id, flavor: Id, tag: Option<Id>) {
    && r in c.servers && c.servers[r].name == p.name && c.servers[r].image == image && c.servers[r].flavor == flavor
    && c.servers[r].tag == tag
    && (forall x :: x in c.servers && x != r ==> c.servers[x].name != p.name)
    && (forall q :: q in c.ports ==> (c.ports[q] == Some(r) <==> q == p.port)) && p.port in c.ports
    && (forall v :: v in p.devices ==> v in c.volumes && c.volumes[v] == Some(Slot(r, p.devices[v])))
    && (forall v :: v in c.volumes && v !in p.devices ==> !AttachedTo(c, v, r))
  }

  lemma OwnsMeans(p: Plan, c: Project, r: Id)
    requires Owns(p, c, r) && r in c.servers
    ensures HoldsAll(p, c, r, c.servers[r].image, c.servers[r].flavor, c.servers[r].tag)
  {
    assert r in Named(c, p.name);
    forall x | x in c.servers && x != r ensures c.servers[x].name != p.name { assert x !in Named(c, p.name); }
    forall q | q in c.ports ensures c.ports[q] == Some(r) <==> q == p.port { assert q in PortsOf(c, r) <==> q == p.port; }
    assert p.port in PortsOf(c, r);
    forall v | v in p.devices ensures v in c.volumes && c.volumes[v] == Some(Slot(r, p.devices[v])) {
      assert v in DevicesOf(c, r) && DevicesOf(c, r)[v] == p.devices[v];
    }
    forall v | v in c.volumes && v !in p.devices ensures !AttachedTo(c, v, r) { assert v !in DevicesOf(c, r); }
  }

  /** Field by field: at every moment the old server is what it was, up to its two names and being
      stopped; or the accepted replacement has the image, flavor and tag of the operation and alone
      holds the name, the port and every volume at its device. */
  lemma HostFieldByField(p: Plan, base: Project, states: seq<State>, actions: seq<Action>, i: nat)
    requires IsRun(p, base, states, actions) && i < |states|
    ensures p.oldServer in base.servers
    ensures var s := states[i];
            if s.journal.phase == Accepted || s.journal.phase == Complete
            then s.journal.replacement.Some? && HoldsAll(p, s.cloud, s.journal.replacement.value, p.image, p.flavor, Some(p.op))
            else
              && p.oldServer in s.cloud.servers
              && var before, now := base.servers[p.oldServer], s.cloud.servers[p.oldServer];
                 && now.image == before.image && now.flavor == before.flavor && now.tag == before.tag
                 && (now.name == p.name || now.name == p.away)
                 && (now.power == before.power || (before.power == Active && now.power == Shutoff))
  {
    RunIsSound(p, base, states, actions, i);
    var live, born :| Inv(p, base, states[i], live, born);
    HostAlwaysExists(p, base, states, actions, i);
    var s := states[i];
    if Committed(s.journal.phase) { OwnsMeans(p, s.cloud, s.journal.replacement.value); }
  }
}
