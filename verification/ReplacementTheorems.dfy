/** The promises of host replacement, over every run with any crashes, lost replies,
    failed observations and repeated recoveries. */
module ReplacementTheorems {
  import opened Options
  import opened Cloud
  import opened Replacement
  import opened ReplacementSafety
  import Runs

  /** `r` is a replacement that carries the operation, the selected image and the target
      flavor, and is the only holder of the configured name, port and volumes. */
  predicate Serving(p: Plan, c: Project, r: Id) { Identity(p, c, r) && Owns(p, c, r) }

  /** Nothing but the old server, its port, its volumes and the replacement ever changes. */
  ghost predicate OthersUntouched(p: Plan, base: Project, c: Project) {
    && (forall x :: x in base.servers && x != p.oldServer ==> x in c.servers && c.servers[x] == base.servers[x])
    && (forall x :: x in c.servers && x !in base.servers ==> c.servers[x].tag == Some(p.op))
    && (forall q :: q in base.ports && q != p.port ==> q in c.ports && c.ports[q] == base.ports[q])
    && (forall v :: v in base.volumes && v !in p.devices ==> v in c.volumes && c.volumes[v] == base.volumes[v])
  }

  /** At every moment the old server exists unchanged but for name and power, or acceptance is
      durable and the recorded replacement is serving. */
  lemma HostAlwaysExists(p: Plan, base: Project, states: seq<State>, actions: seq<Action>, i: nat)
    requires IsRun(p, base, states, actions) && i < |states|
    ensures var s := states[i];
            if Committed(s.journal.phase)
            then s.journal.replacement.Some? && Serving(p, s.cloud, s.journal.replacement.value)
            else p.oldServer in s.cloud.servers && OldIntact(p, base, s.cloud)
    ensures OthersUntouched(p, base, states[i].cloud)
  {
    RunIsSound(p, base, states, actions, i);
    var live, born :| Inv(p, base, states[i], live, born);
  }

  /** The command of action `i`, if it issues one to the provider. */
  function Issued(p: Plan, s: State, a: Action): Option<Command> {
    if s.process.Down? then None
    else if a.Issue? && s.process.pc.Mutate? then CommandOf(p, s.cloud, s.process.pc.step, s.process.replacement)
    else if a.Issue? && s.process.pc.PowerBack? then Some(Start(p.oldServer))
    else if a.IssueCreate? && s.process.pc.CreateServer? then Some(Create(a.server, Candidate(p), p.port, p.devices))
    else None
  }

  /** The old server's delete is issued only once acceptance is durable; the replacement's only
      while it is not; and no other existing server is ever the target of a delete. */
  lemma DeletesAreSafe(p: Plan, base: Project, states: seq<State>, actions: seq<Action>, i: nat)
    requires IsRun(p, base, states, actions) && i < |actions|
    ensures var s := states[i];
            match Issued(p, s, actions[i])
            case Some(Delete(x)) =>
              && x in s.cloud.servers
              && if x == p.oldServer then Committed(s.journal.phase)
                 else !Committed(s.journal.phase) && Identity(p, s.cloud, x)
            case _ => true
  {
    RunIsSound(p, base, states, actions, i);
    var live, born :| Inv(p, base, states[i], live, born);
  }

  /** One action never leaves acceptance, nor changes the accepted replacement. */
  lemma CommitIsKept(p: Plan, base: Project, s: State, a: Action)
    requires Sound(p, base, s) && Next(p, s, a).Some? && Committed(s.journal.phase)
    ensures var j, j' := s.journal, Next(p, s, a).value.journal;
            && (j'.phase == j.phase || j'.phase == Complete)
            && j'.replacement == j.replacement && j'.observations
  {
    var live, born :| Inv(p, base, s, live, born);
    CommittedClient(p, FactsOf(p, base, s.cloud, live, born), s.journal, s.process, a, Look(p, s.cloud));
  }

  lemma CommittedClient(p: Plan, f: Facts, j: Journal, u: Process, a: Action, seen: Sighting)
    requires Control(p, f, j, u) && Client(p, j, u, a, seen).Some? && Committed(j.phase)
    ensures var j' := Client(p, j, u, a, seen).value.journal;
            && (j'.phase == j.phase || j'.phase == Complete)
            && j'.replacement == j.replacement && j'.observations
  {
  }

  /** Acceptance of `r` is durable, and completion is too if `done`. */
  ghost predicate AcceptedAs(p: Plan, base: Project, r: Option<Id>, done: bool, s: State) {
    && Sound(p, base, s)
    && Committed(s.journal.phase) && s.journal.replacement == r
    && (done ==> s.journal.phase == Complete)
  }

  lemma AcceptedIsKept(p: Plan, base: Project, r: Option<Id>, done: bool)
    ensures Runs.Kept(Transition(p), s => AcceptedAs(p, base, r, done, s))
  {
    forall s, a | AcceptedAs(p, base, r, done, s) && Next(p, s, a).Some?
      ensures AcceptedAs(p, base, r, done, Next(p, s, a).value)
    {
      NextIsSound(p, base, s, a);
      CommitIsKept(p, base, s, a);
    }
  }

  /** Once accepted, the phase only becomes `Complete` and the replacement serves for ever. */
  lemma AcceptanceIsFinal(p: Plan, base: Project, states: seq<State>, actions: seq<Action>, i: nat, k: nat)
    requires IsRun(p, base, states, actions) && i <= k < |states|
    requires Committed(states[i].journal.phase)
    ensures var before, after := states[i].journal, states[k].journal;
            && (after.phase == before.phase || after.phase == Complete)
            && after.replacement == before.replacement && after.replacement.Some?
            && Serving(p, states[k].cloud, after.replacement.value)
  {
    RunIsSound(p, base, states, actions, i);
    var r, done := states[i].journal.replacement, states[i].journal.phase == Complete;
    AcceptedIsKept(p, base, r, done);
    Runs.Persists(Transition(p), s => AcceptedAs(p, base, r, done, s), states, actions, i, k);
    HostAlwaysExists(p, base, states, actions, k);
  }

  /** A rollback that reports success has put the project back exactly as it was found: the old
      server under its configured name with its port, every volume at its recorded device and
      its power, and no server carrying the operation. A reported success leaves the serving
      replacement and not the old server. */
  lemma FinishedConserves(p: Plan, base: Project, states: seq<State>, actions: seq<Action>, i: nat)
    requires IsRun(p, base, states, actions) && i < |states|
    ensures var s := states[i];
            && (s.journal.status == Failed || s.journal.phase == RolledBack ==> s.cloud == base)
            && (s.journal.status == Succeeded ==>
                  && p.oldServer !in s.cloud.servers
                  && s.journal.replacement.Some? && Serving(p, s.cloud, s.journal.replacement.value)
                  && OthersUntouched(p, base, s.cloud))
  {
    RunIsSound(p, base, states, actions, i);
    var live, born :| Inv(p, base, states[i], live, born);
    HostAlwaysExists(p, base, states, actions, i);
  }

  /** The server that answers for the role once the operation is finished. */
  function ActiveServer(p: Plan, s: State): Id {
    if s.journal.status == Succeeded && s.journal.replacement.Some? then s.journal.replacement.value else p.oldServer
  }

  /** Every finished operation leaves a project in which the next one may begin. */
  lemma FinishedIsReady(p: Plan, base: Project, states: seq<State>, actions: seq<Action>, i: nat, q: Plan)
    requires IsRun(p, base, states, actions) && i < |states| && !Unfinished(states[i].journal)
    requires q.name == p.name && q.port == p.port && q.devices == p.devices && q.order == p.order
    requires q.name != q.away && Tagged(states[i].cloud, q.op) == {}
    requires q.oldServer == ActiveServer(p, states[i])
    requires q.oldServer in states[i].cloud.servers
    requires var now := states[i].cloud.servers[q.oldServer];
             q.oldPower == now.power && q.oldImage == now.image && q.oldFlavor == now.flavor
    ensures Ready(q, states[i].cloud)
  {
    FinishedConserves(p, base, states, actions, i);
  }
}
