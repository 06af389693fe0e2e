/** A first attempt with a cooperative provider: it succeeds, or is rolled back in the same
    process when the create request is refused or the new server is not healthy. */
module ReplacementFresh {
  import opened Options
  import opened Cloud
  import opened Replacement
  import opened ReplacementSafety
  import opened ReplacementRecovery
  import Runs

  /** What becomes of the new server. */
  datatype Fate = Healthy | Refused | Unhealthy

  function Destiny(fate: Fate): Recovery { if fate == Healthy then Continue else Rollback }

  /** What happens next when everything but the new server goes well; `x` is its identifier. */
  function Choose(fate: Fate, x: Id, u: Process): Action {
    if u.Up? && u.pc.CreateServer? then
      IssueCreate(x, fate != Refused, if fate == Refused then Refuse else Accept)
    else if u.Up? && u.pc.Judge? && fate == Unhealthy then Unverified
    else Cooperate(u)
  }

  predicate Home(p: Plan, c: Project) { p.oldServer in c.servers && c.servers[p.oldServer].name == p.name }
  predicate Away(p: Plan, c: Project) { p.oldServer in c.servers && c.servers[p.oldServer].name == p.away }

  /** The old server has given up its name, its port and its first `n` volumes. */
  ghost predicate Freed(p: Plan, c: Project, n: nat) {
    && Away(p, c) && p.port in c.ports && c.ports[p.port] == None
    && forall k :: 0 <= k < n && k < |p.order| ==> p.order[k] in c.volumes && c.volumes[p.order[k]] == None
  }

  /** Where a first attempt is on its way to acceptance, and what it has achieved. */
  ghost predicate OnForward(p: Plan, x: Id, fate: Fate, s: State) {
    && s.process.Up? && s.process.mode == Fresh && p.oldPower != Other
    && var c, r := s.cloud, s.process.replacement;
       match s.process.pc
       case Preflight => Home(p, c)
       case Save(phase) =>
         (match phase
          case Observed | OldStopped => Home(p, c)
          case OldRenamed => Away(p, c)
          case ResourcesDetached => Freed(p, c, |p.order|)
          case ReplacementCreated => fate != Refused && r == Some(x) && Identity(p, c, x) && Owns(p, c, x)
          case Accepted => fate == Healthy
          case _ => false)
       case Mutate(step) =>
         (match step
          case StopOld | RenameAway => Home(p, c)
          case FreePort => Away(p, c)
          case FreeVolume(i) => i < |p.order| && Freed(p, c, i)
          case _ => false)
       case Confirm(step) =>
         Goal(p, c, step, r) &&
         (match step
          case StopOld => Home(p, c)
          case RenameAway => Away(p, c)
          case FreePort => Freed(p, c, 0)
          case FreeVolume(i) => i < |p.order| && Freed(p, c, i + 1)
          case _ => false)
       case CreateServer => Freed(p, c, |p.order|)
       case CreateRefused => fate == Refused && Tagged(c, p.op) == {}
       case Judge => fate != Refused && r == Some(x) && Identity(p, c, x) && Owns(p, c, x)
       case _ => false
  }

  /** How far the end is; the way back is counted by `Distance`. */
  function Way(p: Plan, u: Process): nat {
    var n := |p.order|;
    var k := 2 * n + 17;
    if u.Down? then 0
    else
      match u.pc
      case Preflight => k + 2 * n + 14
      case Save(Observed) => k + 2 * n + 13
      case Mutate(StopOld) => k + 2 * n + 12
      case Confirm(StopOld) => k + 2 * n + 11
      case Save(OldStopped) => k + 2 * n + 10
      case Mutate(RenameAway) => k + 2 * n + 9
      case Confirm(RenameAway) => k + 2 * n + 8
      case Save(OldRenamed) => k + 2 * n + 7
      case Mutate(FreePort) => k + 2 * n + 6
      case Confirm(FreePort) => k + 2 * n + 5
      case Mutate(FreeVolume(i)) => if i < n then k + 2 * (n - i) + 4 else k + 4
      case Confirm(FreeVolume(i)) => if i < n then k + 2 * (n - i) + 3 else k + 3
      case Save(ResourcesDetached) => k + 4
      case CreateServer => k + 3
      case Save(ReplacementCreated) => k + 2
      case CreateRefused => k + 1
      case Judge => k + 1
      case Save(Accepted) => 8
      case _ => Distance(p, u)
  }

  /** One action leads on, or into the way back or to completion. */
  ghost predicate Proceeds(p: Plan, x: Id, fate: Fate, s: State) {
    match Next(p, s, Choose(fate, x, s.process))
    case None => false
    case Some(t) =>
      && Unfinished(t.journal) && Way(p, t.process) < Way(p, s.process)
      && (OnForward(p, x, fate, t) || (OnPath(p, t) && Heading(t.journal) == Destiny(fate)))
  }

  /** Nothing else has the name the old server moves to, and the new identifier is unused. */
  ghost predicate Prepared(p: Plan, base: Project, x: Id) {
    Ready(p, base) && p.oldPower != Other && Named(base, p.away) == {} && Unused(base, x)
  }

  /** Issuing a command leads on if its effect is what the confirmation looks for. */
  lemma IssueProceeds(p: Plan, s: State, x: Id, fate: Fate, step: Step, c: Project)
    requires s.process.Up? && s.process.pc == Mutate(step) && Unfinished(s.journal)
    requires step == StopOld || step == RenameAway || step == FreePort || step.FreeVolume?
    requires c == Effect(p, s.cloud, s.process, Issue(true))
    requires OnForward(p, x, fate, State(c, s.journal, s.process.(pc := Confirm(step))))
    ensures Proceeds(p, x, fate, s)
  {
  }

  lemma StopFrees(p: Plan, base: Project, c: Project)
    requires Ready(p, base) && Shape(p, base, c, None) && p.oldPower == Active && Home(p, c)
    ensures var c' := Execute(c, Stop(p.oldServer));
            Home(p, c') && Goal(p, c', StopOld, None)
  {
  }

  lemma RenameFrees(p: Plan, base: Project, c: Project)
    requires Ready(p, base) && Shape(p, base, c, None) && Named(base, p.away) == {}
    ensures var c' := Execute(c, Rename(p.oldServer, p.away));
            Away(p, c') && Goal(p, c', RenameAway, None)
  {
    var c' := Execute(c, Rename(p.oldServer, p.away));
    forall y | y in Named(c', p.away) ensures y == p.oldServer {
      assert y !in Named(base, p.away);
    }
    assert p.oldServer in Named(c', p.away);
  }

  lemma PortFrees(p: Plan, base: Project, c: Project)
    requires Ready(p, base) && Shape(p, base, c, None) && Away(p, c)
    ensures var c' := Execute(c, DetachPort(p.oldServer, p.port));
            Freed(p, c', 0) && Goal(p, c', FreePort, None)
  {
  }

  lemma VolumeFrees(p: Plan, base: Project, c: Project, i: nat)
    requires Ready(p, base) && Shape(p, base, c, None) && i < |p.order| && Freed(p, c, i)
    ensures var c' := Execute(c, DetachVolume(p.oldServer, p.order[i]));
            Freed(p, c', i + 1) && Goal(p, c', FreeVolume(i), None)
  {
    assert p.order[i] in p.order;
    assert p.order[i] in p.devices;
  }

  /** A forward step is taken while no replacement exists. */
  lemma NothingYet(p: Plan, base: Project, s: State, x: Id, fate: Fate, live: Option<Id>, born: Option<Id>)
    requires Inv(p, base, s, live, born) && OnForward(p, x, fate, s) && s.process.pc.Mutate?
    ensures Ready(p, base) && Shape(p, base, s.cloud, None) && s.process.replacement == None && Unfinished(s.journal)
    ensures s.process.pc.step == StopOld ==> p.oldPower == Active
  {
  }

  lemma MutateProceeds(p: Plan, base: Project, s: State, x: Id, fate: Fate)
    requires Prepared(p, base, x) && Shape(p, base, s.cloud, None) && OnForward(p, x, fate, s) && s.process.pc.Mutate?
    requires s.process.replacement == None && Unfinished(s.journal) && (s.process.pc.step == StopOld ==> p.oldPower == Active)
    ensures Proceeds(p, x, fate, s)
  {
    var step, c := s.process.pc.step, s.cloud;
    var command: Command;
    match step {
      case StopOld => StopFrees(p, base, c); command := Stop(p.oldServer);
      case RenameAway => RenameFrees(p, base, c); command := Rename(p.oldServer, p.away);
      case FreePort => PortFrees(p, base, c); command := DetachPort(p.oldServer, p.port);
      case FreeVolume(i) => VolumeFrees(p, base, c, i); command := DetachVolume(p.oldServer, p.order[i]);
    }
    IssueProceeds(p, s, x, fate, step, Execute(c, command));
  }

  lemma FreedProceeds(p: Plan, f: Facts, s: State, x: Id, fate: Fate)
    requires Control(p, f, s.journal, s.process) && OnForward(p, x, fate, s)
    requires s.process.pc.Confirm? && (s.process.pc.step == FreePort || s.process.pc.step.FreeVolume?)
    ensures Proceeds(p, x, fate, s)
  {
  }

  lemma ConfirmProceeds(p: Plan, f: Facts, s: State, x: Id, fate: Fate)
    requires Control(p, f, s.journal, s.process) && OnForward(p, x, fate, s)
    requires s.process.pc.Confirm? && (s.process.pc.step == StopOld || s.process.pc.step == RenameAway)
    ensures Proceeds(p, x, fate, s)
  {
  }

  lemma SaveProceeds(p: Plan, f: Facts, s: State, x: Id, fate: Fate)
    requires Control(p, f, s.journal, s.process) && OnForward(p, x, fate, s)
    requires s.process.pc.Save? && s.process.pc.phase in {Observed, OldStopped, OldRenamed, ResourcesDetached}
    ensures Proceeds(p, x, fate, s)
  {
  }

  lemma SaveOutcomeProceeds(p: Plan, f: Facts, s: State, x: Id, fate: Fate)
    requires Control(p, f, s.journal, s.process) && OnForward(p, x, fate, s)
    requires s.process.pc == Save(ReplacementCreated) || s.process.pc == Save(Accepted)
    ensures Proceeds(p, x, fate, s)
  {
  }

  /** The new server is born owning everything, under the name nobody else has. */
  lemma CreateServes(p: Plan, base: Project, c: Project, x: Id)
    requires Prepared(p, base, x) && Shape(p, base, c, None) && Freed(p, c, |p.order|)
    ensures Unused(c, x)
    ensures var c' := Execute(c, Create(x, Candidate(p), p.port, p.devices));
            x in c'.servers && Identity(p, c', x) && Owns(p, c', x)
  {
    assert forall v :: v in p.devices ==> v in p.order;
    forall v | v in p.devices ensures v in c.volumes && c.volumes[v] == None {
      var k :| 0 <= k < |p.order| && p.order[k] == v;
    }
    UnusedStays(p, base, c, x);
    CreatedOwns(p, base, c, x);
  }

  lemma UnusedStays(p: Plan, base: Project, c: Project, x: Id)
    requires Prepared(p, base, x) && Shape(p, base, c, None)
    ensures Unused(c, x)
  {
    forall v | v in c.volumes ensures !AttachedTo(c, v, x) {
      assert v in base.volumes && !AttachedTo(base, v, x);
    }
  }

  lemma CreatedOwns(p: Plan, base: Project, c: Project, x: Id)
    requires Prepared(p, base, x) && Shape(p, base, c, None) && Away(p, c) && Unused(c, x)
    requires p.port in c.ports && c.ports[p.port] == None
    requires forall v :: v in p.devices ==> v in c.volumes && c.volumes[v] == None
    ensures Owns(p, Execute(c, Create(x, Candidate(p), p.port, p.devices)), x)
  {
    var c' := Execute(c, Create(x, Candidate(p), p.port, p.devices));
    forall y | y in Named(c', p.name) ensures y == x {
      assert y != x ==> (y in Named(base, p.name) <==> y == p.oldServer);
    }
    assert x in Named(c', p.name);
    forall q | q in PortsOf(c', x) ensures q == p.port { assert q in c.ports; }
    assert p.port in PortsOf(c', x);
    var d := DevicesOf(c', x);
    forall v | v in d ensures v in p.devices && d[v] == p.devices[v] { assert !AttachedTo(c, v, x); }
    forall v | v in p.devices ensures v in d { assert c'.volumes[v] == Some(Slot(x, p.devices[v])); }
    assert d == p.devices;
  }

  lemma CreateProceeds(p: Plan, s: State, x: Id, fate: Fate, c: Project)
    requires s.process.Up? && s.process.mode == Fresh && s.process.pc.CreateServer? && s.process.replacement == None
    requires Unfinished(s.journal) && p.oldPower != Other
    requires Unused(s.cloud, x) && x != p.oldServer
    requires c == if fate == Refused then s.cloud else Execute(s.cloud, Create(x, Candidate(p), p.port, p.devices))
    requires if fate == Refused then Tagged(c, p.op) == {} else x in c.servers && Identity(p, c, x) && Owns(p, c, x)
    ensures Proceeds(p, x, fate, s)
  {
  }

  lemma NewProceeds(p: Plan, base: Project, s: State, x: Id, fate: Fate, live: Option<Id>, born: Option<Id>)
    requires Inv(p, base, s, live, born) && Prepared(p, base, x) && OnForward(p, x, fate, s) && s.process.pc.CreateServer?
    ensures Proceeds(p, x, fate, s)
  {
    CreateServes(p, base, s.cloud, x);
    TaggedIsReplacement(p, base, s.cloud, live);
    var c := if fate == Refused then s.cloud else Execute(s.cloud, Create(x, Candidate(p), p.port, p.devices));
    CreateProceeds(p, s, x, fate, c);
  }

  lemma PreflightProceeds(p: Plan, f: Facts, s: State, x: Id, fate: Fate)
    requires Control(p, f, s.journal, s.process) && OnForward(p, x, fate, s)
    requires s.process.pc.Preflight? || s.process.pc.CreateRefused?
    ensures Proceeds(p, x, fate, s)
  {
  }

  lemma JudgeProceeds(p: Plan, f: Facts, s: State, x: Id, fate: Fate)
    requires Control(p, f, s.journal, s.process) && OnForward(p, x, fate, s) && s.process.pc.Judge?
    ensures Proceeds(p, x, fate, s)
  {
  }

  lemma ForwardProceeds(p: Plan, base: Project, s: State, x: Id, fate: Fate)
    requires Sound(p, base, s) && Prepared(p, base, x) && OnForward(p, x, fate, s)
    ensures Proceeds(p, x, fate, s)
  {
    var live, born :| Inv(p, base, s, live, born);
    var f := FactsOf(p, base, s.cloud, live, born);
    var pc := s.process.pc;
    if pc.Mutate? { NothingYet(p, base, s, x, fate, live, born); MutateProceeds(p, base, s, x, fate); }
    else if pc.Confirm? {
      if pc.step == FreePort || pc.step.FreeVolume? { FreedProceeds(p, f, s, x, fate); } else { ConfirmProceeds(p, f, s, x, fate); }
    }
    else if pc == Save(ReplacementCreated) || pc == Save(Accepted) { SaveOutcomeProceeds(p, f, s, x, fate); }
    else if pc.Save? { SaveProceeds(p, f, s, x, fate); }
    else if pc.CreateServer? { NewProceeds(p, base, s, x, fate, live, born); }
    else if pc.Judge? { JudgeProceeds(p, f, s, x, fate); }
    else { PreflightProceeds(p, f, s, x, fate); }
  }

  ghost predicate Bound(p: Plan, base: Project, x: Id, fate: Fate, s: State) {
    && Sound(p, base, s) && Unfinished(s.journal)
    && (OnForward(p, x, fate, s) || (OnPath(p, s) && Heading(s.journal) == Destiny(fate)))
  }

  lemma BackIsCloser(p: Plan, base: Project, x: Id, fate: Fate, s: State)
    requires Sound(p, base, s) && Unfinished(s.journal) && OnPath(p, s) && Heading(s.journal) == Destiny(fate)
    ensures Choose(fate, x, s.process) == Cooperate(s.process)
    ensures Way(p, s.process) == Distance(p, s.process)
  {
  }

  lemma BoundAdvances(p: Plan, base: Project, x: Id, fate: Fate, s: State)
    requires Prepared(p, base, x) && Bound(p, base, x, fate, s)
    ensures var t := Next(p, s, Choose(fate, x, s.process));
            && t.Some?
            && if Unfinished(t.value.journal)
               then Bound(p, base, x, fate, t.value) && Way(p, t.value.process) < Way(p, s.process)
               else Ended(p, base, Destiny(fate), t.value)
  {
    if OnPath(p, s) && Heading(s.journal) == Destiny(fate) {
      BackIsCloser(p, base, x, fate, s);
      UnderwayAdvances(p, base, Destiny(fate), s);
      var t := Next(p, s, Choose(fate, x, s.process)).value;
      if Unfinished(t.journal) { BackIsCloser(p, base, x, fate, t); }
    } else {
      ForwardProceeds(p, base, s, x, fate);
      NextIsSound(p, base, s, Choose(fate, x, s.process));
    }
  }

  function Choices(fate: Fate, x: Id): State -> Action { (s: State) => Choose(fate, x, s.process) }
  ghost function Toward(p: Plan, base: Project, x: Id, fate: Fate): State -> bool { s => Bound(p, base, x, fate, s) }
  function Remaining(p: Plan): State -> nat { (s: State) => Way(p, s.process) }

  lemma FreshIsCloser(p: Plan, base: Project, x: Id, fate: Fate, s: State)
    requires Prepared(p, base, x) && Bound(p, base, x, fate, s)
    ensures Runs.Closer(Transition(p), Choices(fate, x), Stopped(), Toward(p, base, x, fate), Finish(p, base, Destiny(fate)), Remaining(p), s)
  {
    BoundAdvances(p, base, x, fate, s);
  }

  lemma FreshChases(p: Plan, base: Project, x: Id, fate: Fate)
    requires Prepared(p, base, x)
    ensures Runs.Chases(Transition(p), Choices(fate, x), Stopped(), Toward(p, base, x, fate), Finish(p, base, Destiny(fate)), Remaining(p))
  {
    forall s | Toward(p, base, x, fate)(s)
      ensures Runs.Closer(Transition(p), Choices(fate, x), Stopped(), Toward(p, base, x, fate), Finish(p, base, Destiny(fate)), Remaining(p), s)
    {
      FreshIsCloser(p, base, x, fate, s);
    }
  }

  lemma BeginIsBound(p: Plan, base: Project, x: Id, fate: Fate)
    requires Prepared(p, base, x)
    ensures Bound(p, base, x, fate, Begin(base)) && Way(p, Begin(base).process) == 4 * |p.order| + 31
  {
    BeginInv(p, base);
    assert p.oldServer in Named(base, p.name);
  }

  /** From every project in which a replacement may begin, with the old host ACTIVE or SHUTOFF, a
      cooperative provider leads it to an end within `4 * volumes + 32` actions: succeeded with the
      replacement serving, or, when the create request is refused or the new server is not healthy,
      rolled back by the same process to exactly the project it found. */
  lemma FreshAttemptEnds(p: Plan, base: Project, x: Id, fate: Fate)
      returns (states: seq<State>, actions: seq<Action>)
    requires Prepared(p, base, x)
    ensures IsRun(p, base, states, actions) && |actions| <= 4 * |p.order| + 32
    ensures var last := states[|actions|];
            if fate == Healthy then last.journal.status == Succeeded
            else last.journal.status == Failed && last.cloud == base
  {
    BeginIsBound(p, base, x, fate);
    FreshChases(p, base, x, fate);
    states, actions := Runs.Arrives(Transition(p), Choices(fate, x), Stopped(),
      Toward(p, base, x, fate), Finish(p, base, Destiny(fate)), Remaining(p), Begin(base), 4 * |p.order| + 32);
    FailedIsOriginal(p, base, states[|actions|]);
  }
}
