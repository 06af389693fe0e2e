/** When an interrupted replacement can be recovered, and that it then is.

    With a provider that carries out each command, answers each observation and reports a
    running host healthy, recovery reaches a finished operation in a bounded number of
    actions from every crash except two kinds, from which no action ever does. */
module ReplacementRecovery {
  import opened Options
  import opened Cloud
  import opened Replacement
  import opened ReplacementSafety
  import Runs

  /** The recovery the operator command chooses from the recorded phase. */
  function OperatorAction(phase: Phase): (r: Option<Recovery>)
    ensures r.Some? ==> Allowed(phase, r.value)
    ensures r.None? <==> phase == Validated || phase == RolledBack
  {
    match phase
    case Observed | OldStopped | OldRenamed | OldRetained | ResourcesDetached | Ambiguous
       | ReplacementCreated | ReplacementDeleted => Some(Rollback)
    case Accepted | Complete => Some(Continue)
    case Validated | RolledBack => None
  }

  /** What a cooperative provider lets happen next. */
  function Cooperate(u: Process): Action {
    if u.Down? then Crash
    else
      match u.pc
      case Mutate(_) => Issue(true)
      case Confirm(_) | Judge | Recheck => Verified
      case Save(_) | SaveComplete(_) => Checkpoint
      case Raise(_) | Return(_) => Mark
      case _ => Observe
  }

  /** The first `n` volumes are back on the old server. */
  ghost predicate Taken(p: Plan, c: Project, n: nat) {
    && p.port in c.ports && c.ports[p.port] == Some(p.oldServer)
    && forall k :: 0 <= k < n && k < |p.order| ==> AttachedTo(c, p.order[k], p.oldServer)
  }

  /** Before acceptance the way leads back, after it forward. */
  function Heading(j: Journal): Recovery { if Committed(j.phase) then Continue else Rollback }

  /** Where a cooperative rollback or completion is, and what it has already achieved. It may be a
      recovery, or the end of a first attempt. */
  ghost predicate OnPath(p: Plan, s: State) {
    && s.process.Up? && p.oldPower != Other
    && (s.process.mode.Recovering? ==> s.process.mode.action == Heading(s.journal))
    && var c, r := s.cloud, s.process.replacement;
       match s.process.pc
       case Survey | Recheck | CheckOld => s.process.mode.Recovering?
       case SaveComplete(confirmed) => confirmed
       case Save(phase) => phase == ReplacementDeleted || phase == RolledBack
       case Return(result) => result == (if Committed(s.journal.phase) then Replaced else Restoration)
       case Mutate(step) =>
         (match step
          case TakeVolume(i) => i < |p.order| && Taken(p, c, i)
          case RenameBack => Taken(p, c, |p.order|)
          case DropReplacement | TakePort | Revive | DropOld => true
          case _ => false)
       case Confirm(step) =>
         Goal(p, c, step, r) &&
         (match step
          case TakeVolume(i) => i < |p.order| && Taken(p, c, i + 1)
          case RenameBack => Taken(p, c, |p.order|)
          case DropReplacement | TakePort | Restored | Revive | DropOld => true
          case _ => false)
       case _ => false
  }

  function Distance(p: Plan, u: Process): nat {
    var n := |p.order|;
    if u.Down? then 0
    else
      match u.pc
      case Survey => 2 * n + 17
      case Mutate(DropReplacement) => 2 * n + 16
      case Confirm(DropReplacement) => 2 * n + 15
      case Save(ReplacementDeleted) => 2 * n + 14
      case Mutate(TakePort) => 2 * n + 13
      case Confirm(TakePort) => 2 * n + 12
      case Mutate(TakeVolume(i)) => if i < n then 2 * (n - i) + 9 else 9
      case Confirm(TakeVolume(i)) => if i < n then 2 * (n - i) + 8 else 8
      case Mutate(RenameBack) => 9
      case Confirm(RenameBack) => 8
      case Confirm(Restored) => 7
      case Mutate(Revive) => 6
      case Confirm(Revive) => 5
      case Recheck => 7
      case CheckOld => 6
      case Mutate(DropOld) => 5
      case Confirm(DropOld) => 4
      case SaveComplete(_) => 3
      case Save(_) => 3
      case _ => 1
  }

  lemma PortReturns(p: Plan, base: Project, c: Project)
    requires Ready(p, base) && Shape(p, base, c, None)
    ensures Taken(p, Execute(c, AttachPort(p.oldServer, p.port)), 0)
  {
  }

  lemma DeviceIsFree(p: Plan, base: Project, c: Project, v: Id)
    requires Ready(p, base) && Shape(p, base, c, None) && v in p.devices && c.volumes[v] == None
    ensures DeviceFree(c, p.oldServer, p.devices[v])
  {
    forall w | w in c.volumes ensures c.volumes[w] != Some(Slot(p.oldServer, p.devices[v])) {
      assert w in DevicesOf(base, p.oldServer) <==> w in p.devices;
    }
  }

  lemma VolumeReturns(p: Plan, base: Project, c: Project, i: nat)
    requires Ready(p, base) && Shape(p, base, c, None) && i < |p.order| && Taken(p, c, i)
    ensures p.order[i] in p.devices
    ensures Taken(p, Execute(c, AttachVolume(p.oldServer, p.order[i], p.devices[p.order[i]])), i + 1)
  {
    var v := p.order[i];
    assert v in p.order;
    if c.volumes[v] == None { DeviceIsFree(p, base, c, v); }
  }

  lemma NameReturns(p: Plan, base: Project, c: Project)
    requires Ready(p, base) && Shape(p, base, c, None) && Taken(p, c, |p.order|)
    ensures var c' := Execute(c, Rename(p.oldServer, p.name));
            Named(c', p.name) == {p.oldServer} && Taken(p, c', |p.order|)
  {
    var c' := Execute(c, Rename(p.oldServer, p.name));
    forall x | x in Named(c', p.name) ensures x == p.oldServer {
      assert x in Named(base, p.name) <==> x == p.oldServer;
    }
    assert p.oldServer in Named(c', p.name);
  }

  lemma EverythingReturned(p: Plan, base: Project, c: Project)
    requires Ready(p, base) && Shape(p, base, c, None) && Taken(p, c, |p.order|)
    requires Named(c, p.name) == {p.oldServer}
    ensures Owns(p, c, p.oldServer)
  {
    forall q | q in PortsOf(c, p.oldServer) ensures q == p.port {
      assert q in PortsOf(base, p.oldServer) <==> q == p.port;
    }
    assert p.port in PortsOf(c, p.oldServer);
    var d := DevicesOf(c, p.oldServer);
    forall v | v in p.devices ensures v in d && d[v] == p.devices[v] {
      assert v in p.order;
      var k :| 0 <= k < |p.order| && p.order[k] == v;
      assert AttachedTo(c, p.order[k], p.oldServer);
    }
    forall v | v in d ensures v in p.devices {
      assert v in DevicesOf(base, p.oldServer) <==> v in p.devices;
    }
    assert d == p.devices;
  }

  /** How a recovery ends: rollback fails the operation, continuation completes it. */
  function Ending(r: Recovery): Status { if r == Rollback then Failed else Succeeded }

  /** One cooperative action gets closer to the end, or is the end. */
  ghost predicate Advances(p: Plan, s: State)
    requires OnPath(p, s)
  {
    match Next(p, s, Cooperate(s.process))
    case None => false
    case Some(t) =>
      if Unfinished(t.journal) then
        OnPath(p, t) && Heading(t.journal) == Heading(s.journal) && Distance(p, t.process) < Distance(p, s.process)
      else
        t.journal.status == Ending(Heading(s.journal))
  }

  lemma SurveyAdvances(p: Plan, f: Facts, s: State)
    requires Control(p, f, s.journal, s.process) && SeenAs(f, Look(p, s.cloud))
    requires Look(p, s.cloud).oldHere ==> Look(p, s.cloud).intact
    requires OnPath(p, s) && s.process.pc.Survey?
    ensures Advances(p, s)
  {
    SurveyOutcome(p, f, s.journal, s.process, Look(p, s.cloud));
  }

  lemma SurveyOutcome(p: Plan, f: Facts, j: Journal, u: Process, seen: Sighting)
    requires Control(p, f, j, u) && SeenAs(f, seen) && (seen.oldHere ==> seen.intact)
    requires u.Up? && u.pc.Survey? && u.mode.action == Heading(j)
    ensures var t := Surveyed(u, seen);
            && t.Up? && t.mode == u.mode
            && t.pc == (if Committed(j.phase) then Recheck
                        else if f.live.Some? then Mutate(DropReplacement) else Mutate(TakePort))
  {
  }

  lemma OldLooksIntact(p: Plan, base: Project, c: Project, live: Option<Id>)
    requires Ready(p, base) && Shape(p, base, c, live) && p.oldPower != Other
    ensures Look(p, c).oldHere ==> Look(p, c).intact
  {
  }

  lemma RecheckAdvances(p: Plan, base: Project, s: State, live: Option<Id>, born: Option<Id>)
    requires Inv(p, base, s, live, born) && OnPath(p, s) && s.process.pc.Recheck?
    ensures Advances(p, s)
  {
  }

  lemma CheckOldAdvances(p: Plan, f: Facts, s: State)
    requires Control(p, f, s.journal, s.process) && OnPath(p, s) && s.process.pc.CheckOld?
    ensures Advances(p, s)
  {
  }

  lemma DeleteAdvances(p: Plan, base: Project, s: State, live: Option<Id>, born: Option<Id>)
    requires Inv(p, base, s, live, born) && OnPath(p, s)
    requires s.process.pc.Mutate? && (s.process.pc.step == DropReplacement || s.process.pc.step == DropOld)
    ensures Advances(p, s)
  {
    DropIsAimed(p, FactsOf(p, base, s.cloud, live, born), s.journal, s.process);
    DropGoesOn(p, s);
  }

  lemma DropIsAimed(p: Plan, f: Facts, j: Journal, u: Process)
    requires Control(p, f, j, u) && u.Up?
    ensures Unfinished(j) && (u.pc == Mutate(DropReplacement) ==> u.replacement.Some?)
  {
  }

  lemma DropGoesOn(p: Plan, s: State)
    requires OnPath(p, s) && (s.process.pc == Mutate(DropReplacement) || s.process.pc == Mutate(DropOld))
    requires Unfinished(s.journal) && (s.process.pc == Mutate(DropReplacement) ==> s.process.replacement.Some?)
    ensures Advances(p, s)
  {
  }

  lemma PortAdvances(p: Plan, base: Project, s: State, live: Option<Id>, born: Option<Id>)
    requires Inv(p, base, s, live, born) && OnPath(p, s) && s.process.pc == Mutate(TakePort)
    ensures Advances(p, s)
  {
    PortReturns(p, base, s.cloud);
  }

  lemma VolumeAdvances(p: Plan, base: Project, s: State, live: Option<Id>, born: Option<Id>)
    requires Inv(p, base, s, live, born) && OnPath(p, s) && s.process.pc.Mutate? && s.process.pc.step.TakeVolume?
    ensures Advances(p, s)
  {
    VolumeReturns(p, base, s.cloud, s.process.pc.step.i);
    VolumeGoesOn(p, s, s.process.pc.step.i);
  }

  lemma VolumeGoesOn(p: Plan, s: State, i: nat)
    requires OnPath(p, s) && Unfinished(s.journal) && s.process.pc == Mutate(TakeVolume(i)) && i < |p.order| && p.order[i] in p.devices
    requires Taken(p, Execute(s.cloud, AttachVolume(p.oldServer, p.order[i], p.devices[p.order[i]])), i + 1)
    ensures Advances(p, s)
  {
  }

  lemma NameAdvances(p: Plan, base: Project, s: State, live: Option<Id>, born: Option<Id>)
    requires Inv(p, base, s, live, born) && OnPath(p, s) && s.process.pc == Mutate(RenameBack)
    ensures Advances(p, s)
  {
    NameReturns(p, base, s.cloud);
  }

  lemma ReviveAdvances(p: Plan, base: Project, s: State, live: Option<Id>, born: Option<Id>)
    requires Inv(p, base, s, live, born) && OnPath(p, s) && s.process.pc == Mutate(Revive)
    ensures Advances(p, s)
  {
  }

  lemma ConfirmAdvances(p: Plan, f: Facts, s: State)
    requires Control(p, f, s.journal, s.process) && OnPath(p, s) && s.process.pc.Confirm?
    requires s.process.pc.step == RenameBack ==> Owns(p, s.cloud, p.oldServer)
    ensures Advances(p, s)
  {
  }

  lemma EndAdvances(p: Plan, f: Facts, s: State)
    requires Control(p, f, s.journal, s.process) && OnPath(p, s)
    requires s.process.pc.Save? || s.process.pc.SaveComplete? || s.process.pc.Return?
    ensures Advances(p, s)
  {
  }

  lemma ObservationAdvances(p: Plan, base: Project, s: State, live: Option<Id>, born: Option<Id>)
    requires Inv(p, base, s, live, born) && OnPath(p, s)
    requires s.process.pc.Survey? || s.process.pc.Recheck? || s.process.pc.CheckOld?
    ensures Advances(p, s)
  {
    if s.process.pc.Survey? {
      LookShows(p, base, s.cloud, live, born);
      OldLooksIntact(p, base, s.cloud, live);
      SurveyAdvances(p, FactsOf(p, base, s.cloud, live, born), s);
    } else if s.process.pc.Recheck? {
      RecheckAdvances(p, base, s, live, born);
    } else {
      CheckOldAdvances(p, FactsOf(p, base, s.cloud, live, born), s);
    }
  }

  lemma MutateAdvances(p: Plan, base: Project, s: State, live: Option<Id>, born: Option<Id>)
    requires Inv(p, base, s, live, born) && OnPath(p, s) && s.process.pc.Mutate?
    ensures Advances(p, s)
  {
    if s.process.pc.step == DropReplacement || s.process.pc.step == DropOld {
      DeleteAdvances(p, base, s, live, born);
    } else {
      match s.process.pc.step
      case TakePort => PortAdvances(p, base, s, live, born);
      case TakeVolume(_) => VolumeAdvances(p, base, s, live, born);
      case RenameBack => NameAdvances(p, base, s, live, born);
      case Revive => ReviveAdvances(p, base, s, live, born);
    }
  }

  lemma PathAdvances(p: Plan, base: Project, s: State)
    requires Sound(p, base, s) && OnPath(p, s)
    ensures Advances(p, s)
  {
    var live, born :| Inv(p, base, s, live, born);
    var f := FactsOf(p, base, s.cloud, live, born);
    if s.process.pc.Mutate? {
      MutateAdvances(p, base, s, live, born);
    } else if s.process.pc.Confirm? {
      if s.process.pc.step == RenameBack { EverythingReturned(p, base, s.cloud); }
      ConfirmAdvances(p, f, s);
    } else if s.process.pc.Save? || s.process.pc.SaveComplete? || s.process.pc.Return? {
      EndAdvances(p, f, s);
    } else {
      ObservationAdvances(p, base, s, live, born);
    }
  }

  /** The cooperative recovery of an operation, at most `fuel` actions of it. */
  function Recover(p: Plan, s: State, fuel: nat): State {
    Runs.Drive(Transition(p), Choice(), Stopped(), s, fuel)
  }

  function Choice(): State -> Action { (s: State) => Cooperate(s.process) }
  function Stopped(): State -> bool { (s: State) => !Unfinished(s.journal) }

  ghost predicate Underway(p: Plan, base: Project, r: Recovery, s: State) {
    Sound(p, base, s) && OnPath(p, s) && Heading(s.journal) == r && Unfinished(s.journal)
  }

  ghost predicate Ended(p: Plan, base: Project, r: Recovery, s: State) {
    Sound(p, base, s) && s.journal.status == Ending(r)
  }

  lemma UnderwayAdvances(p: Plan, base: Project, r: Recovery, s: State)
    requires Underway(p, base, r, s)
    ensures Next(p, s, Cooperate(s.process)).Some?
    ensures var t := Next(p, s, Cooperate(s.process)).value;
            if Unfinished(t.journal)
            then Underway(p, base, r, t) && Distance(p, t.process) < Distance(p, s.process)
            else Ended(p, base, r, t)
  {
    PathAdvances(p, base, s);
    NextIsSound(p, base, s, Cooperate(s.process));
  }

  ghost function Along(p: Plan, base: Project, r: Recovery): State -> bool { s => Underway(p, base, r, s) }
  ghost function Finish(p: Plan, base: Project, r: Recovery): State -> bool { s => Ended(p, base, r, s) }
  function Left(p: Plan): State -> nat { (s: State) => Distance(p, s.process) }

  lemma RecoveryIsCloser(p: Plan, base: Project, r: Recovery, s: State)
    requires Underway(p, base, r, s)
    ensures Runs.Closer(Transition(p), Choice(), Stopped(), Along(p, base, r), Finish(p, base, r), Left(p), s)
  {
    UnderwayAdvances(p, base, r, s);
  }

  lemma RecoveryChases(p: Plan, base: Project, r: Recovery)
    ensures Runs.Chases(Transition(p), Choice(), Stopped(), Along(p, base, r), Finish(p, base, r), Left(p))
  {
    forall s | Along(p, base, r)(s)
      ensures Runs.Closer(Transition(p), Choice(), Stopped(), Along(p, base, r), Finish(p, base, r), Left(p), s)
    {
      RecoveryIsCloser(p, base, r, s);
    }
  }

  lemma LaunchIsUnderway(p: Plan, base: Project, s: State, r: Recovery)
    requires Sound(p, base, s) && s.process.Down? && Unfinished(s.journal)
    requires OperatorAction(s.journal.phase) == Some(r) && p.oldPower != Other
    ensures Next(p, s, Launch(r)).Some?
    ensures Underway(p, base, r, Next(p, s, Launch(r)).value)
    ensures Distance(p, Next(p, s, Launch(r)).value.process) == 2 * |p.order| + 17
  {
    NextIsSound(p, base, s, Launch(r));
  }

  lemma RecoveryArrives(p: Plan, base: Project, s: State, r: Recovery)
      returns (states: seq<State>, actions: seq<Action>)
    requires Sound(p, base, s) && s.process.Down? && Unfinished(s.journal)
    requires OperatorAction(s.journal.phase) == Some(r) && p.oldPower != Other
    ensures Next(p, s, Launch(r)).Some?
    ensures Ended(p, base, r, Recover(p, Next(p, s, Launch(r)).value, 2 * |p.order| + 18))
    ensures Runs.IsPath(Transition(p), states, actions) && states[0] == s && !Unfinished(states[|actions|].journal)
  {
    LaunchIsUnderway(p, base, s, r);
    RecoveryChases(p, base, r);
    var u := Next(p, s, Launch(r)).value;
    states, actions := Runs.Arrives(Transition(p), Choice(), Stopped(),
      Along(p, base, r), Finish(p, base, r), Left(p), u, 2 * |p.order| + 18);
    states, actions := Runs.Prepend(Transition(p), s, Launch(r), states, actions);
  }

  /** A rollback or completion under way, in a recovery or at the end of a first attempt, ends. */
  lemma PathEnds(p: Plan, base: Project, s: State)
    requires Sound(p, base, s) && OnPath(p, s) && Unfinished(s.journal)
    ensures var t := Recover(p, s, Distance(p, s.process) + 1);
            if Committed(s.journal.phase) then t.journal.status == Succeeded else t.journal.status == Failed && t.cloud == base
  {
    var r := Heading(s.journal);
    RecoveryChases(p, base, r);
    var states, actions := Runs.Arrives(Transition(p), Choice(), Stopped(),
      Along(p, base, r), Finish(p, base, r), Left(p), s, Distance(p, s.process) + 1);
    FailedIsOriginal(p, base, states[|actions|]);
  }

  lemma FailedIsOriginal(p: Plan, base: Project, s: State)
    requires Sound(p, base, s)
    ensures s.journal.status == Failed ==> s.cloud == base
  {
  }

  /** From every unfinished state a crash can leave, except after `rolled_back` or when the old
      server was neither ACTIVE nor SHUTOFF, the operator command with a cooperative provider
      finishes within `2 * volumes + 18` further actions: before acceptance with the project
      exactly as the operation found it, after acceptance with the operation succeeded. */
  lemma RecoveryReturns(p: Plan, base: Project, s: State)
    requires Sound(p, base, s) && s.process.Down? && Unfinished(s.journal)
    requires OperatorAction(s.journal.phase).Some? && p.oldPower != Other
    ensures var r := OperatorAction(s.journal.phase).value;
            && Next(p, s, Launch(r)).Some?
            && var t := Recover(p, Next(p, s, Launch(r)).value, 2 * |p.order| + 18);
               if Committed(s.journal.phase) then t.journal.status == Succeeded
               else t.journal.status == Failed && t.cloud == base
  {
    var r := OperatorAction(s.journal.phase).value;
    var states, actions := RecoveryArrives(p, base, s, r);
    FailedIsOriginal(p, base, Recover(p, Next(p, s, Launch(r)).value, 2 * |p.order| + 18));
  }

  /** Recovery is not total: these two situations are never left. */
  predicate Stuck(p: Plan, j: Journal, s: State) {
    && s.journal == j && s.process.Down? && Unfinished(j)
    && (j.phase == RolledBack || (j.phase != Validated && p.oldPower == Other))
  }

  lemma StuckIsKept(p: Plan, j: Journal)
    ensures Runs.Kept(Transition(p), s => Stuck(p, j, s))
  {
  }

  ghost predicate Finishes(p: Plan, s: State) {
    exists states: seq<State>, actions: seq<Action> ::
      Runs.IsPath(Transition(p), states, actions) && states[0] == s && !Unfinished(states[|actions|].journal)
  }

  lemma StuckNeverFinishes(p: Plan, s: State)
    requires Stuck(p, s.journal, s)
    ensures !Finishes(p, s)
  {
    StuckIsKept(p, s.journal);
    forall states: seq<State>, actions: seq<Action> | Runs.IsPath(Transition(p), states, actions) && states[0] == s
      ensures !!Unfinished(states[|actions|].journal)
    {
      Runs.Persists(Transition(p), x => Stuck(p, s.journal, x), states, actions, 0, |actions|);
    }
  }

  /** Exactly when a crashed operation can still be finished. */
  lemma RecoverableExactly(p: Plan, base: Project, s: State)
    requires Sound(p, base, s) && s.process.Down? && Unfinished(s.journal)
    ensures Finishes(p, s) <==> s.journal.phase == Validated || (s.journal.phase != RolledBack && p.oldPower != Other)
  {
    if s.journal.phase == Validated {
      var t := Next(p, s, Launch(Rollback)).value;
      var states, actions := Runs.Prepend(Transition(p), s, Launch(Rollback), [t], []);
    } else if s.journal.phase != RolledBack && p.oldPower != Other {
      var states, actions := RecoveryArrives(p, base, s, OperatorAction(s.journal.phase).value);
    } else {
      StuckNeverFinishes(p, s);
    }
  }
}
