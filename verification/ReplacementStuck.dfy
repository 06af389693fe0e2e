/** Two runs that end in an operation no recovery finishes. */
module ReplacementStuck {
  import opened Options
  import opened Cloud
  import opened Replacement
  import opened ReplacementSafety
  import opened ReplacementRecovery
  import Runs

  function Role(power: Power): Plan {
    Plan(9, "host", "host--old", 1, power, 7, 8, 5, map[], [], 17, 18)
  }

  function Site(name: Text, power: Power, port: Option<Id>): Project {
    Project(map[1 := Server(name, power, 7, 8, None)], map[5 := port], map[])
  }

  lemma SiteOwns(power: Power, expected: Power)
    ensures Owns(Role(expected), Site("host", power, Some(1)), 1)
  {
    var c := Site("host", power, Some(1));
    assert Named(c, "host") == {1};
    assert PortsOf(c, 1) == {5};
    assert DevicesOf(c, 1) == map[];
  }

  lemma SiteReady(power: Power)
    ensures Ready(Role(power), Site("host", power, Some(1)))
  {
    SiteOwns(power, power);
    assert Tagged(Site("host", power, Some(1)), 9) == {};
  }

  /** A host found in neither ACTIVE nor SHUTOFF is journaled as observed and then refused;
      every later recovery refuses the recorded status. */
  lemma UnknownStatusSticks()
    ensures var p, c := Role(Other), Site("host", Other, Some(1));
            var s := State(c, Journal(RecoveryRequired, Observed, None, false), Down);
            && Ready(p, c) && Runs.Leads(Transition(p), Begin(c), s)
            && Stuck(p, s.journal, s) && !Finishes(p, s)
  {
    var p, c := Role(Other), Site("host", Other, Some(1));
    var s := State(c, Journal(RecoveryRequired, Observed, None, false), Down);
    SiteReady(Other);
    Runs.LeadsHere(Transition(p), s);
    Runs.LeadsVia(Transition(p), At(c, Observed, Raise(Plain)), Mark, s, s);
    Runs.LeadsVia(Transition(p), At(c, Validated, Save(Observed)), Checkpoint, At(c, Observed, Raise(Plain)), s);
    Runs.LeadsVia(Transition(p), Begin(c), Observe, At(c, Validated, Save(Observed)), s);
    StuckNeverFinishes(p, s);
  }

  function At(c: Project, phase: Phase, pc: Pc): State {
    State(c, Journal(Running, phase, None, false), Up(Fresh, pc, None))
  }

  const SITE := Site("host", Shutoff, Some(1))

  function Recovered(phase: Phase, pc: Pc): State {
    State(SITE, Journal(Running, phase, None, false), Up(Recovering(Observed, Rollback), pc, None))
  }

  function Dead(phase: Phase): State { State(SITE, Journal(Running, phase, None, false), Down) }

  lemma Follow(s: State, a: Action, t: State)
    requires Next(Role(Shutoff), s, a) == Some(t) && Runs.Leads(Transition(Role(Shutoff)), t, Dead(RolledBack))
    ensures Runs.Leads(Transition(Role(Shutoff)), s, Dead(RolledBack))
  {
    Runs.LeadsVia(Transition(Role(Shutoff)), s, a, t, Dead(RolledBack));
  }

  lemma NameStep()
    ensures Next(Role(Shutoff), Recovered(Observed, Mutate(RenameBack)), Issue(true))
            == Some(Recovered(Observed, Confirm(RenameBack)))
    ensures Next(Role(Shutoff), Recovered(Observed, Confirm(RenameBack)), Verified)
            == Some(Recovered(Observed, Confirm(Restored)))
  {
    assert Execute(SITE, Rename(1, "host")).servers == SITE.servers;
    assert Named(SITE, "host") == {1};
  }

  lemma RestoredStep()
    ensures Next(Role(Shutoff), Recovered(Observed, Confirm(Restored)), Verified)
            == Some(Recovered(Observed, Save(RolledBack)))
  {
    SiteOwns(Shutoff, Shutoff);
  }

  /** The rollback journals its end and is interrupted. */
  lemma LastPart()
    ensures Runs.Leads(Transition(Role(Shutoff)), Recovered(Observed, Save(RolledBack)), Dead(RolledBack))
  {
    Runs.LeadsHere(Transition(Role(Shutoff)), Dead(RolledBack));
    Follow(Recovered(RolledBack, Return(Restoration)), Crash, Dead(RolledBack));
    Follow(Recovered(Observed, Save(RolledBack)), Checkpoint, Recovered(RolledBack, Return(Restoration)));
  }

  /** Before that it verifies the name and the resources. */
  lemma VerifiedPart()
    ensures Runs.Leads(Transition(Role(Shutoff)), Recovered(Observed, Mutate(RenameBack)), Dead(RolledBack))
  {
    LastPart();
    RestoredStep();
    Follow(Recovered(Observed, Confirm(Restored)), Verified, Recovered(Observed, Save(RolledBack)));
    NameStep();
    Follow(Recovered(Observed, Confirm(RenameBack)), Verified, Recovered(Observed, Confirm(Restored)));
    Follow(Recovered(Observed, Mutate(RenameBack)), Issue(true), Recovered(Observed, Confirm(RenameBack)));
  }

  lemma MiddlePart()
    ensures Runs.Leads(Transition(Role(Shutoff)), Recovered(Observed, Survey), Dead(RolledBack))
  {
    VerifiedPart();
    assert Tagged(SITE, 9) == {};
    Follow(Recovered(Observed, Confirm(TakePort)), Verified, Recovered(Observed, Mutate(RenameBack)));
    Follow(Recovered(Observed, Mutate(TakePort)), Issue(true), Recovered(Observed, Confirm(TakePort)));
    Follow(Recovered(Observed, Survey), Observe, Recovered(Observed, Mutate(TakePort)));
  }

  lemma LaunchPart()
    ensures Runs.Leads(Transition(Role(Shutoff)), At(SITE, Observed, Save(OldStopped)), Dead(RolledBack))
  {
    MiddlePart();
    Follow(Dead(Observed), Launch(Rollback), Recovered(Observed, Survey));
    Follow(At(SITE, Observed, Save(OldStopped)), Crash, Dead(Observed));
  }

  lemma FirstPart()
    ensures Runs.Leads(Transition(Role(Shutoff)), Begin(SITE), Dead(RolledBack))
  {
    LaunchPart();
    Follow(At(SITE, Validated, Save(Observed)), Checkpoint, At(SITE, Observed, Save(OldStopped)));
    Follow(Begin(SITE), Observe, At(SITE, Validated, Save(Observed)));
  }

  /** A crash right after `observed` is rolled back; a second crash right after the `rolled_back`
      checkpoint leaves a phase for which the operator command has no action. */
  lemma RolledBackSticks()
    ensures Ready(Role(Shutoff), SITE) && Runs.Leads(Transition(Role(Shutoff)), Begin(SITE), Dead(RolledBack))
    ensures Stuck(Role(Shutoff), Dead(RolledBack).journal, Dead(RolledBack)) && !Finishes(Role(Shutoff), Dead(RolledBack))
  {
    SiteReady(Shutoff);
    FirstPart();
    StuckNeverFinishes(Role(Shutoff), Dead(RolledBack));
  }
}
