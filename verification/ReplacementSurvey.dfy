/** What recovery makes of whatever it finds: stated over any project at all, also one that others
    have changed since the crash. */
module ReplacementSurvey {
  import opened Options
  import opened Cloud
  import opened Replacement

  /** The server carries the tag of the operation. */
  predicate IsTagged(p: Plan, c: Project, x: Id) { x in c.servers && c.servers[x].tag == Some(p.op) }

  /** The server is a replacement this operation can have made: the tag, the name, the selected image
      and the target flavor. */
  predicate IsReplacement(p: Plan, c: Project, x: Id) {
    && IsTagged(p, c, x) && c.servers[x].name == p.name && c.servers[x].image == p.image && c.servers[x].flavor == p.flavor
  }

  /** The old server is there as recorded, or gone with the replacement accepted. */
  predicate OldAccounted(p: Plan, c: Project, phase: Phase) {
    if p.oldServer in c.servers
    then
      var now := c.servers[p.oldServer];
      && (now.name == p.name || now.name == p.away) && (now.power == Active || now.power == Shutoff)
      && now.image == p.oldImage && now.flavor == p.oldFlavor
    else phase == Accepted || phase == Complete
  }

  /** The replacement to go on with: the recorded one, else the only one that carries the tag; for a
      rollback also none, when that one is gone or there never was one. */
  ghost predicate Chosen(p: Plan, c: Project, recorded: Option<Id>, action: Recovery, r: Option<Id>) {
    match r
    case Some(x) =>
      && IsReplacement(p, c, x)
      && (recorded == Some(x) || (recorded == None && forall y :: IsTagged(p, c, y) ==> y == x))
    case None =>
      && action == Rollback
      && match recorded
         case Some(x) => x !in c.servers
         case None => forall y :: !IsTagged(p, c, y)
  }

  /** Recovery goes on exactly when the old server is accounted for and the replacement is beyond
      doubt; a rollback then deletes that very server, or there is none and the port comes first, and
      anything else verifies it before all. The look itself changes nothing. */
  lemma SurveyExactly(p: Plan, s: State)
    requires s.process.Up? && s.process.mode.Recovering? && s.process.pc == Survey
    ensures Next(p, s, Observe).Some?
    ensures var t, u := Next(p, s, Observe).value, s.process;
            && t.cloud == s.cloud && t.journal == s.journal
            && (t.process.Up? <==>
                  && OldAccounted(p, s.cloud, u.mode.phase)
                  && exists r :: Chosen(p, s.cloud, u.replacement, u.mode.action, r))
            && (t.process.Up? ==>
                  && Chosen(p, s.cloud, u.replacement, u.mode.action, t.process.replacement)
                  && t.process.mode == u.mode
                  && t.process.pc == if u.mode.action != Rollback then Recheck
                                     else if t.process.replacement.Some? then Mutate(DropReplacement)
                                     else Mutate(TakePort))
  {
    var u, seen := s.process, Look(p, s.cloud);
    OldSeen(p, s.cloud, u.mode.phase);
    TagsSeen(p, s.cloud);
    GenuineSeen(p, s.cloud);
    ChosenOnly(p, s.cloud, u);
  }

  lemma OldSeen(p: Plan, c: Project, phase: Phase)
    ensures var seen := Look(p, c);
            OldAccounted(p, c, phase) <==> (if seen.oldHere then seen.intact else Committed(phase))
  {
  }

  lemma TagsSeen(p: Plan, c: Project)
    ensures forall x :: x in Look(p, c).tagged <==> IsTagged(p, c, x)
    ensures |Look(p, c).tagged| <= 1 <==> forall x, y :: IsTagged(p, c, x) && IsTagged(p, c, y) ==> x == y
    ensures |Look(p, c).tagged| == 0 <==> forall x :: !IsTagged(p, c, x)
  {
    var tagged := Look(p, c).tagged;
    if forall x, y :: IsTagged(p, c, x) && IsTagged(p, c, y) ==> x == y {
      if x :| x in tagged {
        forall y | y in tagged ensures y == x { assert IsTagged(p, c, x) && IsTagged(p, c, y); }
        assert tagged == {x};
      }
    } else {
      var x, y :| IsTagged(p, c, x) && IsTagged(p, c, y) && x != y;
      assert {x, y} <= tagged;
      assert |tagged - {x, y}| == |tagged| - 2;
    }
    if |tagged| != 0 {
      var x :| x in tagged;
      assert IsTagged(p, c, x);
    }
  }

  lemma GenuineSeen(p: Plan, c: Project)
    ensures forall x :: x in Look(p, c).genuine <==> IsReplacement(p, c, x)
  {
  }

  /** What the survey settles on. */
  lemma ChosenOnly(p: Plan, c: Project, u: Process)
    requires u.Up? && u.mode.Recovering?
    ensures var seen, v := Look(p, c), Surveyed(u, Look(p, c));
            (if seen.oldHere then seen.intact else Committed(u.mode.phase)) ==>
              if v.Up? then Chosen(p, c, u.replacement, u.mode.action, v.replacement)
              else forall r :: !Chosen(p, c, u.replacement, u.mode.action, r)
  {
    TagsSeen(p, c);
    GenuineSeen(p, c);
    if u.replacement.None? && |Look(p, c).tagged| == 1 {
      var x := Only(Look(p, c).tagged);
      assert IsTagged(p, c, x);
    }
  }
}
