/** What a prune leaves, joining the plan with the runs that carry it out. */
module PruneOutcome {
  import PrunePlanning
  import ImagePrune

  /** The site runs a plan that was made from this inventory. */
  ghost predicate Runs(site: ImagePrune.Site, images: seq<PrunePlanning.Image>, roles: seq<int>, kept: set<int>, retain: nat)
    reads site
  {
    && site.Valid() && PrunePlanning.Distinct(images)
    && site.base.Keys == (set x | x in images && x.marked :: x.id)
    && (set id | id in site.plan.ids) == PrunePlanning.Candidates(images, roles, kept, retain)
  }

  /** Wherever any number of attempts stop, every protected image that existed is still there:
      those in use, selected or named by an operation, and the newest of each role. */
  lemma ProtectedStay(site: ImagePrune.Site, images: seq<PrunePlanning.Image>, roles: seq<int>, kept: set<int>, retain: nat, x: PrunePlanning.Image)
    requires Runs(site, images, roles, kept, retain) && x in images && x.marked
    requires x.id in kept || PrunePlanning.Recent(images, roles, retain, x)
    ensures x.id in site.images
  {
    assert x.id in PrunePlanning.Protected(images, roles, kept, retain);
    assert x.id !in site.plan.ids by {
      if x.id in site.plan.ids {
        assert x.id in (set id | id in site.plan.ids);
        PrunePlanning.PlanIsDisjoint(images, roles, kept, retain);
      }
    }
    forall i | 0 <= i < site.gone ensures site.plan.ids[i] != x.id { assert site.plan.ids[i] in site.plan.ids; }
    assert x.id !in site.plan.ids[..site.gone];
  }

  /** And planning again on what is left finds exactly the planned images that are not yet gone,
      protecting the same ones. */
  lemma RestIsStillPlanned(site: ImagePrune.Site, images: seq<PrunePlanning.Image>, rest: seq<PrunePlanning.Image>,
                           roles: seq<int>, kept: set<int>, retain: nat)
    requires Runs(site, images, roles, kept, retain)
    requires forall x :: x in rest <==> x in images && (x.marked ==> x.id in site.images)
    ensures PrunePlanning.Protected(rest, roles, kept, retain) == PrunePlanning.Protected(images, roles, kept, retain)
    ensures PrunePlanning.Candidates(rest, roles, kept, retain) == (set id | id in site.plan.ids[site.gone..])
  {
    var gone := set id | id in site.plan.ids[..site.gone];
    var left := set id | id in site.plan.ids[site.gone..];
    Parts(site.plan.ids, site.gone);
    forall x | x in images ensures (x.marked ==> x.id in site.images) <==> x.id !in gone {
      if x.id in gone {
        assert x.id in PrunePlanning.Candidates(images, roles, kept, retain);
        var y :| y in images && PrunePlanning.Usable(roles, y) && y.id == x.id;
        PrunePlanning.SameId(images, x, y);
      } else if x.marked {
        assert x.id in site.base;
      }
    }
    PrunePlanning.ReplanIsStable(images, rest, roles, kept, retain, gone);
  }

  lemma Parts(ids: seq<int>, n: nat)
    requires n <= |ids| && forall i, k :: 0 <= i < k < |ids| ==> ids[i] != ids[k]
    ensures (set id | id in ids[..n]) <= (set id | id in ids)
    ensures (set id | id in ids) - (set id | id in ids[..n]) == (set id | id in ids[n..])
  {
    assert ids == ids[..n] + ids[n..];
    forall i, k | 0 <= i < n && 0 <= k < |ids| - n ensures ids[..n][i] != ids[n..][k] {
      assert ids[n..][k] == ids[n + k];
    }
  }
}
