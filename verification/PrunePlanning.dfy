/** Which private images a prune plan deletes, protects, and leaves for review. */
module PrunePlanning {
  import opened Options
  import opened Sorting

  /** A private image. `marked` says whether it has any platform metadata, `complete` whether all of
      it fits the deployment. Images without any are listed by the provider and ignored. */
  datatype Image = Image(id: int, created: int, role: int, marked: bool, complete: bool)

  datatype PrunePlan = PrunePlan(candidates: seq<int>, protected: set<int>, review: set<int>)
  datatype Refusal = BadRetention | TooMany

  const MAXIMUM_CANDIDATES := 100

  /** The provider lists every image once. */
  ghost predicate Distinct(images: seq<Image>) {
    forall i, k :: 0 <= i < k < |images| ==> images[i].id != images[k].id
  }

  predicate Usable(roles: seq<int>, x: Image) { x.marked && x.complete && x.role in roles }

  /** Newest first; equal times are ordered by identifier. */
  predicate Newer(a: Image, b: Image) { a.created > b.created || (a.created == b.created && a.id > b.id) }

  predicate Below(a: int, b: int) { a < b }

  /** The usable images of the same role that are newer than `x`. */
  ghost function Newers(images: seq<Image>, roles: seq<int>, x: Image): set<Image> {
    set y | y in images && Usable(roles, y) && y.role == x.role && Newer(y, x)
  }

  /** `x` is one of the newest `retain` usable images of its role. */
  ghost predicate Recent(images: seq<Image>, roles: seq<int>, retain: nat, x: Image) {
    x in images && Usable(roles, x) && |Newers(images, roles, x)| < retain
  }

  ghost function Protected(images: seq<Image>, roles: seq<int>, kept: set<int>, retain: nat): set<int> {
    kept + set x | x in images && Recent(images, roles, retain, x) :: x.id
  }

  ghost function Candidates(images: seq<Image>, roles: seq<int>, kept: set<int>, retain: nat): set<int> {
    set x | x in images && Usable(roles, x) && x.id !in Protected(images, roles, kept, retain) :: x.id
  }

  /** The usable images of one role, in listing order. */
  function Group(images: seq<Image>, roles: seq<int>, role: int): (g: seq<Image>)
    ensures forall x :: x in g <==> x in images && Usable(roles, x) && x.role == role
  {
    if images == [] then []
    else
      var last := images[|images| - 1];
      var rest := Group(images[..|images| - 1], roles, role);
      assert images == images[..|images| - 1] + [last];
      if Usable(roles, last) && last.role == role then rest + [last] else rest
  }

  lemma {:induction false} GroupIsDistinct(images: seq<Image>, roles: seq<int>, role: int)
    requires Distinct(images)
    ensures Distinct(Group(images, roles, role))
  {
    if images != [] {
      var rest := images[..|images| - 1];
      GroupIsDistinct(rest, roles, role);
      var g := Group(rest, roles, role);
      forall i | 0 <= i < |g| ensures g[i].id != images[|images| - 1].id {
        assert g[i] in rest;
      }
    }
  }

  function Ranking(images: seq<Image>, roles: seq<int>, role: int): seq<Image> {
    Sort(Newer, Group(images, roles, role))
  }

  /** The first `retain` of a ranking are exactly the recent images of the role. */
  lemma RankingIsByAge(images: seq<Image>, roles: seq<int>, role: int, k: nat)
    requires Distinct(images)
    ensures forall x :: x in Ranking(images, roles, role) <==> x in images && Usable(roles, x) && x.role == role
    ensures NoRepeats(Ranking(images, roles, role))
    ensures k < |Ranking(images, roles, role)| ==>
              && Newers(images, roles, Ranking(images, roles, role)[k]) == (set y | y in Ranking(images, roles, role)[..k])
              && |Newers(images, roles, Ranking(images, roles, role)[k])| == k
  {
    var g, ranking := Group(images, roles, role), Ranking(images, roles, role);
    var all := set x | x in g;
    GroupIsDistinct(images, roles, role);
    SortOrders(Newer, g, all);
    if k < |ranking| {
      SmallerOnes(Newer, ranking, all, k);
      assert ranking[k] in ranking;
      assert Newers(images, roles, ranking[k]) == Smaller(Newer, ranking, ranking[k]);
    }
  }

  lemma RecentAreFirst(images: seq<Image>, roles: seq<int>, role: int, retain: nat, x: Image)
    requires Distinct(images)
    ensures var ranking := Ranking(images, roles, role);
            var n := if retain < |ranking| then retain else |ranking|;
            x in ranking[..n] <==> Recent(images, roles, retain, x) && x.role == role
  {
    var ranking := Ranking(images, roles, role);
    var n := if retain < |ranking| then retain else |ranking|;
    RankingIsByAge(images, roles, role, 0);
    if x in ranking {
      var k :| 0 <= k < |ranking| && ranking[k] == x;
      RankingIsByAge(images, roles, role, k);
      if k < n {
        assert ranking[..n][k] == x;
      } else {
        forall i | 0 <= i < n ensures ranking[..n][i] != x { assert ranking[i] != ranking[k]; }
      }
    } else {
      forall i | 0 <= i < n ensures ranking[..n][i] != x { assert ranking[i] in ranking; }
    }
  }

  /** At least `retain` protected, newer images of its role stand behind every candidate. */
  lemma CandidatesAreBacked(images: seq<Image>, roles: seq<int>, kept: set<int>, retain: nat, x: Image)
    requires Distinct(images) && x in images && x.id in Candidates(images, roles, kept, retain)
    ensures |set y | y in Newers(images, roles, x) && y.id in Protected(images, roles, kept, retain)| >= retain
  {
    Backing(images, roles, retain, x);
    var front := set y | y in Newers(images, roles, x) && Recent(images, roles, retain, y);
    var backing := set y | y in Newers(images, roles, x) && y.id in Protected(images, roles, kept, retain);
    assert front <= backing;
    Fewer(front, backing);
  }

  /** An image with `retain` newer ones has `retain` newer ones that are recent. */
  lemma Backing(images: seq<Image>, roles: seq<int>, retain: nat, x: Image)
    requires Distinct(images) && x in images && Usable(roles, x) && !Recent(images, roles, retain, x)
    ensures |set y | y in Newers(images, roles, x) && Recent(images, roles, retain, y)| >= retain
  {
    var ranking := Ranking(images, roles, x.role);
    RankingIsByAge(images, roles, x.role, 0);
    var k :| 0 <= k < |ranking| && ranking[k] == x;
    RankingIsByAge(images, roles, x.role, k);
    var first := ranking[..retain];
    var front := set y | y in Newers(images, roles, x) && Recent(images, roles, retain, y);
    forall y | y in first ensures y in front {
      RecentAreFirst(images, roles, x.role, retain, y);
      var i :| 0 <= i < |first| && first[i] == y;
      assert ranking[..k][i] == y;
    }
    Cardinality(first);
    Fewer((set y | y in first), front);
  }

  /** `rest` is the inventory after some images are gone. */
  ghost predicate Leaves(images: seq<Image>, gone: set<int>, rest: seq<Image>) {
    forall x :: x in rest <==> x in images && x.id !in gone
  }

  lemma SameId(images: seq<Image>, x: Image, y: Image)
    requires Distinct(images) && x in images && y in images && x.id == y.id
    ensures x == y
  {
    var i :| 0 <= i < |images| && images[i] == x;
    var k :| 0 <= k < |images| && images[k] == y;
    assert i == k;
  }

  lemma RecencyIsStable(images: seq<Image>, rest: seq<Image>, roles: seq<int>, kept: set<int>, retain: nat, gone: set<int>, x: Image)
    requires Distinct(images) && Leaves(images, gone, rest) && gone <= Candidates(images, roles, kept, retain)
    ensures Recent(rest, roles, retain, x) <==> Recent(images, roles, retain, x)
  {
    if Recent(images, roles, retain, x) {
      assert x in rest;
      assert Newers(rest, roles, x) <= Newers(images, roles, x);
      Fewer(Newers(rest, roles, x), Newers(images, roles, x));
    } else if x in rest && Usable(roles, x) {
      Backing(images, roles, retain, x);
      var front := set y | y in Newers(images, roles, x) && Recent(images, roles, retain, y);
      assert front <= Newers(rest, roles, x);
      Fewer(front, Newers(rest, roles, x));
    }
  }

  /** Deleting any of the candidates changes nothing else: planning again protects the same
      images and finds exactly the candidates that are left. */
  lemma ReplanIsStable(images: seq<Image>, rest: seq<Image>, roles: seq<int>, kept: set<int>, retain: nat, gone: set<int>)
    requires Distinct(images) && Leaves(images, gone, rest) && gone <= Candidates(images, roles, kept, retain)
    ensures Protected(rest, roles, kept, retain) == Protected(images, roles, kept, retain)
    ensures Candidates(rest, roles, kept, retain) == Candidates(images, roles, kept, retain) - gone
  {
    forall x ensures Recent(rest, roles, retain, x) <==> Recent(images, roles, retain, x) {
      RecencyIsStable(images, rest, roles, kept, retain, gone, x);
    }
  }

  /** Candidates, protected images and images for review do not overlap. */
  lemma PlanIsDisjoint(images: seq<Image>, roles: seq<int>, kept: set<int>, retain: nat)
    requires Distinct(images)
    ensures Candidates(images, roles, kept, retain) !! Protected(images, roles, kept, retain)
    ensures Candidates(images, roles, kept, retain) !! Review(images, roles)
  {
    forall x, y | x in images && y in images && x.id == y.id ensures x == y {
      SameId(images, x, y);
    }
  }

  ghost function Review(images: seq<Image>, roles: seq<int>): set<int> {
    set x | x in images && x.marked && !Usable(roles, x) :: x.id
  }

  // The plan once more, field by field.

  /** `y` serves the same role as `x`, is usable, and was made later; of images made at the same
      time the greater identifier counts as later. */
  ghost predicate Supersedes(images: seq<Image>, roles: seq<int>, y: Image, x: Image) {
    && y in images && y.marked && y.complete && y.role in roles && y.role == x.role
    && (y.created > x.created || (y.created == x.created && y.id > x.id))
  }

  ghost function Superseding(images: seq<Image>, roles: seq<int>, x: Image): set<Image> {
    set y | y in images && Supersedes(images, roles, y, x)
  }

  /** An image is protected exactly when it is in use, or is a usable image of its role that fewer
      than `retain` later ones supersede. */
  lemma ProtectedExactly(images: seq<Image>, roles: seq<int>, kept: set<int>, retain: nat, id: int)
    ensures id in Protected(images, roles, kept, retain) <==>
            || id in kept
            || exists x :: x in images && x.id == id && x.marked && x.complete && x.role in roles
                           && |Superseding(images, roles, x)| < retain
  {
    forall x ensures Superseding(images, roles, x) == Newers(images, roles, x) { }
  }

  /** It is a candidate exactly when it is usable, not in use, and at least `retain` later images of
      its role supersede it. */
  lemma CandidatesExactly(images: seq<Image>, roles: seq<int>, kept: set<int>, retain: nat, x: Image)
    requires Distinct(images) && x in images
    ensures x.id in Candidates(images, roles, kept, retain) <==>
            x.marked && x.complete && x.role in roles && x.id !in kept && |Superseding(images, roles, x)| >= retain
  {
    forall y | y in images && y.id == x.id ensures y == x { SameId(images, x, y); }
    ProtectedExactly(images, roles, kept, retain, x.id);
  }

  /** Behind every candidate stand at least `retain` protected images of its role made later. */
  lemma LaterOnesAreProtected(images: seq<Image>, roles: seq<int>, kept: set<int>, retain: nat, x: Image)
    requires Distinct(images) && x in images && x.id in Candidates(images, roles, kept, retain)
    ensures |set y | y in images && Supersedes(images, roles, y, x) && y.id in Protected(images, roles, kept, retain)| >= retain
  {
    CandidatesAreBacked(images, roles, kept, retain, x);
    assert (set y | y in images && Supersedes(images, roles, y, x) && y.id in Protected(images, roles, kept, retain))
           == (set y | y in Newers(images, roles, x) && y.id in Protected(images, roles, kept, retain));
  }

  /** Retention never keeps an image and drops a later one of the same role. */
  lemma LaterIsKeptFirst(images: seq<Image>, roles: seq<int>, kept: set<int>, retain: nat, x: Image, y: Image)
    requires Distinct(images) && x in images && y in images && x.marked && x.complete && x.role in roles && y.role == x.role
    requires y.id in Protected(images, roles, kept, retain) && y.id !in kept
    requires x.created > y.created || (x.created == y.created && x.id > y.id)
    ensures x.id in Protected(images, roles, kept, retain)
  {
    ProtectedExactly(images, roles, kept, retain, x.id);
    ProtectedExactly(images, roles, kept, retain, y.id);
    var z :| z in images && z.id == y.id && z.marked && z.complete && z.role in roles && |Superseding(images, roles, z)| < retain;
    SameId(images, y, z);
    assert Superseding(images, roles, x) <= Superseding(images, roles, y);
    Fewer(Superseding(images, roles, x), Superseding(images, roles, y));
  }

  /** What needs review has platform metadata but is not usable. */
  lemma ReviewExactly(images: seq<Image>, roles: seq<int>, id: int)
    ensures id in Review(images, roles) <==>
            exists x :: x in images && x.id == id && x.marked && !(x.complete && x.role in roles)
  {
    assert forall x :: x in images && x.id == id && x.marked && !(x.complete && x.role in roles) ==> !Usable(roles, x);
  }

  /** The identifiers of one role that nothing protects. */
  function Unprotected(g: seq<Image>, protected: set<int>): (ids: seq<int>)
    ensures forall id :: id in ids <==> id !in protected && exists x :: x in g && x.id == id
  {
    if g == [] then []
    else
      var last := g[|g| - 1];
      var rest := Unprotected(g[..|g| - 1], protected);
      assert g == g[..|g| - 1] + [last];
      if last.id in protected then rest else rest + [last.id]
  }

  lemma {:induction false} UnprotectedOnce(g: seq<Image>, protected: set<int>)
    requires Distinct(g)
    ensures NoRepeats(Unprotected(g, protected))
  {
    if g != [] {
      var rest := g[..|g| - 1];
      UnprotectedOnce(rest, protected);
      assert forall x :: x in rest ==> x.id != g[|g| - 1].id;
    }
  }

  ghost predicate Grouped(images: seq<Image>, roles: seq<int>, groups: map<int, seq<Image>>) {
    forall role :: role in roles ==> role in groups && groups[role] == Group(images, roles, role)
  }

  /** The unprotected identifiers of several roles. */
  function Gather(groups: map<int, seq<Image>>, some: seq<int>, protected: set<int>): seq<int>
    requires forall role :: role in some ==> role in groups
  {
    if some == [] then []
    else
      var last := some[|some| - 1];
      assert last in some;
      Gather(groups, some[..|some| - 1], protected) + Unprotected(groups[last], protected)
  }

  ghost function Loose(images: seq<Image>, roles: seq<int>, some: seq<int>, protected: set<int>): set<int> {
    set x | x in images && Usable(roles, x) && x.role in some && x.id !in protected :: x.id
  }

  lemma {:induction false} Gathers(images: seq<Image>, roles: seq<int>, groups: map<int, seq<Image>>, some: seq<int>, protected: set<int>)
    requires Grouped(images, roles, groups) && forall role :: role in some ==> role in roles
    ensures (set id | id in Gather(groups, some, protected)) == Loose(images, roles, some, protected)
  {
    if some != [] {
      var last := some[|some| - 1];
      var rest := some[..|some| - 1];
      Gathers(images, roles, groups, rest, protected);
      assert some == rest + [last];
      var ids := Unprotected(Group(images, roles, last), protected);
      assert (set id | id in ids) == Loose(images, roles, [last], protected);
      assert Loose(images, roles, some, protected) == Loose(images, roles, rest, protected) + Loose(images, roles, [last], protected);
    }
  }

  lemma {:induction false} GatheredOnce(images: seq<Image>, roles: seq<int>, groups: map<int, seq<Image>>, some: seq<int>, protected: set<int>)
    requires Grouped(images, roles, groups) && forall role :: role in some ==> role in roles
    requires Distinct(images) && NoRepeats(some)
    ensures NoRepeats(Gather(groups, some, protected))
  {
    if some != [] {
      var last := some[|some| - 1];
      var rest := some[..|some| - 1];
      GatheredOnce(images, roles, groups, rest, protected);
      GroupIsDistinct(images, roles, last);
      UnprotectedOnce(Group(images, roles, last), protected);
      Gathers(images, roles, groups, rest, protected);
      var before, after := Gather(groups, rest, protected), Unprotected(Group(images, roles, last), protected);
      forall i, k | 0 <= i < |before| && 0 <= k < |after| ensures before[i] != after[k] {
        assert before[i] in Loose(images, roles, rest, protected);
        var x :| x in images && x.role in rest && x.id == before[i];
        assert after[k] in after;
        var y :| y in images && y.role == last && y.id == after[k];
        if x.id == y.id { SameId(images, x, y); }
      }
    }
  }

  /** One pass over the inventory sorts it into roles and images for review. */
  method Classify(images: seq<Image>, roles: seq<int>) returns (groups: map<int, seq<Image>>, review: set<int>)
    ensures Grouped(images, roles, groups)
    ensures review == Review(images, roles)
  {
    groups, review := map role | role in roles :: [], {};
    for i := 0 to |images|
      invariant Grouped(images[..i], roles, groups)
      invariant review == Review(images[..i], roles)
    {
      var x := images[i];
      assert images[..i + 1][..i] == images[..i] && images[..i + 1] == images[..i] + [x];
      if Usable(roles, x) {
        groups := groups[x.role := groups[x.role] + [x]];
      } else if x.marked {
        review := review + {x.id};
      }
    }
    assert images[..|images|] == images;
  }

  /** The identifiers at the front of one role's ranking. */
  method Newest(ghost images: seq<Image>, ghost roles: seq<int>, ghost role: int, group: seq<Image>, retain: nat)
      returns (ids: set<int>)
    requires Distinct(images) && group == Group(images, roles, role)
    ensures ids == set x | x in images && Recent(images, roles, retain, x) && x.role == role :: x.id
  {
    var ranking := Sort(Newer, group);
    var n := if retain < |ranking| then retain else |ranking|;
    forall x ensures x in ranking[..n] <==> Recent(images, roles, retain, x) && x.role == role {
      RecentAreFirst(images, roles, role, retain, x);
    }
    ids := set x | x in ranking[..n] :: x.id;
  }

  /** Observe the inventory once and plan; nothing is deleted. */
  method PlanPrune(images: seq<Image>, roles: seq<int>, selected: set<int>, operations: set<int>, servers: set<int>, retain: int)
      returns (r: Result<PrunePlan, Refusal>)
    requires Distinct(images) && NoRepeats(roles)
    ensures r == Err(BadRetention) <==> !(1 <= retain <= 100)
    ensures 1 <= retain <= 100 ==>
              var kept := selected + operations + servers;
              if |Candidates(images, roles, kept, retain)| > 100 then r == Err(TooMany)
              else
                && r.Ok? && (forall i, k :: 0 <= i < k < |r.value.candidates| ==> r.value.candidates[i] < r.value.candidates[k])
                && (set id | id in r.value.candidates) == Candidates(images, roles, kept, retain)
                && r.value.protected == Protected(images, roles, kept, retain)
                && r.value.review == Review(images, roles)
  {
    if !(1 <= retain <= 100) { return Err(BadRetention); }
    var groups, review := Classify(images, roles);
    var protected := Protect(images, roles, groups, selected + operations + servers, retain);
    var candidates := Sort(Below, Gather(groups, roles, protected));
    Gathers(images, roles, groups, roles, protected);
    GatheredOnce(images, roles, groups, roles, protected);
    SortedIds(Gather(groups, roles, protected));
    assert Loose(images, roles, roles, protected) == Candidates(images, roles, selected + operations + servers, retain);
    if |candidates| > MAXIMUM_CANDIDATES { return Err(TooMany); }
    r := Ok(PrunePlan(candidates, protected, review));
  }

  /** Add the newest images of every role to those already kept. */
  method Protect(ghost images: seq<Image>, roles: seq<int>, groups: map<int, seq<Image>>, kept: set<int>, retain: nat)
      returns (protected: set<int>)
    requires Distinct(images) && Grouped(images, roles, groups)
    ensures protected == Protected(images, roles, kept, retain)
  {
    protected := kept;
    for i := 0 to |roles|
      invariant protected == kept + set x | x in images && Recent(images, roles, retain, x) && x.role in roles[..i] :: x.id
    {
      assert roles[..i + 1] == roles[..i] + [roles[i]];
      assert roles[i] in roles;
      var newest := Newest(images, roles, roles[i], groups[roles[i]], retain);
      protected := protected + newest;
    }
    assert roles[..|roles|] == roles;
  }

  lemma SortedIds(ids: seq<int>)
    requires NoRepeats(ids)
    ensures Ascending(Below, Sort(Below, ids))
    ensures (set id | id in Sort(Below, ids)) == (set id | id in ids)
    ensures |Sort(Below, ids)| == |set id | id in ids|
  {
    var all := set id | id in ids;
    assert Linear(Below, all);
    SortOrders(Below, ids, all);
    Cardinality(ids);
  }

}
