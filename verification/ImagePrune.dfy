/** Applying and recovering an image prune, with a crash possible between any two actions. */
module ImagePrune {
  import opened Options
  import opened Sorting
  import opened ImageInventory

  /** The part of a saved plan that deletion and recovery read. `ids` are the candidates in
      plan order, `digests` their recorded fingerprints, `inventory` the aggregate of all. */
  datatype Plan = Plan(
    ids: seq<int>, digests: map<int, Digest>, inventory: Digest,
    servers: set<int>, selected: set<int>, operations: set<int>)

  /** The journaled refs of an unfinished prune. */
  datatype Refs = Refs(deleted: seq<int>, pending: Option<int>)

  datatype Refusal = Invalid | Drift

  predicate Listed(rows: seq<Row>, id: int) { exists i :: 0 <= i < |rows| && rows[i].id == id }

  /** The provider lists every image exactly once, in any order. */
  ghost predicate Lists(rows: seq<Row>, images: map<int, Digest>) {
    && (forall i :: 0 <= i < |rows| ==> rows[i].id in images && images[rows[i].id] == rows[i].digest)
    && (forall i, k :: 0 <= i < k < |rows| ==> rows[i].id != rows[k].id)
    && (forall id :: id in images ==> Listed(rows, id))
  }

  function Rows(p: Plan, ids: seq<int>): seq<Row>
    requires forall i :: 0 <= i < |ids| ==> ids[i] in p.digests
  {
    seq(|ids|, i requires 0 <= i < |ids| => Row(ids[i], p.digests[ids[i]]))
  }

  predicate HasFingerprints(p: Plan) { forall i :: 0 <= i < |p.ids| ==> p.ids[i] in p.digests }

  /** Which planned images are really gone, judged from the refs and one inventory. */
  function Reconcile(p: Plan, refs: Refs, rows: seq<Row>, servers: set<int>, selected: set<int>, operations: set<int>)
      : Result<seq<int>, Refusal>
  {
    var k := |refs.deleted|;
    if !HasFingerprints(p) then Err(Invalid)
    else if selected != p.selected || operations != p.operations then Err(Drift)
    else if !(refs.deleted <= p.ids) then Err(Invalid)
    else if refs.pending.Some? && !(k < |p.ids| && refs.pending.value == p.ids[k]) then Err(Invalid)
    else
      var n := if refs.pending.Some? && !Listed(rows, refs.pending.value) then k + 1 else k;
      if exists i :: 0 <= i < n && Listed(rows, p.ids[i]) then Err(Drift)
      else if exists i :: n <= i < |p.ids| && Row(p.ids[i], p.digests[p.ids[i]]) !in rows then Err(Drift)
      else if Aggregate(rows) != Without(p.inventory, Rows(p, p.ids[..n])) then Err(Drift)
      else if servers != p.servers then Err(Drift)
      else Ok(p.ids[..n])
  }

  /** Against any inventory whatsoever, what reconciliation returns is a plan prefix, extends the
      journal by at most the pending image, and is exactly the planned images that are absent;
      the others are still there with their recorded fingerprints. */
  lemma ReconciliationIsExact(p: Plan, refs: Refs, rows: seq<Row>, servers: set<int>, selected: set<int>, operations: set<int>)
    requires Reconcile(p, refs, rows, servers, selected, operations).Ok?
    ensures var gone := Reconcile(p, refs, rows, servers, selected, operations).value;
            && refs.deleted <= gone <= p.ids && |gone| <= |refs.deleted| + 1
            && (|gone| > |refs.deleted| ==> refs.pending == Some(gone[|refs.deleted|]))
            && (forall i :: 0 <= i < |p.ids| ==> (i < |gone| <==> !Listed(rows, p.ids[i])))
            && (forall i :: |gone| <= i < |p.ids| ==> p.ids[i] in p.digests && Row(p.ids[i], p.digests[p.ids[i]]) in rows)
  {
    var gone := Reconcile(p, refs, rows, servers, selected, operations).value;
    forall i | |gone| <= i < |p.ids| ensures Listed(rows, p.ids[i]) {
      var row := Row(p.ids[i], p.digests[p.ids[i]]);
      assert row in rows;
      var k :| 0 <= k < |rows| && rows[k] == row;
    }
  }

  /** Against any inventory whatsoever, and counted bit by bit: a reconciliation is accepted only if
      the listed and the deleted fingerprints together set each bit as often, up to an even number,
      as the inventory the plan was made from. Any change of planned or unplanned images whose
      differences do not cancel in every bit is refused. */
  lemma ReconciliationCountsBits(p: Plan, whole: seq<Row>, refs: Refs, rows: seq<Row>,
                                 servers: set<int>, selected: set<int>, operations: set<int>, bit: nat)
    requires p.inventory == Aggregate(whole)
    requires Reconcile(p, refs, rows, servers, selected, operations).Ok?
    ensures var n := |Reconcile(p, refs, rows, servers, selected, operations).value|;
            && n <= |p.ids| && HasFingerprints(p)
            && (Ones(rows, bit) + Ones(Rows(p, p.ids[..n]), bit)) % 2 == Ones(whole, bit) % 2
  {
    var n := |Reconcile(p, refs, rows, servers, selected, operations).value|;
    AggregateIsParity(rows, bit);
    AggregateIsParity(whole, bit);
    WithoutIsParity(p.inventory, Rows(p, p.ids[..n]), bit);
  }

  /** The inventory left after the first `n` planned deletions. */
  function Remaining(base: map<int, Digest>, p: Plan, n: nat): map<int, Digest>
    requires n <= |p.ids|
  {
    map id | id in base && id !in p.ids[..n] :: base[id]
  }

  /** The plan was made from this inventory. */
  ghost predicate PlannedFrom(p: Plan, base: map<int, Digest>) {
    && (forall i :: 0 <= i < |p.ids| ==> p.ids[i] in base && p.ids[i] in p.digests && p.digests[p.ids[i]] == base[p.ids[i]])
    && (forall i, k :: 0 <= i < k < |p.ids| ==> p.ids[i] != p.ids[k])
    && exists rows :: Lists(rows, base) && p.inventory == Aggregate(rows)
  }

  /** Two listings of one inventory hold the same rows. */
  lemma ListingsAgree(a: seq<Row>, b: seq<Row>, images: map<int, Digest>)
    requires Lists(a, images) && Lists(b, images)
    ensures multiset(a) == multiset(b)
  {
    forall r ensures multiset(a)[r] == multiset(b)[r] {
      OnceEach(a, images, r);
      OnceEach(b, images, r);
    }
  }

  lemma {:induction false} OnceEach(rows: seq<Row>, images: map<int, Digest>, r: Row)
    requires forall i :: 0 <= i < |rows| ==> rows[i].id in images && images[rows[i].id] == rows[i].digest
    requires forall i, k :: 0 <= i < k < |rows| ==> rows[i].id != rows[k].id
    ensures multiset(rows)[r] == if r.id in images && images[r.id] == r.digest && Listed(rows, r.id) then 1 else 0
  {
    if rows != [] {
      var rest := rows[..|rows| - 1];
      var last := rows[|rows| - 1];
      assert rows == rest + [last];
      OnceEach(rest, images, r);
      assert Listed(rows, r.id) <==> Listed(rest, r.id) || last.id == r.id;
      if last.id == r.id { assert !Listed(rest, r.id); }
    }
  }

  /** Deleted rows and a listing of the rest list the whole inventory. */
  lemma RemainderCompletes(p: Plan, base: map<int, Digest>, n: nat, rows: seq<Row>)
    requires PlannedFrom(p, base) && n <= |p.ids| && Lists(rows, Remaining(base, p, n))
    ensures Lists(Rows(p, p.ids[..n]) + rows, base)
  {
    var gone := Rows(p, p.ids[..n]);
    var all := gone + rows;
    forall id | id in base ensures Listed(all, id) {
      if id in p.ids[..n] {
        var i :| 0 <= i < n && p.ids[..n][i] == id;
        assert all[i].id == id;
      } else {
        assert Listed(rows, id);
        var i :| 0 <= i < |rows| && rows[i].id == id;
        assert all[n + i] == rows[i];
      }
    }
    forall i, k | 0 <= i < k < |all| ensures all[i].id != all[k].id {
      if i < n && n <= k {
        assert all[i].id in p.ids[..n];
        assert all[k] == rows[k - n];
      }
    }
  }

  /** The journal may lag the provider by the pending image and by nothing else. */
  predicate Lags(p: Plan, refs: Refs, n: nat) {
    var k := |refs.deleted|;
    && refs.deleted <= p.ids && k <= n <= |p.ids|
    && (refs.pending.Some? ==> k < |p.ids| && refs.pending.value == p.ids[k])
    && (n == k || (n == k + 1 && refs.pending.Some?))
  }

  lemma AggregateMatches(p: Plan, base: map<int, Digest>, n: nat, rows: seq<Row>)
    requires PlannedFrom(p, base) && n <= |p.ids| && Lists(rows, Remaining(base, p, n))
    ensures Aggregate(rows) == Without(p.inventory, Rows(p, p.ids[..n]))
  {
    var whole :| Lists(whole, base) && p.inventory == Aggregate(whole);
    var gone := Rows(p, p.ids[..n]);
    RemainderCompletes(p, base, n, rows);
    ListingsAgree(whole, gone + rows, base);
    DeletionUpdates(whole, gone, rows);
  }

  lemma PresenceMatches(p: Plan, base: map<int, Digest>, n: nat, rows: seq<Row>, i: nat)
    requires PlannedFrom(p, base) && n <= |p.ids| && Lists(rows, Remaining(base, p, n)) && i < |p.ids|
    ensures Listed(rows, p.ids[i]) <==> n <= i
    ensures n <= i ==> Row(p.ids[i], p.digests[p.ids[i]]) in rows
  {
    if i < n {
      assert p.ids[i] == p.ids[..n][i];
      assert p.ids[i] !in Remaining(base, p, n);
    } else {
      assert p.ids[i] in Remaining(base, p, n);
      var k :| 0 <= k < |rows| && rows[k].id == p.ids[i];
      assert rows[k] == Row(p.ids[i], p.digests[p.ids[i]]);
    }
  }

  /** Unless someone else changes the inventory, reconciliation succeeds with the real count. */
  lemma ReconciliationSucceeds(p: Plan, base: map<int, Digest>, refs: Refs, n: nat, rows: seq<Row>)
    requires PlannedFrom(p, base) && Lags(p, refs, n) && Lists(rows, Remaining(base, p, n))
    ensures Reconcile(p, refs, rows, p.servers, p.selected, p.operations) == Ok(p.ids[..n])
  {
    AggregateMatches(p, base, n, rows);
    forall i | 0 <= i < |p.ids|
      ensures Listed(rows, p.ids[i]) <==> n <= i
      ensures n <= i ==> Row(p.ids[i], p.digests[p.ids[i]]) in rows
    {
      PresenceMatches(p, base, n, rows, i);
    }
  }

  /** In particular, one changed fingerprint of one remaining image, planned or not, is refused,
      whatever the journal says. */
  lemma OneChangeIsRefused(p: Plan, base: map<int, Digest>, n: nat, before: seq<Row>, x: Row, y: Row, after: seq<Row>,
                           refs: Refs, servers: set<int>, selected: set<int>, operations: set<int>)
    requires PlannedFrom(p, base) && n <= |p.ids| && Lists(before + [x] + after, Remaining(base, p, n))
    requires y.id == x.id && y.digest != x.digest
    ensures Reconcile(p, refs, before + [y] + after, servers, selected, operations).Err?
  {
    var rows, changed := before + [x] + after, before + [y] + after;
    var r := Reconcile(p, refs, changed, servers, selected, operations);
    if r.Ok? {
      SameIdsListed(before, x, y, after);
      SameCount(p, base, n, rows, changed, refs, servers, selected, operations);
      AggregateMatches(p, base, n, rows);
      OneChangeIsSeen(before, x, y, after);
    }
  }

  lemma SameIdsListed(before: seq<Row>, x: Row, y: Row, after: seq<Row>)
    requires y.id == x.id
    ensures forall id :: Listed(before + [x] + after, id) <==> Listed(before + [y] + after, id)
  {
    var rows, changed := before + [x] + after, before + [y] + after;
    forall id ensures Listed(rows, id) <==> Listed(changed, id) {
      assert forall i :: 0 <= i < |rows| ==> rows[i].id == changed[i].id;
    }
  }

  lemma SameCount(p: Plan, base: map<int, Digest>, n: nat, rows: seq<Row>, changed: seq<Row>, refs: Refs,
                  servers: set<int>, selected: set<int>, operations: set<int>)
    requires PlannedFrom(p, base) && n <= |p.ids| && Lists(rows, Remaining(base, p, n))
    requires forall id :: Listed(rows, id) <==> Listed(changed, id)
    requires Reconcile(p, refs, changed, servers, selected, operations).Ok?
    ensures |Reconcile(p, refs, changed, servers, selected, operations).value| == n
  {
    ReconciliationIsExact(p, refs, changed, servers, selected, operations);
    var m := |Reconcile(p, refs, changed, servers, selected, operations).value|;
    if m < n { PresenceMatches(p, base, n, rows, m); }
    if n < m { PresenceMatches(p, base, n, rows, n); }
  }

  datatype Status = Running | RecoveryRequired | Failed | Succeeded
  datatype Phase = Validated | ImageDeleting | ImageDeleted | Ambiguous

  /** How one attempt ends. `Refused` covers every error that is not recovery-required. */
  datatype Outcome = Done | Refused | NeedsRecovery(pending: int) | Crashed

  /** Where the deletion of one image may be interrupted. */
  datatype Point = BeforeNote | AfterNote | BeforeDelete | AfterDelete(applied: bool) | BeforeRecord

  /** Everything the environment does while one image is deleted. A delete that is not answered is
      checked once more before the confirming query. */
  datatype Event =
    | Smooth(reported: bool)
    | CrashAt(point: Point)
    | ServersUnknown | ShowFails | CheckFails(applied: bool) | ConfirmFails(applied: bool) | SecondCheckFails
    | InUse | Drifted
    | NotApplied(reported: bool)

  /** Whether the image is gone afterwards. */
  predicate Applied(e: Event) {
    match e
    case Smooth(_) => true
    case CrashAt(AfterDelete(applied)) => applied
    case CrashAt(BeforeRecord) => true
    case CheckFails(applied) => applied
    case ConfirmFails(applied) => applied
    case SecondCheckFails => true
    case _ => false
  }

  /** Whether the delete request is answered with success. */
  predicate Reported(e: Event) {
    match e
    case Smooth(reported) => reported
    case NotApplied(reported) => reported
    case CheckFails(_) => false
    case SecondCheckFails => false
    case _ => true
  }

  /** An ordinary provider error: a query without an answer. */
  predicate QueryFails(e: Event) {
    e.ServersUnknown? || e.ShowFails? || e.CheckFails? || e.ConfirmFails? || e.SecondCheckFails?
  }

  predicate Drifts(e: Event) { e.InUse? || e.Drifted? }

  /** How the deletion of image `k` ends. */
  function Ending(e: Event, k: nat, id: int): Outcome {
    if e.Smooth? then Done
    else if e.CrashAt? then Crashed
    else if e.NotApplied? || (Drifts(e) && k > 0) then NeedsRecovery(id)
    else Refused
  }

  /** The environment of an attempt: one event for every image of the plan. */
  type Script = nat -> Event

  /** The first image from `k` on whose deletion is not smooth, or `n`. */
  function FirstTrouble(script: Script, k: nat, n: nat): (t: nat)
    requires k <= n
    ensures k <= t <= n && (forall i :: k <= i < t ==> script(i).Smooth?) && (t < n ==> !script(t).Smooth?)
    decreases n - k
  {
    if k == n || !script(k).Smooth? then k else FirstTrouble(script, k + 1, n)
  }

  function AttemptEnds(p: Plan, script: Script, k: nat): Outcome
    requires k <= |p.ids|
  {
    var t := FirstTrouble(script, k, |p.ids|);
    if t == |p.ids| then Done else Ending(script(t), t, p.ids[t])
  }

  /** How many planned images are gone after an attempt that began with `k` of them gone. */
  function GoneAfter(p: Plan, script: Script, k: nat): nat
    requires k <= |p.ids|
  {
    var t := FirstTrouble(script, k, |p.ids|);
    if t < |p.ids| && Applied(script(t)) then t + 1 else t
  }

  /** What kind of trouble makes what kind of ending. */
  lemma EndingsAreExact(p: Plan, script: Script)
    ensures var n, outcome := |p.ids|, AttemptEnds(p, script, 0);
            var t := FirstTrouble(script, 0, n);
            && (outcome == Done <==> t == n)
            && (outcome == Refused <==> t < n && (QueryFails(script(t)) || (Drifts(script(t)) && t == 0)))
            && (outcome == Crashed || outcome.NeedsRecovery? <==>
                  t < n && (script(t).CrashAt? || script(t).NotApplied? || (Drifts(script(t)) && t > 0)))
            && (outcome == Refused && GoneAfter(p, script, 0) > 0 <==>
                  t < n && QueryFails(script(t)) && (t > 0 || Applied(script(t))))
  {
  }

  /** What recovery meets: whether its own queries are answered, what they show, and the script. */
  datatype Surroundings = Surroundings(
    answered: bool, servers: set<int>, selected: set<int>, operations: set<int>, script: Script)

  predicate Unchanged(p: Plan, w: Surroundings) {
    w.answered && w.servers == p.servers && w.selected == p.selected && w.operations == p.operations
  }

  /** What was seen just before a delete: the images servers use, the fingerprint shown. */
  datatype Sight = Sight(used: set<int>, shown: Digest)

  predicate Clear(p: Plan, k: nat, seen: Sight) {
    k < |p.ids| && p.ids[k] !in seen.used && p.ids[k] in p.digests && seen.shown == p.digests[p.ids[k]]
  }

  /** The private images of the project and the durable operation, over any number of attempts.
      Nobody else changes the images. */
  class Site {
    const plan: Plan
    ghost const base: map<int, Digest>
    var images: map<int, Digest>
    var status: Status
    var phase: Phase
    var refs: Refs

    /** How many planned images are really gone, and the plan index of every delete ever sent. */
    ghost var gone: nat
    ghost var sent: seq<nat>

    ghost predicate Valid()
      reads this
    {
      && PlannedFrom(plan, base)
      && Lags(plan, refs, gone)
      && images == Remaining(base, plan, gone)
      && (phase == Validated ==> gone == 0 && sent == [] && refs == Refs([], None))
      && (status == Succeeded ==> gone == |plan.ids|)
      && InPlanOrder()
    }

    /** Deletes are sent in plan order, only for planned images, each only after the journal names
        it as pending with all its predecessors deleted; and no image is gone unasked. */
    ghost predicate InPlanOrder()
      reads this
    {
      && (forall i, k :: 0 <= i < k < |sent| ==> sent[i] <= sent[k])
      && (forall i :: 0 <= i < |sent| ==>
            sent[i] < |refs.deleted| || (sent[i] == |refs.deleted| && refs.pending.Some?))
      && (forall i :: 0 <= i < gone ==> i in sent)
    }

    predicate Unfinished()
      reads this
    {
      status == Running || status == RecoveryRequired
    }

    constructor (plan: Plan, ghost base: map<int, Digest>, images: map<int, Digest>)
      requires PlannedFrom(plan, base) && images == base
      ensures Valid() && status == Running && phase == Validated && gone == 0 && this.plan == plan && this.base == base
    {
      this.plan, this.base, this.images := plan, base, images;
      status, phase, refs := Running, Validated, Refs([], None);
      gone, sent := 0, [];
      assert Remaining(base, plan, 0) == base;
    }

    /** A journal transaction; the deleted list is never ahead of the provider. */
    method Checkpoint(phase: Phase, n: nat, pending: bool)
      requires Valid() && Unfinished() && n == gone && phase != Validated
      requires if pending then n < |plan.ids| else forall i :: 0 <= i < |sent| ==> sent[i] < n
      modifies this`phase, this`refs
      ensures Valid() && this.phase == phase
      ensures refs == Refs(plan.ids[..n], if pending then Some(plan.ids[n]) else None)
    {
      this.phase := phase;
      refs := Refs(plan.ids[..n], if pending then Some(plan.ids[n]) else None);
    }

    /** A delete request for the pending image, which has just been seen with its planned
        fingerprint, and used by no server. */
    method Delete(k: nat, ghost seen: Sight, applied: bool)
      requires Valid() && Unfinished()
      requires k == gone == |refs.deleted| && k < |plan.ids| && refs.pending == Some(plan.ids[k])
      requires Clear(plan, k, seen)
      modifies this`images, this`gone, this`sent
      ensures Valid() && gone == (if applied then k + 1 else k) && sent == old(sent) + [k]
    {
      sent := sent + [k];
      assert sent[|sent| - 1] == k;
      if applied {
        images := images - {plan.ids[k]};
        gone := k + 1;
        RemoveOne(base, plan, k);
      }
    }

    /** Look at the pending image and at who uses it. */
    method Inspect(k: nat, e: Event) returns (seen: Sight, verdict: Outcome)
      requires Valid() && k == gone < |plan.ids|
      ensures verdict == Done ==> Clear(plan, k, seen)
      ensures verdict == if e.ServersUnknown? || e.ShowFails? || Drifts(e) then Ending(e, k, plan.ids[k]) else Done
    {
      RemainingHas(base, plan, k);
      var id := plan.ids[k];
      var drift := if k > 0 then NeedsRecovery(id) else Refused;
      seen := Sight({}, images[id]);
      if e.ServersUnknown? { return seen, Refused; }
      var used := if e.InUse? then {id} else {};
      if id in used { return seen, drift; }
      if e.ShowFails? { return seen, Refused; }
      var shown := if e.Drifted? then Xor(images[id], {0}) else images[id];
      if shown != plan.digests[id] { return seen, drift; }
      seen, verdict := Sight(used, shown), Done;
    }

    /** Send the delete and look whether the image is gone. */
    method DeleteAndConfirm(k: nat, ghost seen: Sight, e: Event) returns (outcome: Outcome)
      requires Valid() && Unfinished()
      requires k == gone == |refs.deleted| && k < |plan.ids| && refs.pending == Some(plan.ids[k])
      requires Clear(plan, k, seen) && !e.ServersUnknown? && !e.ShowFails? && !Drifts(e)
      requires e.CrashAt? ==> e.point.AfterDelete? || e.point.BeforeRecord?
      modifies this`images, this`gone, this`sent
      ensures Valid() && gone == (if Applied(e) then k + 1 else k) && sent == old(sent) + [k]
      ensures outcome == if e == CrashAt(BeforeRecord) then Done else Ending(e, k, plan.ids[k])
      ensures forall i :: 0 <= i < |sent| ==> sent[i] <= k
    {
      Delete(k, seen, Applied(e));
      RemovedMeansGone(base, plan, k, gone);
      if e.CrashAt? && e.point.AfterDelete? { return Crashed; }
      if !Reported(e) {
        if e.CheckFails? { return Refused; }
        if plan.ids[k] in images { return NeedsRecovery(plan.ids[k]); }
      }
      if e.ConfirmFails? || e.SecondCheckFails? { return Refused; }
      if plan.ids[k] in images { return NeedsRecovery(plan.ids[k]); }
      outcome := Done;
    }

    /** Journal, check and delete one image. Every primitive keeps `Valid`, so every crash does. */
    method DeleteOne(k: nat, e: Event) returns (outcome: Outcome)
      requires Valid() && Unfinished() && k == gone < |plan.ids|
      modifies this`images, this`gone, this`sent, this`phase, this`refs
      ensures Valid() && outcome == Ending(e, k, plan.ids[k]) && gone == if Applied(e) then k + 1 else k
      ensures outcome == Done ==> refs == Refs(plan.ids[..k + 1], None)
      ensures outcome.NeedsRecovery? ==> refs == Refs(plan.ids[..k], Some(outcome.pending))
    {
      if e == CrashAt(BeforeNote) { return Crashed; }
      Checkpoint(ImageDeleting, k, true);
      if e == CrashAt(AfterNote) { return Crashed; }
      var seen: Sight;
      seen, outcome := Inspect(k, e);
      if outcome != Done { return; }
      if e == CrashAt(BeforeDelete) { return Crashed; }
      outcome := DeleteAndConfirm(k, seen, e);
      if outcome != Done { return; }
      if e == CrashAt(BeforeRecord) { return Crashed; }
      Checkpoint(ImageDeleted, k + 1, false);
    }

    /** Delete what the plan still holds from index `start` on. */
    method DeletePlanned(start: nat, script: Script) returns (outcome: Outcome)
      requires Valid() && Unfinished() && start == gone
      modifies this`images, this`gone, this`sent, this`phase, this`refs
      ensures Valid() && outcome == AttemptEnds(plan, script, start) && gone == GoneAfter(plan, script, start)
      ensures outcome.NeedsRecovery? ==> refs == Refs(plan.ids[..|refs.deleted|], Some(outcome.pending))
    {
      var k := start;
      while k < |plan.ids|
        invariant start <= k <= |plan.ids|
        invariant Valid() && k == gone
        invariant FirstTrouble(script, k, |plan.ids|) == FirstTrouble(script, start, |plan.ids|)
      {
        outcome := DeleteOne(k, script(k));
        if outcome != Done { return; }
        k := k + 1;
      }
      outcome := Done;
    }

    /** The first attempt, after the saved plan was observed again. It stays recoverable exactly
        when its first trouble is a crash, an unconfirmed delete, or drift after the first image;
        an ordinary query error ends it as failed, however many images are gone by then. */
    method Apply(same: bool, script: Script) returns (outcome: Outcome)
      requires Valid() && status == Running && phase == Validated
      modifies this
      ensures Valid() && gone == if same then GoneAfter(plan, script, 0) else 0
      ensures !same ==> status == Failed
      ensures same ==> var n := |plan.ids|;
                       var t := FirstTrouble(script, 0, n);
                       && (status == Succeeded <==> t == n)
                       && (status == Failed <==> t < n && (QueryFails(script(t)) || (Drifts(script(t)) && t == 0)))
                       && (Unfinished() <==>
                             t < n && (script(t).CrashAt? || script(t).NotApplied? || (Drifts(script(t)) && t > 0)))
      ensures status == Failed && gone > 0 <==>
                same && var t := FirstTrouble(script, 0, |plan.ids|);
                        t < |plan.ids| && QueryFails(script(t)) && (t > 0 || Applied(script(t)))
      ensures outcome.NeedsRecovery? ==> phase == Ambiguous && refs.pending == Some(outcome.pending)
    {
      if !same {
        outcome := Refused;
      } else {
        outcome := DeletePlanned(0, script);
        EndingsAreExact(plan, script);
      }
      match outcome
      case Done => status := Succeeded;
      case Refused => status := Failed;
      case NeedsRecovery(_) => phase, status := Ambiguous, RecoveryRequired;
      case Crashed =>
    }

    /** The private images, listed in an arbitrary order. */
    method List() returns (rows: seq<Row>)
      ensures Lists(rows, images)
    {
      var all := images;
      var ids := Elements(all.Keys);
      assert forall i :: 0 <= i < |ids| ==> ids[i] in ids;
      rows := seq(|ids|, i requires 0 <= i < |ids| => Row(ids[i], all[ids[i]]));
      forall id | id in images ensures Listed(rows, id) {
        var i :| 0 <= i < |ids| && ids[i] == id;
        assert rows[i].id == id;
      }
    }

    /** Reconcile with what is listed now and delete the rest of the plan. Nothing is deleted unless
        everything but the planned images is as planned; otherwise the script decides. */
    method Recover(w: Surroundings) returns (outcome: Outcome)
      requires Valid() && Unfinished()
      modifies this
      ensures Valid()
      ensures old(phase) == Validated ==> status == Failed && sent == []
      ensures old(phase) != Validated ==>
                if Unchanged(plan, w)
                then outcome == AttemptEnds(plan, w.script, old(gone)) && gone == GoneAfter(plan, w.script, old(gone))
                else outcome == Refused && sent == old(sent) && images == old(images)
      ensures old(phase) != Validated ==>
                status == match outcome
                          case Done => Succeeded
                          case Crashed => old(status)
                          case _ => RecoveryRequired
    {
      if phase == Validated {
        status := Failed;
        return Refused;
      }
      outcome := Continue(w);
      if outcome == Done { status := Succeeded; }
      else if outcome != Crashed && status == Running { status := RecoveryRequired; }
    }

    method Continue(w: Surroundings) returns (outcome: Outcome)
      requires Valid() && Unfinished()
      modifies this`images, this`gone, this`sent, this`phase, this`refs
      ensures Valid()
      ensures if Unchanged(plan, w)
              then outcome == AttemptEnds(plan, w.script, old(gone)) && gone == GoneAfter(plan, w.script, old(gone))
              else outcome == Refused && sent == old(sent) && images == old(images)
    {
      if !w.answered { return Refused; }
      var rows := List();
      var deleted := Reconcile(plan, refs, rows, w.servers, w.selected, w.operations);
      ReconciliationSucceeds(plan, base, refs, gone, rows);
      if deleted.Err? { return Refused; }
      outcome := DeletePlanned(|deleted.value|, w.script);
    }

    /** Any number of attempts, each ending however it may. */
    method Operate(same: bool, script: Script, attempts: nat, worlds: nat -> Surroundings)
      requires Valid() && status == Running && phase == Validated
      modifies this
      ensures Valid()
      ensures forall id :: id in base && id !in plan.ids ==> id in images && images[id] == base[id]
    {
      var outcome := Apply(same, script);
      for i := 0 to attempts
        invariant Valid()
      {
        if Unfinished() { outcome := Recover(worlds(i)); }
      }
    }
  }

  /** What the journal and the provider have in common at every moment: the journaled images are gone,
      in plan order, and at most one more is, the pending one; every other image of the inventory is
      there unchanged. */
  lemma JournalIsTrue(site: Site)
    requires site.Valid()
    ensures site.refs.deleted <= site.plan.ids && |site.refs.deleted| <= site.gone <= |site.refs.deleted| + 1
    ensures site.gone > |site.refs.deleted| ==> site.refs.pending == Some(site.plan.ids[|site.refs.deleted|])
    ensures forall i :: 0 <= i < |site.plan.ids| ==> (i < site.gone <==> site.plan.ids[i] !in site.images)
    ensures forall id :: id in site.base && id !in site.plan.ids ==> id in site.images && site.images[id] == site.base[id]
  {
    forall i | 0 <= i < |site.plan.ids| ensures i < site.gone <==> site.plan.ids[i] !in site.images {
      if i < site.gone {
        assert site.plan.ids[..site.gone][i] == site.plan.ids[i];
      } else {
        assert site.plan.ids[i] !in site.plan.ids[..site.gone];
      }
    }
  }

  /** A run that ends as failed with an image gone: the second image's server query is not answered. */
  method FailedWithImageGone() returns (site: Site)
    ensures fresh(site) && site.Valid() && site.status == Failed && site.gone == 1 && |site.plan.ids| == 2
  {
    var base: map<int, Digest> := map[1 := {0}, 2 := {1}];
    var rows := [Row(1, {0}), Row(2, {1})];
    var plan := Plan([1, 2], base, Aggregate(rows), {}, {}, {});
    assert Listed(rows, 1) by { assert rows[0].id == 1; }
    assert Listed(rows, 2) by { assert rows[1].id == 2; }
    assert Lists(rows, base);
    site := new Site(plan, base, base);
    var script := (k: nat) => if k == 0 then Smooth(true) else ServersUnknown;
    var outcome := site.Apply(true, script);
  }

  lemma RemoveOne(base: map<int, Digest>, p: Plan, k: nat)
    requires PlannedFrom(p, base) && k < |p.ids|
    ensures Remaining(base, p, k) - {p.ids[k]} == Remaining(base, p, k + 1)
  {
    assert p.ids[..k + 1] == p.ids[..k] + [p.ids[k]];
  }

  lemma RemainingHas(base: map<int, Digest>, p: Plan, k: nat)
    requires PlannedFrom(p, base) && k < |p.ids|
    ensures p.ids[k] in Remaining(base, p, k) && Remaining(base, p, k)[p.ids[k]] == p.digests[p.ids[k]]
  {
    assert p.ids[k] !in p.ids[..k];
  }

  lemma RemovedMeansGone(base: map<int, Digest>, p: Plan, k: nat, n: nat)
    requires PlannedFrom(p, base) && k < |p.ids| && (n == k || n == k + 1)
    ensures p.ids[k] in Remaining(base, p, n) <==> n == k
  {
    assert p.ids[k] !in p.ids[..k];
    assert p.ids[k] == p.ids[..k + 1][k];
  }
}
