/** The hash-chained checkpoint of a live acceptance run, and the evidence it ends in. */
module Acceptance {
  import opened Options
  import opened World

  type Hash = nat

  /** The predecessor of the first event. */
  const ORIGIN: Hash := 0

  datatype Step = Step(action: string, required: set<string>)

  /** What an event hash covers. */
  datatype Body = Body(sequence: int, action: string, completedAt: string, checks: map<string, bool>, previous: Hash)
  datatype Event = Event(body: Body, hash: Hash)

  datatype Plan = Plan(deployment: string, project: string, namespace: string, sha256: string,
                       driver: string, configuration: string, baseline: string)

  datatype Checkpoint = Checkpoint(deployment: string, plan: string, startedAt: string, events: seq<Event>)

  datatype Document = Document(plan: Plan, startedAt: string, completedAt: string, result: string, events: seq<Event>)

  /** Primitives taken as given: hashes, the keyed code of RFC 2104, and the text formats. */
  datatype Given = Given(hash: Body -> Hash, digest: Document -> Hash, mac: (string, Document) -> Hash,
                         isTime: string -> bool, isScope: (string, string, string) -> bool, isFingerprint: string -> bool)

  ghost predicate Injective(g: Given) { forall a, b :: g.hash(a) == g.hash(b) ==> a == b }

  function Before(events: seq<Event>, i: nat): Hash
    requires i <= |events|
  {
    if i == 0 then ORIGIN else events[i - 1].hash
  }

  /** Event `i` records exactly the checks of action `i`, after event `i - 1`. */
  predicate Follows(g: Given, steps: seq<Step>, events: seq<Event>, i: nat)
    requires i < |events| && i < |steps|
  {
    var body := events[i].body;
    && body.sequence == i + 1 && body.action == steps[i].action && body.previous == Before(events, i)
    && body.checks.Keys == steps[i].required && (forall name :: name in body.checks ==> body.checks[name])
    && g.isTime(body.completedAt) && events[i].hash == g.hash(body)
  }

  predicate IsChain(g: Given, steps: seq<Step>, events: seq<Event>) {
    |events| <= |steps| && forall i {:trigger Follows(g, steps, events, i)} :: 0 <= i < |events| ==> Follows(g, steps, events, i)
  }

  /** The reader of a checkpoint's event list, with its running predecessor hash. */
  method CheckpointEvents(g: Given, steps: seq<Step>, value: seq<Event>) returns (r: Result<seq<Event>, ()>)
    ensures r == if IsChain(g, steps, value) then Ok(value) else Err(())
  {
    if |value| > |steps| { return Err(()); }
    var events, previous := [], ORIGIN;
    for i := 0 to |value|
      invariant events == value[..i] && previous == Before(value, i)
      invariant forall k :: 0 <= k < i ==> Follows(g, steps, value, k)
    {
      var body := value[i].body;
      if body.sequence != i + 1 || body.action != steps[i].action || body.previous != previous
         || body.checks.Keys != steps[i].required || (exists name :: name in body.checks && !body.checks[name])
      {
        assert !Follows(g, steps, value, i);
        return Err(());
      }
      if !g.isTime(body.completedAt) { assert !Follows(g, steps, value, i); return Err(()); }
      if value[i].hash != g.hash(body) { assert !Follows(g, steps, value, i); return Err(()); }
      events, previous := events + [value[i]], value[i].hash;
    }
    assert value[..|value|] == value;
    r := Ok(events);
  }

  /** Equal last hashes mean equal last events, as many of them, and equal hashes before. */
  lemma LastEventsAgree(g: Given, steps: seq<Step>, a: seq<Event>, b: seq<Event>)
    requires Injective(g) && IsChain(g, steps, a) && IsChain(g, steps, b)
    requires a != [] && b != [] && a[|a| - 1].hash == b[|b| - 1].hash
    ensures |a| == |b| && a[|a| - 1] == b[|a| - 1] && Before(a, |a| - 1) == Before(b, |a| - 1)
  {
    assert Follows(g, steps, a, |a| - 1) && Follows(g, steps, b, |b| - 1);
  }

  lemma Glue<T>(a: seq<T>, b: seq<T>, n: nat)
    requires |a| == |b| == n + 1 && a[..n] == b[..n] && a[n] == b[n]
    ensures a == b
  {
    assert a == a[..n] + [a[n]] && b == b[..n] + [b[n]];
  }

  /** Under an injective hash the last hash pins the whole chain, its length included. */
  lemma {:induction false} LastHashPinsChain(g: Given, steps: seq<Step>, a: seq<Event>, b: seq<Event>)
    requires Injective(g) && IsChain(g, steps, a) && IsChain(g, steps, b)
    requires a != [] && b != [] && a[|a| - 1].hash == b[|b| - 1].hash
    ensures a == b
    decreases |a|
  {
    var n := |a| - 1;
    LastEventsAgree(g, steps, a, b);
    if n > 0 {
      PrefixIsChain(g, steps, a, n);
      PrefixIsChain(g, steps, b, n);
      LastHashPinsChain(g, steps, a[..n], b[..n]);
    }
    Glue(a, b, n);
  }

  lemma PrefixIsChain(g: Given, steps: seq<Step>, events: seq<Event>, n: nat)
    requires IsChain(g, steps, events) && n <= |events|
    ensures IsChain(g, steps, events[..n])
  {
    forall i | 0 <= i < n ensures Follows(g, steps, events[..n], i) {
      assert Follows(g, steps, events, i);
    }
  }

  /** Every accepted chain is decided by its completion times alone. */
  lemma {:induction false} TimesDecideChain(g: Given, steps: seq<Step>, a: seq<Event>, b: seq<Event>)
    requires IsChain(g, steps, a) && IsChain(g, steps, b) && |a| == |b|
    requires forall i :: 0 <= i < |a| ==> a[i].body.completedAt == b[i].body.completedAt
    ensures a == b
    decreases |a|
  {
    if a != [] {
      var n := |a| - 1;
      PrefixIsChain(g, steps, a, n);
      PrefixIsChain(g, steps, b, n);
      TimesDecideChain(g, steps, a[..n], b[..n]);
      assert Follows(g, steps, a, n) && Follows(g, steps, b, n);
      assert n > 0 ==> a[n - 1] == a[..n][n - 1] && b[n - 1] == b[..n][n - 1];
      assert a[n].body.checks == b[n].body.checks;
      Glue(a, b, n);
    }
  }

  function Extended(g: Given, step: Step, events: seq<Event>, now: string): seq<Event> {
    var body := Body(|events| + 1, step.action, now, map name | name in step.required :: true, Before(events, |events|));
    events + [Event(body, g.hash(body))]
  }

  lemma ExtendedIsChain(g: Given, steps: seq<Step>, events: seq<Event>, now: string)
    requires IsChain(g, steps, events) && |events| < |steps| && g.isTime(now)
    ensures IsChain(g, steps, Extended(g, steps[|events|], events, now))
  {
    var more := Extended(g, steps[|events|], events, now);
    forall i | 0 <= i < |more| ensures Follows(g, steps, more, i) {
      if i < |events| { assert Follows(g, steps, events, i); }
    }
  }

  datatype Response = Response(ok: bool, deployment: string, project: string, namespace: string, action: string, checks: map<string, bool>)

  predicate Accepts(p: Plan, step: Step, r: Response) {
    && r.ok && r.deployment == p.deployment && r.project == p.project && r.namespace == p.namespace
    && r.action == step.action && r.checks.Keys == step.required && forall name :: name in r.checks ==> r.checks[name]
  }

  predicate ValidPlan(g: Given, p: Plan) {
    && g.isScope(p.deployment, p.project, p.namespace)
    && g.isFingerprint(p.sha256) && g.isFingerprint(p.driver) && g.isFingerprint(p.configuration) && g.isFingerprint(p.baseline)
  }

  /** The evidence file with its two companions. */
  datatype Evidence = Evidence(document: Option<Document>, checksum: Option<Hash>, signature: Option<Hash>)

  predicate Verifies(g: Given, steps: seq<Step>, key: string, e: Evidence) {
    && |key| >= 32 && e.document.Some? && e.checksum.Some? && e.signature.Some?
    && var d := e.document.value;
       && e.checksum.value == g.digest(d) && e.signature.value == g.mac(key, d)
       && d.result == "passed" && ValidPlan(g, d.plan) && g.isTime(d.startedAt) && g.isTime(d.completedAt)
       && IsChain(g, steps, d.events) && |d.events| == |steps|
  }

  /** Evidence that verifies holds every action in order with every required check passed, each event
      hashed over its predecessor, under the checksum and the keyed code of the very document. */
  lemma VerifiedMeans(g: Given, steps: seq<Step>, key: string, e: Evidence, i: nat)
    requires Verifies(g, steps, key, e) && i < |steps|
    ensures |key| >= 32 && e.document.Some?
    ensures var d := e.document.value;
            && e.checksum == Some(g.digest(d)) && e.signature == Some(g.mac(key, d)) && d.result == "passed"
            && g.isScope(d.plan.deployment, d.plan.project, d.plan.namespace)
            && g.isFingerprint(d.plan.sha256) && g.isFingerprint(d.plan.driver)
            && g.isFingerprint(d.plan.configuration) && g.isFingerprint(d.plan.baseline)
            && g.isTime(d.startedAt) && g.isTime(d.completedAt) && |d.events| == |steps|
            && var event := d.events[i];
               && event.body.sequence == i + 1 && event.body.action == steps[i].action && g.isTime(event.body.completedAt)
               && (forall name :: name in event.body.checks <==> name in steps[i].required)
               && (forall name :: name in steps[i].required ==> event.body.checks[name])
               && event.body.previous == (if i == 0 then 0 else d.events[i - 1].hash) && event.hash == g.hash(event.body)
  {
    assert Follows(g, steps, e.document.value.events, i);
  }

  datatype Outcome = Passed | Refused | Crashed

  /** A request for the action with this index, and how many events were durable when it was sent. */
  datatype Request = Request(index: nat, durable: nat)

  class StateDirectory {
    var checkpoint: Option<Checkpoint>
    var evidence: Evidence
    ghost var requests: seq<Request>
    /** What the driver answered last. */
    ghost var answer: Option<Response>

    constructor ()
      ensures checkpoint == None && evidence == Evidence(None, None, None) && requests == []
    {
      checkpoint, evidence, requests := None, Evidence(None, None, None), [];
    }

    function Events(): seq<Event>
      reads this
    {
      if checkpoint.None? then [] else checkpoint.value.events
    }

    /** The checkpoint is absent, or one that a run of this plan resumes from. */
    predicate Resumable(g: Given, steps: seq<Step>, p: Plan)
      reads this
    {
      checkpoint.Some? ==>
        var s := checkpoint.value;
        s.deployment == p.deployment && s.plan == p.sha256 && g.isTime(s.startedAt) && IsChain(g, steps, s.events)
    }

    /** The checkpoint is one of this plan, begun at this time. */
    predicate Stamped(p: Plan, startedAt: string)
      reads this
    {
      && checkpoint.Some? && checkpoint.value.deployment == p.deployment && checkpoint.value.plan == p.sha256
      && checkpoint.value.startedAt == startedAt
    }

    method Now(g: Given, clock: string) returns (now: string)
      requires g.isTime(clock)
      ensures g.isTime(now)
    {
      var other: string := *;
      now := if g.isTime(other) then other else clock;
    }

    /** Ask the driver for one action; it may answer anything, or fail. */
    method Ask(p: Plan, index: nat, step: Step, obliging: bool) returns (r: Option<Response>)
      modifies this`requests, this`answer
      ensures requests == old(requests) + [Request(index, |Events()|)] && answer == r
      ensures obliging ==> r.Some? && Accepts(p, step, r.value)
    {
      requests := requests + [Request(index, |Events()|)];
      r := *;
      if obliging {
        r := Some(Response(true, p.deployment, p.project, p.namespace, step.action, map name | name in step.required :: true));
      }
      answer := r;
    }

    /** Request the next action and make its event durable. */
    method Advance(g: Given, steps: seq<Step>, p: Plan, clock: string, startedAt: string, events: seq<Event>, obliging: bool)
        returns (outcome: Outcome, more: seq<Event>)
      requires g.isTime(clock) && g.isTime(startedAt) && Resumable(g, steps, p)
      requires events == Events() && |events| < |steps|
      requires checkpoint.Some? ==> checkpoint.value.startedAt == startedAt
      modifies this`checkpoint, this`requests, this`answer
      ensures Resumable(g, steps, p) && (checkpoint.Some? ==> checkpoint.value.startedAt == startedAt)
      ensures requests == old(requests) || requests == old(requests) + [Request(|events|, |events|)]
      ensures events <= Events() && (checkpoint == old(checkpoint) || Stamped(p, startedAt))
      ensures outcome == Passed ==> more == Events() && |more| == |events| + 1 && checkpoint.Some? && |requests| > |old(requests)|
      ensures |Events()| > |events| ==>
                && answer.Some? && answer.value.ok
                && answer.value.deployment == p.deployment && answer.value.project == p.project
                && answer.value.namespace == p.namespace && answer.value.action == steps[|events|].action
                && answer.value.checks.Keys == steps[|events|].required
                && (forall name :: name in steps[|events|].required ==> answer.value.checks[name])
                && Events()[|events|].body.checks == answer.value.checks
                && Events()[|events|].body.action == steps[|events|].action
                && Events()[|events|].body.sequence == |events| + 1
      ensures obliging ==> outcome == Passed
    {
      more := events;
      var inTime := GoesWell(obliging);
      if !inTime { return Refused, events; }
      var response := Ask(p, |events|, steps[|events|], obliging);
      if response.None? || !Accepts(p, steps[|events|], response.value) { return Refused, events; }
      var now := Now(g, clock);
      more := Extended(g, steps[|events|], events, now);
      ExtendedIsChain(g, steps, events, now);
      var written := GoesWell(obliging);
      if !written { return Crashed, more; }
      checkpoint := Some(Checkpoint(p.deployment, p.sha256, startedAt, more));
      outcome := Passed;
    }

    /** Write the evidence and then its two companions. */
    method Conclude(g: Given, p: Plan, clock: string, key: string, startedAt: string, events: seq<Event>, obliging: bool)
        returns (outcome: Outcome)
      requires g.isTime(clock)
      modifies this`evidence
      ensures outcome == Passed ==>
                && evidence.document.Some?
                && var d := evidence.document.value;
                   && d.plan == p && d.startedAt == startedAt && g.isTime(d.completedAt) && d.result == "passed" && d.events == events
                   && evidence == Evidence(Some(d), Some(g.digest(d)), Some(g.mac(key, d)))
      ensures obliging ==> outcome == Passed
    {
      var now := Now(g, clock);
      var document := Document(p, startedAt, now, "passed", events);
      var written := GoesWell(obliging);
      if !written { return Crashed; }
      evidence := evidence.(document := Some(document));
      written := GoesWell(obliging);
      if !written { return Crashed; }
      evidence := evidence.(checksum := Some(g.digest(document)));
      written := GoesWell(obliging);
      if !written { return Crashed; }
      evidence := evidence.(signature := Some(g.mac(key, document)));
      outcome := Passed;
    }

    /** Request the remaining actions in order. */
    method Execute(g: Given, steps: seq<Step>, p: Plan, clock: string, startedAt: string, events: seq<Event>, obliging: bool)
        returns (outcome: Outcome, all: seq<Event>)
      requires g.isTime(clock) && g.isTime(startedAt) && Resumable(g, steps, p)
      requires events == Events()
      requires checkpoint.Some? ==> checkpoint.value.startedAt == startedAt
      modifies this`checkpoint, this`requests, this`answer
      ensures Resumable(g, steps, p) && events <= Events() && (checkpoint == old(checkpoint) || Stamped(p, startedAt))
      ensures checkpoint.Some? ==> checkpoint.value.startedAt == startedAt
      ensures InTurn(old(requests), |events|, |steps|, requests)
      ensures outcome == Passed ==> all == Events() && IsChain(g, steps, all) && |all| == |steps|
      ensures obliging ==> outcome == Passed
    {
      all := events;
      for i := |events| to |steps|
        invariant Resumable(g, steps, p) && all == Events() && |all| == i && events <= all
        invariant checkpoint.Some? ==> checkpoint.value.startedAt == startedAt
        invariant checkpoint == old(checkpoint) || Stamped(p, startedAt)
        invariant requests == old(requests) + Turns(|events|, i - |events|)
      {
        TurnsGrow(old(requests), |events|, i - |events|);
        outcome, all := Advance(g, steps, p, clock, startedAt, all, obliging);
        if outcome != Passed { return; }
      }
      outcome := Passed;
    }

    /** One run, cut short anywhere. The durable chain only grows, an action is requested only when
        exactly its predecessors are durable, and a run that passes leaves evidence that verifies. */
    method RunPlan(g: Given, steps: seq<Step>, p: Plan, key: string, clock: string, obliging: bool) returns (outcome: Outcome)
      requires ValidPlan(g, p) && g.isTime(clock)
      modifies this
      ensures old(Resumable(g, steps, p)) ==> Resumable(g, steps, p) && old(Events()) <= Events()
      ensures !old(Resumable(g, steps, p)) ==> outcome == Refused && checkpoint == old(checkpoint) && requests == old(requests)
      ensures InTurn(old(requests), |old(Events())|, |steps|, requests)
      ensures old(checkpoint).Some? && (old(checkpoint).value.deployment != p.deployment || old(checkpoint).value.plan != p.sha256) ==>
                outcome == Refused && checkpoint == old(checkpoint) && requests == old(requests) && evidence == old(evidence)
      ensures checkpoint != old(checkpoint) ==>
                && checkpoint.Some? && checkpoint.value.deployment == p.deployment && checkpoint.value.plan == p.sha256
                && (old(checkpoint).Some? ==> checkpoint.value.startedAt == old(checkpoint).value.startedAt)
      ensures outcome == Passed ==> evidence.document.Some?
      ensures outcome == Passed && checkpoint.Some? ==> evidence.document.value.startedAt == checkpoint.value.startedAt
      ensures outcome == Passed ==> Verifies(g, steps, key, evidence) && evidence.document.value.plan == p
                                    && evidence.document.value.events == Events()
      ensures obliging && |key| >= 32 && old(Resumable(g, steps, p)) ==> outcome == Passed
    {
      assert requests == requests + Turns(|Events()|, 0);
      if |key| < 32 { return Refused; }
      var now := Now(g, clock);
      var state := if checkpoint.Some? then checkpoint.value else Checkpoint(p.deployment, p.sha256, now, []);
      if state.deployment != p.deployment || state.plan != p.sha256 || !g.isTime(state.startedAt) { return Refused; }
      var read := CheckpointEvents(g, steps, state.events);
      if read.Err? { return Refused; }
      var events := read.value;
      outcome, events := Execute(g, steps, p, clock, state.startedAt, events, obliging);
      if outcome != Passed { return; }
      outcome := Conclude(g, p, clock, key, state.startedAt, events, obliging);
    }

    /** Any number of interrupted runs, and then one that meets no trouble. */
    method Reruns(g: Given, steps: seq<Step>, p: Plan, key: string, clock: string, attempts: nat) returns (outcome: Outcome)
      requires ValidPlan(g, p) && g.isTime(clock) && |key| >= 32 && Resumable(g, steps, p)
      modifies this
      ensures Resumable(g, steps, p) && old(Events()) <= Events() && |Events()| == |steps|
      ensures Verifies(g, steps, key, evidence) && evidence.document.value.events == Events()
    {
      for i := 0 to attempts
        invariant Resumable(g, steps, p) && old(Events()) <= Events()
      {
        outcome := RunPlan(g, steps, p, key, clock, false);
      }
      outcome := RunPlan(g, steps, p, key, clock, true);
    }
  }

  /** Requests for `n` actions from `start` on, each sent when exactly the actions before it were
      durable. */
  ghost function Turns(start: nat, n: nat): seq<Request> {
    seq(n, k requires 0 <= k < n => Request(start + k, start + k))
  }

  lemma TurnsGrow(before: seq<Request>, start: nat, n: nat)
    ensures before + Turns(start, n + 1) == (before + Turns(start, n)) + [Request(start + n, start + n)]
  {
  }

  /** What a run has requested: actions in turn, from the first one that was not durable. */
  ghost predicate InTurn(before: seq<Request>, start: nat, count: nat, after: seq<Request>) {
    exists n: nat :: (n == 0 || start + n <= count) && after == before + Turns(start, n)
  }
}
