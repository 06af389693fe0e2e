/** Runs of a labelled transition function, and induction over them. */
module Runs {
  import opened Options

  ghost predicate IsPath<S(!new), A(!new)>(next: (S, A) -> Option<S>, states: seq<S>, actions: seq<A>) {
    && |states| == |actions| + 1
    && forall i :: 0 <= i < |actions| ==> next(states[i], actions[i]) == Some(states[i + 1])
  }

  ghost predicate Kept<S(!new), A(!new)>(next: (S, A) -> Option<S>, keep: S -> bool) {
    forall s, a :: keep(s) && next(s, a).Some? ==> keep(next(s, a).value)
  }

  /** What every action keeps and holds somewhere holds from there on. */
  lemma {:induction false} Persists<S(!new), A(!new)>(
      next: (S, A) -> Option<S>, keep: S -> bool, states: seq<S>, actions: seq<A>, i: nat, k: nat)
    requires IsPath(next, states, actions) && Kept(next, keep)
    requires i <= k < |states| && keep(states[i])
    ensures keep(states[k])
  {
    if i < k {
      Persists(next, keep, states, actions, i, k - 1);
      var m := k - 1;
      assert next(states[m], actions[m]) == Some(states[m + 1]);
    }
  }

  /** The actions `choose` picks until `stop`, at most `fuel` of them. */
  function Drive<S, A>(next: (S, A) -> Option<S>, choose: S -> A, stop: S -> bool, s: S, fuel: nat): S
    decreases fuel
  {
    if fuel == 0 || stop(s) then s
    else
      match next(s, choose(s))
      case None => s
      case Some(t) => Drive(next, choose, stop, t, fuel - 1)
  }

  /** The chosen action is possible and leads closer along `path`, or stops in `good`. */
  ghost predicate Closer<S(!new), A(!new)>(
      next: (S, A) -> Option<S>, choose: S -> A, stop: S -> bool,
      path: S -> bool, good: S -> bool, measure: S -> nat, s: S)
  {
    && !stop(s)
    && next(s, choose(s)).Some?
    && var t := next(s, choose(s)).value;
       if stop(t) then good(t) else path(t) && measure(t) < measure(s)
  }

  ghost predicate Chases<S(!new), A(!new)>(
      next: (S, A) -> Option<S>, choose: S -> A, stop: S -> bool,
      path: S -> bool, good: S -> bool, measure: S -> nat)
  {
    forall s :: path(s) ==> Closer(next, choose, stop, path, good, measure, s)
  }

  /** A chase ends well within its measure, along a run. */
  lemma {:induction false} Arrives<S(!new), A(!new)>(
      next: (S, A) -> Option<S>, choose: S -> A, stop: S -> bool,
      path: S -> bool, good: S -> bool, measure: S -> nat, s: S, fuel: nat)
      returns (states: seq<S>, actions: seq<A>)
    requires Chases(next, choose, stop, path, good, measure)
    requires path(s) && measure(s) < fuel
    ensures good(Drive(next, choose, stop, s, fuel)) && stop(Drive(next, choose, stop, s, fuel))
    ensures IsPath(next, states, actions) && states[0] == s
    ensures states[|actions|] == Drive(next, choose, stop, s, fuel) && |actions| <= fuel
    decreases fuel
  {
    var a := choose(s);
    var t := next(s, a).value;
    if stop(t) {
      states, actions := [t], [];
      assert Drive(next, choose, stop, t, fuel - 1) == t;
    } else {
      states, actions := Arrives(next, choose, stop, path, good, measure, t, fuel - 1);
    }
    states, actions := Prepend(next, s, a, states, actions);
  }

  lemma Prepend<S(!new), A(!new)>(next: (S, A) -> Option<S>, s: S, a: A, states: seq<S>, actions: seq<A>)
      returns (states': seq<S>, actions': seq<A>)
    requires IsPath(next, states, actions) && next(s, a) == Some(states[0])
    ensures IsPath(next, states', actions')
    ensures states'[0] == s && |actions'| == |actions| + 1 && states'[|actions'|] == states[|actions|]
  {
    states', actions' := [s] + states, [a] + actions;
    forall i | 0 <= i < |actions'| ensures next(states'[i], actions'[i]) == Some(states'[i + 1]) {
      if i > 0 {
        var k := i - 1;
        assert next(states[k], actions[k]) == Some(states[k + 1]);
      }
    }
  }

  ghost predicate Leads<S(!new), A(!new)>(next: (S, A) -> Option<S>, s: S, t: S) {
    exists states: seq<S>, actions: seq<A> ::
      IsPath(next, states, actions) && states[0] == s && states[|actions|] == t
  }

  lemma LeadsHere<S(!new), A(!new)>(next: (S, A) -> Option<S>, s: S)
    ensures Leads(next, s, s)
  {
    var states, actions: seq<A> := [s], [];
    assert IsPath(next, states, actions) && states[0] == s && states[|actions|] == s;
  }

  lemma LeadsVia<S(!new), A(!new)>(next: (S, A) -> Option<S>, s: S, a: A, t: S, end: S)
    requires next(s, a) == Some(t) && Leads(next, t, end)
    ensures Leads(next, s, end)
  {
    var states: seq<S>, actions: seq<A> :| IsPath(next, states, actions) && states[0] == t && states[|actions|] == end;
    var states', actions' := Prepend(next, s, a, states, actions);
  }

  /** One action keeps `first`, or is a `hit` that begins `second`. */
  ghost predicate Turns<S(!new), A(!new)>(
      next: (S, A) -> Option<S>, first: S -> bool, hit: (S, A) -> bool, second: (S, bool) -> bool, flag: A -> bool, s: S, a: A)
  {
    next(s, a).Some? ==> first(next(s, a).value) || (hit(s, a) && second(next(s, a).value, flag(a)))
  }

  ghost predicate Stays<S(!new), A(!new)>(next: (S, A) -> Option<S>, second: (S, bool) -> bool, s: S, a: A, b: bool) {
    next(s, a).Some? ==> second(next(s, a).value, b)
  }

  ghost predicate AllTurn<S(!new), A(!new)>(
      next: (S, A) -> Option<S>, fits: (S, A) -> bool, first: S -> bool, hit: (S, A) -> bool, second: (S, bool) -> bool,
      flag: A -> bool)
  {
    && (forall s, a :: first(s) && fits(s, a) ==> Turns(next, first, hit, second, flag, s, a))
    && (forall s, a, b :: second(s, b) && fits(s, a) ==> Stays(next, second, s, a, b))
  }

  /** Then `first` still holds, or there was a hit. */
  lemma {:induction false} TurnsOnce<S(!new), A(!new)>(
      next: (S, A) -> Option<S>, fits: (S, A) -> bool, first: S -> bool, hit: (S, A) -> bool, second: (S, bool) -> bool,
      flag: A -> bool, states: seq<S>, actions: seq<A>, i: nat, m: nat)
    requires IsPath(next, states, actions) && AllTurn(next, fits, first, hit, second, flag)
    requires i <= m < |states| && first(states[i]) && forall j :: i <= j < m ==> fits(states[j], actions[j])
    ensures first(states[m]) || exists k :: i <= k < m && hit(states[k], actions[k]) && second(states[m], flag(actions[k]))
  {
    if i < m {
      TurnsOnce(next, fits, first, hit, second, flag, states, actions, i, m - 1);
      var n := m - 1;
      assert next(states[n], actions[n]) == Some(states[n + 1]) && fits(states[n], actions[n]);
      if first(states[n]) {
        assert Turns(next, first, hit, second, flag, states[n], actions[n]);
      } else {
        var k :| i <= k < n && hit(states[k], actions[k]) && second(states[n], flag(actions[k]));
        assert Stays(next, second, states[n], actions[n], flag(actions[k]));
      }
    }
  }
}
