/** Runs of a step machine: states and the events between them. */
module Runs {
  /** Each state leads to the next by the event in between. */
  ghost predicate Chain<S(!new), E(!new)>(step: (S, E, S) -> bool, states: seq<S>, events: seq<E>) {
    && |states| == |events| + 1
    && forall i {:trigger events[i]} :: 0 <= i < |events| ==> step(states[i], events[i], states[i + 1])
  }

  lemma ExtendChain<S(!new), E(!new)>(step: (S, E, S) -> bool, states: seq<S>, events: seq<E>, e: E, s: S)
    requires Chain(step, states, events) && step(states[|events|], e, s)
    ensures Chain(step, states + [s], events + [e])
  {
    var states', events' := states + [s], events + [e];
    forall i | 0 <= i < |events'| ensures step(states'[i], events'[i], states'[i + 1]) {
      if i < |events| {
        assert events'[i] == events[i] && states'[i] == states[i] && states'[i + 1] == states[i + 1];
      }
    }
  }

  lemma ChainAt<S(!new), E(!new)>(step: (S, E, S) -> bool, states: seq<S>, events: seq<E>, i: nat)
    requires Chain(step, states, events) && i < |events|
    ensures step(states[i], events[i], states[i + 1])
  {
    assert events[i] == events[i];
  }

  lemma ChainRest<S(!new), E(!new)>(step: (S, E, S) -> bool, states: seq<S>, events: seq<E>)
    requires Chain(step, states, events) && events != []
    ensures Chain(step, states[1..], events[1..]) && step(states[0], events[0], states[1])
  {
    var rest := events[1..];
    forall i | 0 <= i < |rest| ensures step(states[1..][i], rest[i], states[1..][i + 1]) {
      assert rest[i] == events[i + 1];
    }
  }

  lemma ChainFrom<S(!new), E(!new)>(step: (S, E, S) -> bool, states: seq<S>, events: seq<E>, k: nat)
    requires Chain(step, states, events) && k <= |events|
    ensures Chain(step, states[k..], events[k..])
  {
    var later := events[k..];
    forall i | 0 <= i < |later| ensures step(states[k..][i], later[i], states[k..][i + 1]) {
      assert later[i] == events[k + i];
    }
  }

  /** What every step keeps holds all along a run from a state where it holds. */
  lemma {:induction false} ChainInvariant<S(!new), E(!new)>(
    step: (S, E, S) -> bool, states: seq<S>, events: seq<E>, inv: S -> bool, i: nat)
    requires Chain(step, states, events) && inv(states[0]) && i < |states|
    requires forall s, e, s' :: inv(s) && step(s, e, s') ==> inv(s')
    ensures inv(states[i])
  {
    if i > 0 {
      ChainInvariant(step, states, events, inv, i - 1);
      ChainAt(step, states, events, i - 1);
    }
  }

  /** A run leads from an initial state to s. */
  ghost predicate Reaches<S(!new), E(!new)>(step: (S, E, S) -> bool, init: S -> bool, s: S) {
    exists states: seq<S>, events: seq<E> :: Chain(step, states, events) && init(states[0]) && states[|events|] == s
  }

  lemma ReachesInit<S(!new), E(!new)>(step: (S, E, S) -> bool, init: S -> bool, s: S)
    requires init(s)
    ensures Reaches(step, init, s)
  {
    var states: seq<S>, events: seq<E> := [s], [];
    assert Chain(step, states, events) && init(states[0]) && states[|events|] == s;
  }

  lemma ReachesOn<S(!new), E(!new)>(step: (S, E, S) -> bool, init: S -> bool, s: S, e: E, s': S)
    requires Reaches(step, init, s) && step(s, e, s')
    ensures Reaches(step, init, s')
  {
    var states: seq<S>, events: seq<E> :| Chain(step, states, events) && init(states[0]) && states[|events|] == s;
    ExtendChain(step, states, events, e, s');
    var states', events' := states + [s'], events + [e];
    assert Chain(step, states', events') && init(states'[0]) && states'[|events'|] == s';
  }

  /** What holds initially and is kept by every step holds wherever a run leads. */
  lemma ReachesInvariant<S(!new), E(!new)>(step: (S, E, S) -> bool, init: S -> bool, inv: S -> bool, s: S)
    requires Reaches(step, init, s)
    requires forall s0 :: init(s0) ==> inv(s0)
    requires forall s0, e, s1 :: inv(s0) && step(s0, e, s1) ==> inv(s1)
    ensures inv(s)
  {
    var states: seq<S>, events: seq<E> :| Chain(step, states, events) && init(states[0]) && states[|events|] == s;
    ChainInvariant(step, states, events, inv, |events|);
  }

  /** The k-th step of a run is of a certain kind. */
  ghost predicate Marked<S(!new), E(!new)>(states: seq<S>, events: seq<E>, mark: (S, E, S) -> bool, k: nat) {
    k < |events| && k + 1 < |states| && mark(states[k], events[k], states[k + 1])
  }

  /** A stretch of a run in two stages, from the one to the other by a step of a certain kind, as long as it
      is not out: unless it is still in the first stage, that step has been taken. */
  lemma {:induction false} ChainPasses<S(!new), E(!new)>(
    step: (S, E, S) -> bool, states: seq<S>, events: seq<E>, before: S -> bool, mark: (S, E, S) -> bool,
    after: S -> bool, out: S -> bool, i: nat)
    requires Chain(step, states, events) && before(states[0]) && i < |states|
    requires forall s, e, s' :: before(s) && step(s, e, s') ==> before(s') || (mark(s, e, s') && after(s'))
    requires forall s, e, s' :: after(s) && !out(s) && step(s, e, s') ==> after(s')
    requires forall j :: 0 <= j < i ==> !out(states[j])
    ensures before(states[i]) || (after(states[i]) && exists k: nat :: k < i && Marked(states, events, mark, k))
  {
    if i > 0 {
      ChainPasses(step, states, events, before, mark, after, out, i - 1);
      ChainAt(step, states, events, i - 1);
      if before(states[i - 1]) && !before(states[i]) {
        assert Marked(states, events, mark, i - 1);
      }
    }
  }

  /** A first stage, where nothing is out, leads by steps of a certain kind to a second, which lasts until
      something is out. */
  ghost predicate Stages<S(!new), E(!new)>(
    step: (S, E, S) -> bool, before: S -> bool, mark: (S, E, S) -> bool, after: S -> bool, out: S -> bool)
  {
    && (forall s :: before(s) ==> !out(s))
    && (forall s, e, s' :: before(s) && step(s, e, s') ==> before(s') || (mark(s, e, s') && after(s')))
    && (forall s, e, s' :: after(s) && !out(s) && step(s, e, s') ==> after(s'))
  }

  /** So if a run begins in the first stage and comes out, a step of that kind has been taken. */
  lemma ChainComesOut<S(!new), E(!new)>(
    step: (S, E, S) -> bool, states: seq<S>, events: seq<E>, before: S -> bool, mark: (S, E, S) -> bool,
    after: S -> bool, out: S -> bool, i: nat) returns (k: nat)
    requires Chain(step, states, events) && 1 <= i < |states| && before(states[1])
    requires Stages(step, before, mark, after, out)
    requires (forall j :: 1 <= j < i ==> !out(states[j])) && out(states[i])
    ensures after(states[i]) && 1 <= k < i && mark(states[k], events[k], states[k + 1])
  {
    var states', events' := states[1..], events[1..];
    ChainFrom(step, states, events, 1);
    forall j | 0 <= j < i - 1 ensures !out(states'[j]) {
      assert states'[j] == states[j + 1];
    }
    ChainPasses(step, states', events', before, mark, after, out, i - 1);
    var j: nat :| j < i - 1 && Marked(states', events', mark, j);
    k := j + 1;
  }
}
