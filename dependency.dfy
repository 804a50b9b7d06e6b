/** The dependency edge (lib/orchestrated/dependency.rb): a three-state
    machine that, on reaching a terminal state, calls its dependent once. */
module Dependency {
  import opened Wrappers

  datatype EdgeState = Incomplete | Complete | Canceled

  datatype EdgeEvent = PrerequisiteCompleted | PrerequisiteCanceled

  /** The call an after-transition hook makes on the dependent. */
  datatype DependentCall = CallPrerequisiteComplete | CallPrerequisiteCanceled

  /** A new edge starts out incomplete. */
  const Initial: EdgeState := Incomplete

  /** One event: the new state and the call on the dependent, or `None` when
      the event is not legal in `s` (nothing changes, nobody is called). */
  function Step(s: EdgeState, ev: EdgeEvent): Option<(EdgeState, DependentCall)> {
    match ev
    case PrerequisiteCompleted =>
      if s == Incomplete then Some((Complete, CallPrerequisiteComplete)) else None
    case PrerequisiteCanceled =>
      if s == Incomplete then Some((Canceled, CallPrerequisiteCanceled)) else None
  }

  /** Both events are legal only from `incomplete`, and lead to `complete`
      and `canceled` respectively, calling the matching dependent method. */
  lemma StepTable(s: EdgeState, ev: EdgeEvent)
    ensures Step(s, ev).Some? <==> s == Initial
    ensures Step(s, ev).Some? && ev == PrerequisiteCompleted ==>
              Step(s, ev).value == (Complete, CallPrerequisiteComplete)
    ensures Step(s, ev).Some? && ev == PrerequisiteCanceled ==>
              Step(s, ev).value == (Canceled, CallPrerequisiteCanceled)
  {
  }

  /** Firing `evs` one after another: the final state and the calls made on
      the dependent. */
  function Run(s: EdgeState, evs: seq<EdgeEvent>): (EdgeState, seq<DependentCall>)
    decreases |evs|
  {
    if evs == [] then (s, [])
    else
      match Step(s, evs[0])
      case None => Run(s, evs[1..])
      case Some(next) =>
        var rest := Run(next.0, evs[1..]);
        (rest.0, [next.1] + rest.1)
  }

  /** Whatever events arrive, an edge changes state at most once and calls
      its dependent at most once: never both to complete and to cancel, and
      always with the call that matches the state it ended in. */
  lemma {:induction false} RunChangesAtMostOnce(s: EdgeState, evs: seq<EdgeEvent>)
    ensures var (t, calls) := Run(s, evs);
      && (s != Incomplete ==> t == s && calls == [])
      && (calls == [] <==> t == s)
      && (calls != [] ==>
            || (calls == [CallPrerequisiteComplete] && t == Complete)
            || (calls == [CallPrerequisiteCanceled] && t == Canceled))
    decreases |evs|
  {
    if evs != [] {
      match Step(s, evs[0])
      case None =>
        RunChangesAtMostOnce(s, evs[1..]);
      case Some(next) =>
        RunChangesAtMostOnce(next.0, evs[1..]);
    }
  }

  /** Firing the same event a second time is a no-op. */
  lemma {:induction false} RepeatIsNoOp(s: EdgeState, ev: EdgeEvent)
    ensures Run(s, [ev, ev]) == Run(s, [ev])
  {
    assert [ev, ev][1..] == [ev];
    assert [ev][1..] == [];
    if Step(s, ev).Some? {
      assert Run(Step(s, ev).value.0, [ev]) == (Step(s, ev).value.0, []);
    }
  }
}
