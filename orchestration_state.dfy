/** The state machine of an orchestration (lib/orchestrated/orchestration.rb:27-84)
    as a transition table, with the hooks each transition runs. */
module OrchestrationState {
  import opened Wrappers

  type OrchId = nat

  datatype State = Waiting | Ready | Succeeded | Failed | Canceled

  datatype Event =
    | PrerequisiteComplete
    | PrerequisiteCanceled
    | MessageDeliverySucceeded
    | MessageDeliveryFailed
    | Cancel

  /** `complete?`: true exactly in the two complete states; a failed
      orchestration counts as complete. */
  predicate IsCompleteState(s: State) {
    s == Succeeded || s == Failed
  }

  predicate IsTerminal(s: State) {
    s == Succeeded || s == Failed || s == Canceled
  }

  /** The transition table; `None` is an illegal event (the bang form raises
      InvalidTransition, the plain form returns false; neither changes state). */
  function Next(s: State, ev: Event): Option<State> {
    match ev
    case PrerequisiteComplete =>
      if s == Waiting then Some(Ready) else None
    case PrerequisiteCanceled =>
      if s == Waiting || s == Ready then Some(Canceled) else None
    case MessageDeliverySucceeded =>
      if s == Ready then Some(Succeeded) else None
    case MessageDeliveryFailed =>
      if s == Ready then Some(Failed) else None
    case Cancel =>
      if s == Waiting || s == Ready then Some(Canceled) else None
  }

  /** Side effects of a transition: before hooks touch the job queue, after
      hooks notify the orchestration's own completion wrapper. */
  datatype Hook = Enqueue | Dequeue | NotifyComplete | NotifyCanceled

  /** The hooks a transition from `s` to `t` runs, in the order they run. */
  function Hooks(s: State, t: State): seq<Hook> {
    (if t == Ready then [Enqueue] else [])
    + (if s == Ready && t == Canceled then [Dequeue] else [])
    + (if IsCompleteState(t) then [NotifyComplete] else [])
    + (if (s == Waiting || s == Ready) && t == Canceled then [NotifyCanceled] else [])
  }

  /** Firing `evs` one after another in the non-raising form: the final state
      and every hook that ran. */
  function Run(s: State, evs: seq<Event>): (State, seq<Hook>)
    decreases |evs|
  {
    if evs == [] then (s, [])
    else
      match Next(s, evs[0])
      case None => Run(s, evs[1..])
      case Some(t) =>
        var rest := Run(t, evs[1..]);
        (rest.0, Hooks(s, t) + rest.1)
  }

  function Rank(s: State): nat {
    match s
    case Waiting => 0
    case Ready => 1
    case _ => 2
  }

  /** The initial state is `waiting`, and every legal event moves strictly
      forward (waiting, then ready, then a terminal state); terminal states
      accept no event, so `cancel!` on them raises. */
  lemma NextAdvances(s: State, ev: Event)
    ensures Next(s, ev).Some? ==> Rank(s) < Rank(Next(s, ev).value)
    ensures IsTerminal(s) ==> Next(s, ev) == None
    ensures Next(s, ev) == Some(Ready) <==> s == Waiting && ev == PrerequisiteComplete
    ensures Next(s, ev) == Some(Succeeded) <==> s == Ready && ev == MessageDeliverySucceeded
    ensures Next(s, ev) == Some(Failed) <==> s == Ready && ev == MessageDeliveryFailed
    ensures Next(s, ev) == Some(Canceled) <==>
              (s == Waiting || s == Ready) && (ev == Cancel || ev == PrerequisiteCanceled)
  {
  }

  /** What one legal transition does to the hook counts. */
  lemma HooksOfStep(s: State, ev: Event, t: State)
    requires Next(s, ev) == Some(t)
    ensures var m := multiset(Hooks(s, t));
      && m[Enqueue] == (if t == Ready then 1 else 0)
      && m[Dequeue] == (if s == Ready && t == Canceled then 1 else 0)
      && m[NotifyComplete] + m[NotifyCanceled] == (if IsTerminal(t) then 1 else 0)
  {
    HooksTable(s, ev, t);
    NextAdvances(s, ev);
    HookCounts(s, t, multiset(Hooks(s, t)));
  }

  lemma HookCounts(s: State, t: State, m: multiset<Hook>)
    requires t != Waiting
    requires t == Ready ==> m == multiset{Enqueue}
    requires IsCompleteState(t) ==> m == multiset{NotifyComplete}
    requires t == Canceled && s == Ready ==> m == multiset{Dequeue, NotifyCanceled}
    requires t == Canceled && s != Ready ==> m == multiset{NotifyCanceled}
    ensures m[Enqueue] == (if t == Ready then 1 else 0)
    ensures m[Dequeue] == (if s == Ready && t == Canceled then 1 else 0)
    ensures m[NotifyComplete] + m[NotifyCanceled] == (if IsTerminal(t) then 1 else 0)
  {
  }

  /** The hooks of each legal transition, written out. */
  lemma HooksTable(s: State, ev: Event, t: State)
    requires Next(s, ev) == Some(t)
    ensures t == Ready ==> Hooks(s, t) == [Enqueue]
    ensures IsCompleteState(t) ==> Hooks(s, t) == [NotifyComplete]
    ensures t == Canceled && s == Ready ==> Hooks(s, t) == [Dequeue, NotifyCanceled]
    ensures t == Canceled && s != Ready ==> Hooks(s, t) == [NotifyCanceled]
  {
    if t == Ready {
      assert s == Waiting;
      assert Hooks(s, t) == [Enqueue] + [] + [] + [];
    } else if IsCompleteState(t) {
      assert s == Ready;
      assert Hooks(s, t) == [] + [] + [NotifyComplete] + [];
    } else if s == Ready {
      assert Hooks(s, t) == [] + [Dequeue] + [] + [NotifyCanceled];
    } else {
      assert s == Waiting;
      assert Hooks(s, t) == [] + [] + [] + [NotifyCanceled];
    }
  }

  /** The hooks `m` an orchestration that is in state `s` can still run:
      an enqueue only if it is waiting, and at most one dequeue and one
      notification of its wrapper, none once it is terminal; the two
      notifications exclude each other. */
  predicate AtMostOnce(s: State, m: multiset<Hook>) {
    && m[Enqueue] <= (if s == Waiting then 1 else 0)
    && m[Dequeue] <= (if IsTerminal(s) then 0 else 1)
    && m[NotifyComplete] + m[NotifyCanceled] <= (if IsTerminal(s) then 0 else 1)
  }

  lemma StepAtMostOnce(s: State, t: State, m: multiset<Hook>, rest: multiset<Hook>)
    requires Rank(s) < Rank(t)
    requires m[Enqueue] == (if t == Ready then 1 else 0)
    requires m[Dequeue] == (if s == Ready && t == Canceled then 1 else 0)
    requires m[NotifyComplete] + m[NotifyCanceled] == (if IsTerminal(t) then 1 else 0)
    requires AtMostOnce(t, rest)
    ensures AtMostOnce(s, m + rest)
  {
  }

  /** Over any sequence of events an orchestration enqueues at most once (and
      only if it started out waiting), dequeues at most once, and notifies its
      wrapper at most once; a terminal orchestration ignores every event. */
  lemma {:induction false} RunHooksAtMostOnce(s: State, evs: seq<Event>)
    ensures AtMostOnce(s, multiset(Run(s, evs).1))
    ensures IsTerminal(s) ==> Run(s, evs) == (s, [])
    decreases |evs|
  {
    if evs != [] {
      var n := Next(s, evs[0]);
      if n.None? {
        RunHooksAtMostOnce(s, evs[1..]);
      } else {
        var t := n.value;
        RunHooksAtMostOnce(t, evs[1..]);
        HooksOfStep(s, evs[0], t);
        NextAdvances(s, evs[0]);
        var rest := Run(t, evs[1..]);
        assert Run(s, evs) == (rest.0, Hooks(s, t) + rest.1);
        assert multiset(Hooks(s, t) + rest.1) == multiset(Hooks(s, t)) + multiset(rest.1);
        StepAtMostOnce(s, t, multiset(Hooks(s, t)), multiset(rest.1));
      }
    }
  }
}
