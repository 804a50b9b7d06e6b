/** What a consistent store (the state every `Engine` operation leaves
    behind, once propagation has settled) says about a dependent
    orchestration, and the AND/OR propagation and cancellation scenarios of
    the composite prerequisites that follow from it. */
module Scenarios {
  import opened OrchestrationState
  import opened Completion
  import opened Orchestration
  import Dependency
  import MessageDelivery

  /** Some queued job delivers for `d`. */
  ghost predicate HasJob(t: Tables, d: OrchId) {
    exists j :: j in t.jobs && MessageDelivery.Owner(t.jobs[j]) == d
  }

  /** After propagation a dependent reflects its prerequisite: it is still
      waiting only while the prerequisite is unresolved; once the
      prerequisite is complete it has left `waiting` (it is ready, or has run,
      unless it was canceled by hand); once the prerequisite is canceled it
      is canceled; and as long as the prerequisite is not complete it has no
      queued job and has not run. */
  lemma Reflects(t: Tables, d: OrchId)
    requires Consistent(t) && d in t.states
    ensures d in t.prerequisites && Refs(t.prerequisites[d]) <= t.states.Keys
    ensures var p := t.prerequisites[d];
      && (t.states[d] == Waiting ==> !IsComplete(p, t.states) && !IsCanceled(p, t.states))
      && (IsComplete(p, t.states) ==> t.states[d] != Waiting && t.interests[d] != Dependency.Canceled)
      && (IsCanceled(p, t.states) ==> t.states[d] == Canceled)
      && (!IsComplete(p, t.states) ==>
            (t.states[d] == Waiting || t.states[d] == Canceled) && !HasJob(t, d))
  {
    assert OrchOk(t, d);
    var p := t.prerequisites[d];
    CompleteExcludesCanceled(p, t.states);
    JobsOfReady(t, d);
  }

  /** A ready orchestration has its job queued. */
  lemma ReadyIsQueued(t: Tables, d: OrchId)
    requires Consistent(t) && d in t.states
    ensures t.states[d] == Ready ==> HasJob(t, d)
  {
    assert OrchOk(t, d);
    if t.states[d] == Ready {
      JobsOfReady(t, d);
    }
  }

  /** The answers of a composite over two wrapped orchestrations. */
  lemma PairAnswers(a: OrchId, b: OrchId, st: map<OrchId, State>)
    requires a in st && b in st
    ensures var cs := [OrchestrationCompletion(a), OrchestrationCompletion(b)];
      && Refs(LastCompletion(cs)) == {a, b} && Refs(FirstCompletion(cs)) == {a, b}
      && (IsComplete(FirstCompletion(cs), st) <==> IsCompleteState(st[a]) || IsCompleteState(st[b]))
      && (IsComplete(LastCompletion(cs), st) <==> IsCompleteState(st[a]) && IsCompleteState(st[b]))
      && (IsCanceled(FirstCompletion(cs), st) <==> st[a] == Canceled && st[b] == Canceled)
      && (IsCanceled(LastCompletion(cs), st) <==> st[a] == Canceled || st[b] == Canceled)
  {
    var cs := [OrchestrationCompletion(a), OrchestrationCompletion(b)];
    assert cs[0] == OrchestrationCompletion(a) && cs[1] == OrchestrationCompletion(b);
    assert Refs(cs[0]) == {a} && Refs(cs[1]) == {b};
    assert Refs(LastCompletion(cs)) == {a, b} by {
      forall r | r in Refs(LastCompletion(cs)) ensures r in {a, b} {
        var i :| 0 <= i < |cs| && r in Refs(cs[i]);
      }
      assert a in Refs(cs[0]) && b in Refs(cs[1]);
    }
    assert Refs(FirstCompletion(cs)) == {a, b} by {
      forall r | r in Refs(FirstCompletion(cs)) ensures r in {a, b} {
        var i :| 0 <= i < |cs| && r in Refs(cs[i]);
      }
      assert a in Refs(cs[0]) && b in Refs(cs[1]);
    }
  }

  /** A `FirstCompletion` over two orchestrations: once either one has
      succeeded (or failed), the dependent is no longer waiting, and unless
      it was canceled by hand it is ready with its job queued or has already
      run; while neither has, it has no job. */
  lemma {:induction false} FirstCompletionRunsAfterEither(t: Tables, d: OrchId, a: OrchId, b: OrchId)
    requires Consistent(t) && d in t.states && a in t.states && b in t.states
    requires t.prerequisites[d]
               == FirstCompletion([OrchestrationCompletion(a), OrchestrationCompletion(b)])
    ensures IsCompleteState(t.states[a]) || IsCompleteState(t.states[b]) ==>
              && t.states[d] != Waiting && t.interests[d] != Dependency.Canceled
              && (t.states[d] != Canceled ==>
                    (t.states[d] == Ready && HasJob(t, d)) || IsCompleteState(t.states[d]))
    ensures !IsCompleteState(t.states[a]) && !IsCompleteState(t.states[b]) ==> !HasJob(t, d)
  {
    PairAnswers(a, b, t.states);
    Reflects(t, d);
    ReadyIsQueued(t, d);
  }

  /** A `LastCompletion` over two orchestrations: the dependent has no job
      and has not run until both have succeeded (or failed); once both have,
      it is no longer waiting, and unless it was canceled by hand it is ready
      with its job queued or has already run. */
  lemma {:induction false} LastCompletionRunsAfterBoth(t: Tables, d: OrchId, a: OrchId, b: OrchId)
    requires Consistent(t) && d in t.states && a in t.states && b in t.states
    requires t.prerequisites[d]
               == LastCompletion([OrchestrationCompletion(a), OrchestrationCompletion(b)])
    ensures !IsCompleteState(t.states[a]) || !IsCompleteState(t.states[b]) ==>
              (t.states[d] == Waiting || t.states[d] == Canceled) && !HasJob(t, d)
    ensures IsCompleteState(t.states[a]) && IsCompleteState(t.states[b]) ==>
              && t.states[d] != Waiting && t.interests[d] != Dependency.Canceled
              && (t.states[d] != Canceled ==>
                    (t.states[d] == Ready && HasJob(t, d)) || IsCompleteState(t.states[d]))
  {
    PairAnswers(a, b, t.states);
    Reflects(t, d);
    ReadyIsQueued(t, d);
  }

  /** Canceling a direct prerequisite cancels the dependent. */
  lemma {:induction false} DirectCancellation(t: Tables, d: OrchId, a: OrchId)
    requires Consistent(t) && d in t.states && a in t.states
    requires t.prerequisites[d] == OrchestrationCompletion(a)
    ensures t.states[a] == Canceled ==> t.states[d] == Canceled && !HasJob(t, d)
  {
    Reflects(t, d);
  }

  /** Canceling either prerequisite of a `LastCompletion` cancels the
      dependent. */
  lemma {:induction false} LastCompletionCanceledByEither(t: Tables, d: OrchId, a: OrchId, b: OrchId)
    requires Consistent(t) && d in t.states && a in t.states && b in t.states
    requires t.prerequisites[d]
               == LastCompletion([OrchestrationCompletion(a), OrchestrationCompletion(b)])
    ensures t.states[a] == Canceled || t.states[b] == Canceled ==>
              t.states[d] == Canceled && !HasJob(t, d)
  {
    PairAnswers(a, b, t.states);
    Reflects(t, d);
  }

  /** Behind a `FirstCompletion` one canceled prerequisite does not cancel
      the dependent through its edge (and while the other one is still
      waiting or ready, a dependent that was not canceled by hand keeps
      waiting); canceling both does cancel it. */
  lemma {:induction false} FirstCompletionCanceledByBoth(t: Tables, d: OrchId, a: OrchId, b: OrchId)
    requires Consistent(t) && d in t.states && a in t.states && b in t.states
    requires t.prerequisites[d]
               == FirstCompletion([OrchestrationCompletion(a), OrchestrationCompletion(b)])
    ensures t.states[a] == Canceled && (t.states[b] == Waiting || t.states[b] == Ready) ==>
              t.interests[d] != Dependency.Canceled
              && (t.states[d] == Waiting || t.states[d] == Canceled)
    ensures t.states[a] == Canceled && t.states[b] == Canceled ==> t.states[d] == Canceled
  {
    PairAnswers(a, b, t.states);
    Reflects(t, d);
    assert OrchOk(t, d);
  }
}
