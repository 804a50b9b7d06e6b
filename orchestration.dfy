/** Orchestrations, their dependency edges and the delayed-job table
    (lib/orchestrated/orchestration.rb, with the edges of
    lib/orchestrated/dependency.rb), held in memory as maps keyed by id.

    The tables are described twice: as the value `Tables`, on which the
    invariant and the effect of every operation are pure definitions with
    lemmas about them, and as the fields of the class `Engine`, whose methods
    update them in place and are proved against those definitions. */
module Orchestration {
  import opened Wrappers
  import opened Values
  import opened OrchestrationState
  import opened Completion
  import Dependency
  import MessageDelivery

  type JobId = nat

  /** The scheduled call: target, method name and argument list, never
      interpreted by the engine. */
  datatype Handler = Handler(value: Value, sym: Value, args: Value)

  datatype Error = PrerequisiteNeverComplete | InvalidTransition

  /** What the before-transition hook of `ready` demands of a handler: the
      constructor of the delivery takes only truthy arguments. */
  predicate Deliverable(h: Handler) {
    Truthy(h.value) && Truthy(h.sym) && Truthy(h.args)
  }

  /** The delivery `enqueue` hands to the queue for orchestration `id`. */
  function DeliveryFor(h: Handler, id: OrchId): (d: MessageDelivery.Delivery)
    requires Deliverable(h)
    ensures MessageDelivery.New(h.value, h.sym, h.args, Int(id)) == Ok(d)
    ensures MessageDelivery.Owner(d) == id
  {
    MessageDelivery.Delivery(h.value, h.sym, h.args, Int(id))
  }

  /** The event a dependency edge's call raises on its dependent. */
  function EventOf(call: Dependency.DependentCall): Event {
    match call
    case CallPrerequisiteComplete => PrerequisiteComplete
    case CallPrerequisiteCanceled => PrerequisiteCanceled
  }

  // ---------------------------------------------------------------------
  // The tables as a value

  datatype Tables = Tables(
    states: map<OrchId, State>,
    handlers: map<OrchId, Handler>,
    delayedJobs: map<OrchId, JobId>,               // `delayed_job`, once set (never cleared)
    prerequisites: map<OrchId, Expr>,
    interests: map<OrchId, Dependency.EdgeState>,  // the edge to the prerequisite
    jobs: map<JobId, MessageDelivery.Delivery>,    // the delayed-job table
    nextOrchId: OrchId,
    nextJobId: JobId)

  /** The invariant of one orchestration: ids are allocated monotonically;
      its prerequisite refers only to orchestrations created before it (the
      graph is acyclic by construction); it has a queued job exactly while it
      is ready, and that job delivers its handler; and its edge agrees with
      its state (a waiting one has an incomplete edge; a ready, succeeded or
      failed one a complete edge, whose prerequisite is complete; a canceled
      edge canceled its dependent, and its prerequisite is canceled). */
  ghost predicate OrchOk(t: Tables, id: OrchId) {
    && id in t.states && id in t.handlers && id in t.prerequisites && id in t.interests
    && id < t.nextOrchId
    && Deliverable(t.handlers[id])
    && Refs(t.prerequisites[id]) <= t.states.Keys
    && (forall r :: r in Refs(t.prerequisites[id]) ==> r < id)
    && (id in t.delayedJobs ==> t.delayedJobs[id] < t.nextJobId)
    && (t.states[id] == Ready <==> id in t.delayedJobs && t.delayedJobs[id] in t.jobs)
    && (t.states[id] == Ready ==> t.jobs[t.delayedJobs[id]] == DeliveryFor(t.handlers[id], id))
    && (t.states[id] == Waiting ==> t.interests[id] == Dependency.Incomplete)
    && (t.states[id] == Ready || IsCompleteState(t.states[id]) ==>
          t.interests[id] == Dependency.Complete)
    && (t.interests[id] == Dependency.Complete ==> IsComplete(t.prerequisites[id], t.states))
    && (t.interests[id] == Dependency.Canceled ==>
          t.states[id] == Canceled && IsCanceled(t.prerequisites[id], t.states))
  }

  /** A queued job belongs to the orchestration whose `delayed_job` it is. */
  ghost predicate JobOk(t: Tables, j: JobId) {
    && j in t.jobs && j < t.nextJobId
    && var k := MessageDelivery.Owner(t.jobs[j]);
       k >= 0 && k in t.delayedJobs && t.delayedJobs[k] == j
  }

  ghost predicate Inv(t: Tables) {
    && t.handlers.Keys == t.states.Keys
    && t.prerequisites.Keys == t.states.Keys
    && t.interests.Keys == t.states.Keys
    && t.delayedJobs.Keys <= t.states.Keys
    && (forall id :: id in t.prerequisites ==> Refs(t.prerequisites[id]) <= t.states.Keys)
    && (forall id :: id in t.states ==> id < t.nextOrchId)
    && (forall j :: j in t.jobs ==> j < t.nextJobId)
    && (forall id {:trigger OrchOk(t, id)} :: id in t.states ==> OrchOk(t, id))
    && (forall j {:trigger JobOk(t, j)} :: j in t.jobs ==> JobOk(t, j))
  }

  /** Whether the prerequisite of `id` has resolved, one way or the other. */
  function Resolved(t: Tables, id: OrchId): bool
    requires id in t.prerequisites && Refs(t.prerequisites[id]) <= t.states.Keys
  {
    IsComplete(t.prerequisites[id], t.states) || IsCanceled(t.prerequisites[id], t.states)
  }

  /** No edge is left to fire: every incomplete edge still waits for a
      prerequisite that is neither complete nor canceled. */
  ghost predicate Settled(t: Tables)
    requires Inv(t)
  {
    forall id :: id in t.states && t.interests[id] == Dependency.Incomplete ==> !Resolved(t, id)
  }

  /** The tables between two operations: consistent, and settled. */
  ghost predicate Consistent(t: Tables) {
    Inv(t) && Settled(t)
  }

  /** Since the snapshot `before`, the only changes are propagation: a
      waiting orchestration became ready because its prerequisite is
      complete, or canceled because its prerequisite is canceled. */
  ghost predicate Cascaded(before: map<OrchId, State>, t: Tables)
    requires Inv(t)
  {
    && t.states.Keys == before.Keys
    && forall id :: id in before && t.states[id] != before[id] ==>
         && before[id] == Waiting
         && ((t.states[id] == Ready && IsComplete(t.prerequisites[id], t.states))
             || (t.states[id] == Canceled && IsCanceled(t.prerequisites[id], t.states)))
  }

  /** The weaker form of `Cascaded` that a single firing keeps. */
  ghost predicate Moved(before: map<OrchId, State>, t: Tables)
    requires t.states.Keys <= t.interests.Keys
  {
    && t.states.Keys == before.Keys
    && forall id :: id in before && t.states[id] != before[id] ==>
         && before[id] == Waiting
         && (t.states[id] == Ready
             || (t.states[id] == Canceled && t.interests[id] == Dependency.Canceled))
  }

  /** Since the snapshot `before` of the states and `dj` of the recorded
      `delayed_job`s, the record changed only for orchestrations that went
      from waiting to ready, and each of those records a job numbered from
      `floor` on. */
  ghost predicate RecordsKept(before: map<OrchId, State>, dj: map<OrchId, JobId>, floor: JobId,
                              t: Tables) {
    forall id :: id in before && id in t.states ==>
      if before[id] == Waiting && t.states[id] == Ready then
        id in t.delayedJobs && t.delayedJobs[id] >= floor
      else
        (id in t.delayedJobs <==> id in dj) && (id in dj ==> t.delayedJobs[id] == dj[id])
  }

  /** Every job of `before` is still queued, unchanged. */
  ghost predicate KeptJobs(before: map<JobId, MessageDelivery.Delivery>,
                           after: map<JobId, MessageDelivery.Delivery>) {
    forall j :: j in before ==> j in after && after[j] == before[j]
  }

  /** The jobs that do not deliver for `id`. */
  function JobsNotOf(jobs: map<JobId, MessageDelivery.Delivery>, id: OrchId)
    : map<JobId, MessageDelivery.Delivery>
  {
    map j | j in jobs && MessageDelivery.Owner(jobs[j]) != id :: jobs[j]
  }

  ghost function IncompleteEdges(t: Tables): set<OrchId> {
    set id | id in t.interests && t.interests[id] == Dependency.Incomplete
  }

  // ---------------------------------------------------------------------
  // The operations as functions of the tables

  /** What `fire` demands to run the before hooks: a deliverable handler,
      and a recorded job for a ready orchestration. */
  predicate CanFire(t: Tables, id: OrchId) {
    && id in t.states && id in t.handlers && Deliverable(t.handlers[id])
    && (t.states[id] == Ready ==> id in t.delayedJobs)
  }

  /** `enqueue`: a new job delivering the handler, recorded as `delayed_job`. */
  function Enqueued(t: Tables, id: OrchId): Tables
    requires id in t.handlers && Deliverable(t.handlers[id])
  {
    t.(jobs := t.jobs[t.nextJobId := DeliveryFor(t.handlers[id], id)],
       delayedJobs := t.delayedJobs[id := t.nextJobId],
       nextJobId := t.nextJobId + 1)
  }

  /** `dequeue`: the recorded job destroyed. */
  function Dequeued(t: Tables, id: OrchId): Tables
    requires id in t.delayedJobs
  {
    t.(jobs := t.jobs - {t.delayedJobs[id]})
  }

  /** A state-machine event with its before hooks (entering `ready` enqueues,
      `ready` to `canceled` dequeues); illegal events change nothing. The after
      hooks are the propagation of `Engine.Propagate`. */
  function Fired(t: Tables, id: OrchId, ev: Event): Tables
    requires CanFire(t, id)
  {
    var s := t.states[id];
    match Next(s, ev)
    case None => t
    case Some(n) =>
      var t1 := if n == Ready then Enqueued(t, id) else t;
      var t2 := if s == Ready && n == Canceled then Dequeued(t1, id) else t1;
      t2.(states := t2.states[id := n])
  }

  /** `Fired` runs the before hooks of the transition table `Hooks`: it
      enqueues exactly when the table lists `Enqueue`, then dequeues
      exactly when it lists `Dequeue`, then sets the new state; an illegal
      event runs no hook. */
  lemma FiredRunsHooks(t: Tables, id: OrchId, ev: Event)
    requires CanFire(t, id)
    ensures Next(t.states[id], ev).None? ==> Fired(t, id, ev) == t
    ensures Next(t.states[id], ev).Some? ==>
      var s := t.states[id];
      var hs := Hooks(s, Next(s, ev).value);
      var t1 := if Enqueue in hs then Enqueued(t, id) else t;
      && (Dequeue in hs ==> s == Ready && id in t1.delayedJobs)
      && Fired(t, id, ev) ==
           var t2 := if Dequeue in hs then Dequeued(t1, id) else t1;
           t2.(states := t2.states[id := Next(s, ev).value])
  {
    var s := t.states[id];
    if Next(s, ev).Some? {
      HooksTable(s, ev, Next(s, ev).value);
    }
  }

  /** The edge of `id` receives `ev`; on a legal edge transition it records
      its new state and calls its dependent with a non-raising event. */
  function DependencyFired(t: Tables, id: OrchId, ev: Dependency.EdgeEvent): Tables
    requires id in t.interests && CanFire(t, id)
  {
    match Dependency.Step(t.interests[id], ev)
    case None => t
    case Some(p) => Fired(t.(interests := t.interests[id := p.0]), id, EventOf(p.1))
  }

  /** The records `create` saves: a waiting orchestration with the next id
      and an incomplete edge to its prerequisite. */
  function Added(t: Tables, h: Handler, p: Expr): Tables {
    var n := t.nextOrchId;
    t.(states := t.states[n := Waiting],
       handlers := t.handlers[n := h],
       prerequisites := t.prerequisites[n := p],
       interests := t.interests[n := Dependency.Incomplete],
       nextOrchId := n + 1)
  }

  /** `create` past its static check: the records saved, then the new edge
      fired at once when the prerequisite has already resolved. */
  function Created(t: Tables, h: Handler, p: Expr): Tables
    requires Refs(p) <= t.states.Keys && Deliverable(h)
  {
    var a := Added(t, h, p);
    var n := t.nextOrchId;
    if IsComplete(p, a.states) then DependencyFired(a, n, Dependency.PrerequisiteCompleted)
    else if IsCanceled(p, a.states) then DependencyFired(a, n, Dependency.PrerequisiteCanceled)
    else a
  }

  /** The orchestration job `j` delivers for. */
  function OwnerOf(t: Tables, j: JobId): OrchId
    requires Inv(t) && j in t.jobs
  {
    assert JobOk(t, j);
    MessageDelivery.Owner(t.jobs[j])
  }

  /** The end of a delivery: `message_delivery_succeeded` (or `_failed`) on
      the owner, then the queue discards the job. */
  function Delivered(t: Tables, j: JobId, succeeded: bool): Tables
    requires Inv(t) && j in t.jobs
  {
    var k := OwnerOf(t, j);
    assert JobOk(t, j) && OrchOk(t, k);
    var r := Fired(t, k, if succeeded then MessageDeliverySucceeded else MessageDeliveryFailed);
    r.(jobs := r.jobs - {j})
  }

  // ---------------------------------------------------------------------
  // Lemmas: what the invariant gives

  /** A ready orchestration has its job recorded, so the before hooks can run. */
  lemma InvCanFire(t: Tables, id: OrchId)
    requires Inv(t) && id in t.states
    ensures CanFire(t, id) && id in t.interests && id in t.prerequisites
    ensures Refs(t.prerequisites[id]) <= t.states.Keys
  {
    assert OrchOk(t, id);
  }

  /** A queued job is the one job of a ready orchestration, so jobs and
      ready orchestrations are in one-to-one correspondence. */
  lemma {:induction false} JobsOfReady(t: Tables, id: OrchId)
    requires Inv(t) && id in t.states
    ensures forall j :: j in t.jobs && MessageDelivery.Owner(t.jobs[j]) == id ==>
              t.states[id] == Ready && id in t.delayedJobs && t.delayedJobs[id] == j
    ensures t.states[id] == Ready ==>
              exists j :: j in t.jobs && MessageDelivery.Owner(t.jobs[j]) == id
  {
    assert OrchOk(t, id);
    forall j | j in t.jobs && MessageDelivery.Owner(t.jobs[j]) == id
      ensures t.states[id] == Ready && id in t.delayedJobs && t.delayedJobs[id] == j
    {
      assert JobOk(t, j);
    }
    if t.states[id] == Ready {
      var j := t.delayedJobs[id];
      assert MessageDelivery.Owner(t.jobs[j]) == id;
    }
  }

  /** The orchestrations other than `id` keep their invariant when every
      change happens at `id`, no terminal state changes, and the job table
      gains only fresh jobs and loses none of theirs. */
  lemma OthersKeepInvariant(t: Tables, r: Tables, id: OrchId)
    requires Inv(t) && OnlyAt(t, r, id)
    ensures forall k :: k in t.states && k != id ==> OrchOk(r, k)
    ensures forall j :: j in t.jobs && MessageDelivery.Owner(t.jobs[j]) != id ==> JobOk(r, j)
  {
    forall k | k in t.states && k != id
      ensures OrchOk(r, k)
    {
      assert OrchOk(t, k);
      var p := t.prerequisites[k];
      Monotone(p, t.states, r.states);
      if t.states[k] == Ready {
        assert JobOk(t, t.delayedJobs[k]);
      }
      if k in t.delayedJobs && t.delayedJobs[k] in r.jobs {
        assert t.delayedJobs[k] in t.jobs;
        assert JobOk(t, t.delayedJobs[k]);
      }
    }
    forall j | j in t.jobs && MessageDelivery.Owner(t.jobs[j]) != id
      ensures JobOk(r, j)
    {
      assert JobOk(t, j);
    }
  }

  // ---------------------------------------------------------------------
  // Lemmas: each operation keeps the invariant

  /** The state an edge takes on its one legal transition. */
  function EdgeAfter(ev: Dependency.EdgeEvent): Dependency.EdgeState {
    match ev
    case PrerequisiteCompleted => Dependency.Complete
    case PrerequisiteCanceled => Dependency.Canceled
  }

  /** `r` differs from `t` only at orchestration `id` (which may be new):
      no terminal state changed, and the job table gained only fresh jobs and
      lost only jobs of `id`. */
  ghost predicate OnlyAt(t: Tables, r: Tables, id: OrchId) {
    && KeysAt(t, r, id)
    && Later(t.states, r.states)
    && r.nextOrchId >= t.nextOrchId && r.nextJobId >= t.nextJobId
    && SameElsewhere(t, r, id)
    && JobsAt(t, r.jobs, id)
  }

  /** `r` has the orchestrations of `t` and `id`, with every column filled. */
  ghost predicate KeysAt(t: Tables, r: Tables, id: OrchId) {
    && r.states.Keys == t.states.Keys + {id}
    && r.handlers.Keys == r.states.Keys && r.prerequisites.Keys == r.states.Keys
    && r.interests.Keys == r.states.Keys && r.delayedJobs.Keys <= r.states.Keys
  }

  /** Every orchestration of `t` other than `id` has the same row in `r`. */
  ghost predicate SameElsewhere(t: Tables, r: Tables, id: OrchId)
    requires KeysAt(t, r, id)
  {
    forall k :: k in t.states && k != id ==>
      && r.states[k] == t.states[k]
      && k in t.handlers && r.handlers[k] == t.handlers[k]
      && k in t.prerequisites && r.prerequisites[k] == t.prerequisites[k]
      && k in t.interests && r.interests[k] == t.interests[k]
      && (k in r.delayedJobs <==> k in t.delayedJobs)
      && (k in t.delayedJobs ==> r.delayedJobs[k] == t.delayedJobs[k])
  }

  /** The job table `jobs` gained only fresh jobs and lost only jobs of `id`. */
  ghost predicate JobsAt(t: Tables, jobs: map<JobId, MessageDelivery.Delivery>, id: OrchId) {
    && (forall j :: j in t.jobs && MessageDelivery.Owner(t.jobs[j]) != id ==>
          j in jobs && jobs[j] == t.jobs[j])
    && (forall j :: j in jobs && j !in t.jobs ==> j >= t.nextJobId)
  }

  /** The invariant is rebuilt from the one orchestration `id` that changed
      and the jobs that are new or deliver for it. */
  lemma InvariantAt(t: Tables, r: Tables, id: OrchId)
    requires Inv(t) && OnlyAt(t, r, id)
    requires OrchOk(r, id)
    requires forall j :: j in r.jobs && (j !in t.jobs || MessageDelivery.Owner(t.jobs[j]) == id) ==>
               JobOk(r, j)
    ensures Inv(r)
  {
    OthersKeepInvariant(t, r, id);
    forall j | j in r.jobs
      ensures JobOk(r, j)
    {
      if j in t.jobs && MessageDelivery.Owner(t.jobs[j]) != id {
      }
    }
    forall k | k in r.states
      ensures OrchOk(r, k)
    {
      if k != id {
      }
    }
    InvFromParts(r);
  }

  /** The invariant from its per-orchestration and per-job parts. */
  lemma InvFromParts(r: Tables)
    requires r.handlers.Keys == r.states.Keys && r.prerequisites.Keys == r.states.Keys
    requires r.interests.Keys == r.states.Keys && r.delayedJobs.Keys <= r.states.Keys
    requires forall k :: k in r.states ==> OrchOk(r, k)
    requires forall j :: j in r.jobs ==> JobOk(r, j)
    ensures Inv(r)
  {
    forall k | k in r.prerequisites
      ensures Refs(r.prerequisites[k]) <= r.states.Keys && k < r.nextOrchId
    {
      assert OrchOk(r, k);
    }
    forall j | j in r.jobs
      ensures j < r.nextJobId
    {
      assert JobOk(r, j);
    }
  }

  /** An incomplete edge of a canceled orchestration (one canceled by hand)
      still fires, but its dependent rejects the event. */
  lemma FiredOnCanceled(t: Tables, id: OrchId, ev: Dependency.EdgeEvent)
    requires id in t.interests && CanFire(t, id)
    requires t.interests[id] == Dependency.Incomplete && t.states[id] == Canceled
    ensures DependencyFired(t, id, ev) == Mark(t, id, Canceled, EdgeAfter(ev))
  {
  }

  /** On a waiting orchestration the edge's call is accepted: completion
      readies it and queues its job, cancellation cancels it and leaves the
      queue alone. */
  lemma FiredOnWaiting(t: Tables, id: OrchId, ev: Dependency.EdgeEvent)
    requires id in t.interests && CanFire(t, id)
    requires t.interests[id] == Dependency.Incomplete && t.states[id] == Waiting
    ensures ev == Dependency.PrerequisiteCompleted ==>
              DependencyFired(t, id, ev) == Mark(Enqueued(t, id), id, Ready, Dependency.Complete)
    ensures ev == Dependency.PrerequisiteCanceled ==>
              DependencyFired(t, id, ev) == Mark(t, id, Canceled, Dependency.Canceled)
  {
  }

  /** The orchestration `id` in state `s` with its edge in state `e`. */
  function Mark(t: Tables, id: OrchId, s: State, e: Dependency.EdgeState): Tables {
    t.(states := t.states[id := s], interests := t.interests[id := e])
  }

  lemma SelfOnlyAt(t: Tables, id: OrchId)
    requires Inv(t) && id in t.states
    ensures OnlyAt(t, t, id)
  {
  }

  lemma EnqueuedOnlyAt(t: Tables, id: OrchId)
    requires Inv(t) && id in t.states
    ensures id in t.handlers && Deliverable(t.handlers[id])
    ensures OnlyAt(t, Enqueued(t, id), id)
  {
    assert OrchOk(t, id);
  }

  lemma DequeuedOnlyAt(t: Tables, id: OrchId)
    requires Inv(t) && id in t.states && id in t.delayedJobs
    ensures OnlyAt(t, Dequeued(t, id), id)
  {
    var r := Dequeued(t, id);
    assert OrchOk(t, id);
    forall j | j in t.jobs && MessageDelivery.Owner(t.jobs[j]) != id
      ensures j in r.jobs && r.jobs[j] == t.jobs[j]
    {
      assert JobOk(t, j);
    }
  }

  /** Moving a non-terminal `id` on keeps every other orchestration as it was. */
  lemma MarkOnlyAt(t: Tables, u: Tables, id: OrchId, s: State, e: Dependency.EdgeState)
    requires id in t.states && OnlyAt(t, u, id)
    requires u.states == t.states && u.interests == t.interests
    requires !IsTerminal(t.states[id]) || s == t.states[id]
    ensures OnlyAt(t, Mark(u, id, s, e), id)
  {
    var r := Mark(u, id, s, e);
    assert r.jobs == u.jobs;
    if s != t.states[id] {
      StepIsLater(t.states, id, s);
    } else {
      assert r.states == t.states;
    }
    MarkKeysAt(t, u, id, s, e);
    MarkSameElsewhere(t, u, id, s, e);
  }

  lemma MarkKeysAt(t: Tables, u: Tables, id: OrchId, s: State, e: Dependency.EdgeState)
    requires id in t.states && KeysAt(t, u, id)
    ensures KeysAt(t, Mark(u, id, s, e), id)
  {
    var r := Mark(u, id, s, e);
    assert r.states.Keys == u.states.Keys && r.interests.Keys == u.interests.Keys;
  }

  lemma MarkSameElsewhere(t: Tables, u: Tables, id: OrchId, s: State, e: Dependency.EdgeState)
    requires id in t.states && KeysAt(t, u, id) && SameElsewhere(t, u, id)
    ensures KeysAt(t, Mark(u, id, s, e), id)
    ensures SameElsewhere(t, Mark(u, id, s, e), id)
  {
    MarkKeysAt(t, u, id, s, e);
    var r := Mark(u, id, s, e);
    forall k | k in t.states && k != id
      ensures r.states[k] == u.states[k] && r.interests[k] == u.interests[k]
    {
    }
  }

  /** Recording the edge's new state on a canceled dependent keeps the
      invariant, provided the prerequisite did resolve that way. */
  lemma EdgeOnlyKeepsInvariant(t: Tables, id: OrchId, ev: Dependency.EdgeEvent)
    requires Inv(t) && id in t.states && t.states[id] == Canceled
    requires ev == Dependency.PrerequisiteCompleted ==> IsComplete(t.prerequisites[id], t.states)
    requires ev == Dependency.PrerequisiteCanceled ==> IsCanceled(t.prerequisites[id], t.states)
    ensures Inv(Mark(t, id, Canceled, EdgeAfter(ev)))
  {
    var r := Mark(t, id, Canceled, EdgeAfter(ev));
    assert t.states[id := Canceled] == t.states;
    assert OrchOk(t, id);
    assert OrchOk(r, id);
    SelfOnlyAt(t, id);
    MarkOnlyAt(t, t, id, Canceled, EdgeAfter(ev));
    JobsOfReady(t, id);
    InvariantAt(t, r, id);
  }

  lemma ReadyOk(t: Tables, id: OrchId)
    requires Inv(t) && id in t.states
    requires t.states[id] == Waiting && IsComplete(t.prerequisites[id], t.states)
    ensures id in t.handlers && Deliverable(t.handlers[id])
    ensures OrchOk(Mark(Enqueued(t, id), id, Ready, Dependency.Complete), id)
  {
    assert OrchOk(t, id);
    var r := Mark(Enqueued(t, id), id, Ready, Dependency.Complete);
    StepIsLater(t.states, id, Ready);
    Monotone(t.prerequisites[id], t.states, r.states);
  }

  /** A waiting orchestration whose prerequisite completed becomes ready and
      queues exactly one job; the invariant holds after. */
  lemma ReadyKeepsInvariant(t: Tables, id: OrchId)
    requires Inv(t) && id in t.states
    requires t.states[id] == Waiting && IsComplete(t.prerequisites[id], t.states)
    ensures id in t.handlers && Deliverable(t.handlers[id])
    ensures Inv(Mark(Enqueued(t, id), id, Ready, Dependency.Complete))
  {
    ReadyOk(t, id);
    var r := Mark(Enqueued(t, id), id, Ready, Dependency.Complete);
    EnqueuedOnlyAt(t, id);
    MarkOnlyAt(t, Enqueued(t, id), id, Ready, Dependency.Complete);
    JobsOfReady(t, id);
    assert JobOk(r, t.nextJobId);
    InvariantAt(t, r, id);
  }

  lemma CancelWaitingOk(t: Tables, id: OrchId)
    requires Inv(t) && id in t.states
    requires t.states[id] == Waiting && IsCanceled(t.prerequisites[id], t.states)
    ensures OrchOk(Mark(t, id, Canceled, Dependency.Canceled), id)
  {
    assert OrchOk(t, id);
    var r := Mark(t, id, Canceled, Dependency.Canceled);
    StepIsLater(t.states, id, Canceled);
    Monotone(t.prerequisites[id], t.states, r.states);
  }

  /** A waiting orchestration whose prerequisite was canceled is canceled;
      it had no job, so the invariant holds with the queue unchanged. */
  lemma CancelWaitingKeepsInvariant(t: Tables, id: OrchId)
    requires Inv(t) && id in t.states
    requires t.states[id] == Waiting && IsCanceled(t.prerequisites[id], t.states)
    ensures Inv(Mark(t, id, Canceled, Dependency.Canceled))
  {
    CancelWaitingOk(t, id);
    SelfOnlyAt(t, id);
    MarkOnlyAt(t, t, id, Canceled, Dependency.Canceled);
    JobsOfReady(t, id);
    InvariantAt(t, Mark(t, id, Canceled, Dependency.Canceled), id);
  }

  /** Firing an edge whose prerequisite has resolved the matching way keeps
      the invariant. */
  lemma DependencyFiredKeepsInvariant(t: Tables, id: OrchId, ev: Dependency.EdgeEvent)
    requires Inv(t) && id in t.states
    requires ev == Dependency.PrerequisiteCompleted ==> IsComplete(t.prerequisites[id], t.states)
    requires ev == Dependency.PrerequisiteCanceled ==> IsCanceled(t.prerequisites[id], t.states)
    ensures CanFire(t, id)
    ensures Inv(DependencyFired(t, id, ev))
  {
    InvCanFire(t, id);
    assert OrchOk(t, id);
    if t.interests[id] != Dependency.Incomplete {
    } else if t.states[id] == Canceled {
      FiredOnCanceled(t, id, ev);
      EdgeOnlyKeepsInvariant(t, id, ev);
    } else if ev == Dependency.PrerequisiteCompleted {
      FiredOnWaiting(t, id, ev);
      ReadyKeepsInvariant(t, id);
    } else {
      FiredOnWaiting(t, id, ev);
      CancelWaitingKeepsInvariant(t, id);
    }
  }

  /** What one firing changes: the edge of `id` leaves `incomplete` (a second
      firing is a no-op); its dependent moves from waiting to ready, queueing
      exactly the job that delivers its handler, or to canceled, leaving the
      queue alone; a dependent canceled by hand stays canceled; nothing else
      changes. */
  lemma DependencyFiredEffect(t: Tables, id: OrchId, ev: Dependency.EdgeEvent)
    requires id in t.interests && CanFire(t, id) && t.nextJobId !in t.jobs
    requires t.interests[id] == Dependency.Incomplete ==>
               t.states[id] == Waiting || t.states[id] == Canceled
    ensures var r := DependencyFired(t, id, ev);
      && r.states.Keys == t.states.Keys && r.interests.Keys == t.interests.Keys
      && r.handlers == t.handlers && r.prerequisites == t.prerequisites
      && r.nextOrchId == t.nextOrchId
      && r.interests[id] == (if t.interests[id] == Dependency.Incomplete then EdgeAfter(ev)
                             else t.interests[id])
      && (forall k :: k in t.states && k != id ==> r.states[k] == t.states[k])
      && (forall k :: k in t.interests && k != id ==> r.interests[k] == t.interests[k])
      && KeptJobs(t.jobs, r.jobs)
    ensures var r := DependencyFired(t, id, ev);
      if t.interests[id] == Dependency.Incomplete && t.states[id] == Waiting then
        if ev == Dependency.PrerequisiteCompleted then
          && r.states[id] == Ready
          && r.jobs == t.jobs[t.nextJobId := DeliveryFor(t.handlers[id], id)]
          && r.delayedJobs == t.delayedJobs[id := t.nextJobId]
          && r.nextJobId == t.nextJobId + 1
        else
          && r.states[id] == Canceled && r.jobs == t.jobs
          && r.delayedJobs == t.delayedJobs && r.nextJobId == t.nextJobId
      else
        && r.states == t.states && r.jobs == t.jobs
        && r.delayedJobs == t.delayedJobs && r.nextJobId == t.nextJobId
  {
    if t.interests[id] != Dependency.Incomplete {
    } else if t.states[id] == Canceled {
      FiredOnCanceled(t, id, ev);
    } else {
      FiredOnWaiting(t, id, ev);
    }
  }

  /** The invariant meets the demands of `DependencyFiredEffect`. */
  lemma InvFiresEffect(t: Tables, id: OrchId)
    requires Inv(t) && id in t.states
    ensures id in t.interests && CanFire(t, id) && t.nextJobId !in t.jobs
    ensures t.interests[id] == Dependency.Incomplete ==>
              t.states[id] == Waiting || t.states[id] == Canceled
  {
    assert OrchOk(t, id);
  }

  /** A firing during propagation keeps `Moved`: what changed since `before`
      is still only waiting orchestrations that became ready or were canceled
      through their edge. */
  lemma MovedStep(before: map<OrchId, State>, t: Tables, id: OrchId, ev: Dependency.EdgeEvent)
    requires Inv(t) && id in t.states && Moved(before, t)
    ensures CanFire(t, id)
    ensures var r := DependencyFired(t, id, ev);
      r.states.Keys <= r.interests.Keys && Moved(before, r)
  {
    InvFiresEffect(t, id);
    DependencyFiredEffect(t, id, ev);
    var r := DependencyFired(t, id, ev);
    forall k | k in before && r.states[k] != before[k]
      ensures before[k] == Waiting
      ensures r.states[k] == Ready || (r.states[k] == Canceled && r.interests[k] == Dependency.Canceled)
    {
      if k == id && r.states[k] != t.states[k] {
        assert t.interests[id] == Dependency.Incomplete && t.states[id] == Waiting;
        assert OrchOk(t, id);
      }
    }
  }

  /** A firing during propagation keeps `RecordsKept`: only an orchestration
      that becomes ready records a job, and that job is new. */
  lemma RecordsKeptStep(before: map<OrchId, State>, dj: map<OrchId, JobId>, floor: JobId,
                        t: Tables, id: OrchId, ev: Dependency.EdgeEvent)
    requires Inv(t) && id in t.states && Moved(before, t)
    requires RecordsKept(before, dj, floor, t) && t.nextJobId >= floor
    ensures CanFire(t, id)
    ensures RecordsKept(before, dj, floor, DependencyFired(t, id, ev))
  {
    InvFiresEffect(t, id);
    DependencyFiredEffect(t, id, ev);
    var r := DependencyFired(t, id, ev);
    if t.interests[id] == Dependency.Incomplete && t.states[id] == Waiting
       && ev == Dependency.PrerequisiteCompleted {
      assert before[id] == Waiting;
      RecordsKeptAt(before, dj, floor, t, r, id, true);
    } else {
      RecordsKeptAt(before, dj, floor, t, r, id, false);
    }
  }

  /** `RecordsKept` survives a change at `id` alone: either `id` went from
      waiting to ready and recorded a new job, or no record changed and `id`
      neither became nor stopped being ready. */
  lemma RecordsKeptAt(before: map<OrchId, State>, dj: map<OrchId, JobId>, floor: JobId,
                      t: Tables, r: Tables, id: OrchId, readied: bool)
    requires RecordsKept(before, dj, floor, t) && id in t.states
    requires r.states.Keys == t.states.Keys
    requires forall k :: k in t.states && k != id ==> r.states[k] == t.states[k]
    requires readied ==>
               && id in before && before[id] == Waiting && r.states[id] == Ready
               && r.delayedJobs == t.delayedJobs[id := t.nextJobId] && t.nextJobId >= floor
    requires !readied ==>
               && r.delayedJobs == t.delayedJobs
               && (r.states[id] == t.states[id] || (r.states[id] != Ready && t.states[id] != Ready))
    ensures RecordsKept(before, dj, floor, r)
  {
    forall k | k in before && k in r.states
      ensures if before[k] == Waiting && r.states[k] == Ready then
                k in r.delayedJobs && r.delayedJobs[k] >= floor
              else
                (k in r.delayedJobs <==> k in dj) && (k in dj ==> r.delayedJobs[k] == dj[k])
    {
      assert k in t.states;
    }
  }

  /** The event the edge of `id` receives once its prerequisite resolved. */
  function ResolvedEvent(t: Tables, id: OrchId): Dependency.EdgeEvent
    requires id in t.prerequisites && Refs(t.prerequisites[id]) <= t.states.Keys
  {
    if IsComplete(t.prerequisites[id], t.states) then Dependency.PrerequisiteCompleted
    else Dependency.PrerequisiteCanceled
  }

  /** Firing an edge for good shrinks the set of incomplete edges. */
  lemma EdgesShrink(t: Tables, r: Tables, id: OrchId)
    requires r.interests.Keys == t.interests.Keys && id in t.interests
    requires t.interests[id] == Dependency.Incomplete && r.interests[id] != Dependency.Incomplete
    requires forall k :: k in t.interests && k != id ==> r.interests[k] == t.interests[k]
    ensures IncompleteEdges(r) < IncompleteEdges(t)
  {
    assert id in IncompleteEdges(t) && id !in IncompleteEdges(r);
  }

  /** One round of propagation keeps every loop invariant and fires one
      edge for good. */
  lemma PropagationStep(before: map<OrchId, State>, kept: map<JobId, MessageDelivery.Delivery>,
                        floor: JobId, t: Tables, id: OrchId)
    requires Inv(t) && Moved(before, t) && KeptJobs(kept, t.jobs) && t.nextJobId >= floor
    requires forall j :: j in t.jobs && j !in kept ==> j >= floor
    requires id in t.states && t.interests[id] == Dependency.Incomplete && Resolved(t, id)
    ensures CanFire(t, id)
    ensures var r := DependencyFired(t, id, ResolvedEvent(t, id));
      && Inv(r) && Moved(before, r) && KeptJobs(kept, r.jobs) && r.nextJobId >= floor
      && (forall j :: j in r.jobs && j !in kept ==> j >= floor)
      && IncompleteEdges(r) < IncompleteEdges(t)
  {
    var ev := ResolvedEvent(t, id);
    InvFiresEffect(t, id);
    DependencyFiredKeepsInvariant(t, id, ev);
    DependencyFiredEffect(t, id, ev);
    MovedStep(before, t, id, ev);
    EdgesShrink(t, DependencyFired(t, id, ev), id);
  }

  /** At the end of propagation the weak record of changes is the strong
      one: a readied orchestration's prerequisite is complete, a canceled
      one's is canceled. */
  lemma MovedIsCascaded(before: map<OrchId, State>, t: Tables)
    requires Inv(t) && Moved(before, t)
    ensures Cascaded(before, t)
  {
    forall k | k in before && t.states[k] != before[k]
      ensures (t.states[k] == Ready && IsComplete(t.prerequisites[k], t.states))
              || (t.states[k] == Canceled && IsCanceled(t.prerequisites[k], t.states))
    {
      assert OrchOk(t, k);
    }
  }

  /** Nothing has changed yet. */
  lemma MovedFromSelf(t: Tables)
    requires Inv(t)
    ensures Moved(t.states, t)
  {
  }

  // ---------------------------------------------------------------------
  // Lemmas: `cancel`

  /** `cancel` from waiting or ready: the orchestration is canceled, and a
      ready one's job is destroyed first. */
  lemma FiredCancel(t: Tables, id: OrchId)
    requires CanFire(t, id) && id in t.interests
    requires t.states[id] == Waiting || t.states[id] == Ready
    ensures Fired(t, id, Cancel) ==
              Mark(if t.states[id] == Ready then Dequeued(t, id) else t, id, Canceled, t.interests[id])
  {
    var u := if t.states[id] == Ready then Dequeued(t, id) else t;
    assert u.interests[id := t.interests[id]] == u.interests;
  }

  lemma CancelOk(t: Tables, id: OrchId)
    requires Inv(t) && id in t.states
    requires t.states[id] == Waiting || t.states[id] == Ready
    ensures CanFire(t, id)
    ensures var u := if t.states[id] == Ready then Dequeued(t, id) else t;
      OrchOk(Mark(u, id, Canceled, t.interests[id]), id)
  {
    assert OrchOk(t, id);
    var u := if t.states[id] == Ready then Dequeued(t, id) else t;
    var r := Mark(u, id, Canceled, t.interests[id]);
    StepIsLater(t.states, id, Canceled);
    Monotone(t.prerequisites[id], t.states, r.states);
  }

  /** `cancel!` keeps the invariant; afterwards no job delivers for the
      canceled orchestration. */
  lemma CancelKeepsInvariant(t: Tables, id: OrchId)
    requires Inv(t) && id in t.states
    requires t.states[id] == Waiting || t.states[id] == Ready
    ensures CanFire(t, id)
    ensures Inv(Fired(t, id, Cancel))
  {
    InvCanFire(t, id);
    CancelOk(t, id);
    FiredCancel(t, id);
    var u := if t.states[id] == Ready then Dequeued(t, id) else t;
    if t.states[id] == Ready {
      assert OrchOk(t, id);
      DequeuedOnlyAt(t, id);
    } else {
      SelfOnlyAt(t, id);
    }
    MarkOnlyAt(t, u, id, Canceled, t.interests[id]);
    JobsOfReady(t, id);
    InvariantAt(t, Mark(u, id, Canceled, t.interests[id]), id);
  }

  /** What `cancel!` changes: only the state of `id`, and the queue only by
      the job of a ready orchestration. */
  lemma CancelEffect(t: Tables, id: OrchId)
    requires Inv(t) && id in t.states
    requires t.states[id] == Waiting || t.states[id] == Ready
    ensures CanFire(t, id)
    ensures var r := Fired(t, id, Cancel);
      && r.states == t.states[id := Canceled]
      && r.interests == t.interests && r.handlers == t.handlers
      && r.prerequisites == t.prerequisites && r.nextOrchId == t.nextOrchId
      && r.jobs == JobsNotOf(t.jobs, id)
      && r.delayedJobs == t.delayedJobs && r.nextJobId == t.nextJobId
  {
    InvCanFire(t, id);
    FiredCancel(t, id);
    JobsOfReady(t, id);
    assert OrchOk(t, id);
    var r := Fired(t, id, Cancel);
    if t.states[id] == Ready {
      forall j | j in t.jobs
        ensures j in r.jobs <==> MessageDelivery.Owner(t.jobs[j]) != id
      {
        assert JobOk(t, j);
      }
    }
  }

  // ---------------------------------------------------------------------
  // Lemmas: the end of a delivery

  /** The owner of a queued job is ready, and that job is its `delayed_job`. */
  lemma OwnerIsReady(t: Tables, j: JobId)
    requires Inv(t) && j in t.jobs
    ensures OwnerOf(t, j) in t.states && t.states[OwnerOf(t, j)] == Ready
    ensures OwnerOf(t, j) in t.delayedJobs && t.delayedJobs[OwnerOf(t, j)] == j
  {
    assert JobOk(t, j);
    assert OrchOk(t, OwnerOf(t, j));
  }

  lemma FiredDelivered(t: Tables, j: JobId, succeeded: bool)
    requires Inv(t) && j in t.jobs
    ensures var k := OwnerOf(t, j);
      k in t.interests && Delivered(t, j, succeeded)
        == Mark(t, k, if succeeded then Succeeded else Failed, t.interests[k]).(jobs := t.jobs - {j})
  {
    OwnerIsReady(t, j);
    var k := OwnerOf(t, j);
    assert t.interests[k := t.interests[k]] == t.interests;
  }

  /** The end of a delivery keeps the invariant. */
  lemma DeliveredKeepsInvariant(t: Tables, j: JobId, succeeded: bool)
    requires Inv(t) && j in t.jobs
    ensures Inv(Delivered(t, j, succeeded))
  {
    OwnerIsReady(t, j);
    FiredDelivered(t, j, succeeded);
    var k := OwnerOf(t, j);
    var n := if succeeded then Succeeded else Failed;
    var u := t.(jobs := t.jobs - {j});
    var r := Mark(u, k, n, t.interests[k]);
    assert r == Delivered(t, j, succeeded);
    assert OrchOk(t, k);
    StepIsLater(t.states, k, n);
    Monotone(t.prerequisites[k], t.states, r.states);
    assert OrchOk(r, k);
    forall i | i in t.jobs && MessageDelivery.Owner(t.jobs[i]) != k
      ensures i in u.jobs && u.jobs[i] == t.jobs[i]
    {
      assert JobOk(t, i);
    }
    assert OnlyAt(t, u, k);
    MarkOnlyAt(t, u, k, n, t.interests[k]);
    JobsOfReady(t, k);
    InvariantAt(t, r, k);
  }

  // ---------------------------------------------------------------------
  // Lemmas: `create`

  lemma AddedOnlyAt(t: Tables, h: Handler, p: Expr)
    requires t.handlers.Keys == t.states.Keys && t.prerequisites.Keys == t.states.Keys
    requires t.interests.Keys == t.states.Keys && t.delayedJobs.Keys <= t.states.Keys
    requires t.nextOrchId !in t.states
    ensures OnlyAt(t, Added(t, h, p), t.nextOrchId)
  {
    var n := t.nextOrchId;
    var r := Added(t, h, p);
    assert Later(t.states, r.states);
    assert JobsAt(t, r.jobs, n);
    AddedSameElsewhere(t, h, p);
  }

  lemma AddedSameElsewhere(t: Tables, h: Handler, p: Expr)
    requires t.handlers.Keys == t.states.Keys && t.prerequisites.Keys == t.states.Keys
    requires t.interests.Keys == t.states.Keys && t.delayedJobs.Keys <= t.states.Keys
    requires t.nextOrchId !in t.states
    ensures KeysAt(t, Added(t, h, p), t.nextOrchId)
    ensures SameElsewhere(t, Added(t, h, p), t.nextOrchId)
  {
    var r := Added(t, h, p);
    assert r.states.Keys == t.states.Keys + {t.nextOrchId};
  }

  lemma AddedOk(t: Tables, h: Handler, p: Expr)
    requires Inv(t) && Refs(p) <= t.states.Keys && Deliverable(h)
    ensures OrchOk(Added(t, h, p), t.nextOrchId)
  {
    var n := t.nextOrchId;
    assert n !in t.delayedJobs;
    forall r | r in Refs(p)
      ensures r < n
    {
      assert r in t.states;
    }
  }

  /** The saved records keep the invariant: the new id is fresh and its
      prerequisite refers only to existing, hence older, orchestrations. */
  lemma AddedKeepsInvariant(t: Tables, h: Handler, p: Expr)
    requires Inv(t) && Refs(p) <= t.states.Keys && Deliverable(h)
    ensures Inv(Added(t, h, p))
  {
    var n := t.nextOrchId;
    assert n !in t.states;
    AddedOnlyAt(t, h, p);
    AddedOk(t, h, p);
    forall j | j in t.jobs
      ensures MessageDelivery.Owner(t.jobs[j]) != n
    {
      assert JobOk(t, j);
    }
    InvariantAt(t, Added(t, h, p), n);
  }

  /** `create` past its static check, case by case. */
  lemma CreatedShape(t: Tables, h: Handler, p: Expr)
    requires Refs(p) <= t.states.Keys && Deliverable(h) && t.nextOrchId !in t.states
    ensures var a := Added(t, h, p);
      && IsComplete(p, a.states) == IsComplete(p, t.states)
      && IsCanceled(p, a.states) == IsCanceled(p, t.states)
      && a.handlers[t.nextOrchId] == h
      && Created(t, h, p) ==
           if IsComplete(p, t.states) then
             Mark(Enqueued(a, t.nextOrchId), t.nextOrchId, Ready, Dependency.Complete)
           else if IsCanceled(p, t.states) then
             Mark(a, t.nextOrchId, Canceled, Dependency.Canceled)
           else a
  {
    var n := t.nextOrchId;
    var a := Added(t, h, p);
    Frame(p, t.states, n, Waiting);
    FiredOnWaiting(a, n, Dependency.PrerequisiteCompleted);
    FiredOnWaiting(a, n, Dependency.PrerequisiteCanceled);
  }

  lemma CreatedKeepsInvariant(t: Tables, h: Handler, p: Expr)
    requires Inv(t) && Refs(p) <= t.states.Keys && Deliverable(h)
    ensures Inv(Created(t, h, p))
  {
    var n := t.nextOrchId;
    var a := Added(t, h, p);
    AddedKeepsInvariant(t, h, p);
    Frame(p, t.states, n, Waiting);
    if IsComplete(p, a.states) {
      DependencyFiredKeepsInvariant(a, n, Dependency.PrerequisiteCompleted);
    } else if IsCanceled(p, a.states) {
      DependencyFiredKeepsInvariant(a, n, Dependency.PrerequisiteCanceled);
    }
  }

  /** The fields of a created store, when the prerequisite is already complete. */
  lemma CreatedReady(t: Tables, h: Handler, p: Expr)
    requires Refs(p) <= t.states.Keys && Deliverable(h) && t.nextOrchId !in t.states
    requires IsComplete(p, t.states)
    ensures var r := Created(t, h, p);
      var n := t.nextOrchId;
      && r.states == t.states[n := Ready]
      && r.interests == t.interests[n := Dependency.Complete]
      && r.handlers == t.handlers[n := h] && r.prerequisites == t.prerequisites[n := p]
      && r.nextOrchId == n + 1
      && r.jobs == t.jobs[t.nextJobId := DeliveryFor(h, n)]
      && r.delayedJobs == t.delayedJobs[n := t.nextJobId] && r.nextJobId == t.nextJobId + 1
  {
    CreatedShape(t, h, p);
  }

  /** The fields of a created store, when the prerequisite is already canceled. */
  lemma CreatedCanceled(t: Tables, h: Handler, p: Expr)
    requires Refs(p) <= t.states.Keys && Deliverable(h) && t.nextOrchId !in t.states
    requires !IsComplete(p, t.states) && IsCanceled(p, t.states)
    ensures var r := Created(t, h, p);
      var n := t.nextOrchId;
      && r.states == t.states[n := Canceled]
      && r.interests == t.interests[n := Dependency.Canceled]
      && r.handlers == t.handlers[n := h] && r.prerequisites == t.prerequisites[n := p]
      && r.nextOrchId == n + 1 && r.jobs == t.jobs
      && r.delayedJobs == t.delayedJobs && r.nextJobId == t.nextJobId
  {
    CreatedShape(t, h, p);
  }

  /** The fields of a created store, when the prerequisite is unresolved. */
  lemma CreatedWaiting(t: Tables, h: Handler, p: Expr)
    requires Refs(p) <= t.states.Keys && Deliverable(h) && t.nextOrchId !in t.states
    requires !IsComplete(p, t.states) && !IsCanceled(p, t.states)
    ensures Created(t, h, p) == Added(t, h, p)
  {
    CreatedShape(t, h, p);
  }

  /** What `create` leaves behind: one new orchestration with the next id,
      ready with exactly one queued job when the prerequisite is already
      complete, canceled when it is already canceled, waiting otherwise; no
      other orchestration changes. */
  lemma CreatedEffect(t: Tables, h: Handler, p: Expr)
    requires Refs(p) <= t.states.Keys && Deliverable(h) && t.nextOrchId !in t.states
    ensures var r := Created(t, h, p);
      var n := t.nextOrchId;
      && r.states == t.states[n := r.states[n]]
      && r.interests == t.interests[n := r.interests[n]]
      && r.handlers == t.handlers[n := h] && r.prerequisites == t.prerequisites[n := p]
      && r.nextOrchId == n + 1
      && r.states[n] == (if IsComplete(p, t.states) then Ready
                         else if IsCanceled(p, t.states) then Canceled else Waiting)
      && r.interests[n] == (if IsComplete(p, t.states) then Dependency.Complete
                            else if IsCanceled(p, t.states) then Dependency.Canceled
                            else Dependency.Incomplete)
      && r.jobs == (if IsComplete(p, t.states) then t.jobs[t.nextJobId := DeliveryFor(h, n)]
                    else t.jobs)
      && r.delayedJobs == (if IsComplete(p, t.states) then t.delayedJobs[n := t.nextJobId]
                           else t.delayedJobs)
      && r.nextJobId == (if IsComplete(p, t.states) then t.nextJobId + 1 else t.nextJobId)
  {
    if IsComplete(p, t.states) {
      CreatedReady(t, h, p);
    } else if IsCanceled(p, t.states) {
      CreatedCanceled(t, h, p);
    } else {
      CreatedWaiting(t, h, p);
    }
  }

  /** Adding an orchestration no older prerequisite refers to leaves the
      older edges settled. */
  lemma AddingKeepsSettled(t: Tables, r: Tables, n: OrchId)
    requires Inv(t) && Settled(t) && Inv(r) && n !in t.states && n in r.states
    requires r.states == t.states[n := r.states[n]]
    requires r.interests == t.interests[n := r.interests[n]]
    requires r.prerequisites == t.prerequisites[n := r.prerequisites[n]]
    requires r.interests[n] == Dependency.Incomplete ==> !Resolved(r, n)
    ensures Settled(r)
  {
    forall k | k in r.states && r.interests[k] == Dependency.Incomplete && k != n
      ensures !Resolved(r, k)
    {
      assert OrchOk(t, k);
      Frame(t.prerequisites[k], t.states, n, r.states[n]);
    }
  }

  /** Settling the new edge settles the whole store: no older edge refers to
      the new orchestration, so none of their prerequisites changed. */
  lemma CreatedSettles(t: Tables, h: Handler, p: Expr)
    requires Inv(t) && Settled(t) && Refs(p) <= t.states.Keys && Deliverable(h)
    ensures Inv(Created(t, h, p)) && Settled(Created(t, h, p))
  {
    var n := t.nextOrchId;
    CreatedKeepsInvariant(t, h, p);
    assert n !in t.states;
    CreatedEffect(t, h, p);
    var r := Created(t, h, p);
    if r.interests[n] == Dependency.Incomplete {
      assert !IsComplete(p, t.states) && !IsCanceled(p, t.states);
      assert r.states == t.states[n := Waiting];
      Frame(p, t.states, n, Waiting);
      assert !Resolved(r, n);
    }
    AddingKeepsSettled(t, r, n);
  }

  /** Creating keeps the tables consistent. */
  lemma CreatedConsistent(t: Tables, h: Handler, p: Expr)
    requires Consistent(t) && Refs(p) <= t.states.Keys && Deliverable(h)
    ensures Consistent(Created(t, h, p))
  {
    CreatedSettles(t, h, p);
  }

  /** Terminal states never change, so moving a non-terminal orchestration
      on leaves every answer that held in place. */
  lemma StepIsLater(before: map<OrchId, State>, id: OrchId, t: State)
    requires id in before && !IsTerminal(before[id])
    ensures Later(before, before[id := t])
  {
  }

  // ---------------------------------------------------------------------
  // The tables in place

  class Engine {
    // the orchestrations table
    var states: map<OrchId, State>
    var handlers: map<OrchId, Handler>
    var delayedJobs: map<OrchId, JobId>
    // each orchestration's dependency edge to its prerequisite
    var prerequisites: map<OrchId, Expr>
    var interests: map<OrchId, Dependency.EdgeState>
    // the delayed-job table
    var jobs: map<JobId, MessageDelivery.Delivery>
    var nextOrchId: OrchId
    var nextJobId: JobId
    // what the handlers see: the `orchestration` attribute of target
    // objects, and every call made on them
    var bindings: map<Value, Option<OrchId>>
    var invocations: seq<MessageDelivery.Invocation>

    function Snapshot(): Tables
      reads this`states, this`handlers, this`delayedJobs, this`prerequisites,
            this`interests, this`jobs, this`nextOrchId, this`nextJobId
    {
      Tables(states, handlers, delayedJobs, prerequisites, interests, jobs, nextOrchId, nextJobId)
    }

    /** Between operations the tables are consistent and no edge is left to
        fire. */
    ghost predicate Valid()
      reads this`states, this`handlers, this`delayedJobs, this`prerequisites,
            this`interests, this`jobs, this`nextOrchId, this`nextJobId
    {
      Consistent(Snapshot())
    }

    constructor ()
      ensures Valid()
      ensures Snapshot() == Tables(map[], map[], map[], map[], map[], map[], 0, 0)
      ensures bindings == map[] && invocations == []
    {
      states, handlers, delayedJobs := map[], map[], map[];
      prerequisites, interests := map[], map[];
      jobs, nextOrchId, nextJobId := map[], 0, 0;
      bindings, invocations := map[], [];
    }

    /** `enqueue`: queues a delivery of the handler and records it as the
        orchestration's `delayed_job`. */
    method Enqueue(id: OrchId)
      requires id in handlers && Deliverable(handlers[id])
      modifies this`delayedJobs, this`jobs, this`nextJobId
      ensures Snapshot() == Enqueued(old(Snapshot()), id)
    {
      var h := handlers[id];
      var d := MessageDelivery.New(h.value, h.sym, h.args, Int(id));
      jobs := jobs[nextJobId := d.value];
      delayedJobs := delayedJobs[id := nextJobId];
      nextJobId := nextJobId + 1;
    }

    /** `dequeue`: destroys the recorded job. */
    method Dequeue(id: OrchId)
      requires id in delayedJobs
      modifies this`jobs
      ensures Snapshot() == Dequeued(old(Snapshot()), id)
    {
      jobs := jobs - {delayedJobs[id]};
    }

    /** Fires a state-machine event with its before hooks; `ok` says whether
        the event was legal. */
    method Fire(id: OrchId, ev: Event) returns (ok: bool)
      requires CanFire(Snapshot(), id)
      modifies this`states, this`delayedJobs, this`jobs, this`nextJobId
      ensures ok == Next(old(states[id]), ev).Some?
      ensures Snapshot() == Fired(old(Snapshot()), id, ev)
    {
      var s := states[id];
      var t := Next(s, ev);
      ok := t.Some?;
      if !ok {
        return;
      }
      if t.value == Ready {
        Enqueue(id);
      }
      if s == Ready && t.value == Canceled {
        Dequeue(id);
      }
      states := states[id := t.value];
    }

    /** The row `create!` saves: a waiting orchestration under the next id,
        with its handler, its prerequisite and an incomplete edge. */
    method Save(h: Handler, p: Expr)
      modifies this`states, this`handlers, this`prerequisites, this`interests, this`nextOrchId
      ensures Snapshot() == Added(old(Snapshot()), h, p)
    {
      var n := nextOrchId;
      states := states[n := Waiting];
      handlers := handlers[n := h];
      prerequisites := prerequisites[n := p];
      interests := interests[n := Dependency.Incomplete];
      nextOrchId := n + 1;
    }

    /** The edge of `id` receives `ev`; `ok` says whether the edge took it. */
    method FireDependency(id: OrchId, ev: Dependency.EdgeEvent) returns (ok: bool)
      requires id in interests && CanFire(Snapshot(), id)
      modifies this`states, this`delayedJobs, this`jobs, this`nextJobId, this`interests
      ensures ok == (old(interests[id]) == Dependency.Incomplete)
      ensures Snapshot() == DependencyFired(old(Snapshot()), id, ev)
    {
      var step := Dependency.Step(interests[id], ev);
      if step.None? {
        ok := false;
        return;
      }
      ok := true;
      var (edge, call) := step.value;
      interests := interests[id := edge];
      var _ := Fire(id, EventOf(call));
    }

    /** The after hooks of a transition: every edge whose prerequisite has
        resolved fires, which may resolve further prerequisites, until none
        is left. Only waiting orchestrations move, each to ready with its
        prerequisite complete or to canceled with its prerequisite canceled;
        no queued job is lost, and new jobs take fresh ids. */
    method Propagate()
      requires Inv(Snapshot())
      modifies this`states, this`delayedJobs, this`jobs, this`nextJobId, this`interests
      ensures Inv(Snapshot()) && Settled(Snapshot())
      ensures Cascaded(old(states), Snapshot())
      ensures KeptJobs(old(jobs), jobs)
      ensures nextJobId >= old(nextJobId)
      ensures forall j :: j in jobs && j !in old(jobs) ==> j >= old(nextJobId)
      ensures RecordsKept(old(states), old(delayedJobs), old(nextJobId), Snapshot())
    {
      MovedFromSelf(Snapshot());
      while exists id :: id in states && interests[id] == Dependency.Incomplete && Resolved(Snapshot(), id)
        invariant Inv(Snapshot())
        invariant Moved(old(states), Snapshot())
        invariant KeptJobs(old(jobs), jobs)
        invariant nextJobId >= old(nextJobId)
        invariant forall j :: j in jobs && j !in old(jobs) ==> j >= old(nextJobId)
        invariant RecordsKept(old(states), old(delayedJobs), old(nextJobId), Snapshot())
        decreases IncompleteEdges(Snapshot())
      {
        var id :| id in states && interests[id] == Dependency.Incomplete && Resolved(Snapshot(), id);
        PropagationStep(old(states), old(jobs), old(nextJobId), Snapshot(), id);
        RecordsKeptStep(old(states), old(delayedJobs), old(nextJobId), Snapshot(), id,
                        ResolvedEvent(Snapshot(), id));
        var _ := FireDependency(id, ResolvedEvent(Snapshot(), id));
      }
      MovedIsCascaded(old(states), Snapshot());
    }
 
    /** `Orchestration.create`: rejects a prerequisite that can never
        complete before saving anything; otherwise saves a waiting
        orchestration with the next id and its edge, fires that edge at once
        if the prerequisite has already resolved, and returns the completion
        expression that wraps the new orchestration. */
    method Create(value: Value, sym: Value, args: Value, prerequisite: Expr)
      returns (r: Result<Expr, Error>)
      requires Valid() && Refs(prerequisite) <= states.Keys
      requires Deliverable(Handler(value, sym, args))
      modifies this`states, this`handlers, this`delayedJobs, this`prerequisites,
               this`interests, this`jobs, this`nextOrchId, this`nextJobId
      ensures Valid()
      ensures NeverComplete(prerequisite) ==>
                r == Err(PrerequisiteNeverComplete) && Snapshot() == old(Snapshot())
      ensures !NeverComplete(prerequisite) ==>
                && r == Ok(OrchestrationCompletion(old(nextOrchId)))
                && Snapshot() == Created(old(Snapshot()), Handler(value, sym, args), prerequisite)
    {
      if NeverComplete(prerequisite) {
        return Err(PrerequisiteNeverComplete);
      }
      ghost var t := Snapshot();
      var h := Handler(value, sym, args);
      var n := nextOrchId;
      Save(h, prerequisite);
      AddedKeepsInvariant(t, h, prerequisite);
      InvFiresEffect(Snapshot(), n);
      if IsComplete(prerequisite, states) {
        var _ := FireDependency(n, Dependency.PrerequisiteCompleted);
      } else if IsCanceled(prerequisite, states) {
        var _ := FireDependency(n, Dependency.PrerequisiteCanceled);
      }
      CreatedConsistent(t, h, prerequisite);
      r := Ok(OrchestrationCompletion(n));
    }

    /** `cancel!`: legal only from waiting or ready, otherwise it raises
        InvalidTransition and changes nothing. A ready orchestration's job is
        destroyed first; then the cancellation propagates to dependents. */
    method Cancel(id: OrchId) returns (r: Outcome<Error>)
      requires Valid() && id in states
      modifies this`states, this`delayedJobs, this`jobs, this`nextJobId, this`interests
      ensures Valid()
      ensures r == (if old(states[id]) == Waiting || old(states[id]) == Ready then Pass
                    else Fail(InvalidTransition))
      ensures r.Fail? ==> Snapshot() == old(Snapshot())
      ensures r.Pass? ==>
                && states[id] == Canceled
                && Cascaded(old(states)[id := Canceled], Snapshot())
                && KeptJobs(JobsNotOf(old(jobs), id), jobs)
                && (forall j :: j in jobs ==> MessageDelivery.Owner(jobs[j]) != id)
                && RecordsKept(old(states)[id := Canceled], old(delayedJobs), old(nextJobId),
                               Snapshot())
    {
      var s := states[id];
      if !(s == Waiting || s == Ready) {
        return Fail(InvalidTransition);
      }
      ghost var t := Snapshot();
      InvCanFire(t, id);
      CancelKeepsInvariant(t, id);
      CancelEffect(t, id);
      var _ := Fire(id, Event.Cancel);
      Propagate();
      JobsOfReady(Snapshot(), id);
      r := Pass;
    }

    /** The end of a delivery of job `j`: `message_delivery_succeeded` (or,
        once its attempts are exhausted, `message_delivery_failed`) on its
        orchestration, then the job leaves the queue and the completion
        propagates to dependents. */
    method Conclude(j: JobId, succeeded: bool)
      requires Valid() && j in jobs
      modifies this`states, this`delayedJobs, this`jobs, this`nextJobId, this`interests
      ensures Valid()
      ensures var k := OwnerOf(old(Snapshot()), j);
        && k in states && states[k] == (if succeeded then Succeeded else Failed)
        && Cascaded(old(states)[k := states[k]], Snapshot())
        && RecordsKept(old(states)[k := states[k]], old(delayedJobs), old(nextJobId), Snapshot())
      ensures j !in jobs && KeptJobs(old(jobs) - {j}, jobs)
    {
      ghost var t := Snapshot();
      OwnerIsReady(t, j);
      var k := MessageDelivery.Owner(jobs[j]);
      InvCanFire(t, k);
      var _ := Fire(k, if succeeded then MessageDeliverySucceeded else MessageDeliveryFailed);
      jobs := jobs - {j};
      assert Snapshot() == Delivered(t, j, succeeded);
      DeliveredKeepsInvariant(t, j, succeeded);
      FiredDelivered(t, j, succeeded);
      Propagate();
    }
  }
}
