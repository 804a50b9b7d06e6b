/** What the delivery queue does with a `MessageDelivery` it dequeues
    (lib/orchestrated/message_delivery.rb:14-28): `perform` binds the target's
    `orchestration` attribute, sends the stored message, clears the binding
    and reports success; `failure`, called once the attempts are exhausted,
    reports failure. Whether the sent message raises is not something the
    model can see, so it is a parameter. */
module DeliveryWorker {
  import opened Wrappers
  import opened Values
  import opened OrchestrationState
  import MessageDelivery
  import Orchestration

  /** The handler raised; the queue keeps the job for another attempt. */
  datatype Error = HandlerRaised

  /** `MessageDelivery#perform` on the queued job `j`. */
  method Perform(e: Orchestration.Engine, j: Orchestration.JobId, raises: bool)
    returns (r: Outcome<Error>)
    requires e.Valid() && j in e.jobs
    modifies e`bindings, e`invocations, e`states, e`delayedJobs, e`jobs,
             e`nextJobId, e`interests
    ensures e.Valid()
    ensures var d := old(e.jobs[j]);
      var k := Orchestration.OwnerOf(old(e.Snapshot()), j);
      && e.invocations == old(e.invocations)
                          + [MessageDelivery.Invocation(d.orchestrated, d.methodName, d.args, Some(k))]
      && (raises ==>
            && r == Fail(HandlerRaised)
            && e.bindings == old(e.bindings)[d.orchestrated := Some(k)]
            && e.Snapshot() == old(e.Snapshot()))
      && (!raises ==>
            && r == Pass
            && e.bindings == old(e.bindings)[d.orchestrated := None]
            && k in e.states && e.states[k] == Succeeded
            && j !in e.jobs
            && (forall i :: i in e.jobs ==> MessageDelivery.Owner(e.jobs[i]) != k)
            && Orchestration.KeptJobs(old(e.jobs) - {j}, e.jobs)
            && Orchestration.Cascaded(old(e.states)[k := Succeeded], e.Snapshot())
            && Orchestration.RecordsKept(old(e.states)[k := Succeeded], old(e.delayedJobs),
                                         old(e.nextJobId), e.Snapshot()))
  {
    ghost var t := e.Snapshot();
    Orchestration.OwnerIsReady(t, j);
    var d := e.jobs[j];
    var k := MessageDelivery.Owner(d);
    e.bindings := e.bindings[d.orchestrated := Some(k)];
    e.invocations := e.invocations + [MessageDelivery.Invocation(d.orchestrated, d.methodName, d.args, Some(k))];
    if raises {
      return Fail(HandlerRaised);
    }
    assert e.bindings[d.orchestrated := None] == old(e.bindings)[d.orchestrated := None];
    Succeed(e, j, d.orchestrated);
    r := Pass;
  }

  /** The rest of `perform` after a normal return: the binding is cleared,
      then the orchestration succeeds and the job is discarded. */
  method Succeed(e: Orchestration.Engine, j: Orchestration.JobId, target: Value)
    requires e.Valid() && j in e.jobs
    modifies e`bindings, e`states, e`delayedJobs, e`jobs, e`nextJobId, e`interests
    ensures e.Valid()
    ensures e.bindings == old(e.bindings)[target := None]
    ensures var k := Orchestration.OwnerOf(old(e.Snapshot()), j);
      && k in e.states && e.states[k] == Succeeded
      && j !in e.jobs
      && (forall i :: i in e.jobs ==> MessageDelivery.Owner(e.jobs[i]) != k)
      && Orchestration.KeptJobs(old(e.jobs) - {j}, e.jobs)
      && Orchestration.Cascaded(old(e.states)[k := Succeeded], e.Snapshot())
      && Orchestration.RecordsKept(old(e.states)[k := Succeeded], old(e.delayedJobs),
                                   old(e.nextJobId), e.Snapshot())
  {
    ghost var k := Orchestration.OwnerOf(e.Snapshot(), j);
    e.bindings := e.bindings[target := None];
    e.Conclude(j, true);
    Orchestration.JobsOfReady(e.Snapshot(), k);
  }

  /** `MessageDelivery#failure` on the queued job `j`: its orchestration
      fails, the job is discarded and nothing is left that would send the
      message again. */
  method Failure(e: Orchestration.Engine, j: Orchestration.JobId)
    requires e.Valid() && j in e.jobs
    modifies e`states, e`delayedJobs, e`jobs, e`nextJobId, e`interests
    ensures e.Valid()
    ensures var k := Orchestration.OwnerOf(old(e.Snapshot()), j);
      && k in e.states && e.states[k] == Failed
      && j !in e.jobs
      && (forall i :: i in e.jobs ==> MessageDelivery.Owner(e.jobs[i]) != k)
      && Orchestration.KeptJobs(old(e.jobs) - {j}, e.jobs)
      && Orchestration.Cascaded(old(e.states)[k := Failed], e.Snapshot())
      && Orchestration.RecordsKept(old(e.states)[k := Failed], old(e.delayedJobs),
                                   old(e.nextJobId), e.Snapshot())
  {
    ghost var k := Orchestration.OwnerOf(e.Snapshot(), j);
    e.Conclude(j, false);
    Orchestration.JobsOfReady(e.Snapshot(), k);
  }
}
