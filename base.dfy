/** The scheduling entry points of lib/orchestrated/base.rb: the method
    `orchestrated` that `belongs_to` defines on a class, and the `Proxy` it
    returns, whose `method_missing` turns any message into a new
    orchestration instead of sending it. */
module Base {
  import opened Wrappers
  import opened Values
  import opened OrchestrationState
  import opened Completion
  import Orchestration

  /** An argument handed to `orchestrated`: a completion expression, or any
      other Ruby object. */
  datatype Arg = Expression(e: Expr) | Plain(v: Value)

  datatype Error =
    | BlockGiven                     // blocks are not portable across processes
    | NotAPrerequisite(v: Value)     // the argument is no CompletionExpression
    | Rejected(cause: Orchestration.Error)

  /** What `orchestrated` returns: the prerequisite and the object the
      deferred message will be sent to. */
  datatype Proxy = Proxy(prerequisite: Expr, target: Value)

  /** The generated `orchestrated(prerequisite = Complete.new)` on `self`.
      The block check comes first, then the type check. */
  function Orchestrate(self: Value, prerequisite: Option<Arg>, blockGiven: bool)
    : (r: Result<Proxy, Error>)
    ensures blockGiven ==> r == Err(BlockGiven)
    ensures !blockGiven && prerequisite == None ==> r == Ok(Proxy(Complete, self))
    ensures !blockGiven && prerequisite.Some? ==>
              match prerequisite.value
              case Expression(e) => r == Ok(Proxy(e, self))
              case Plain(v) => r == Err(NotAPrerequisite(v))
    ensures r.Ok? ==> r.value.target == self
  {
    if blockGiven then Err(BlockGiven)
    else match prerequisite
      case None => Ok(Proxy(Complete, self))
      case Some(Expression(e)) => Ok(Proxy(e, self))
      case Some(Plain(v)) => Err(NotAPrerequisite(v))
  }

  /** The default prerequisite never stands in the way: a proxy made without
      one schedules a message that is deliverable at once. */
  lemma DefaultProxySchedulesAtOnce(self: Value)
    ensures Orchestrate(self, None, false).Ok?
    ensures var p := Orchestrate(self, None, false).value;
      && AlwaysComplete(p.prerequisite) && !NeverComplete(p.prerequisite)
      && Refs(p.prerequisite) == {}
  {
  }

  /** `Proxy#method_missing(sym, *args)`: refuses a block, otherwise creates
      the orchestration that will send `sym` with `args` to the target. The
      target's method is not invoked here. */
  method Schedule(e: Orchestration.Engine, p: Proxy, sym: string, args: seq<Value>, blockGiven: bool)
    returns (r: Result<Expr, Error>)
    requires e.Valid() && Refs(p.prerequisite) <= e.states.Keys && Truthy(p.target)
    modifies e`states, e`handlers, e`delayedJobs, e`prerequisites,
             e`interests, e`jobs, e`nextOrchId, e`nextJobId
    ensures e.Valid()
    ensures e.invocations == old(e.invocations) && e.bindings == old(e.bindings)
    ensures blockGiven ==> r == Err(BlockGiven) && e.Snapshot() == old(e.Snapshot())
    ensures !blockGiven && NeverComplete(p.prerequisite) ==>
              r == Err(Rejected(Orchestration.PrerequisiteNeverComplete))
              && e.Snapshot() == old(e.Snapshot())
    ensures !blockGiven && !NeverComplete(p.prerequisite) ==>
              var n := old(e.nextOrchId);
              var h := Orchestration.Handler(p.target, Sym(sym), List(args));
              && r == Ok(OrchestrationCompletion(n))
              && e.Snapshot() == Orchestration.Created(old(e.Snapshot()), h, p.prerequisite)
              && n !in old(e.states) && n in e.states && e.handlers[n] == h
              && e.prerequisites[n] == p.prerequisite
              && e.states == old(e.states)[n := e.states[n]]
              && e.states[n] == (if IsComplete(p.prerequisite, old(e.states)) then Ready
                                 else if IsCanceled(p.prerequisite, old(e.states)) then Canceled
                                 else Waiting)
              && (AlwaysComplete(p.prerequisite) ==>
                    && e.states[n] == Ready
                    && e.jobs == old(e.jobs)[old(e.nextJobId) := Orchestration.DeliveryFor(h, n)])
  {
    if blockGiven {
      return Err(BlockGiven);
    }
    ghost var t := e.Snapshot();
    var h := Orchestration.Handler(p.target, Sym(sym), List(args));
    assert t.nextOrchId !in t.states;
    var c := e.Create(p.target, Sym(sym), List(args), p.prerequisite);
    if c.Err? {
      return Err(Rejected(c.error));
    }
    Orchestration.CreatedEffect(t, h, p.prerequisite);
    AlwaysCompleteSound(p.prerequisite, t.states);
    r := Ok(c.value);
  }
}
