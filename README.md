# orchestrated, modelled in Dafny

This project models the engine of the Ruby library `orchestrated`. The
library defers a method call (an *orchestration*) until a completion
expression over other orchestrations becomes true. It then hands the call
to a delayed-job queue and reports the outcome back. The model covers five
parts of that engine:

- **The completion algebra** (`completion.dfy`, module `Completion`). The
  closed variant type `Complete | Incomplete | LastCompletion (AND) |
  FirstCompletion (OR) | OrchestrationCompletion` is a recursive datatype.
  The four queries `complete?`, `canceled?`, `always_complete?` and
  `never_complete?` are recursive functions. The first two read a map from
  orchestration id to state. The filtering append `<<` (and its synonym `+`)
  is a method on the class `CompositeCompletion`, which holds its child list
  as a field and returns the receiver.
- **The dependency edge** (`dependency.dfy`, module `Dependency`). This is the
  `incomplete / complete / canceled` machine with the call it makes on its
  dependent. In the store each orchestration's edge is a column
  (`Engine.interests`), and `Engine.FireDependency` rewrites it in place.
- **The orchestration state machine** (`orchestration_state.dfy`). It has
  the transition table, the before hooks (enqueue, dequeue) and the after
  hooks (notify the wrapper).
- **The store and the creation protocol** (`orchestration.dfy`, module
  `Orchestration`). The class `Engine` keeps the orchestrations, their edges
  and the delayed-job table as maps keyed by id. Its methods are proved
  against pure functions over the value `Tables`: `create`, `cancel!`,
  `enqueue`, `dequeue`, firing an event, and propagation.
  - Ids are allocated monotonically.
  - A prerequisite may only refer to existing orchestrations, so the
    dependency graph is acyclic by construction.
  - Propagation is a worklist loop. It fires every incomplete edge whose
    prerequisite has resolved, until none is left. It terminates because
    the set of incomplete edges shrinks on each firing.
  - The invariant ties the tables together. An orchestration is `ready`
    exactly while its one queued job exists, and that job delivers its
    handler. An orchestration's edge agrees with its state.
- **The delivery adapter** (`message_delivery.dfy`, `delivery_worker.dfy`).
  This covers the `MessageDelivery` constructor check, `perform` and
  `failure`. Whether the handler raises is a parameter of `Perform`.
- **The scheduling entry points** (`base.dfy`, `underscore.dfy`). These are
  the generated `orchestrated` method, `Proxy#method_missing` and
  `Orchestrated.underscore`. `underscore` is restricted to ASCII.
  `scenarios.dfy` derives the AND/OR propagation and cancellation scenarios
  from the store invariant.

Points where the model follows the code as written:

- `Orchestrated::InstanceMethods` describes the `orchestration` attribute as
  cleared (nil) outside an orchestrated call (lib/orchestrated/object.rb:3-6).
  `perform` resets it only after a normal return, because the reset at
  message_delivery.rb:19 is not in an `ensure`. The model keeps the binding
  set after a raise (`DeliveryWorker.Perform`).
- `complete?` of an orchestration is true in `succeeded` and in `failed`
  (orchestration.rb:27,41-45). A failed prerequisite therefore completes a
  wrapping `OrchestrationCompletion`, and with it a `LastCompletion` or a
  `FirstCompletion` over it.
- The after-transition hooks call `prerequisite_complete` and
  `prerequisite_canceled` on the orchestration's `dependent`
  (orchestration.rb:76-82), an `OrchestrationCompletion`. That class defines
  neither method (completion.rb:55-67), and neither do the composites.
  `OrchestrationInterest`, the edge class orchestration.rb:22 names, is not
  part of this model. Propagation is therefore modelled by its meaning. After
  any change, each waiting orchestration whose prerequisite is now complete
  becomes ready. Each waiting orchestration whose prerequisite is now
  canceled becomes canceled. This repeats until nothing changes.
- A `ready` orchestration's prerequisite can never become canceled, because
  "complete" is monotone and excludes "canceled" (`Completion.Monotone`,
  `Completion.CompleteExcludesCanceled`). So the `ready → canceled`
  transition happens only through `cancel!`.

## Model

| member | source | states |
|---|---|---|
| `Completion.IsComplete` | lib/orchestrated/completion.rb:16-66 | `complete?` per variant: true for `Complete`, false for `Incomplete`, `all?` of the children for `LastCompletion`, `any?` for `FirstCompletion`, and for `OrchestrationCompletion` whether the orchestration succeeded or failed |
| `Completion.IsCanceled` | lib/orchestrated/completion.rb:16-66 | `canceled?` per variant: false for both leaves, `any?` of the children for `LastCompletion`, `all?` for `FirstCompletion`, and for `OrchestrationCompletion` whether the orchestration is canceled |
| `Completion.AlwaysComplete` | lib/orchestrated/completion.rb:16-66 | `always_complete?` per variant: true for `Complete`, false for `Incomplete` and the wrapper, an empty child list for `LastCompletion`, `any?` of the children for `FirstCompletion` |
| `Completion.NeverComplete` | lib/orchestrated/completion.rb:16-66 | `never_complete?` per variant: false for `Complete` and the wrapper, true for `Incomplete`, `any?` of the children for `LastCompletion`, an empty child list for `FirstCompletion` |
| `Completion.LeafAnswers` | lib/orchestrated/completion.rb:16-28 | `Complete` answers complete, always, not never, not canceled; `Incomplete` answers not complete, not always, never, not canceled |
| `Completion.OrchestrationCompletionAnswers` | lib/orchestrated/completion.rb:55-66 | the wrapper is neither always nor never complete; it is complete iff the orchestration succeeded or failed, and canceled iff the orchestration is canceled |
| `Completion.EmptyComposites` | lib/orchestrated/completion.rb:35-49 | an empty AND is complete and always complete and never canceled; an empty OR is never complete, not always complete, and canceled |
| `Completion.StaticExclusive` | lib/orchestrated/completion.rb:11-13 | `always_complete?` and `never_complete?` are never both true, on every expression tree |
| `Completion.AlwaysCompleteSound` | lib/orchestrated/completion.rb:16-66 | an always-complete expression is complete and not canceled, in every state of the orchestrations |
| `Completion.NeverCompleteSound` | lib/orchestrated/completion.rb:16-66 | a never-complete expression is not complete, in every state |
| `Completion.CompleteExcludesCanceled` | lib/orchestrated/completion.rb:36-49 | no expression is complete and canceled at once |
| `Completion.Monotone` | lib/orchestrated/completion.rb:36-49 | once no terminal orchestration changes state, a complete expression stays complete and a canceled one stays canceled |
| `Completion.Frame` | lib/orchestrated/completion.rb:64 | the answers depend only on the orchestrations the expression refers to |
| `Completion.LastSkipKeepsAnswers` | lib/orchestrated/completion.rb:40-43 | leaving out an always-complete child of an AND changes neither `complete?`, `canceled?` nor `never_complete?` |
| `Completion.FirstSkipKeepsAnswers` | lib/orchestrated/completion.rb:50-53 | leaving out a never-complete child of an OR changes neither `complete?` nor `always_complete?` |
| `Completion.FirstSkipShowsInCanceled` | lib/orchestrated/completion.rb:48-53 | for every OR and every never-complete child it drops, keeping the child would leave the OR canceled exactly when the other children and that child are all canceled; so dropping a child that is not canceled (`Incomplete`, say) changes `canceled?` of an OR whose other children are all canceled, the empty OR among them |
| `Completion.CompositeCompletion.constructor` | lib/orchestrated/completion.rb:29-32 | a new composite has no children |
| `Completion.CompositeCompletion.Append` | lib/orchestrated/completion.rb:40-53 | `<<` returns the receiver, leaves the child list unchanged when the kind skips the argument (AND: always complete; OR: never complete) and appends it otherwise; the result is complete exactly when the unfiltered append would be |
| `Completion.CompositeCompletion.Plus` | lib/orchestrated/completion.rb:33 | `+` has the effect of `<<` and returns the receiver |
| `Dependency.Step` | lib/orchestrated/dependency.rb:9-24 | one edge event: `prerequisite_completed` / `prerequisite_canceled` move `incomplete` to `complete` / `canceled` and name the call made on the dependent; any other pair is `None` (illegal, nothing happens) |
| `Dependency.StepTable` | lib/orchestrated/dependency.rb:9-18 | a new edge is incomplete; both events are legal exactly from `incomplete` and lead to `complete` / `canceled` with the matching call on the dependent |
| `Dependency.RunChangesAtMostOnce` | lib/orchestrated/dependency.rb:13-24 | over any event sequence an edge changes state at most once and calls its dependent at most once, never both to complete and to cancel; a terminal edge ignores everything; no state change means no call |
| `Dependency.RepeatIsNoOp` | lib/orchestrated/dependency.rb:13-18 | firing the same event twice is firing it once |
| `OrchestrationState.Next` | lib/orchestrated/orchestration.rb:47-65 | the orchestration's transition table: the state each of the five events leads to, or `None` when the event is illegal in that state |
| `OrchestrationState.NextAdvances` | lib/orchestrated/orchestration.rb:28-65 | the transition table exactly: waiting→ready on `prerequisite_complete`, {waiting, ready}→canceled on `prerequisite_canceled` and `cancel`, ready→succeeded / failed on the delivery events, nothing from a terminal state; every legal event moves forward |
| `OrchestrationState.Hooks` | lib/orchestrated/orchestration.rb:67-82 | the callbacks a transition runs, in declaration order: `enqueue` on entering ready, `dequeue` on ready→canceled, the completion notification on entering succeeded or failed, the cancel notification on waiting/ready→canceled |
| `OrchestrationState.HooksTable` | lib/orchestrated/orchestration.rb:67-82 | entering ready runs one enqueue; ready→canceled runs dequeue then the cancel notification; waiting→canceled only the cancel notification; entering succeeded or failed only the completion notification |
| `OrchestrationState.HooksOfStep` | lib/orchestrated/orchestration.rb:67-82 | counts of the hooks of one transition: one enqueue exactly on entering ready, one dequeue exactly on ready→canceled, one wrapper notification exactly on entering a terminal state |
| `OrchestrationState.RunHooksAtMostOnce` | lib/orchestrated/orchestration.rb:28-84 | over any event sequence an orchestration enqueues at most once, dequeues at most once and notifies its wrapper at most once (completion or cancellation, not both); a terminal one ignores every event |
| `MessageDelivery.New` | lib/orchestrated/message_delivery.rb:5-12 | the constructor succeeds iff all four arguments are truthy, and then stores them unchanged; otherwise it raises |
| `Orchestration.DeliveryFor` | lib/orchestrated/orchestration.rb:107-109 | the job `enqueue` builds is what the delivery constructor accepts for the handler's value, sym and args and the orchestration id, and it reports to that orchestration |
| `Orchestration.JobsOfReady` | lib/orchestrated/orchestration.rb:68-74 | in a valid store a queued job for an orchestration exists iff it is ready, and it is its recorded `delayed_job` |
| `Orchestration.OwnerIsReady` | lib/orchestrated/orchestration.rb:107-109 | the orchestration a queued job reports to is ready and records that job |
| `Orchestration.DependencyFiredKeepsInvariant` | lib/orchestrated/orchestration.rb:47-53 | firing an edge whose prerequisite resolved the matching way keeps the store invariant |
| `Orchestration.DependencyFiredEffect` | lib/orchestrated/orchestration.rb:47-74 | an edge fires once (a second firing is a no-op); a waiting dependent becomes ready with exactly its handler's job queued and recorded as its `delayed_job`, or canceled with the queue and the records untouched; a dependent canceled by hand stays canceled; no other state, edge or record changes and no job is lost |
| `Orchestration.Fired` | lib/orchestrated/orchestration.rb:47-74 | one orchestration event on the store: an illegal event changes nothing; a legal one runs the before hooks (enqueue on entering ready, dequeue on ready→canceled) and then sets the new state |
| `Orchestration.FiredRunsHooks` | lib/orchestrated/orchestration.rb:67-74 | firing an event enqueues exactly when the transition's hook list holds `Enqueue`, then dequeues exactly when it holds `Dequeue` (only from `ready`), then sets the new state; an illegal event changes nothing |
| `Orchestration.RecordsKeptStep` | lib/orchestrated/orchestration.rb:107-113 | during propagation a `delayed_job` record changes only for an orchestration that went from waiting to ready, and the job it records is new |
| `Orchestration.CancelKeepsInvariant` | lib/orchestrated/orchestration.rb:63-74 | `cancel` from waiting or ready keeps the store invariant |
| `Orchestration.CancelEffect` | lib/orchestrated/orchestration.rb:63-74 | `cancel` changes only the orchestration's state to canceled and removes exactly the jobs that deliver for it (none when it was waiting); the `delayed_job` records and the job counter are unchanged |
| `Orchestration.Delivered` | lib/orchestrated/message_delivery.rb:21-27 | the end of a delivery: `message_delivery_succeeded` / `_failed` fired on the job's owner, then the job removed from the queue |
| `Orchestration.DeliveredKeepsInvariant` | lib/orchestrated/orchestration.rb:55-61 | `message_delivery_succeeded` / `_failed` on a job's owner, followed by discarding the job, keeps the store invariant |
| `Orchestration.Created` | lib/orchestrated/orchestration.rb:87-105 | `create` past its static check: a waiting orchestration saved under the next id with its handler and an incomplete edge, whose edge then fires at once if the prerequisite is already complete or already canceled |
| `Orchestration.CreatedEffect` | lib/orchestrated/orchestration.rb:87-105 | `create` adds one orchestration under the next id with its handler and prerequisite; it is ready with exactly one new job, recorded as its `delayed_job`, when the prerequisite is already complete, canceled when it is already canceled, waiting otherwise; no other orchestration, record or job changes |
| `Orchestration.CreatedReady` | lib/orchestrated/orchestration.rb:87-105 | with an already complete prerequisite the new orchestration is ready and its edge complete, and the queue has gained exactly the delivery of its handler |
| `Orchestration.CreatedCanceled` | lib/orchestrated/orchestration.rb:87-105 | with an already canceled prerequisite the new orchestration and its edge are canceled and the queue is untouched |
| `Orchestration.CreatedWaiting` | lib/orchestrated/orchestration.rb:87-105 | with an unresolved prerequisite `create` only saves the waiting orchestration and its incomplete edge |
| `Orchestration.CreatedConsistent` | lib/orchestrated/orchestration.rb:87-105 | creating keeps the store consistent: invariant holds and no edge is left to fire (only the new edge needs firing) |
| `Orchestration.Engine.constructor` | lib/orchestrated/orchestration.rb:17-25 | an empty store is valid |
| `Orchestration.Engine.Enqueue` | lib/orchestrated/orchestration.rb:107-109 | `enqueue` adds one job delivering the handler under a fresh id and records it as `delayed_job` |
| `Orchestration.Engine.Dequeue` | lib/orchestrated/orchestration.rb:111-113 | `dequeue` destroys the recorded job |
| `Orchestration.Engine.Fire` | lib/orchestrated/orchestration.rb:47-74 | an event is taken iff it is legal; a legal one runs its before hooks and sets the new state, an illegal one changes nothing |
| `Orchestration.Engine.Save` | lib/orchestrated/orchestration.rb:91-94 | saves a waiting orchestration under the next id with its handler, prerequisite and an incomplete edge |
| `Orchestration.Engine.FireDependency` | lib/orchestrated/dependency.rb:13-24 | the edge takes the event iff it is incomplete, records its new state and makes the matching non-raising call on its orchestration |
| `Orchestration.Engine.Propagate` | lib/orchestrated/orchestration.rb:76-82 | afterwards no edge is left to fire; only waiting orchestrations moved, each to ready with a complete prerequisite or to canceled with a canceled prerequisite; no queued job was lost and new jobs have fresh ids; only the orchestrations that became ready gained a `delayed_job` record, and it names a new job |
| `Orchestration.Engine.Create` | lib/orchestrated/orchestration.rb:87-105 | raises before saving anything when the prerequisite is never complete; otherwise leaves the store `Created` describes, valid, and returns the wrapper of the new orchestration |
| `Orchestration.Engine.Cancel` | lib/orchestrated/orchestration.rb:63-82 | `cancel!` raises InvalidTransition and changes nothing unless the orchestration is waiting or ready; otherwise it is canceled, no job delivers for it any more, the other jobs stay, the cancellation has propagated, and only orchestrations it made ready gained a `delayed_job` record |
| `Orchestration.Engine.Conclude` | lib/orchestrated/orchestration.rb:55-82 | the owner of a finished job becomes succeeded or failed, the job leaves the queue, the other jobs stay, the completion has propagated, and only orchestrations it made ready gained a `delayed_job` record |
| `DeliveryWorker.Perform` | lib/orchestrated/message_delivery.rb:14-22 | the stored message is sent once with exactly the stored args while the target is bound to the orchestration; on a raise nothing else changes (the job stays for a retry with the same args, the binding stays set); otherwise the binding is cleared, the orchestration has succeeded and no job for it is left, every other orchestration changed only by the cascade from it (`Cascaded`), and the other jobs and `delayed_job` records stay |
| `DeliveryWorker.Succeed` | lib/orchestrated/message_delivery.rb:19-21 | after a normal return the binding is cleared and the orchestration succeeds; the other orchestrations change only by the cascade from it, and the other jobs and records stay |
| `DeliveryWorker.Failure` | lib/orchestrated/message_delivery.rb:25-28 | `failure` moves the job's ready orchestration to failed and leaves no job that would send its message again; the other orchestrations change only by the cascade from it, and the other jobs and records stay |
| `Base.Orchestrate` | lib/orchestrated/base.rb:31-36 | the generated method raises on a block, raises when the prerequisite is no completion expression, defaults the prerequisite to `Complete`, and otherwise returns a proxy on the receiver |
| `Base.DefaultProxySchedulesAtOnce` | lib/orchestrated/base.rb:31 | the default prerequisite is always complete, never rejected and refers to no orchestration |
| `Base.Schedule` | lib/orchestrated/base.rb:8-15 | `method_missing` raises on a block and changes nothing; otherwise it creates the orchestration without invoking the target (no invocation is recorded); the new store is exactly `Created` of the old one (`CreatedEffect` gives it in full); the new orchestration is the only one added and no other changes state; it is ready when the prerequisite is already complete, canceled when it is already canceled, waiting otherwise; an always-complete prerequisite leaves it ready with one job queued |
| `Underscore.ReplaceColons` | lib/orchestrated/base.rb:21 | the result is the input read from the left with each non-overlapping `::` written as one `/` (`ColonsReplaced`); no two colons are left adjacent, and a string without `::` is unchanged |
| `Underscore.ColonsReplacedUnique` | lib/orchestrated/base.rb:21 | `ColonsReplaced` allows one result only, so it pins down the `::` step |
| `Underscore.ColonsRoundTrip` | lib/orchestrated/base.rb:21 | on a name without `/`, writing each `/` of the `::` step's result back as `::` gives the name again, so the step loses nothing |
| `Underscore.SplitAcronymsInserts` | lib/orchestrated/base.rb:22 | the acronym step inserts an `_` before every capital that follows a capital and precedes a lowercase letter, and adds nothing else |
| `Underscore.InsertedUnique` | lib/orchestrated/base.rb:22 | the insertions `Inserted` describes are forced: two results for one string are equal |
| `Underscore.SplitAcronymsIsInserted` | lib/orchestrated/base.rb:22 | any string `Inserted` relates to the input is the result of the acronym step |
| `Underscore.Underscore` | lib/orchestrated/base.rb:20-24 | `underscore` as the chain of its four rewrites in source order: `::` to `/`, the acronym split, `-` to `_`, then downcasing |
| `Underscore.UnderscoreShape` | lib/orchestrated/base.rb:20-24 | the result has no ASCII capital, no `-` and no `::` |
| `Underscore.UnderscoreFixed` | lib/orchestrated/base.rb:20-24 | a string without capitals, `-` and `::` is unchanged |
| `Underscore.UnderscoreKeepsPlainNames` | lib/orchestrated/base.rb:20-24 | a string of lowercase letters, digits, `/` and `_` is unchanged |
| `Underscore.UnderscoreIdempotent` | lib/orchestrated/base.rb:20-24 | underscoring twice is underscoring once |
| `Underscore.UnderscoreOfWords` | lib/orchestrated/base.rb:20-24 | a name with no `::`, no `-` and no two adjacent capitals is only downcased (there is no lower-to-upper rule) |
| `UnderscoreExamples.OrchestratedExample` | lib/orchestrated/base.rb:28 | `underscore("Orchestrated") == "orchestrated"`, the method name defined on orchestrated classes |
| `UnderscoreExamples.FirstCompletionExample` | lib/orchestrated/base.rb:22 | `underscore("FirstCompletion") == "firstcompletion"` |
| `UnderscoreExamples.AcronymExample` | lib/orchestrated/base.rb:22 | `underscore("HTMLParser") == "html_parser"` |
| `Scenarios.Reflects` | lib/orchestrated/orchestration.rb:47-82 | in a consistent store a dependent still waits only while its prerequisite is unresolved; a complete prerequisite means it left `waiting`; a canceled one means it is canceled; while the prerequisite is not complete it has no job |
| `Scenarios.FirstCompletionRunsAfterEither` | spec/unit/completion_spec.rb:52-72 | behind an OR of two orchestrations, once either has finished the dependent has left waiting and, unless it was canceled by hand, is ready with its job queued or has already run; it has no job before |
| `Scenarios.LastCompletionRunsAfterBoth` | spec/unit/completion_spec.rb:75-95 | behind an AND of two orchestrations the dependent has no job and has not run until both have finished; once both have, it has left waiting and, unless it was canceled by hand, is ready with its job queued or has already run |
| `Scenarios.DirectCancellation` | spec/unit/cancellation_spec.rb:66-72 | canceling the direct prerequisite cancels the dependent |
| `Scenarios.LastCompletionCanceledByEither` | spec/unit/cancellation_spec.rb:73-81 | canceling either prerequisite of an AND cancels the dependent |
| `Scenarios.FirstCompletionCanceledByBoth` | spec/unit/cancellation_spec.rb:82-99 | behind an OR one cancellation does not cancel the dependent; canceling both does |

## Left out

- Persistence is not modelled: ActiveRecord `save!`, `reload`, `find`, STI type dispatch, the association wiring and `serialize :handler`. Entities are maps keyed by id. Because of this the re-entrant save guard has nothing to guard.
- The generator, the migration template and the test schema are plumbing, and the two schemas disagree. Neither is modelled.
- Delayed::Job internals are not modelled: backoff, `run_at`, locking, `max_attempts` and concurrent workers. The queue is a map of jobs. A raising attempt leaves its job in place. "Attempts exhausted" is the external call `DeliveryWorker.Failure`. The queue discarding a finished job is modelled right after the event.
- Ruby metaprogramming is not modelled: `class_eval` in `belongs_to`, dynamic dispatch, `acts_as_orchestrated` and the patching of `Object`. Only the checks of the generated method are modelled, in `Base.Orchestrate`. The sent message is a foreign call whose raising is the parameter `raises`.
- `Proxy#method_missing` wraps the result of `create` in a second `OrchestrationCompletion`. The model returns one wrapper.
- `OrchestrationInterest` is not part of this model. Each orchestration's edge to its prerequisite is the `Dependency` machine stored in `Engine.interests`.
- Neither `OrchestrationCompletion` nor the composite classes define the `prerequisite_complete` / `prerequisite_canceled` handlers that the hooks call. Propagation is modelled by its meaning, in `Engine.Propagate`, and not as edge-by-edge notification. The after-hook entries `NotifyComplete` / `NotifyCanceled` of `OrchestrationState.Hooks` are therefore not run by `Fired`. `Engine.Propagate` realises their effect. `Engine.Cancel` and `Engine.Conclude` end by propagating to the dependents. A newly created orchestration has no dependents yet, so `Engine.Create` does not need to.
- `Completion.CompositeCompletion.Append`: the child list is a field of expression values, not an association of records, so a child appended later is not aliased to the record that produced it.
- Skipping a sibling of a `FirstCompletion` after the first one succeeds is not modelled, because no code in the library cancels siblings.
- `downcase` beyond ASCII is not modelled.
- `Orchestration.Engine.Create`: requires a truthy target, method name and argument list. The raise of the `MessageDelivery` constructor inside the enqueue hook is not modelled.
- `DeliveryWorker.Perform`: the sent message does not touch the store. Through the `orchestration` binding a real handler could `cancel!` its own orchestration or create further orchestrations. In Ruby, `message_delivery_succeeded` would then return false and the orchestration would stay canceled. The ensures "succeeded after a normal return" holds only for a handler that leaves the store alone.
- `Base.Schedule`: requires a truthy target, for the same reason. The method name and argument list that `method_missing` receives are always truthy.
- Wall-clock time, logging and the test helpers (`spec/delayed_job_facade.rb`, the delayed-job and RSpec specs) are not modelled.
