/** The completion algebra (lib/orchestrated/completion.rb): a closed variant
    type of expressions that answer whether a condition holds now
    (`complete?`, `canceled?`, which look at orchestration states) and two
    static checks that look only at the structure. */
module Completion {
  import opened OrchestrationState

  datatype Expr =
    | Complete
    | Incomplete
    | LastCompletion(prerequisites: seq<Expr>)    // AND
    | FirstCompletion(prerequisites: seq<Expr>)   // OR
    | OrchestrationCompletion(orchestration: OrchId)

  /** The orchestrations an expression refers to. */
  ghost function Refs(e: Expr): set<OrchId> {
    match e
    case OrchestrationCompletion(id) => {id}
    case LastCompletion(cs) => set i, r | 0 <= i < |cs| && r in Refs(cs[i]) :: r
    case FirstCompletion(cs) => set i, r | 0 <= i < |cs| && r in Refs(cs[i]) :: r
    case _ => {}
  }

  /** `complete?`; an `OrchestrationCompletion` delegates to the state of the
      orchestration it wraps, which must exist (`belongs_to`). */
  function IsComplete(e: Expr, st: map<OrchId, State>): bool
    requires Refs(e) <= st.Keys
  {
    match e
    case Complete => true
    case Incomplete => false
    case LastCompletion(cs) => forall i :: 0 <= i < |cs| ==> IsComplete(cs[i], st)
    case FirstCompletion(cs) => exists i :: 0 <= i < |cs| && IsComplete(cs[i], st)
    case OrchestrationCompletion(id) => IsCompleteState(st[id])
  }

  /** `canceled?` */
  function IsCanceled(e: Expr, st: map<OrchId, State>): bool
    requires Refs(e) <= st.Keys
  {
    match e
    case Complete => false
    case Incomplete => false
    case LastCompletion(cs) => exists i :: 0 <= i < |cs| && IsCanceled(cs[i], st)
    case FirstCompletion(cs) => forall i :: 0 <= i < |cs| ==> IsCanceled(cs[i], st)
    case OrchestrationCompletion(id) => st[id] == Canceled
  }

  /** `always_complete?`: a static guarantee. */
  function AlwaysComplete(e: Expr): bool {
    match e
    case Complete => true
    case Incomplete => false
    case LastCompletion(cs) => |cs| == 0
    case FirstCompletion(cs) => exists i :: 0 <= i < |cs| && AlwaysComplete(cs[i])
    case OrchestrationCompletion(_) => false
  }

  /** `never_complete?`: a static impossibility. */
  function NeverComplete(e: Expr): bool {
    match e
    case Complete => false
    case Incomplete => true
    case LastCompletion(cs) => exists i :: 0 <= i < |cs| && NeverComplete(cs[i])
    case FirstCompletion(cs) => |cs| == 0
    case OrchestrationCompletion(_) => false
  }

  // ---------------------------------------------------------------------
  // The answers of the leaves and of the wrapper

  lemma LeafAnswers(st: map<OrchId, State>)
    ensures IsComplete(Complete, st) && AlwaysComplete(Complete)
    ensures !NeverComplete(Complete) && !IsCanceled(Complete, st)
    ensures !IsComplete(Incomplete, st) && !AlwaysComplete(Incomplete)
    ensures NeverComplete(Incomplete) && !IsCanceled(Incomplete, st)
  {
  }

  lemma OrchestrationCompletionAnswers(id: OrchId, st: map<OrchId, State>)
    requires id in st
    ensures var e := OrchestrationCompletion(id);
      && !AlwaysComplete(e) && !NeverComplete(e)
      && IsComplete(e, st) == (st[id] == Succeeded || st[id] == Failed)
      && IsCanceled(e, st) == (st[id] == Canceled)
  {
  }

  /** The empty composites: an empty AND is complete and always complete and
      never canceled; an empty OR never completes and counts as canceled. */
  lemma EmptyComposites(st: map<OrchId, State>)
    ensures IsComplete(LastCompletion([]), st) && AlwaysComplete(LastCompletion([]))
    ensures !NeverComplete(LastCompletion([])) && !IsCanceled(LastCompletion([]), st)
    ensures !IsComplete(FirstCompletion([]), st) && NeverComplete(FirstCompletion([]))
    ensures !AlwaysComplete(FirstCompletion([])) && IsCanceled(FirstCompletion([]), st)
  {
  }

  // ---------------------------------------------------------------------
  // Soundness of the static analysis

  lemma {:induction false} ChildRefs(cs: seq<Expr>, i: nat, st: map<OrchId, State>)
    requires i < |cs|
    requires Refs(LastCompletion(cs)) <= st.Keys || Refs(FirstCompletion(cs)) <= st.Keys
    ensures Refs(cs[i]) <= st.Keys
  {
    forall r | r in Refs(cs[i])
      ensures r in st
    {
      assert r in Refs(LastCompletion(cs)) && r in Refs(FirstCompletion(cs));
    }
  }

  /** `always_complete?` and `never_complete?` are never both true. */
  lemma {:induction false} StaticExclusive(e: Expr)
    ensures !(AlwaysComplete(e) && NeverComplete(e))
  {
    match e
    case FirstCompletion(cs) =>
      if AlwaysComplete(e) {
        var i :| 0 <= i < |cs| && AlwaysComplete(cs[i]);
      }
    case LastCompletion(cs) =>
      if NeverComplete(e) {
        var i :| 0 <= i < |cs| && NeverComplete(cs[i]);
      }
    case _ =>
  }

  /** `always_complete?` implies `complete?` and excludes `canceled?`, in every
      state of the orchestrations. */
  lemma {:induction false} AlwaysCompleteSound(e: Expr, st: map<OrchId, State>)
    requires Refs(e) <= st.Keys
    ensures AlwaysComplete(e) ==> IsComplete(e, st) && !IsCanceled(e, st)
  {
    match e
    case FirstCompletion(cs) =>
      if AlwaysComplete(e) {
        var i :| 0 <= i < |cs| && AlwaysComplete(cs[i]);
        ChildRefs(cs, i, st);
        AlwaysCompleteSound(cs[i], st);
      }
    case _ =>
  }

  /** `never_complete?` implies not `complete?`, in every state. */
  lemma {:induction false} NeverCompleteSound(e: Expr, st: map<OrchId, State>)
    requires Refs(e) <= st.Keys
    ensures NeverComplete(e) ==> !IsComplete(e, st)
  {
    match e
    case LastCompletion(cs) =>
      if NeverComplete(e) {
        var i :| 0 <= i < |cs| && NeverComplete(cs[i]);
        ChildRefs(cs, i, st);
        NeverCompleteSound(cs[i], st);
      }
    case _ =>
  }

  /** No expression is complete and canceled at once. */
  lemma {:induction false} CompleteExcludesCanceled(e: Expr, st: map<OrchId, State>)
    requires Refs(e) <= st.Keys
    ensures !(IsComplete(e, st) && IsCanceled(e, st))
  {
    match e
    case LastCompletion(cs) =>
      if IsCanceled(e, st) {
        var i :| 0 <= i < |cs| && IsCanceled(cs[i], st);
        ChildRefs(cs, i, st);
        CompleteExcludesCanceled(cs[i], st);
      }
    case FirstCompletion(cs) =>
      if IsComplete(e, st) {
        var i :| 0 <= i < |cs| && IsComplete(cs[i], st);
        ChildRefs(cs, i, st);
        CompleteExcludesCanceled(cs[i], st);
      }
    case _ =>
  }

  // ---------------------------------------------------------------------
  // How the answers evolve as orchestrations move on

  /** `st2` is a later snapshot of `st`: no orchestration disappeared and no
      terminal orchestration changed state. */
  ghost predicate Later(st: map<OrchId, State>, st2: map<OrchId, State>) {
    && st.Keys <= st2.Keys
    && forall id :: id in st && IsTerminal(st[id]) ==> st2[id] == st[id]
  }

  /** Once complete, always complete; once canceled, always canceled. */
  lemma {:induction false} Monotone(e: Expr, st: map<OrchId, State>, st2: map<OrchId, State>)
    requires Refs(e) <= st.Keys && Later(st, st2)
    ensures IsComplete(e, st) ==> IsComplete(e, st2)
    ensures IsCanceled(e, st) ==> IsCanceled(e, st2)
  {
    match e
    case LastCompletion(cs) =>
      forall i | 0 <= i < |cs|
        ensures IsComplete(cs[i], st) ==> IsComplete(cs[i], st2)
        ensures IsCanceled(cs[i], st) ==> IsCanceled(cs[i], st2)
      {
        ChildRefs(cs, i, st);
        Monotone(cs[i], st, st2);
      }
    case FirstCompletion(cs) =>
      forall i | 0 <= i < |cs|
        ensures IsComplete(cs[i], st) ==> IsComplete(cs[i], st2)
        ensures IsCanceled(cs[i], st) ==> IsCanceled(cs[i], st2)
      {
        ChildRefs(cs, i, st);
        Monotone(cs[i], st, st2);
      }
    case _ =>
  }

  /** The answers do not depend on orchestrations the expression does not
      refer to. */
  lemma {:induction false} Frame(e: Expr, st: map<OrchId, State>, id: OrchId, s: State)
    requires Refs(e) <= st.Keys && id !in Refs(e)
    ensures IsComplete(e, st[id := s]) == IsComplete(e, st)
    ensures IsCanceled(e, st[id := s]) == IsCanceled(e, st)
  {
    match e
    case LastCompletion(cs) =>
      forall i | 0 <= i < |cs|
        ensures IsComplete(cs[i], st[id := s]) == IsComplete(cs[i], st)
        ensures IsCanceled(cs[i], st[id := s]) == IsCanceled(cs[i], st)
      {
        ChildRefs(cs, i, st);
        assert Refs(cs[i]) <= Refs(e);
        Frame(cs[i], st, id, s);
      }
    case FirstCompletion(cs) =>
      forall i | 0 <= i < |cs|
        ensures IsComplete(cs[i], st[id := s]) == IsComplete(cs[i], st)
        ensures IsCanceled(cs[i], st[id := s]) == IsCanceled(cs[i], st)
      {
        ChildRefs(cs, i, st);
        assert Refs(cs[i]) <= Refs(e);
        Frame(cs[i], st, id, s);
      }
    case _ =>
  }

  // ---------------------------------------------------------------------
  // The filtering append of the composites

  datatype CompositeKind = Last | First

  function Compose(kind: CompositeKind, cs: seq<Expr>): Expr {
    match kind
    case Last => LastCompletion(cs)
    case First => FirstCompletion(cs)
  }

  /** A child the composite drops on `<<`: one that can never change its
      AND (always complete) or its OR (never complete). */
  function Skips(kind: CompositeKind, c: Expr): bool {
    match kind
    case Last => AlwaysComplete(c)
    case First => NeverComplete(c)
  }

  lemma {:induction false} AppendRefs(kind: CompositeKind, cs: seq<Expr>, c: Expr)
    ensures Refs(Compose(kind, cs + [c])) == Refs(Compose(kind, cs)) + Refs(c)
  {
    var xs := cs + [c];
    forall r | r in Refs(Compose(kind, xs))
      ensures r in Refs(Compose(kind, cs)) + Refs(c)
    {
      var i :| 0 <= i < |xs| && r in Refs(xs[i]);
      if i < |cs| { assert xs[i] == cs[i]; }
    }
    forall r | r in Refs(Compose(kind, cs)) + Refs(c)
      ensures r in Refs(Compose(kind, xs))
    {
      if r in Refs(c) {
        assert xs[|cs|] == c;
      } else {
        var i :| 0 <= i < |cs| && r in Refs(cs[i]);
        assert xs[i] == cs[i];
      }
    }
  }

  /** Dropping an always-complete child of an AND changes none of the answers
      that adding it would have given, except that the static
      `always_complete?` stays as sharp as before. */
  lemma {:induction false} LastSkipKeepsAnswers(cs: seq<Expr>, c: Expr, st: map<OrchId, State>)
    requires AlwaysComplete(c) && Refs(LastCompletion(cs + [c])) <= st.Keys
    ensures Refs(LastCompletion(cs)) <= st.Keys
    ensures IsComplete(LastCompletion(cs + [c]), st) == IsComplete(LastCompletion(cs), st)
    ensures IsCanceled(LastCompletion(cs + [c]), st) == IsCanceled(LastCompletion(cs), st)
    ensures NeverComplete(LastCompletion(cs + [c])) == NeverComplete(LastCompletion(cs))
  {
    var xs := cs + [c];
    AppendRefs(Last, cs, c);
    AlwaysCompleteSound(c, st);
    StaticExclusive(c);
    assert xs[|cs|] == c;
    assert forall i :: 0 <= i < |cs| ==> xs[i] == cs[i];
  }

  /** Dropping a never-complete child of an OR changes neither `complete?`
      nor `always_complete?`. */
  lemma {:induction false} FirstSkipKeepsAnswers(cs: seq<Expr>, c: Expr, st: map<OrchId, State>)
    requires NeverComplete(c) && Refs(FirstCompletion(cs + [c])) <= st.Keys
    ensures Refs(FirstCompletion(cs)) <= st.Keys
    ensures IsComplete(FirstCompletion(cs + [c]), st) == IsComplete(FirstCompletion(cs), st)
    ensures AlwaysComplete(FirstCompletion(cs + [c])) == AlwaysComplete(FirstCompletion(cs))
  {
    var xs := cs + [c];
    AppendRefs(First, cs, c);
    NeverCompleteSound(c, st);
    StaticExclusive(c);
    assert xs[|cs|] == c;
    assert forall i :: 0 <= i < |cs| ==> xs[i] == cs[i];
  }

  /** The filter is visible in `canceled?` of an OR, though: keeping a
      never-complete child leaves the OR canceled only when that child is
      canceled too, so dropping one that is not canceled (such as
      `Incomplete`) can turn an OR whose other children are all canceled
      into a canceled one. */
  lemma {:induction false} FirstSkipShowsInCanceled(cs: seq<Expr>, c: Expr, st: map<OrchId, State>)
    requires NeverComplete(c) && Refs(FirstCompletion(cs + [c])) <= st.Keys
    ensures Refs(FirstCompletion(cs)) <= st.Keys && Refs(c) <= st.Keys
    ensures IsCanceled(FirstCompletion(cs + [c]), st) <==>
              IsCanceled(FirstCompletion(cs), st) && IsCanceled(c, st)
  {
    var xs := cs + [c];
    AppendRefs(First, cs, c);
    assert xs[|cs|] == c;
    assert forall i :: 0 <= i < |cs| ==> xs[i] == cs[i];
  }

  /** A composite (`LastCompletion` or `FirstCompletion` record) whose child
      list is extended in place. */
  class CompositeCompletion {
    const kind: CompositeKind
    var completionExpressions: seq<Expr>

    constructor (kind: CompositeKind)
      ensures this.kind == kind && completionExpressions == []
    {
      this.kind := kind;
      completionExpressions := [];
    }

    /** The expression this composite currently stands for. */
    function ToExpr(): Expr
      reads this
    {
      Compose(kind, completionExpressions)
    }

    /** `<<`: appends `c` unless the composite skips it, and returns the
        receiver. The result answers `complete?` exactly as an unfiltered
        append would. */
    method Append(c: Expr) returns (self: CompositeCompletion)
      modifies this
      ensures self == this
      ensures completionExpressions ==
                if Skips(kind, c) then old(completionExpressions)
                else old(completionExpressions) + [c]
      ensures forall st: map<OrchId, State> ::
                Refs(Compose(kind, old(completionExpressions) + [c])) <= st.Keys ==>
                  && Refs(ToExpr()) <= st.Keys
                  && IsComplete(ToExpr(), st)
                       == IsComplete(Compose(kind, old(completionExpressions) + [c]), st)
    {
      ghost var cs := completionExpressions;
      if !Skips(kind, c) {
        completionExpressions := completionExpressions + [c];
      }
      self := this;
      forall st: map<OrchId, State> | Refs(Compose(kind, cs + [c])) <= st.Keys
        ensures Refs(ToExpr()) <= st.Keys
        ensures IsComplete(ToExpr(), st) == IsComplete(Compose(kind, cs + [c]), st)
      {
        if Skips(kind, c) {
          if kind == Last {
            LastSkipKeepsAnswers(cs, c, st);
          } else {
            FirstSkipKeepsAnswers(cs, c, st);
          }
        }
      }
    }

    /** `+`, a synonym of `<<`. */
    method Plus(c: Expr) returns (self: CompositeCompletion)
      modifies this
      ensures self == this
      ensures completionExpressions ==
                if Skips(kind, c) then old(completionExpressions)
                else old(completionExpressions) + [c]
    {
      self := Append(c);
    }
  }
}
