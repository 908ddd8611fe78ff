/**
  The dispatch core: `handleError` and `trySync`.

  Raising becomes a value: a computation or handler ends in an `Outcome`,
  either a returned value or a raised one. The shared context object is an
  abstract state `C` threaded through every call in order, and each run
  records the calls it made, so that "which handlers ran, how often and with
  what" can be stated.
 */
module Dispatch {
  import opened Wrappers
  import opened Categories
  import opened Descriptors
  import opened HandlerTable
  import opened Matcher

  /** A raised value: an `Error` instance (`e instanceof Error`) carries its
      constructor; anything else (a string, a plain object) is an opaque
      payload. `id` is the identity of the raised object. */
  datatype Raised = ErrorObject(ctor: Category, id: nat) | OtherValue(id: nat)

  datatype Outcome<+T> = Returned(value: T) | Threw(raised: Raised)

  /** One invocation made during a dispatch call. */
  datatype Call<+T> =
    | RanBody
    | RanHandler(handler: HandlerId, error: Raised)
    | RanFinally(handler: HandlerId, result: Option<T>)

  datatype Run<+T, C> = Run(outcome: Outcome<T>, context: C, calls: seq<Call<T>>)

  /** What each handler token does when invoked: 'catch' and 'catchAll'
      handlers take `(e, context)`, 'finally' handlers `(result, context)`
      and produce nothing but may raise. */
  datatype Behaviours<!T, !C> = Behaviours(
    onError: (HandlerId, Raised, C) -> (Outcome<T>, C),
    onFinally: (HandlerId, Option<T>, C) -> (Outcome<()>, C))

  /** The single decision `handleError` makes. */
  datatype Choice = Typed(handler: HandlerId) | Fallback(handler: HandlerId) | Rethrow

  /** No typed handler applies: the raised value is not an `Error`, or no
      category on its constructor's ancestry is registered. */
  predicate NoTypedMatch(h: Hierarchy, t: Table, e: Raised) {
    e.OtherValue? || forall a :: a in Ancestry(h, e.ctor) ==> a !in t.byType
  }

  /** A typed handler for an `Error` whose ancestry has a registered
      category (the most specific one); otherwise, for every raised value,
      the catch-all if there is one; otherwise re-raise. */
  function Choose(h: Hierarchy, t: Table, e: Raised): (ch: Choice)
    ensures ch.Typed? ==>
              && e.ErrorObject?
              && exists k :: FirstRegisteredAt(Ancestry(h, e.ctor), t.byType, k) &&
                             ch.handler == t.byType[Ancestry(h, e.ctor)[k]]
    ensures ch.Fallback? <==> NoTypedMatch(h, t, e) && t.catchAll.Some?
    ensures ch.Fallback? ==> ch.handler == t.catchAll.value
    ensures ch.Rethrow? <==> NoTypedMatch(h, t, e) && t.catchAll.None?
  {
    if e.ErrorObject? then
      FindHandlerNoneIff(h, t.byType, e.ctor);
      match FindHandler(h, t.byType, e.ctor)
      case Some(hd) =>
        var chain := Ancestry(h, e.ctor);
        var a :| a in chain && a in t.byType;
        FirstRegisteredExists(chain, t.byType, a);
        var k :| FirstRegisteredAt(chain, t.byType, k);
        FindHandlerIsFirstOnAncestry(h, t.byType, e.ctor, k);
        Typed(hd)
      case None =>
        if t.catchAll.Some? then Fallback(t.catchAll.value) else Rethrow
    else if t.catchAll.Some? then Fallback(t.catchAll.value)
    else Rethrow
  }

  /** `handleError(map, e, context)`: invokes at most one handler, the one
      chosen, with the raised value itself; with none chosen the identical
      value is raised again and the context is untouched. */
  function HandleError<T, C>(h: Hierarchy, t: Table, b: Behaviours<T, C>, e: Raised, ctx: C): (r: Run<T, C>)
    ensures |r.calls| <= 1
    ensures r.calls == [] <==> Choose(h, t, e).Rethrow?
    ensures r.calls == [] ==> r.outcome == Threw(e) && r.context == ctx
    ensures r.calls != [] ==> r.calls[0] == RanHandler(Choose(h, t, e).handler, e)
    ensures r.calls != [] ==> (r.outcome, r.context) == b.onError(Choose(h, t, e).handler, e, ctx)
  {
    match Choose(h, t, e)
    case Rethrow => Run(Threw(e), ctx, [])
    case Typed(hd) =>
      var (o, ctx') := b.onError(hd, e, ctx);
      Run(o, ctx', [RanHandler(hd, e)])
    case Fallback(hd) =>
      var (o, ctx') := b.onError(hd, e, ctx);
      Run(o, ctx', [RanHandler(hd, e)])
  }

  /** What the finally handler is passed: the computation's value if it
      returned, `undefined` if it raised. */
  function ResultSeen<T>(o: Outcome<T>): Option<T> {
    match o
    case Returned(v) => Some(v)
    case Threw(_) => None
  }

  /** The `Running` state and its exits: run the computation with the
      context; if it returns, that is the pending outcome; if it raises,
      `handleError` decides. */
  function Attempt<T, C>(h: Hierarchy, t: Table, b: Behaviours<T, C>, body: C -> (Outcome<T>, C), ctx: C): (p: Run<T, C>)
    ensures 1 <= |p.calls| <= 2 && p.calls[0] == RanBody
    ensures body(ctx).0.Returned? ==>
              p.outcome == body(ctx).0 && p.context == body(ctx).1 && p.calls == [RanBody]
    ensures body(ctx).0.Threw? ==>
              var e := body(ctx).0.raised;
              && (|p.calls| == 1 <==> Choose(h, t, e).Rethrow?)
              && (|p.calls| == 1 ==> p.outcome == Threw(e) && p.context == body(ctx).1)
              && (|p.calls| == 2 ==>
                    var hd := Choose(h, t, e).handler;
                    && p.calls[1] == RanHandler(hd, e)
                    && (p.outcome, p.context) == b.onError(hd, e, body(ctx).1))
  {
    var (o, ctx1) := body(ctx);
    match o
    case Returned(_) => Run(o, ctx1, [RanBody])
    case Threw(e) =>
      var handled := HandleError(h, t, b, e, ctx1);
      Run(handled.outcome, handled.context, [RanBody] + handled.calls)
  }

  /** The raise of the finally handler `f` given `result` and `ctx`, if it
      raises. */
  function FinallyRaise<T, C>(b: Behaviours<T, C>, f: HandlerId, result: Option<T>, ctx: C): Option<Raised> {
    match b.onFinally(f, result, ctx).0
    case Returned(_) => None
    case Threw(x) => Some(x)
  }

  /** The `Cleanup` and `Done` states: the finally handler, if registered,
      runs once after everything else with `result` and the current context;
      its raise replaces the pending outcome, otherwise the pending outcome
      (a value or a re-raise) stands. */
  function RunFinally<T, C>(t: Table, b: Behaviours<T, C>, result: Option<T>, p: Run<T, C>): (r: Run<T, C>)
    ensures t.finally.None? ==> r == p
    ensures t.finally.Some? ==>
              var f := t.finally.value;
              && r.calls == p.calls + [RanFinally(f, result)]
              && r.context == b.onFinally(f, result, p.context).1
              && (FinallyRaise(b, f, result, p.context).None? ==> r.outcome == p.outcome)
              && (FinallyRaise(b, f, result, p.context).Some? ==>
                    r.outcome == Threw(FinallyRaise(b, f, result, p.context).value))
  {
    match t.finally
    case None => p
    case Some(f) =>
      var (fo, ctx') := b.onFinally(f, result, p.context);
      var outcome := if fo.Threw? then Threw(fo.raised) else p.outcome;
      Run(outcome, ctx', p.calls + [RanFinally(f, result)])
  }

  /** `trySync(doFn, ...args)` started with the fresh context `ctx`. The
      computation runs first and exactly once, at most one error handler runs
      and only after a raise, and the finally handler, when registered, runs
      exactly once, last, and sees the computation's value only if it
      returned. */
  function TrySync<T, C>(h: Hierarchy, body: C -> (Outcome<T>, C), args: seq<Arg>, b: Behaviours<T, C>, ctx: C): (r: Run<T, C>)
    ensures |r.calls| >= 1 && r.calls[0] == RanBody
    ensures forall i :: 0 < i < |r.calls| ==> !r.calls[i].RanBody?
    ensures forall i :: 0 <= i < |r.calls| && r.calls[i].RanHandler? ==>
              i == 1 && body(ctx).0.Threw? && r.calls[i].error == body(ctx).0.raised
    ensures (exists i :: 0 <= i < |r.calls| && r.calls[i].RanFinally?) <==>
              BuildHandlersMap(args).finally.Some?
    ensures forall i :: 0 <= i < |r.calls| && r.calls[i].RanFinally? ==>
              && i == |r.calls| - 1
              && r.calls[i].handler == BuildHandlersMap(args).finally.value
              && r.calls[i].result == ResultSeen(body(ctx).0)
  {
    var t := BuildHandlersMap(args);
    var r := RunFinally(t, b, ResultSeen(body(ctx).0), Attempt(h, t, b, body, ctx));
    assert t.finally.Some? ==> r.calls[|r.calls| - 1].RanFinally?;
    r
  }

  /** On success `trySync` returns the computation's value unchanged and no
      error handler runs, unless the finally handler raises. */
  lemma TrySyncSucceeds<T, C>(h: Hierarchy, body: C -> (Outcome<T>, C), args: seq<Arg>, b: Behaviours<T, C>, ctx: C)
    requires body(ctx).0.Returned?
    requires BuildHandlersMap(args).finally.Some? ==>
               FinallyRaise(b, BuildHandlersMap(args).finally.value, ResultSeen(body(ctx).0), body(ctx).1).None?
    ensures TrySync(h, body, args, b, ctx).outcome == body(ctx).0
    ensures forall c :: c in TrySync(h, body, args, b, ctx).calls ==> !c.RanHandler?
  {
  }

  /** An unhandled raise is raised again after cleanup: the identical value,
      unless the finally handler raises. */
  lemma TrySyncRethrows<T, C>(h: Hierarchy, body: C -> (Outcome<T>, C), args: seq<Arg>, b: Behaviours<T, C>, ctx: C)
    requires body(ctx).0.Threw?
    requires NoTypedMatch(h, BuildHandlersMap(args), body(ctx).0.raised)
    requires BuildHandlersMap(args).catchAll.None?
    requires BuildHandlersMap(args).finally.Some? ==>
               FinallyRaise(b, BuildHandlersMap(args).finally.value, None, body(ctx).1).None?
    ensures TrySync(h, body, args, b, ctx).outcome == body(ctx).0
    ensures forall c :: c in TrySync(h, body, args, b, ctx).calls ==> !c.RanHandler?
  {
  }

  /** A handled raise ends in whatever the chosen handler ends in, a value
      or a raise of its own that is not caught again; the finally handler
      still sees `undefined`. */
  lemma TrySyncHandles<T, C>(h: Hierarchy, body: C -> (Outcome<T>, C), args: seq<Arg>, b: Behaviours<T, C>, ctx: C)
    requires body(ctx).0.Threw?
    requires !Choose(h, BuildHandlersMap(args), body(ctx).0.raised).Rethrow?
    requires var hd := Choose(h, BuildHandlersMap(args), body(ctx).0.raised).handler;
             var after := b.onError(hd, body(ctx).0.raised, body(ctx).1).1;
             BuildHandlersMap(args).finally.Some? ==>
               FinallyRaise(b, BuildHandlersMap(args).finally.value, None, after).None?
    ensures var hd := Choose(h, BuildHandlersMap(args), body(ctx).0.raised).handler;
            && TrySync(h, body, args, b, ctx).outcome == b.onError(hd, body(ctx).0.raised, body(ctx).1).0
            && TrySync(h, body, args, b, ctx).calls[1] == RanHandler(hd, body(ctx).0.raised)
  {
  }

  /** A raise from the finally handler, in the context the body and any
      error handler left behind, replaces the pending outcome on every path. */
  lemma TrySyncFinallyRaiseWins<T, C>(h: Hierarchy, body: C -> (Outcome<T>, C), args: seq<Arg>, b: Behaviours<T, C>, ctx: C, x: Raised)
    requires BuildHandlersMap(args).finally.Some?
    requires var t := BuildHandlersMap(args);
             FinallyRaise(b, t.finally.value, ResultSeen(body(ctx).0), Attempt(h, t, b, body, ctx).context) == Some(x)
    ensures TrySync(h, body, args, b, ctx).outcome == Threw(x)
  {
  }
}
