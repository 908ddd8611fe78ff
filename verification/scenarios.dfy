/**
  The repository's example scenarios, stated over the class hierarchy they
  use: `ErrorA extends Error`, `ErrorB extends ErrorA`,
  `OtherError extends Error`.
 */
module Scenarios {
  import opened Wrappers
  import opened Categories
  import opened Descriptors
  import opened HandlerTable
  import opened Matcher
  import opened Dispatch

  const ErrorA: Category := 3
  const ErrorB: Category := 4
  const OtherError: Category := 5

  const Classes: Hierarchy :=
    [None, Some(ObjectPrototype), Some(FunctionPrototype), Some(ErrorRoot), Some(ErrorA), Some(ErrorRoot)]

  function Decide(args: seq<Arg>, e: Raised): Choice {
    Choose(Classes, BuildHandlersMap(args), e)
  }

  /** The table of `except(ErrorB, hb), except(ErrorA, ha)`. */
  lemma BothRegistered(hb: HandlerId, ha: HandlerId)
    ensures BuildHandlersMap([Except(OneCtor(ErrorB), hb), Except(OneCtor(ErrorA), ha)]).byType
            == map[ErrorB := hb, ErrorA := ha]
  {
    var args := [Except(OneCtor(ErrorB), hb), Except(OneCtor(ErrorA), ha)];
    FlattenTwo(args[0], args[1]);
    assert Flatten(args) == [CatchEntry(ErrorB, hb), CatchEntry(ErrorA, ha)];
    BuildTwo(CatchEntry(ErrorB, hb), CatchEntry(ErrorA, ha));
  }

  /** With handlers for `ErrorB` and `ErrorA`, an `ErrorA` gets its own
      handler. */
  lemma OwnHandlerForErrorA(hb: HandlerId, ha: HandlerId)
    ensures Decide([Except(OneCtor(ErrorB), hb), Except(OneCtor(ErrorA), ha)], ErrorObject(ErrorA, 0)) == Typed(ha)
  {
  }

  /** With handlers for `ErrorB` and `ErrorA`, an `ErrorB` gets its own
      handler, not its ancestor's. */
  lemma SubclassHandlerPreferred(hb: HandlerId, ha: HandlerId)
    ensures Decide([Except(OneCtor(ErrorB), hb), Except(OneCtor(ErrorA), ha)], ErrorObject(ErrorB, 0)) == Typed(hb)
  {
    BothRegistered(hb, ha);
    assert FindHandler(Classes, map[ErrorB := hb, ErrorA := ha], ErrorB) == Some(hb);
  }

  /** With only `ErrorA` registered, an `ErrorB` gets the `ErrorA` handler. */
  lemma AncestorHandlerCatchesSubclass(ha: HandlerId)
    ensures Decide([Except(OneCtor(ErrorA), ha)], ErrorObject(ErrorB, 0)) == Typed(ha)
  {
    FlattenOne(Except(OneCtor(ErrorA), ha));
    BuildOne(CatchEntry(ErrorA, ha));
    var t := BuildHandlersMap([Except(OneCtor(ErrorA), ha)]);
    assert t.byType == map[ErrorA := ha];
    assert FindHandler(Classes, t.byType, ErrorB) == Some(ha);
  }

  /** `except(Error, ...)` catches `OtherError`: the root itself is
      eligible. */
  lemma RootHandlerCatchesAnyError(he: HandlerId)
    ensures Decide([Except(OneCtor(ErrorRoot), he)], ErrorObject(OtherError, 0)) == Typed(he)
  {
    FlattenOne(Except(OneCtor(ErrorRoot), he));
    BuildOne(CatchEntry(ErrorRoot, he));
    var t := BuildHandlersMap([Except(OneCtor(ErrorRoot), he)]);
    assert t.byType == map[ErrorRoot := he];
    assert FindHandler(Classes, t.byType, OtherError) == Some(he);
  }

  /** `OtherError` with only an `ErrorA` handler and no catch-all is raised
      again. */
  lemma RethrowsUnhandled(ha: HandlerId)
    ensures Decide([Except(OneCtor(ErrorA), ha)], ErrorObject(OtherError, 7)) == Rethrow
  {
    FlattenOne(Except(OneCtor(ErrorA), ha));
    BuildOne(CatchEntry(ErrorA, ha));
    var onlyA := BuildHandlersMap([Except(OneCtor(ErrorA), ha)]);
    assert onlyA.byType == map[ErrorA := ha] && onlyA.catchAll == None;
    assert FindHandler(Classes, onlyA.byType, OtherError) == None;
  }

  /** A raised string goes to the catch-all. */
  lemma CatchAllTakesAnyValue(hc: HandlerId)
    ensures Decide([CatchAll(hc)], OtherValue(1)) == Fallback(hc)
  {
  }

  /** One handler for `[ErrorA, OtherError]` serves both classes. */
  lemma OneHandlerManyTypes(h: HandlerId)
    ensures Decide([Except(CtorList([ErrorA, OtherError]), h)], ErrorObject(ErrorA, 0)) == Typed(h)
    ensures Decide([Except(CtorList([ErrorA, OtherError]), h)], ErrorObject(OtherError, 0)) == Typed(h)
  {
    FlattenOne(Except(CtorList([ErrorA, OtherError]), h));
    assert Except(CtorList([ErrorA, OtherError]), h).Items() == [CatchEntry(ErrorA, h), CatchEntry(OtherError, h)];
    BuildTwo(CatchEntry(ErrorA, h), CatchEntry(OtherError, h));
    var t := BuildHandlersMap([Except(CtorList([ErrorA, OtherError]), h)]);
    assert t.byType == map[ErrorA := h, OtherError := h];
    assert FindHandler(Classes, t.byType, ErrorA) == Some(h);
    assert FindHandler(Classes, t.byType, OtherError) == Some(h);
  }

  /** Handlers of the finally scenario: handler 0 returns "error_a"; the
      finally handler records that it ran in the context. */
  const Recorder: Behaviours<string, bool> :=
    Behaviours((hd: HandlerId, e: Raised, ran: bool) => (Returned("error_a"), ran),
               (hd: HandlerId, result: Option<string>, ran: bool) => (Returned(()), true))

  /** `finallyDo` runs after a computation that returns "ok" and after one
      that raises a handled `ErrorA`; the results are "ok" and "error_a". */
  lemma FinallyRunsOnBothPaths()
    ensures var r := TrySync(Classes, (ran: bool) => (Returned("ok"), ran),
                             [Except(OneCtor(ErrorA), 0), FinallyDo(1)], Recorder, false);
            r.outcome == Returned("ok") && r.context && r.calls == [RanBody, RanFinally(1, Some("ok"))]
    ensures var r := TrySync(Classes, (ran: bool) => (Threw(ErrorObject(ErrorA, 0)), ran),
                             [Except(OneCtor(ErrorA), 0), FinallyDo(1)], Recorder, false);
            && r.outcome == Returned("error_a") && r.context
            && r.calls == [RanBody, RanHandler(0, ErrorObject(ErrorA, 0)), RanFinally(1, None)]
  {
    FlattenTwo(Except(OneCtor(ErrorA), 0), FinallyDo(1));
    assert Flatten([Except(OneCtor(ErrorA), 0), FinallyDo(1)]) == [CatchEntry(ErrorA, 0), FinallyEntry(1)];
    BuildTwo(CatchEntry(ErrorA, 0), FinallyEntry(1));
    var t := BuildHandlersMap([Except(OneCtor(ErrorA), 0), FinallyDo(1)]);
    assert t.byType == map[ErrorA := 0] && t.finally == Some(1);
    assert Choose(Classes, t, ErrorObject(ErrorA, 0)) == Typed(0);
  }
}
