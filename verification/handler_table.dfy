/**
  The handler table built by `buildHandlersMap`: a constructor-to-handler map,
  an optional catch-all and an optional finally, filled by a last-write-wins
  fold over the flattened descriptor list.
 */
module HandlerTable {
  import opened Wrappers
  import opened Categories
  import opened Descriptors

  datatype Table = Table(
    byType: map<Category, HandlerId>,
    catchAll: Option<HandlerId>,
    finally: Option<HandlerId>)

  /** The fold's initial accumulator `{ catch: new Map() }`. */
  const EmptyTable := Table(map[], None, None)

  /** A place in the table one descriptor writes to. */
  datatype Slot = ByType(c: Category) | CatchAllSlot | FinallySlot

  function SlotOf(d: Descriptor): Slot {
    match d
    case CatchEntry(c, _) => ByType(c)
    case CatchAllEntry(_) => CatchAllSlot
    case FinallyEntry(_) => FinallySlot
  }

  /** What the table holds in a slot; `None` when nothing is registered. */
  function Lookup(t: Table, s: Slot): Option<HandlerId> {
    match s
    case ByType(c) => if c in t.byType then Some(t.byType[c]) else None
    case CatchAllSlot => t.catchAll
    case FinallySlot => t.finally
  }

  /** One step of the fold: the descriptor's handler overwrites its own slot
      and every other slot is left as it was. */
  function Register(acc: Table, d: Descriptor): (r: Table)
    ensures Lookup(r, SlotOf(d)) == Some(d.handler)
    ensures forall s :: s != SlotOf(d) ==> Lookup(r, s) == Lookup(acc, s)
  {
    match d
    case CatchEntry(c, h) => acc.(byType := acc.byType[c := h])
    case CatchAllEntry(h) => acc.(catchAll := Some(h))
    case FinallyEntry(h) => acc.(finally := Some(h))
  }

  /** The reduce over the flattened list, left to right. */
  function BuildTable(ds: seq<Descriptor>): (t: Table)
    ensures forall s :: Lookup(t, s).Some? <==> exists i :: 0 <= i < |ds| && SlotOf(ds[i]) == s
  {
    if |ds| == 0 then EmptyTable
    else
      var prefix := ds[..|ds| - 1];
      assert forall i :: 0 <= i < |ds| - 1 ==> prefix[i] == ds[i];
      Register(BuildTable(prefix), ds[|ds| - 1])
  }

  /** Building from one descriptor is one fold step. */
  lemma BuildOne(d: Descriptor)
    ensures BuildTable([d]) == Register(EmptyTable, d)
  {
  }

  /** Building from two descriptors is two fold steps, in order. */
  lemma BuildTwo(d: Descriptor, e: Descriptor)
    ensures BuildTable([d, e]) == Register(Register(EmptyTable, d), e)
  {
    assert [d, e][..1] == [d];
    BuildOne(d);
  }

  /** `buildHandlersMap(...args)`: a slot is filled exactly when some
      argument, single or array, contributes a descriptor that writes it. */
  function BuildHandlersMap(args: seq<Arg>): (t: Table)
    ensures forall s :: Lookup(t, s).Some? <==>
              exists i, d :: 0 <= i < |args| && d in args[i].Items() && SlotOf(d) == s
  {
    var ds := Flatten(args);
    forall s | Lookup(BuildTable(ds), s).Some?
      ensures exists i, d :: 0 <= i < |args| && d in args[i].Items() && SlotOf(d) == s
    {
      var k :| 0 <= k < |ds| && SlotOf(ds[k]) == s;
      assert ds[k] in ds;
    }
    forall s, i, d | 0 <= i < |args| && d in args[i].Items() && SlotOf(d) == s
      ensures Lookup(BuildTable(ds), s).Some?
    {
      assert d in ds;
      var k :| 0 <= k < |ds| && ds[k] == d;
      assert SlotOf(ds[k]) == s;
    }
    BuildTable(ds)
  }

  /** Descriptor `i` is the last one in `ds` that writes slot `s`. */
  predicate IsLastWrite(ds: seq<Descriptor>, i: int, s: Slot) {
    && 0 <= i < |ds|
    && SlotOf(ds[i]) == s
    && forall j :: i < j < |ds| ==> SlotOf(ds[j]) != s
  }

  /** Last write wins: every slot holds the handler of the last descriptor
      that writes it. */
  lemma {:induction false} LastWriteWins(ds: seq<Descriptor>, s: Slot, i: int)
    requires IsLastWrite(ds, i, s)
    ensures Lookup(BuildTable(ds), s) == Some(ds[i].handler)
    decreases |ds|
  {
    var prefix := ds[..|ds| - 1];
    if i < |ds| - 1 {
      assert IsLastWrite(prefix, i, s);
      LastWriteWins(prefix, s, i);
    }
  }

  /** Appending descriptors overrides exactly the slots they write. */
  lemma {:induction false} BuildTableAppend(a: seq<Descriptor>, b: seq<Descriptor>, s: Slot)
    ensures Lookup(BuildTable(a + b), s) ==
              if Lookup(BuildTable(b), s).Some? then Lookup(BuildTable(b), s)
              else Lookup(BuildTable(a), s)
    decreases |b|
  {
    if |b| == 0 {
      assert a + b == a;
    } else {
      var b' := b[..|b| - 1];
      assert (a + b)[..|a + b| - 1] == a + b';
      BuildTableAppend(a, b', s);
    }
  }

  /** Registering `except([A, B, ...], h)` builds the same table as
      registering `except(A, h), except(B, h), ...`, whatever surrounds it. */
  lemma ExceptListEquivalent(pre: seq<Arg>, cs: seq<Category>, handler: HandlerId, post: seq<Arg>)
    ensures BuildHandlersMap(pre + [Except(CtorList(cs), handler)] + post)
         == BuildHandlersMap(pre + SeparateExcepts(cs, handler) + post)
  {
    FlattenAppend(pre + [Except(CtorList(cs), handler)], post);
    FlattenAppend(pre, [Except(CtorList(cs), handler)]);
    FlattenAppend(pre + SeparateExcepts(cs, handler), post);
    FlattenAppend(pre, SeparateExcepts(cs, handler));
    ExceptListFlattensLikeSeparate(cs, handler);
  }

  /** A trailing `catchAll(h)` fills the catch-all slot and nothing else. */
  lemma CatchAllRegisters(args: seq<Arg>, handler: HandlerId)
    ensures BuildHandlersMap(args + [CatchAll(handler)]).catchAll == Some(handler)
    ensures BuildHandlersMap(args + [CatchAll(handler)]).byType == BuildHandlersMap(args).byType
    ensures BuildHandlersMap(args + [CatchAll(handler)]).finally == BuildHandlersMap(args).finally
  {
  }

  /** A trailing `finallyDo(h)` fills the finally slot and nothing else. */
  lemma FinallyDoRegisters(args: seq<Arg>, handler: HandlerId)
    ensures BuildHandlersMap(args + [FinallyDo(handler)]).finally == Some(handler)
    ensures BuildHandlersMap(args + [FinallyDo(handler)]).byType == BuildHandlersMap(args).byType
    ensures BuildHandlersMap(args + [FinallyDo(handler)]).catchAll == BuildHandlersMap(args).catchAll
  {
  }
}
