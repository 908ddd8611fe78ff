/**
  Handler descriptors and their constructors `except`, `catchAll` and
  `finallyDo`, plus the one-level flattening of the variadic argument list.

  A handler is a function value; here each is named by a token, and the
  dispatch core is given separately what each token does when invoked.
 */
module Descriptors {
  import opened Categories

  type HandlerId = nat

  /** The three descriptor kinds, tagged 'catch', 'catchAll' and 'finally'. */
  datatype Descriptor =
    | CatchEntry(errCtor: Category, handler: HandlerId)
    | CatchAllEntry(handler: HandlerId)
    | FinallyEntry(handler: HandlerId)

  /** One variadic argument: a single descriptor or an array of them. */
  datatype Arg = Single(d: Descriptor) | Group(ds: seq<Descriptor>) {

    /** The descriptors this argument contributes once flattened. */
    function Items(): seq<Descriptor> {
      match this
      case Single(d) => [d]
      case Group(ds) => ds
    }
  }

  /** The first argument of `except`: one constructor, or an array of them. */
  datatype CtorSpec = OneCtor(c: Category) | CtorList(cs: seq<Category>) {

    function Ctors(): seq<Category> {
      match this
      case OneCtor(c) => [c]
      case CtorList(cs) => cs
    }
  }

  /** `except(errCtor, handler)`: one 'catch' descriptor per constructor, in
      order, all sharing the handler; an array argument yields an array, a
      single constructor a single descriptor. */
  function Except(spec: CtorSpec, handler: HandlerId): (a: Arg)
    ensures a.Single? <==> spec.OneCtor?
    ensures |a.Items()| == |spec.Ctors()|
    ensures forall i :: 0 <= i < |a.Items()| ==>
              a.Items()[i] == CatchEntry(spec.Ctors()[i], handler)
  {
    match spec
    case OneCtor(c) => Single(CatchEntry(c, handler))
    case CtorList(cs) => Group(seq(|cs|, i requires 0 <= i < |cs| => CatchEntry(cs[i], handler)))
  }

  /** `catchAll(handler)`: a single descriptor of kind 'catchAll'. */
  function CatchAll(handler: HandlerId): (a: Arg)
    ensures a.Items() == [CatchAllEntry(handler)]
  {
    Single(CatchAllEntry(handler))
  }

  /** `finallyDo(handler)`: a single descriptor of kind 'finally'. */
  function FinallyDo(handler: HandlerId): (a: Arg)
    ensures a.Items() == [FinallyEntry(handler)]
  {
    Single(FinallyEntry(handler))
  }

  /** `Array.prototype.concat.apply([], args)`: splices every array argument
      into the list, one level deep, keeping argument order. */
  function Flatten(args: seq<Arg>): (ds: seq<Descriptor>)
    ensures forall d :: d in ds <==> exists i :: 0 <= i < |args| && d in args[i].Items()
  {
    if |args| == 0 then []
    else
      var rest := Flatten(args[..|args| - 1]);
      assert forall i :: 0 <= i < |args| - 1 ==> args[..|args| - 1][i] == args[i];
      rest + args[|args| - 1].Items()
  }

  /** A single argument flattens to the descriptors it contributes. */
  lemma FlattenOne(a: Arg)
    ensures Flatten([a]) == a.Items()
  {
  }

  /** Two arguments flatten to their descriptors in order. */
  lemma FlattenTwo(a: Arg, b: Arg)
    ensures Flatten([a, b]) == a.Items() + b.Items()
  {
    assert [a, b][..1] == [a];
    FlattenOne(a);
  }

  /** Flattening distributes over concatenation of argument lists. */
  lemma {:induction false} FlattenAppend(a: seq<Arg>, b: seq<Arg>)
    ensures Flatten(a + b) == Flatten(a) + Flatten(b)
    decreases |b|
  {
    if |b| == 0 {
      assert a + b == a;
    } else {
      var b' := b[..|b| - 1];
      assert (a + b)[..|a + b| - 1] == a + b';
      FlattenAppend(a, b');
    }
  }

  /** One separate `except(c, handler)` argument per constructor. */
  function SeparateExcepts(cs: seq<Category>, handler: HandlerId): (args: seq<Arg>)
    ensures |args| == |cs|
    ensures forall i :: 0 <= i < |cs| ==> args[i] == Except(OneCtor(cs[i]), handler)
  {
    seq(|cs|, i requires 0 <= i < |cs| => Except(OneCtor(cs[i]), handler))
  }

  /** Dropping the last constructor of a list drops the last descriptor and
      the last separate argument. */
  lemma ExceptListSnoc(cs: seq<Category>, handler: HandlerId)
    requires |cs| > 0
    ensures var cs', c := cs[..|cs| - 1], cs[|cs| - 1];
            && Except(CtorList(cs), handler).Items() == Except(CtorList(cs'), handler).Items() + [CatchEntry(c, handler)]
            && SeparateExcepts(cs, handler) == SeparateExcepts(cs', handler) + [Except(OneCtor(c), handler)]
  {
  }

  /** `except([A, B, ...], h)` flattens to exactly what `except(A, h),
      except(B, h), ...` flattens to. */
  lemma {:induction false} ExceptListFlattensLikeSeparate(cs: seq<Category>, handler: HandlerId)
    ensures Flatten([Except(CtorList(cs), handler)]) == Flatten(SeparateExcepts(cs, handler))
    decreases |cs|
  {
    FlattenOne(Except(CtorList(cs), handler));
    if |cs| == 0 {
      assert SeparateExcepts(cs, handler) == [];
    } else {
      var cs' := cs[..|cs| - 1];
      var c := cs[|cs| - 1];
      ExceptListFlattensLikeSeparate(cs', handler);
      FlattenOne(Except(CtorList(cs'), handler));
      FlattenOne(Except(OneCtor(c), handler));
      ExceptListSnoc(cs, handler);
      FlattenAppend(SeparateExcepts(cs', handler), [Except(OneCtor(c), handler)]);
    }
  }
}
