/** An optional value: `None` stands for the source's `undefined` (no handler
    registered, no result to pass on). */
module Wrappers {

  datatype Option<+T> = None | Some(value: T)
}

/**
  Error categories and their prototype chains.

  A category is the identity of a constructor object: `e.constructor`, and
  every object reached from it by `Object.getPrototypeOf`. The runtime's
  prototype links become an explicit, finite parent table.
 */
module Categories {
  import opened Wrappers

  type Category = nat

  /** The built-in chain every class constructor ends in:
      Error -> Function.prototype -> Object.prototype -> null. */
  const ObjectPrototype: Category := 0
  const FunctionPrototype: Category := 1
  const ErrorRoot: Category := 2

  /** `parents[c]` is the prototype of constructor `c`, `None` for null.
      Every prototype is numbered no higher than what inherits from it. This
      admits acyclic chains and, as the only cycle, a prototype numbered
      equal to its child: the self-link that the walk guards against. Longer
      cycles are not representable. The first three entries are the built-in
      chain. */
  predicate WellFormed(parents: seq<Option<Category>>) {
    && |parents| >= 3
    && parents[ObjectPrototype] == None
    && parents[FunctionPrototype] == Some(ObjectPrototype)
    && parents[ErrorRoot] == Some(FunctionPrototype)
    && forall c :: 0 <= c < |parents| && parents[c].Some? ==> parents[c].value <= c
  }

  type Hierarchy = p: seq<Option<Category>> | WellFormed(p)
    witness [None, Some(ObjectPrototype), Some(FunctionPrototype)]

  /** `Object.getPrototypeOf(c)`; a constructor outside the table has a null
      prototype. */
  function Parent(h: Hierarchy, c: Category): (p: Option<Category>)
    ensures p.Some? ==> p.value <= c
  {
    if c < |h| then h[c] else None
  }

  /** The walk stops after visiting `c`: it is the root `Error`, its prototype
      is null, or its prototype is itself. */
  predicate WalkEndsAt(h: Hierarchy, c: Category) {
    c == ErrorRoot || Parent(h, c).None? || Parent(h, c) == Some(c)
  }

  /** The categories the matcher visits, most specific first: `c` itself, then
      its prototypes, up to and including `Error`, and never past it. */
  function Ancestry(h: Hierarchy, c: Category): (chain: seq<Category>)
    ensures |chain| >= 1 && chain[0] == c
    ensures |chain| <= c + 1
    ensures forall i, j :: 0 <= i < j < |chain| ==> chain[j] < chain[i]
    ensures forall i :: 0 <= i < |chain| - 1 ==>
              !WalkEndsAt(h, chain[i]) && Parent(h, chain[i]) == Some(chain[i + 1])
    ensures WalkEndsAt(h, chain[|chain| - 1])
    decreases c
  {
    if c == ErrorRoot then [c]
    else match Parent(h, c)
      case None => [c]
      case Some(p) => if p == c then [c] else [c] + Ancestry(h, p)
  }

  /** Once the walk reaches `Error` it goes no further: `Error` is the last
      category visited, and the built-in objects above it are never visited. */
  lemma AncestryStopsAtError(h: Hierarchy, c: Category)
    requires ErrorRoot in Ancestry(h, c)
    ensures Ancestry(h, c)[|Ancestry(h, c)| - 1] == ErrorRoot
    ensures FunctionPrototype !in Ancestry(h, c)
    ensures ObjectPrototype !in Ancestry(h, c)
  {
  }
}
