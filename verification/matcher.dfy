/**
  `findHandler`: the walk up an error's prototype chain for the first
  constructor that has a registered handler.
 */
module Matcher {
  import opened Wrappers
  import opened Categories
  import opened Descriptors

  /** One loop iteration per call: look `c` up; stop at `Error`; otherwise
      move to the prototype, stopping at null or at a prototype equal to the
      one just visited. */
  function FindHandler(h: Hierarchy, byType: map<Category, HandlerId>, c: Category): (r: Option<HandlerId>)
    ensures c in byType ==> r == Some(byType[c])
    ensures r.Some? ==> exists a :: a <= c && a in byType && r.value == byType[a]
    decreases c
  {
    if c in byType then Some(byType[c])
    else if c == ErrorRoot then None
    else match Parent(h, c)
      case None => None
      case Some(p) => if p == c then None else FindHandler(h, byType, p)
  }

  /** Position `k` of `chain` is registered and no earlier position is. */
  predicate FirstRegisteredAt(chain: seq<Category>, byType: map<Category, HandlerId>, k: int) {
    && 0 <= k < |chain|
    && chain[k] in byType
    && forall j :: 0 <= j < k ==> chain[j] !in byType
  }

  /** Some registered category on a chain means a first registered one. */
  lemma {:induction false} FirstRegisteredExists(chain: seq<Category>, byType: map<Category, HandlerId>, a: Category)
    requires a in chain && a in byType
    ensures exists k :: FirstRegisteredAt(chain, byType, k)
    decreases |chain|
  {
    if chain[0] in byType {
      assert FirstRegisteredAt(chain, byType, 0);
    } else {
      FirstRegisteredExists(chain[1..], byType, a);
      var k :| FirstRegisteredAt(chain[1..], byType, k);
      assert FirstRegisteredAt(chain, byType, k + 1);
    }
  }

  /** The matcher reports "no handler" exactly when no category on the
      ancestry, from the concrete type up to and including `Error`, is
      registered. */
  lemma {:induction false} FindHandlerNoneIff(h: Hierarchy, byType: map<Category, HandlerId>, c: Category)
    ensures FindHandler(h, byType, c).None? <==> forall a :: a in Ancestry(h, c) ==> a !in byType
    decreases c
  {
    if c !in byType && Ancestry(h, c) != [c] {
      var p := Parent(h, c).value;
      assert Ancestry(h, c) == [c] + Ancestry(h, p);
      FindHandlerNoneIff(h, byType, p);
    }
  }

  /** The matcher returns the handler of the first registered category on the
      ancestry, most specific first. */
  lemma {:induction false} FindHandlerIsFirstOnAncestry(h: Hierarchy, byType: map<Category, HandlerId>, c: Category, k: int)
    requires FirstRegisteredAt(Ancestry(h, c), byType, k)
    ensures FindHandler(h, byType, c) == Some(byType[Ancestry(h, c)[k]])
    decreases c
  {
    if k > 0 {
      var p := Parent(h, c).value;
      var rest := Ancestry(h, p);
      assert Ancestry(h, c) == [c] + rest;
      forall j | 0 <= j < k - 1 ensures rest[j] !in byType {
        assert rest[j] == Ancestry(h, c)[j + 1];
      }
      FindHandlerIsFirstOnAncestry(h, byType, p, k - 1);
    }
  }

  /** Most specific wins: once the category at position `i` of the ancestry
      is registered, the handler returned is that of a registered category at
      or before `i`, so no ancestor past `i` is ever reached. */
  lemma SubclassBeforeAncestor(h: Hierarchy, byType: map<Category, HandlerId>, c: Category, i: int)
    requires 0 <= i < |Ancestry(h, c)|
    requires Ancestry(h, c)[i] in byType
    ensures exists k :: 0 <= k <= i && FirstRegisteredAt(Ancestry(h, c), byType, k) &&
                        FindHandler(h, byType, c) == Some(byType[Ancestry(h, c)[k]])
  {
    var chain := Ancestry(h, c);
    FirstRegisteredExists(chain, byType, chain[i]);
    var k :| FirstRegisteredAt(chain, byType, k);
    FindHandlerIsFirstOnAncestry(h, byType, c, k);
    assert 0 <= k <= i;
  }

  /** Only the ancestry is consulted: registering or changing a handler for a
      category off the ancestry does not change the result. */
  lemma {:induction false} FindHandlerIgnoresOffChain(h: Hierarchy, byType: map<Category, HandlerId>, c: Category, other: Category, handler: HandlerId)
    requires other !in Ancestry(h, c)
    ensures FindHandler(h, byType[other := handler], c) == FindHandler(h, byType, c)
    decreases c
  {
    var chain := Ancestry(h, c);
    if c !in byType && chain != [c] {
      var p := Parent(h, c).value;
      assert chain == [c] + Ancestry(h, p);
      FindHandlerIgnoresOffChain(h, byType, p, other, handler);
    }
  }

  /** The walk never goes above `Error`: for an error whose ancestry reaches
      `Error`, handlers registered for `Function.prototype` or
      `Object.prototype` are never returned. */
  lemma NeverPastError(h: Hierarchy, byType: map<Category, HandlerId>, c: Category, hf: HandlerId, ho: HandlerId)
    requires ErrorRoot in Ancestry(h, c)
    ensures FindHandler(h, byType[FunctionPrototype := hf][ObjectPrototype := ho], c) == FindHandler(h, byType, c)
  {
    AncestryStopsAtError(h, c);
    FindHandlerIgnoresOffChain(h, byType[FunctionPrototype := hf], c, ObjectPrototype, ho);
    FindHandlerIgnoresOffChain(h, byType, c, FunctionPrototype, hf);
  }
}
