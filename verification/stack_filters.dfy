/**
 * Item-stack filters: predicates over stacks built from the host's
 * inventory queries. Stacks (`S`), items (`I`) and blocks (`B`) are left
 * abstract; the queries the filters delegate to are the fields of `Host`.
 */
module StackFilters {
  import opened JavaClasses
  import opened Streams

  /** The inventory helpers the filters delegate to. */
  datatype Host<!S, !I> = Host(
    isEmpty: S -> bool,
    /** `isItemEqual(a, b)`. */
    isItemEqual: (S, S) -> bool,
    /** `matchesFilter(filter, stack)`. */
    matchesFilter: (S, S) -> bool,
    getItem: S -> I,
    classOf: I -> ClassRef)

  /** `nonEmpty`. */
  function NonEmpty<S(!new), I>(h: Host<S, I>): (p: S -> bool)
    ensures forall s :: p(s) <==> !h.isEmpty(s)
  {
    s => !h.isEmpty(s)
  }

  /** `of(Class)`: a non-empty stack whose item's class is the given class or a subclass of it. */
  function OfClass<S(!new), I>(h: Host<S, I>, itemClass: ClassRef): (f: S -> bool)
    ensures forall s :: h.isEmpty(s) ==> !f(s)
    ensures forall s :: !h.isEmpty(s) && h.classOf(h.getItem(s)) == itemClass ==> f(s)
  {
    s => !h.isEmpty(s) && IsAssignableFrom(itemClass, h.classOf(h.getItem(s)))
  }

  /** A filter for a class accepts whatever a filter for one of its subclasses accepts. */
  lemma OfClassWidens<S(!new), I>(h: Host<S, I>, sub: ClassRef, sup: ClassRef, s: S)
    requires IsAssignableFrom(sup, sub)
    requires OfClass(h, sub)(s)
    ensures OfClass(h, sup)(s)
  {
    AssignableTransitive(sup, sub, h.classOf(h.getItem(s)));
  }

  /** `of(Item)`: a non-empty stack of exactly that item. */
  function OfItem<S(!new), I(==)>(h: Host<S, I>, item: I): (f: S -> bool)
    ensures forall s :: f(s) <==> !h.isEmpty(s) && h.getItem(s) == item
  {
    s => !h.isEmpty(s) && h.getItem(s) == item
  }

  /** `of(RailcraftItems)`: a non-empty stack the registry entry's own `isEqual` accepts. */
  function OfRailcraftItem<S(!new), I>(h: Host<S, I>, isEqual: S -> bool): (f: S -> bool)
    ensures forall s :: h.isEmpty(s) ==> !f(s)
    ensures forall s :: !h.isEmpty(s) ==> (f(s) <==> isEqual(s))
  {
    s => !h.isEmpty(s) && isEqual(s)
  }

  /** `of(Block)`: a non-empty stack of the block's item form. */
  function OfBlock<S(!new), I(==), B>(h: Host<S, I>, itemFromBlock: B -> I, block: B): (f: S -> bool)
    ensures forall s :: f(s) <==> OfItem(h, itemFromBlock(block))(s)
  {
    s => !h.isEmpty(s) && h.getItem(s) == itemFromBlock(block)
  }

  /** `matchesAny(inv)`: some stack of the inventory, used as a filter, accepts. */
  function MatchesAny<S(!new), I>(h: Host<S, I>, inv: seq<S>): (f: S -> bool)
    ensures forall s :: f(s) <==> exists k :: 0 <= k < |inv| && h.matchesFilter(inv[k], s)
    ensures inv == [] ==> forall s :: !f(s)
  {
    s => AnyMatch(inv, filter => h.matchesFilter(filter, s))
  }

  /** `isItemEqual(stack, collection)`: item-equal to some member of the collection. */
  function IsItemEqualToAny<S(!new), I>(h: Host<S, I>, stack: S, stacks: seq<S>): bool {
    AnyMatch(stacks, other => h.isItemEqual(stack, other))
  }

  /**
   * `anyOf(collection)`: item-equal to one of the stacks; a collection that
   * is empty or holds only empty stacks accepts everything.
   */
  function AnyOf<S(!new), I>(h: Host<S, I>, stacks: seq<S>): (f: S -> bool)
    ensures (forall k :: 0 <= k < |stacks| ==> h.isEmpty(stacks[k])) ==> forall s :: f(s)
    ensures forall s :: f(s) <==>
      (forall k :: 0 <= k < |stacks| ==> h.isEmpty(stacks[k])) ||
      (exists k :: 0 <= k < |stacks| && h.isItemEqual(s, stacks[k]))
  {
    s => stacks == [] || AllMatch(stacks, h.isEmpty) || IsItemEqualToAny(h, s, stacks)
  }

  /** `anyOf(varargs)`: the same filter over the array's elements. */
  function AnyOfArray<S(!new), I>(h: Host<S, I>, stacks: array<S>): (f: S -> bool)
    reads stacks
    ensures forall s :: f(s) <==> AnyOf(h, stacks[..])(s)
  {
    AnyOf(h, stacks[..])
  }

  /** `none()`: rejects every stack. */
  function Nothing<S(!new)>(): (f: S -> bool)
    ensures forall s :: !f(s)
  {
    s => false
  }

  /**
   * `noneOf(collection)`: a non-empty stack that is item-equal to none of
   * the non-empty stacks; an empty stack is always rejected.
   */
  function NoneOf<S(!new), I>(h: Host<S, I>, stacks: seq<S>): (f: S -> bool)
    ensures forall s :: h.isEmpty(s) ==> !f(s)
  {
    s => !h.isEmpty(s) && NoneMatch(Filter(stacks, NonEmpty(h)), filter => h.isItemEqual(s, filter))
  }

  /** `noneOf(varargs)`: the same filter over the array's elements. */
  function NoneOfArray<S(!new), I>(h: Host<S, I>, stacks: array<S>): (f: S -> bool)
    reads stacks
    ensures forall s :: f(s) <==> NoneOf(h, stacks[..])(s)
  {
    NoneOf(h, stacks[..])
  }

  /** A non-empty stack passes `noneOf` exactly when no non-empty entry is item-equal to it. */
  lemma NoneOfAccepts<S(!new), I>(h: Host<S, I>, stacks: seq<S>, s: S)
    requires !h.isEmpty(s)
    ensures NoneOf(h, stacks)(s) <==>
      forall k :: 0 <= k < |stacks| && !h.isEmpty(stacks[k]) ==> !h.isItemEqual(s, stacks[k])
  {
  }

  /** With no non-empty entries, `noneOf` accepts every non-empty stack. */
  lemma NoneOfWithoutEntries<S(!new), I>(h: Host<S, I>, stacks: seq<S>, s: S)
    requires forall k :: 0 <= k < |stacks| ==> h.isEmpty(stacks[k])
    requires !h.isEmpty(s)
    ensures NoneOf(h, stacks)(s)
  {
    NoneOfAccepts(h, stacks, s);
  }
}
