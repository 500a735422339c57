/**
 * Runtime classes of Java objects, as far as the filters and the AI task
 * list look at them: a class has a name and at most one superclass.
 * Class identity (`getClass() == other.getClass()`) is equality of
 * `ClassRef` values.
 */
module JavaClasses {
  import opened Wrappers

  datatype ClassRef = ClassRef(name: string, superclass: Option<ClassRef>)

  /** Number of superclass links above `c`. */
  function Depth(c: ClassRef): nat
    decreases c
  {
    match c.superclass
    case None => 0
    case Some(s) => 1 + Depth(s)
  }

  /** `target.isAssignableFrom(c)`: `c` is `target` or inherits from it. */
  predicate IsAssignableFrom(target: ClassRef, c: ClassRef)
    decreases c
  {
    c == target || (c.superclass.Some? && IsAssignableFrom(target, c.superclass.value))
  }

  /** `sub` extends `sup`, directly or through intermediate classes. */
  predicate IsProperSubclass(sub: ClassRef, sup: ClassRef) {
    sub.superclass.Some? && IsAssignableFrom(sup, sub.superclass.value)
  }

  /** A class is assignable only to classes at or above it. */
  lemma {:induction false} AssignableDepth(target: ClassRef, c: ClassRef)
    requires IsAssignableFrom(target, c)
    ensures Depth(target) <= Depth(c)
    decreases c
  {
    if c != target {
      AssignableDepth(target, c.superclass.value);
    }
  }

  /** A proper subclass is never the class it extends. */
  lemma ProperSubclassDiffers(sub: ClassRef, sup: ClassRef)
    requires IsProperSubclass(sub, sup)
    ensures sub != sup
    ensures !IsAssignableFrom(sub, sup)
  {
    AssignableDepth(sup, sub.superclass.value);
    if IsAssignableFrom(sub, sup) {
      AssignableDepth(sub, sup);
    }
  }

  /** `isAssignableFrom` is transitive. */
  lemma {:induction false} AssignableTransitive(a: ClassRef, b: ClassRef, c: ClassRef)
    requires IsAssignableFrom(a, b) && IsAssignableFrom(b, c)
    ensures IsAssignableFrom(a, c)
    decreases c
  {
    if c != b {
      AssignableTransitive(a, b, c.superclass.value);
    }
  }
}
