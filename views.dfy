/**
 * The part of UIKit's class hierarchy that `get(orSet:)` relies on: every view
 * is an instance of some subclass of `UIView`, and the cast `view as? T`
 * succeeds exactly when the view's dynamic class is `T` or a subclass of `T`.
 */
module Views {

  /** A view class: `UIView` itself, or a named subclass of a parent class. */
  datatype Kind = UIView | Subclass(name: string, parent: Kind)

  /** A view object. `id` stands for object identity, so two separately built
      views of the same class are distinct values. */
  datatype View = View(kind: Kind, id: nat)

  /** The chain of classes from `k` up to `UIView`, `k` first. */
  function Superclasses(k: Kind): seq<Kind>
  {
    match k
    case UIView => [UIView]
    case Subclass(_, p) => [k] + Superclasses(p)
  }

  /** `k` is `t` or one of its descendants: the test behind `as? T`. It
      accepts exactly the classes on `k`'s superclass chain. */
  predicate IsA(k: Kind, t: Kind)
    ensures IsA(k, t) <==> t in Superclasses(k)
    decreases k
  {
    k == t || (k.Subclass? && IsA(k.parent, t))
  }

  /** Number of superclass steps from `k` up to `UIView`. */
  function Depth(k: Kind): nat
  {
    match k
    case UIView => 0
    case Subclass(_, p) => 1 + Depth(p)
  }

  /** A subclass lies strictly deeper than any proper ancestor. */
  lemma {:induction false} IsADeeper(k: Kind, t: Kind)
    requires IsA(k, t)
    ensures Depth(t) <= Depth(k)
    ensures k != t ==> Depth(t) < Depth(k)
  {
    if k != t {
      IsADeeper(k.parent, t);
    }
  }

  /** Casting to an ancestor of an ancestor succeeds. */
  lemma {:induction false} IsATransitive(a: Kind, b: Kind, c: Kind)
    requires IsA(a, b) && IsA(b, c)
    ensures IsA(a, c)
  {
    if a != b {
      IsATransitive(a.parent, b, c);
    }
  }

  /** Two classes each a subclass of the other are the same class. */
  lemma IsAAntisymmetric(a: Kind, b: Kind)
    requires IsA(a, b) && IsA(b, a)
    ensures a == b
  {
    IsADeeper(a, b);
    IsADeeper(b, a);
  }

  /** Every view class descends from `UIView`, so `as? UIView` never fails. */
  lemma {:induction false} EveryKindIsAUIView(k: Kind)
    ensures IsA(k, UIView)
  {
    match k
    case UIView =>
    case Subclass(_, p) => EveryKindIsAUIView(p);
  }
}
