/**
 * The two extensions on `Optional` declared in the playground's shared
 * sources: `orThrow(_:)`, which turns `nil` into a thrown error, and
 * `get(orSet:)`, which reuses the view in an `Optional<UIView>` slot when it
 * already has the wanted class and otherwise replaces it with a new one.
 *
 * Both Swift functions take their argument as an `@autoclosure`, evaluated
 * only when needed. Here that argument is a partial function `() --> X`:
 * the contracts demand that it can be evaluated only on the path that calls it.
 */
module MyOptionals {
  import opened Wrappers
  import opened Views

  // ---------------------------------------------------------------------------
  // orThrow(_:)

  /** Unwraps a present value; on `nil`, throws the error the expression yields. */
  function OrThrow<T, E>(o: Option<T>, errorExpression: () --> E): (r: Result<T, E>)
    requires o.None? ==> errorExpression.requires()
    ensures r.Success? <==> o.Some?
    ensures o.Some? ==> r.value == o.value
    ensures o.None? ==> r.error == errorExpression()
  {
    match o
    case None => Failure(errorExpression())
    case Some(value) => Success(value)
  }

  /** On a present value the error expression is never looked at: any two
      expressions, even ones that cannot be evaluated, give the same result. */
  lemma OrThrowIgnoresErrorWhenPresent<T, E>(o: Option<T>, e1: () --> E, e2: () --> E)
    requires o.Some?
    ensures OrThrow(o, e1) == OrThrow(o, e2) == Success(o.value)
  {
  }

  /** Catching the error again (`try?`) gives back the original optional. */
  lemma OrThrowThenTryIsIdentity<T, E>(o: Option<T>, errorExpression: () --> E)
    requires o.None? ==> errorExpression.requires()
    ensures OrThrow(o, errorExpression).ToOption() == o
  {
  }

  // ---------------------------------------------------------------------------
  // get(orSet:)

  /** The slot already holds a view that `as? target` accepts: its class is
      `target` or lies below it in the class chain. */
  predicate Hits(slot: Option<View>, target: Kind)
    ensures Hits(slot, target) <==> slot.Some? && target in Superclasses(slot.value.kind)
  {
    slot.Some? && IsA(slot.value.kind, target)
  }

  /** The expression can be evaluated and builds a view of class `target`
      (or of a subclass of it), as the generic result type `T` guarantees. */
  ghost predicate Builds(expression: () --> View, target: Kind)
  {
    expression.requires() && IsA(expression().kind, target)
  }

  /** One call of `get(orSet:)` on a slot, as a value: the slot afterwards and
      the view returned. */
  function GetOrSetStep(slot: Option<View>, target: Kind, expression: () --> View): (r: (Option<View>, View))
    requires !Hits(slot, target) ==> Builds(expression, target)
    ensures Hits(slot, target) ==> r.0 == slot && r.1 == slot.value
    ensures !Hits(slot, target) ==> r.1 == expression() && r.0 == Some(r.1)
    ensures r.0 == Some(r.1) && IsA(r.1.kind, target)
  {
    if Hits(slot, target) then
      (slot, slot.value)
    else
      var newView := expression();
      (Some(newView), newView)
  }

  /** A caller-owned `Optional<UIView>` property, such as a cell's accessory view. */
  class ViewSlot {
    var view: Option<View>

    constructor (initial: Option<View>)
      ensures view == initial
    {
      view := initial;
    }

    /** Returns the slot's view if it is already a `target`; otherwise builds
        one, stores it in the slot (dropping whatever was there) and returns it. */
    method GetOrSet(target: Kind, expression: () --> View) returns (v: View)
      requires !Hits(view, target) ==> Builds(expression, target)
      modifies this
      ensures (view, v) == GetOrSetStep(old(view), target, expression)
      ensures Hits(old(view), target) ==> v == old(view).value && view == old(view)
      ensures !Hits(old(view), target) ==> v == expression() && view == Some(v)
      ensures view == Some(v) && IsA(v.kind, target)
    {
      if Hits(view, target) {
        v := view.value;
      } else {
        var newView := expression();
        view := Some(newView);
        v := newView;
      }
    }
  }

  /** A second call with the same target takes the hit path, whatever its
      expression: it returns the same view and leaves the slot as it was. */
  lemma GetOrSetIdempotent(slot: Option<View>, target: Kind, first: () --> View, second: () --> View)
    requires !Hits(slot, target) ==> Builds(first, target)
    ensures Hits(GetOrSetStep(slot, target, first).0, target)
    ensures GetOrSetStep(GetOrSetStep(slot, target, first).0, target, second)
         == GetOrSetStep(slot, target, first)
  {
  }

  /** Replacing a view of another class loses it: neither the slot nor the
      returned view still holds it. */
  lemma GetOrSetDiscardsMismatch(slot: Option<View>, target: Kind, expression: () --> View)
    requires slot.Some? && !IsA(slot.value.kind, target)
    requires Builds(expression, target)
    ensures GetOrSetStep(slot, target, expression).0 != slot
    ensures GetOrSetStep(slot, target, expression).1 != slot.value
  {
  }

  /** A view that casts to a class also casts to every ancestor of that class:
      a slot that hits for a subclass target hits for its superclasses too. */
  lemma HitsForAncestor(slot: Option<View>, sub: Kind, target: Kind)
    requires IsA(sub, target) && Hits(slot, sub)
    ensures Hits(slot, target)
  {
    IsATransitive(slot.value.kind, sub, target);
  }

  /** Only the slot's own class and its ancestors are hits; a target that is a
      proper subclass of the slot's class is a miss. */
  lemma MissForProperSubclass(slot: Option<View>, target: Kind)
    requires slot.Some? && IsA(target, slot.value.kind) && target != slot.value.kind
    ensures !Hits(slot, target)
  {
    if Hits(slot, target) {
      IsAAntisymmetric(target, slot.value.kind);
    }
  }

  /** Asking for a plain `UIView` never replaces a view that is present. */
  lemma GetOrSetUIViewKeepsAnyView(slot: Option<View>, expression: () --> View)
    requires slot.Some?
    ensures Hits(slot, UIView)
    ensures GetOrSetStep(slot, UIView, expression) == (slot, slot.value)
  {
    EveryKindIsAUIView(slot.value.kind);
  }

  /** A run of calls with one target, one expression per call: the slot at the
      end and the views returned, in order. */
  function GetOrSetRun(slot: Option<View>, target: Kind, expressions: seq<() --> View>): (r: (Option<View>, seq<View>))
    requires expressions != [] && !Hits(slot, target) ==> Builds(expressions[0], target)
    ensures |r.1| == |expressions|
    decreases |expressions|
  {
    if expressions == [] then
      (slot, [])
    else
      var (next, v) := GetOrSetStep(slot, target, expressions[0]);
      var (last, vs) := GetOrSetRun(next, target, expressions[1..]);
      (last, [v] + vs)
  }

  /** Once the slot holds a `target`, any number of further calls return that
      view and leave the slot alone. */
  lemma {:induction false} GetOrSetRunAfterHit(slot: Option<View>, target: Kind, expressions: seq<() --> View>)
    requires Hits(slot, target)
    ensures GetOrSetRun(slot, target, expressions).0 == slot
    ensures forall i :: 0 <= i < |expressions| ==> GetOrSetRun(slot, target, expressions).1[i] == slot.value
  {
    if expressions != [] {
      GetOrSetRunAfterHit(slot, target, expressions[1..]);
    }
  }

  /** However many calls are made with one target, at most the first builds a
      view; every call returns that view, and the slot ends up holding it. */
  lemma RepeatedGetOrSetReturnsFirstView(slot: Option<View>, target: Kind, expressions: seq<() --> View>)
    requires |expressions| > 0
    requires !Hits(slot, target) ==> Builds(expressions[0], target)
    ensures GetOrSetRun(slot, target, expressions).1[0] == GetOrSetStep(slot, target, expressions[0]).1
    ensures GetOrSetRun(slot, target, expressions).0 == Some(GetOrSetRun(slot, target, expressions).1[0])
    ensures forall i :: 0 <= i < |expressions| ==>
      GetOrSetRun(slot, target, expressions).1[i] == GetOrSetRun(slot, target, expressions).1[0]
  {
    var next := GetOrSetStep(slot, target, expressions[0]).0;
    GetOrSetRunAfterHit(next, target, expressions[1..]);
  }
}
