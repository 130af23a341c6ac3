# Optional combinators of the SwiftGorgeous `Optional` playground

This project models, in Dafny, the three extensions on Swift's `Optional`
that make up the reusable logic of the `Optional` playground:

- `matching(_:)` keeps a present value only if a predicate accepts it,
  and otherwise returns `nil`.
- `orThrow(_:)` unwraps a present value. On `nil` it throws the error
  that its `@autoclosure` argument produces.
- `get(orSet:)` is a `mutating` method on an `Optional<UIView>` slot. If the
  slot already holds a view that casts to the requested class `T`, it
  returns that view. Otherwise it builds a new `T`, stores it in the slot
  (overwriting whatever was there) and returns it.

Files:

- `wrappers.dfy` (module `Wrappers`): `Option` stands for Swift's `Optional`,
  with `Map` for `Optional.map`. `Result` stands for the outcome of a
  `throws` function.
- `views.dfy` (module `Views`): the view class hierarchy. `Kind` is `UIView`
  or a named subclass of a parent kind. `IsA` is the test behind `as? T`:
  it accepts the class itself and every subclass. `View` is a view object,
  and its `id` stands for object identity.
- `my_optionals.dfy` (module `MyOptionals`): `OrThrow`, and `get(orSet:)` in
  two forms. `GetOrSetStep` is the value-level function. `ViewSlot.GetOrSet`
  is a method that updates a `ViewSlot` object's `view` field in place and
  is proved equal to `GetOrSetStep`. `GetOrSetRun` chains several calls.
- `contents.dfy` (module `Playground`): `Matching`, and the three demo
  lines that chain `matching` with `.map(performSearch)`.

Both `@autoclosure` arguments are partial functions (`() --> X`). The
contracts require an argument to be evaluable only on the path that calls
it. This is how the model says that the error expression and the view
expression are evaluated lazily. The same holds for the predicate given
to `matching`, which is consulted only when a value is present.

## Model

| member | source | states |
|---|---|---|
| `Playground.Matching` | Optional.playground/Contents.swift:16-28 | The result is present iff the input is present and the predicate holds for its value. A present result is the input unchanged. The predicate only has to be defined on a present value. |
| `Playground.MatchingNeverInvents` | Optional.playground/Contents.swift:17-27 | If `matching` returns `Some(v)`, the input was `Some(v)` and the predicate holds for `v`. |
| `Playground.MatchingIdempotent` | Optional.playground/Contents.swift:17-27 | Applying `matching(p)` twice gives the same result as applying it once. |
| `Playground.DemoLongQueryIsSearched` | Optional.playground/Contents.swift:33-36 | `"Something For test"` with `count > 2` passes, so `performSearch` receives the string unchanged. |
| `Playground.DemoNilQueryIsNotSearched` | Optional.playground/Contents.swift:37-38 | A `nil` query with `count > 3` stays `nil`, so `performSearch` is never called. |
| `Playground.DemoFourCharacterQueryIsSearched` | Optional.playground/Contents.swift:40-42 | `"ab c"` (four characters) with `count > 3` passes and is searched. |
| `Playground.PerformSearch` | Optional.playground/Contents.swift:30-32 | `performSearch(with:)` prints one line, the query text unchanged. |
| `Wrappers.Option.Map` | Optional.playground/Contents.swift:35-36 | `.map` calls its closure exactly when a value is present, with that value, and passes `nil` through. |
| `MyOptionals.OrThrow` | Optional.playground/Sources/MyOptionals.swift:24-32 | On a present optional the call succeeds with exactly the wrapped value. On `nil` it fails with exactly the error the expression yields. The expression only has to be evaluable on `nil`. |
| `MyOptionals.OrThrowIgnoresErrorWhenPresent` | Optional.playground/Sources/MyOptionals.swift:25-30 | On a present optional the result does not depend on the error expression, even one that cannot be evaluated. |
| `MyOptionals.OrThrowThenTryIsIdentity` | Optional.playground/Sources/MyOptionals.swift:26-30 | Turning the thrown error back into `nil` gives back the original optional, so `orThrow` loses nothing. |
| `Views.IsA` | Optional.playground/Sources/MyOptionals.swift:74 | The `as? T` test accepts a class exactly when `T` lies on that class's superclass chain, itself included. |
| `MyOptionals.Hits` | Optional.playground/Sources/MyOptionals.swift:74 | `self as? T` succeeds on the slot exactly when the slot is non-`nil` and `T` lies on its view's superclass chain. |
| `Views.IsATransitive` | Optional.playground/Sources/MyOptionals.swift:74 | The `as?` subclass test is transitive. |
| `Views.IsAAntisymmetric` | Optional.playground/Sources/MyOptionals.swift:74 | Two classes that each pass the `as?` test for the other are the same class. |
| `Views.EveryKindIsAUIView` | Optional.playground/Sources/MyOptionals.swift:72-73 | Every view class casts to `UIView`, the slot's element type and the bound on `T`. |
| `MyOptionals.GetOrSetStep` | Optional.playground/Sources/MyOptionals.swift:73-80 | Hit (the slot's view casts to the target): the same view is returned and the slot is unchanged. Miss (`nil`, or a view whose class does not cast to the target: an unrelated class or an ancestor of the target): the view the expression builds is stored and returned, and only this path needs the expression. After either path the slot holds the returned view, and that view is of the target class. |
| `MyOptionals.ViewSlot.GetOrSet` | Optional.playground/Sources/MyOptionals.swift:72-82 | The in-place update of the slot: the new field value and the returned view are what `GetOrSetStep` gives for the old field value. The slot is assigned only on a miss. |
| `MyOptionals.GetOrSetIdempotent` | Optional.playground/Sources/MyOptionals.swift:74-80 | A second call with the same target takes the hit path, whatever its expression. It returns the first call's view and leaves the slot as the first call left it. |
| `MyOptionals.GetOrSetDiscardsMismatch` | Optional.playground/Sources/MyOptionals.swift:74-77 | On a class mismatch the old view is overwritten. Neither the slot nor the returned view still holds it, so the replacement is lossy. |
| `MyOptionals.GetOrSetUIViewKeepsAnyView` | Optional.playground/Sources/MyOptionals.swift:72-80 | With target `UIView`, a present view is always a hit and is never replaced. |
| `MyOptionals.GetOrSetRunAfterHit` | Optional.playground/Sources/MyOptionals.swift:74-80 | Once the slot holds a view of the target class, any number of further calls return that view and leave the slot unchanged. None of their expressions needs to be evaluable, because none is evaluated. |
| `MyOptionals.RepeatedGetOrSetReturnsFirstView` | Optional.playground/Sources/MyOptionals.swift:73-80 | In any run of calls with one target, only the first call can build a view. Every call returns the first call's view, and the slot ends up holding it. Only the first call's expression has to be evaluable, and only when the slot misses. |
| `MyOptionals.HitsForAncestor` | Optional.playground/Sources/MyOptionals.swift:73-74 | A slot whose view casts to a class also hits for every ancestor of that class. |
| `MyOptionals.MissForProperSubclass` | Optional.playground/Sources/MyOptionals.swift:74-77 | A target that is a proper subclass of the slot view's class is a miss, so the view is replaced. |

## Left out

- `watermark` and `encrypt` (Optional.playground/Sources/MyOptionals.swift:38-46) are left out. They only print a line and return `nil`.
- Console output is left out. `performSearch` is modelled as the list of lines it would print, and `.map(performSearch)` returning `Some` stands for "performSearch was called".
- The code inside block comments is left out because it is commentary, not compiled code. So are the playground's `import` lines and its top-level `var`s.
- UIKit is left out. A view is a value with a class tag and an identity number, and `as? T` is the `IsA` test on class tags. Reference identity, aliasing and the view's own mutable properties are not modelled.
- `MyOptionals.OrThrow`: the model cannot observe that the error expression runs exactly once on `nil`, because evaluating a pure Dafny function has no effects. What it does state is that the expression need not be evaluable on the present path.
- `MyOptionals.ViewSlot.GetOrSet`: the model cannot observe that the view expression runs exactly once on a miss, for the same reason.
- Swift's `Error` protocol and `throws` propagation are not modelled. The error is a value of any type, returned as `Result.Failure`.
- Side effects of the closures passed to `matching`, `orThrow` and `get(orSet:)` are not modelled. The closures are pure functions here.
- Swift's `String.count` counts grapheme clusters. The model uses the length of a sequence of characters, which agrees for the ASCII strings in the demos.
