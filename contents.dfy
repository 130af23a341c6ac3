/**
 * The playground page: `matching(_:)`, which keeps an optional's value only
 * if it satisfies a predicate, and the three demo lines that chain it with
 * `.map(performSearch)`.
 */
module Playground {
  import opened Wrappers

  /** Keeps a present value that satisfies `condition`; anything else becomes
      `nil`. `condition` is consulted only when a value is present. */
  function Matching<T>(o: Option<T>, condition: T --> bool): (r: Option<T>)
    requires o.Some? ==> condition.requires(o.value)
    ensures r.Some? <==> o.Some? && condition(o.value)
    ensures r.Some? ==> r == o
  {
    match o
    case None => None
    case Some(value) => if condition(value) then Some(value) else None
  }

  /** `matching` never makes up a value: a result `v` was the input's value
      and satisfied the predicate. */
  lemma MatchingNeverInvents<T>(o: Option<T>, condition: T --> bool, v: T)
    requires o.Some? ==> condition.requires(o.value)
    requires Matching(o, condition) == Some(v)
    ensures o == Some(v) && condition(v)
  {
  }

  /** Filtering twice by the same predicate is filtering once. */
  lemma MatchingIdempotent<T>(o: Option<T>, condition: T --> bool)
    requires o.Some? ==> condition.requires(o.value)
    ensures Matching(Matching(o, condition), condition) == Matching(o, condition)
  {
  }

  /** The lines `performSearch(with:)` prints: the query, once. The `.map`
      result `Some(lines)` stands for "performSearch was called". */
  function PerformSearch(text: string): (printed: seq<string>)
    ensures |printed| == 1 && printed[0] == text
  {
    [text]
  }

  /** A query longer than two characters reaches `performSearch` unchanged. */
  lemma DemoLongQueryIsSearched()
    ensures Matching(Some("Something For test"), (s: string) => |s| > 2).Map(PerformSearch)
         == Some(["Something For test"])
  {
  }

  /** A `nil` query never reaches `performSearch`. */
  lemma DemoNilQueryIsNotSearched()
    ensures Matching(None, (s: string) => |s| > 3).Map(PerformSearch) == None
  {
  }

  /** "ab c" has four characters, so with `count > 3` it is searched. */
  lemma DemoFourCharacterQueryIsSearched()
    ensures Matching(Some("ab c"), (s: string) => |s| > 3).Map(PerformSearch) == Some(["ab c"])
  {
  }
}
