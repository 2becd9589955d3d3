/**
 The few JavaScript value conventions the application's logic relies on:
 `null`/`undefined` as an optional value, the truthiness of a string
 (only the empty string is falsy), and the `a || b` fallback idiom.
 */
module Js {

  /** A value that may be `null` or `undefined` (None) or present (Some). */
  datatype Option<+T> = None | Some(value: T)

  /** A possibly-missing string is truthy exactly when it is present and non-empty. */
  predicate Truthy(s: Option<string>) {
    s.Some? && s.value != ""
  }

  /** `s || fallback` for a possibly-missing string. */
  function OrElse(s: Option<string>, fallback: string): (r: string)
    ensures Truthy(s) ==> r == s.value
    ensures !Truthy(s) ==> r == fallback
  {
    if Truthy(s) then s.value else fallback
  }

  /** `xs.filter(Boolean)` on an array of possibly-missing strings:
      keeps, in order, the entries that are present and non-empty. */
  function Compact(xs: seq<Option<string>>): (r: seq<string>)
    ensures forall s :: s in r <==> s != "" && Some(s) in xs
    ensures |r| <= |xs|
  {
    if xs == [] then []
    else
      var rest := Compact(xs[1..]);
      assert xs == [xs[0]] + xs[1..];
      if Truthy(xs[0]) then [xs[0].value] + rest else rest
  }

  /** Filtering keeps the order of the surviving entries: it distributes over concatenation. */
  lemma {:induction false} CompactAppend(xs: seq<Option<string>>, ys: seq<Option<string>>)
    ensures Compact(xs + ys) == Compact(xs) + Compact(ys)
  {
    if xs == [] {
      assert xs + ys == ys;
    } else {
      assert (xs + ys)[1..] == xs[1..] + ys;
      CompactAppend(xs[1..], ys);
    }
  }
}
