/**
 Order-preserving de-duplication, `Array.from(new Set(xs))`: a `Set`
 remembers the order in which values were first inserted, so the result
 keeps the first occurrence of every value, in the order of those occurrences.
 */
module Sequences {

  /** No value occurs twice. */
  predicate NoDuplicates<T(==)>(s: seq<T>) {
    forall i, j :: 0 <= i < j < |s| ==> s[i] != s[j]
  }

  /** The entries of `xs` at positions where the value occurs for the first time. */
  function Firsts<T(==)>(xs: seq<T>): (r: seq<T>)
    ensures NoDuplicates(r)
    ensures forall i :: 0 <= i < |r| ==> r[i] in xs
    ensures forall i :: 0 <= i < |xs| ==> xs[i] in r
    ensures |r| <= |xs|
  {
    if xs == [] then []
    else
      var init, last := xs[..|xs| - 1], xs[|xs| - 1];
      assert xs == init + [last];
      if last in init then Firsts(init) else Firsts(init) + [last]
  }

  /** Insertion into a `Set` followed by `Array.from`: walks `xs` once, keeping a
      value the first time it is seen. */
  method Dedup<T(==)>(xs: seq<T>) returns (r: seq<T>)
    ensures r == Firsts(xs)
  {
    var seen: set<T> := {};
    r := [];
    var i := 0;
    while i < |xs|
      invariant 0 <= i <= |xs|
      invariant r == Firsts(xs[..i])
      invariant forall x :: x in seen <==> x in xs[..i]
    {
      var next := xs[..i + 1];
      assert next[..|next| - 1] == xs[..i] && next[|next| - 1] == xs[i];
      if xs[i] !in seen {
        seen := seen + {xs[i]};
        r := r + [xs[i]];
      }
      i := i + 1;
    }
    assert xs[..|xs|] == xs;
  }

  /** Appending more values never reorders or drops what was already kept. */
  lemma {:induction false} FirstsPrefix<T>(xs: seq<T>, ys: seq<T>)
    ensures Firsts(xs) <= Firsts(xs + ys)
  {
    if ys == [] {
      assert xs + ys == xs;
    } else {
      var init := ys[..|ys| - 1];
      assert xs + ys == (xs + init) + [ys[|ys| - 1]];
      assert (xs + ys)[..|xs + ys| - 1] == xs + init;
      FirstsPrefix(xs, init);
    }
  }

  /** De-duplicating two values keeps the first, and the second only when it differs. */
  lemma FirstsOfPair<T>(a: T, b: T)
    ensures Firsts([a, b]) == if a == b then [a] else [a, b]
  {
    assert [a, b][..1] == [a];
    assert [a][..0] == [];
  }
}
