/** Mapping a partial function over a sequence, keeping the defined results. */
module Sequences {
  import opened Wrappers

  /** The results of `f` on the elements of `xs` where it gives one, in order. */
  function FilterMap<A, B>(f: A -> Option<B>, xs: seq<A>): seq<B>
    decreases |xs|
  {
    if xs == [] then []
    else
      var init := FilterMap(f, xs[..|xs| - 1]);
      match f(xs[|xs| - 1])
      case Some(y) => init + [y]
      case None => init
  }

  /** Elements are handled one at a time: an element without a result leaves the others alone. */
  lemma {:induction false} FilterMapAppend<A, B>(f: A -> Option<B>, a: seq<A>, b: seq<A>)
    ensures FilterMap(f, a + b) == FilterMap(f, a) + FilterMap(f, b)
    decreases |b|
  {
    if b == [] {
      assert a + b == a;
    } else {
      var b' := b[..|b| - 1];
      assert (a + b)[..|a + b| - 1] == a + b';
      FilterMapAppend(f, a, b');
    }
  }

  /** A value is in the result exactly when some element maps to it; there are no more results than elements. */
  lemma {:induction false} FilterMapMembers<A, B>(f: A -> Option<B>, xs: seq<A>, y: B)
    ensures y in FilterMap(f, xs) <==> exists i :: 0 <= i < |xs| && f(xs[i]) == Some(y)
    ensures |FilterMap(f, xs)| <= |xs|
    decreases |xs|
  {
    if xs != [] {
      var init := xs[..|xs| - 1];
      FilterMapMembers(f, init, y);
      if y in FilterMap(f, xs) && y !in FilterMap(f, init) {
        assert f(xs[|xs| - 1]) == Some(y);
      }
      if exists i :: 0 <= i < |xs| && f(xs[i]) == Some(y) {
        var i :| 0 <= i < |xs| && f(xs[i]) == Some(y);
        if i < |xs| - 1 {
          assert init[i] == xs[i];
        }
      }
    }
  }
}
