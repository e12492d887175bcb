/** Filter-map over sequences: the shape of the conversion loops that push, for each input
    element in turn, what it converts to, and skip the elements that convert to nothing. */
module Lists {
  import opened Wrappers

  /** The outputs `f` gives over `xs`, in input order, the absent ones skipped. Folded from
      the end, as a loop pushing to the back builds it. */
  function FilterMap<A, B>(f: A -> Option<B>, xs: seq<A>): (r: seq<B>)
    ensures |r| <= |xs|
  {
    if xs == [] then [] else FilterMap(f, xs[..|xs| - 1]) + OptionToSeq(f(xs[|xs| - 1]))
  }

  /** Converting one more element appends its output, if it has one. */
  lemma FilterMapPush<A, B>(f: A -> Option<B>, xs: seq<A>, x: A)
    ensures FilterMap(f, xs + [x]) == FilterMap(f, xs) + OptionToSeq(f(x))
  {
    assert (xs + [x])[..|xs|] == xs;
  }

  /** Filter-map distributes over concatenation: each input contributes its own output in
      input order. */
  lemma {:induction false} FilterMapAppend<A, B>(f: A -> Option<B>, a: seq<A>, b: seq<A>)
    ensures FilterMap(f, a + b) == FilterMap(f, a) + FilterMap(f, b)
    decreases |b|
  {
    if b == [] {
      assert a + b == a;
    } else {
      var init, x := b[..|b| - 1], b[|b| - 1];
      assert b == init + [x];
      assert a + b == (a + init) + [x];
      var tail := OptionToSeq(f(x));
      calc {
        FilterMap(f, a + b);
        { FilterMapPush(f, a + init, x); }
        FilterMap(f, a + init) + tail;
        { FilterMapAppend(f, a, init); }
        (FilterMap(f, a) + FilterMap(f, init)) + tail;
        FilterMap(f, a) + (FilterMap(f, init) + tail);
        { FilterMapPush(f, init, x); }
        FilterMap(f, a) + FilterMap(f, b);
      }
    }
  }

  /** Where every element converts, filter-map is a map: same length, element by element. */
  lemma {:induction false} FilterMapTotal<A, B>(f: A -> Option<B>, xs: seq<A>)
    requires forall i :: 0 <= i < |xs| ==> f(xs[i]).Some?
    ensures |FilterMap(f, xs)| == |xs|
    ensures forall i :: 0 <= i < |xs| ==> FilterMap(f, xs)[i] == f(xs[i]).value
  {
    if xs != [] {
      var init, x := xs[..|xs| - 1], xs[|xs| - 1];
      assert xs == init + [x];
      FilterMapTotal(f, init);
      FilterMapPush(f, init, x);
      var r, r0 := FilterMap(f, xs), FilterMap(f, init);
      forall i | 0 <= i < |xs| ensures r[i] == f(xs[i]).value {
        if i < |init| {
          assert xs[i] == init[i] && r[i] == r0[i];
        }
      }
    }
  }

  /** Every output is what some input element converted to. */
  lemma {:induction false} FilterMapSources<A, B>(f: A -> Option<B>, xs: seq<A>)
    ensures forall j :: 0 <= j < |FilterMap(f, xs)| ==>
      exists i :: 0 <= i < |xs| && f(xs[i]) == Some(FilterMap(f, xs)[j])
  {
    if xs != [] {
      var init, x := xs[..|xs| - 1], xs[|xs| - 1];
      assert xs == init + [x];
      FilterMapSources(f, init);
      FilterMapPush(f, init, x);
      forall j | 0 <= j < |FilterMap(f, xs)|
        ensures exists i :: 0 <= i < |xs| && f(xs[i]) == Some(FilterMap(f, xs)[j])
      {
        if j < |FilterMap(f, init)| {
          var i :| 0 <= i < |init| && f(init[i]) == Some(FilterMap(f, init)[j]);
          assert xs[i] == init[i] && FilterMap(f, xs)[j] == FilterMap(f, init)[j];
        } else {
          assert f(xs[|xs| - 1]) == Some(FilterMap(f, xs)[j]);
        }
      }
    } else {
      assert |FilterMap(f, xs)| == 0;
    }
  }
}
