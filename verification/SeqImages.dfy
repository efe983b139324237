/** How often a function takes a value on a sequence. */
module SeqImages {
  ghost function Count<A, B>(f: A -> B, xs: seq<A>, y: B): nat
  {
    if xs == [] then 0 else (if f(xs[0]) == y then 1 else 0) + Count(f, xs[1..], y)
  }

  lemma {:induction false} CountConcat<A, B>(f: A -> B, xs: seq<A>, ys: seq<A>, y: B)
    ensures Count(f, xs + ys, y) == Count(f, xs, y) + Count(f, ys, y)
  {
    if xs == [] {
      assert xs + ys == ys;
    } else {
      CountConcat(f, xs[1..], ys, y);
      assert (xs + ys)[1..] == xs[1..] + ys;
    }
  }

  /** An element of one arrangement, taken out of both. */
  lemma TakeOut<A>(xs: seq<A>, ys: seq<A>) returns (before: seq<A>, after: seq<A>)
    requires xs != [] && multiset(xs) == multiset(ys)
    ensures ys == before + ([xs[0]] + after)
    ensures multiset(xs[1..]) == multiset(before + after)
  {
    var x := xs[0];
    assert x in multiset(ys);
    var j :| 0 <= j < |ys| && ys[j] == x;
    before, after := ys[..j], ys[j + 1..];
    assert ys == before + ([x] + after);
    assert xs == [x] + xs[1..];
    forall k ensures multiset(xs[1..])[k] == multiset(before + after)[k] {
      assert multiset(xs)[k] == multiset{x}[k] + multiset(xs[1..])[k];
      assert multiset(ys)[k] == multiset(before)[k] + multiset([x] + after)[k];
      assert multiset([x] + after)[k] == multiset{x}[k] + multiset(after)[k];
    }
  }

  lemma {:induction false} CountForgetsOrder<A, B>(f: A -> B, xs: seq<A>, ys: seq<A>, y: B)
    requires multiset(xs) == multiset(ys)
    ensures Count(f, xs, y) == Count(f, ys, y)
    decreases |xs|
  {
    if xs == [] {
      assert |multiset(ys)| == 0;
    } else {
      var before, after := TakeOut(xs, ys);
      CountForgetsOrder(f, xs[1..], before + after, y);
      CountConcat(f, before, after, y);
      CountConcat(f, before, [xs[0]] + after, y);
      assert ([xs[0]] + after)[1..] == after;
    }
  }
}
