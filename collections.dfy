/** Facts about sequences used by several modules. */
module Collections {
  import opened Wrappers

  /** No element occurs twice. */
  predicate Distinct<T(==)>(s: seq<T>) {
    forall i, j :: 0 <= i < j < |s| ==> s[i] != s[j]
  }

  /** The lists `f(x)`, for each `x` in turn, concatenated (a comprehension
      with a filter yields zero or one element per input). */
  function FlatMap<T, U>(xs: seq<T>, f: T -> seq<U>): seq<U> {
    if xs == [] then [] else f(xs[0]) + FlatMap(xs[1..], f)
  }

  /** `FlatMap` distributes over concatenation. */
  lemma {:induction false} FlatMapConcat<T, U>(xs: seq<T>, ys: seq<T>, f: T -> seq<U>)
    ensures FlatMap(xs + ys, f) == FlatMap(xs, f) + FlatMap(ys, f)
  {
    if xs == [] {
      assert xs + ys == ys;
    } else {
      FlatMapConcat(xs[1..], ys, f);
      assert (xs + ys)[0] == xs[0];
      assert (xs + ys)[1..] == xs[1..] + ys;
    }
  }

  /** A loop that appends `f(x)` for each `x` in turn and gives up at the
      first `x` for which `f` fails (raises): the whole list, or None. */
  function AllSome<T, U>(xs: seq<T>, f: T -> Option<U>): (r: Option<seq<U>>)
    ensures r.Some? <==> forall k :: 0 <= k < |xs| ==> f(xs[k]).Some?
    ensures r.Some? ==> |r.value| == |xs| && forall k :: 0 <= k < |xs| ==> f(xs[k]) == Some(r.value[k])
  {
    if xs == [] then Some([])
    else
      assert forall k :: 0 < k < |xs| ==> xs[k] == xs[1..][k - 1];
      match f(xs[0])
      case None => None
      case Some(y) =>
        match AllSome(xs[1..], f)
        case None => None
        case Some(rest) => Some([y] + rest)
  }

  /** `acc` followed by the outcome of the rest of the loop. */
  function Then<U>(acc: seq<U>, rest: Option<seq<U>>): Option<seq<U>> {
    if rest.Some? then Some(acc + rest.value) else None
  }

  /** One more element through the loop: appended when `f` succeeds on it. */
  lemma AllSomeStep<T, U>(xs: seq<T>, f: T -> Option<U>, i: nat, acc: seq<U>)
    requires i < |xs|
    ensures f(xs[i]).None? ==> AllSome(xs[i..], f) == None
    ensures f(xs[i]).Some? ==>
              Then(acc, AllSome(xs[i..], f)) == Then(acc + [f(xs[i]).value], AllSome(xs[i + 1..], f))
  {
    assert xs[i..][1..] == xs[i + 1..];
    var rest := AllSome(xs[i + 1..], f);
    if f(xs[i]).Some? && rest.Some? {
      assert acc + ([f(xs[i]).value] + rest.value) == (acc + [f(xs[i]).value]) + rest.value;
    }
  }

  /** The loop starts with nothing appended and ends with everything appended. */
  lemma AllSomeBounds<T, U>(xs: seq<T>, f: T -> Option<U>, acc: seq<U>)
    ensures AllSome(xs, f) == Then([], AllSome(xs[0..], f))
    ensures Then(acc, AllSome(xs[|xs|..], f)) == Some(acc)
  {
    assert xs[0..] == xs;
    if AllSome(xs, f).Some? {
      assert [] + AllSome(xs, f).value == AllSome(xs, f).value;
    }
    assert xs[|xs|..] == [];
    assert acc + [] == acc;
  }

  /** The loop itself, proved to compute `AllSome`. */
  method MapAll<T, U>(xs: seq<T>, f: T -> Option<U>) returns (r: Option<seq<U>>)
    ensures r == AllSome(xs, f)
  {
    var acc: seq<U> := [];
    var i := 0;
    AllSomeBounds(xs, f, acc);
    while i < |xs|
      invariant 0 <= i <= |xs|
      invariant AllSome(xs, f) == Then(acc, AllSome(xs[i..], f))
    {
      var y := f(xs[i]);
      AllSomeStep(xs, f, i, acc);
      if y.None? {
        return None;
      }
      acc := acc + [y.value];
      i := i + 1;
    }
    AllSomeBounds(xs, f, acc);
    return Some(acc);
  }
}
