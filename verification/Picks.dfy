/** What passes through a filter: the values that are there, each at the place that counts those
    before it. */
module Picking {
  import opened Text

  /** The places before `n` that hold a value. */
  function Present<T>(xs: seq<Option<T>>, n: nat): set<int> {
    set i | 0 <= i < n && i < |xs| && xs[i].Some?
  }

  /** `ys` are exactly the values in `xs`, in order. */
  ghost predicate Picks<T>(xs: seq<Option<T>>, ys: seq<T>) {
    && |ys| == |Present(xs, |xs|)|
    && forall i :: i in Present(xs, |xs|) ==> |Present(xs, i)| < |ys| && ys[|Present(xs, i)|] == xs[i].value
  }

  lemma PicksNone<T>()
    ensures Picks<T>([], [])
  {
    assert Present<T>([], 0) == {};
  }

  lemma PresentGrows<T>(xs: seq<Option<T>>, x: Option<T>)
    ensures forall i :: 0 <= i <= |xs| ==> Present(xs + [x], i) == Present(xs, i)
    ensures Present(xs + [x], |xs| + 1) == Present(xs, |xs|) + if x.Some? then {|xs|} else {}
  {
    assert forall i :: 0 <= i < |xs| ==> (xs + [x])[i] == xs[i];
  }

  lemma PicksOne<T>(xs: seq<Option<T>>, ys: seq<T>, x: Option<T>)
    requires Picks(xs, ys)
    ensures Picks(xs + [x], ys + x.ToSeq())
  {
    PresentGrows(xs, x);
    var n, more, zs := |xs|, xs + [x], ys + x.ToSeq();
    assert n !in Present(xs, n) && |Present(more, n + 1)| == |zs|;
    forall i | i in Present(more, n + 1) ensures |Present(more, i)| < |zs| && zs[|Present(more, i)|] == more[i].value {
      if i < n { assert i in Present(xs, n); }
    }
  }
}
