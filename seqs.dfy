/** The list-building pattern the translator uses three times: walk a list in
    order and append a converted entry for each element the conversion keeps. */
module Seqs {
  import opened Wrappers

  /** The outputs of `f` over `xs`, in order, skipping elements `f` drops.
      Defined on the prefix so that it grows the way an append loop does. */
  function FilterMap<A, B>(f: A -> Option<B>, xs: seq<A>): (ys: seq<B>)
    ensures |ys| <= |xs|
    ensures |ys| == 0 <==> forall i :: 0 <= i < |xs| ==> f(xs[i]).None?
    decreases |xs|
  {
    if |xs| == 0 then []
    else
      var init := FilterMap(f, xs[..|xs| - 1]);
      assert forall i :: 0 <= i < |xs| - 1 ==> xs[..|xs| - 1][i] == xs[i];
      match f(xs[|xs| - 1])
      case Some(y) => init + [y]
      case None => init
  }

  /** The positions of `xs` that `f` keeps, in increasing order. */
  function KeptIndices<A, B>(f: A -> Option<B>, xs: seq<A>): (idx: seq<int>)
    ensures forall j :: 0 <= j < |idx| ==> 0 <= idx[j] < |xs| && f(xs[idx[j]]).Some?
    ensures forall j, k :: 0 <= j < k < |idx| ==> idx[j] < idx[k]
    ensures forall i :: 0 <= i < |xs| && f(xs[i]).Some? ==> i in idx
    decreases |xs|
  {
    if |xs| == 0 then []
    else
      var init := KeptIndices(f, xs[..|xs| - 1]);
      assert forall i :: 0 <= i < |xs| - 1 ==> xs[..|xs| - 1][i] == xs[i];
      if f(xs[|xs| - 1]).Some? then init + [|xs| - 1] else init
  }

  /** The j-th output of FilterMap is the conversion of the j-th kept input:
      one output per kept input, in input order. */
  lemma {:induction false} FilterMapKept<A, B>(f: A -> Option<B>, xs: seq<A>)
    ensures |FilterMap(f, xs)| == |KeptIndices(f, xs)|
    ensures forall j :: 0 <= j < |FilterMap(f, xs)| ==>
      FilterMap(f, xs)[j] == f(xs[KeptIndices(f, xs)[j]]).value
    decreases |xs|
  {
    if |xs| > 0 {
      var init := xs[..|xs| - 1];
      FilterMapKept(f, init);
      assert forall i :: 0 <= i < |xs| - 1 ==> init[i] == xs[i];
    }
  }

  /** Converting a concatenation converts each part in turn. */
  lemma {:induction false} FilterMapAppend<A, B>(f: A -> Option<B>, xs: seq<A>, ys: seq<A>)
    ensures FilterMap(f, xs + ys) == FilterMap(f, xs) + FilterMap(f, ys)
    decreases |ys|
  {
    if |ys| == 0 {
      assert xs + ys == xs;
    } else {
      var zs, init, last := xs + ys, ys[..|ys| - 1], ys[|ys| - 1];
      assert zs[..|zs| - 1] == xs + init;
      assert zs[|zs| - 1] == last;
      FilterMapAppend(f, xs, init);
      var fz, fx, fi := FilterMap(f, xs + init), FilterMap(f, xs), FilterMap(f, init);
      assert FilterMap(f, zs) == if f(last).Some? then fz + [f(last).value] else fz;
      assert FilterMap(f, ys) == if f(last).Some? then fi + [f(last).value] else fi;
      if f(last).Some? {
        assert fx + fi + [f(last).value] == fx + (fi + [f(last).value]);
      }
    }
  }

  /** One more step of an append loop over `xs`: the element at `i` is converted or skipped. */
  lemma FilterMapStep<A, B>(f: A -> Option<B>, xs: seq<A>, i: int)
    requires 0 <= i < |xs|
    ensures FilterMap(f, xs[..i + 1]) ==
      if f(xs[i]).Some? then FilterMap(f, xs[..i]) + [f(xs[i]).value] else FilterMap(f, xs[..i])
  {
    assert xs[..i + 1][..i] == xs[..i];
    assert xs[..i + 1][i] == xs[i];
  }
}
