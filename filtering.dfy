/** The shape shared by the pipeline's two batch loops: walk the input in order,
    try to turn each element into an output record, append it on success and
    skip the element on failure. */
module Filtering {
  import opened PyValues

  /** The records `f` makes of the elements of `xs`, in input order, skipping the
      elements `f` rejects. */
  function Select<A, B>(xs: seq<A>, f: A -> Option<B>): (r: seq<B>)
    ensures |r| <= |xs|
  {
    if xs == [] then [] else Select(xs[..|xs| - 1], f) + Emit(f(xs[|xs| - 1]))
  }

  /** The records one element contributes: one when it is accepted, none otherwise. */
  function Emit<B>(o: Option<B>): (r: seq<B>)
    ensures |r| <= 1
  {
    match o
    case Some(v) => [v]
    case None => []
  }

  /** `idx` lists, in strictly increasing order, the positions of `xs` that `f`
      accepts, and `r` holds what `f` makes of them. So `r` is an order-preserving
      selection of `xs`: no element is added, repeated or reordered, and no
      accepted element is lost. */
  ghost predicate SelectedAt<A, B>(r: seq<B>, xs: seq<A>, f: A -> Option<B>, idx: seq<nat>)
  {
    && |idx| == |r|
    && (forall k :: 0 <= k < |idx| ==> idx[k] < |xs| && f(xs[idx[k]]) == Some(r[k]))
    && (forall k, l :: 0 <= k < l < |idx| ==> idx[k] < idx[l])
    && (forall j :: 0 <= j < |xs| && f(xs[j]).Some? ==> j in idx)
  }

  lemma {:induction false} SelectIsOrderedSelection<A, B>(xs: seq<A>, f: A -> Option<B>)
    ensures exists idx :: SelectedAt(Select(xs, f), xs, f, idx)
  {
    if xs == [] {
      assert Select(xs, f) == [];
      assert SelectedAt<A, B>([], xs, f, []);
    } else {
      var n := |xs| - 1;
      var front, r0 := xs[..n], Select(xs[..n], f);
      assert front + [xs[n]] == xs;
      assert r0 + Emit(f(xs[n])) == Select(xs, f);
      SelectIsOrderedSelection(front, f);
      var idx0 :| SelectedAt(r0, front, f, idx0);
      var idx := SelectedAtExtend(r0, front, f, idx0, xs[n]);
      assert SelectedAt(Select(xs, f), xs, f, idx);
    }
  }

  /** One more input element extends a selection by what that element contributes. */
  lemma SelectedAtExtend<A, B>(r: seq<B>, xs: seq<A>, f: A -> Option<B>, idx: seq<nat>, x: A)
    returns (idx': seq<nat>)
    requires SelectedAt(r, xs, f, idx)
    ensures SelectedAt(r + Emit(f(x)), xs + [x], f, idx')
  {
    var ys := xs + [x];
    forall k | 0 <= k < |idx| ensures ys[idx[k]] == xs[idx[k]] { }
    forall j | 0 <= j < |xs| ensures ys[j] == xs[j] { }
    match f(x)
    case None =>
      idx' := idx;
      assert r + Emit(f(x)) == r;
      forall j | 0 <= j < |ys| && f(ys[j]).Some? ensures j in idx' {
        if j < |xs| { assert f(xs[j]).Some?; }
      }
    case Some(v) =>
      idx' := idx + [|xs|];
      var r' := r + [v];
      forall k | 0 <= k < |idx'| ensures idx'[k] < |ys| && f(ys[idx'[k]]) == Some(r'[k]) {
        if k < |idx| { assert idx'[k] == idx[k] && r'[k] == r[k]; }
      }
      forall j | 0 <= j < |ys| && f(ys[j]).Some? ensures j in idx' {
        if j < |xs| { assert f(xs[j]).Some?; assert j in idx; } else { assert idx'[|idx|] == j; }
      }
  }

  /** Walking one more element: the selection of the first `n + 1` elements extends
      the selection of the first `n` by what element `n` contributes. */
  lemma SelectPrefixStep<A, B>(xs: seq<A>, n: nat, f: A -> Option<B>)
    requires n < |xs|
    ensures Select(xs[..n + 1], f) == Select(xs[..n], f) + Emit(f(xs[n]))
  {
    assert xs[..n + 1][..n] == xs[..n];
  }

  /** Every output record was made by `f` from some input element. */
  lemma SelectMembers<A, B>(xs: seq<A>, f: A -> Option<B>, y: B)
    requires y in Select(xs, f)
    ensures exists x :: x in xs && f(x) == Some(y)
  {
    SelectIsOrderedSelection(xs, f);
    var idx :| SelectedAt(Select(xs, f), xs, f, idx);
    var k :| 0 <= k < |Select(xs, f)| && Select(xs, f)[k] == y;
    assert xs[idx[k]] in xs;
  }

  /** When `f` rejects every element, nothing is output. */
  lemma {:induction false} SelectNoneAccepted<A, B>(xs: seq<A>, f: A -> Option<B>)
    requires forall x :: x in xs ==> f(x).None?
    ensures Select(xs, f) == []
  {
    if xs != [] {
      SelectNoneAccepted(xs[..|xs| - 1], f);
      assert xs[|xs| - 1] in xs;
    }
  }

  /** When nothing is output, `f` rejected every element. */
  lemma {:induction false} SelectEmptyRejectsAll<A, B>(xs: seq<A>, f: A -> Option<B>)
    requires Select(xs, f) == []
    ensures forall x :: x in xs ==> f(x).None?
  {
    if xs != [] {
      var n := |xs| - 1;
      assert Select(xs[..n], f) == [] && Emit(f(xs[n])) == [];
      SelectEmptyRejectsAll(xs[..n], f);
      forall x | x in xs ensures f(x).None? {
        var k :| 0 <= k < |xs| && xs[k] == x;
        if k < n { assert xs[..n][k] == x; }
      }
    }
  }

  /** Two selections that accept the same elements output equally many records. */
  lemma {:induction false} SelectSameAcceptance<A, B, C>(xs: seq<A>, f: A -> Option<B>, g: A -> Option<C>)
    requires forall x :: x in xs ==> (f(x).Some? <==> g(x).Some?)
    ensures |Select(xs, f)| == |Select(xs, g)|
  {
    if xs != [] {
      assert forall x :: x in xs[..|xs| - 1] ==> x in xs;
      SelectSameAcceptance(xs[..|xs| - 1], f, g);
      assert xs[|xs| - 1] in xs;
    }
  }

  /** `[h(x) for x in xs]`. */
  function Map<A, B>(xs: seq<A>, h: A -> B): (r: seq<B>)
    ensures |r| == |xs| && forall i :: 0 <= i < |xs| ==> r[i] == h(xs[i])
  {
    seq(|xs|, i requires 0 <= i < |xs| => h(xs[i]))
  }
}
