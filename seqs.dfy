/** Order-preserving filtering: the shape of every "parse what you can, skip
    the rest" loop of the provider. */
module Seqs {
  import opened Wrappers

  /** The images of the elements of `s` on which `f` succeeds, in the order of `s`. */
  function FilterMap<A, B>(f: A -> Option<B>, s: seq<A>): (r: seq<B>)
    ensures |r| <= |s|
  {
    if s == [] then []
    else FilterMap(f, s[..|s| - 1]) + (match f(s[|s| - 1]) case Some(b) => [b] case None => [])
  }

  /** The positions of `s` on which `f` succeeds, ascending. */
  function KeptIndices<A, B>(f: A -> Option<B>, s: seq<A>): seq<nat>
  {
    if s == [] then []
    else KeptIndices(f, s[..|s| - 1]) + (if f(s[|s| - 1]).Some? then [|s| - 1] else [])
  }

  /** FilterMap keeps exactly the elements `f` accepts, each mapped by `f`, in
      their original order: its output is an order-preserving subsequence. */
  lemma {:induction false} FilterMapIsOrderedSubsequence<A, B>(f: A -> Option<B>, s: seq<A>)
    ensures |KeptIndices(f, s)| == |FilterMap(f, s)|
    ensures forall j | 0 <= j < |KeptIndices(f, s)| ::
              KeptIndices(f, s)[j] < |s| && f(s[KeptIndices(f, s)[j]]) == Some(FilterMap(f, s)[j])
    ensures forall j, k | 0 <= j < k < |KeptIndices(f, s)| :: KeptIndices(f, s)[j] < KeptIndices(f, s)[k]
    ensures forall i | 0 <= i < |s| :: f(s[i]).Some? <==> i in KeptIndices(f, s)
  {
    if s != [] {
      var init := s[..|s| - 1];
      FilterMapIsOrderedSubsequence(f, init);
      assert forall i | 0 <= i < |init| :: init[i] == s[i];
    }
  }

  /** Filtering distributes over concatenation: a rejected element drops out
      without disturbing its neighbours. */
  lemma {:induction false} FilterMapAppend<A, B>(f: A -> Option<B>, s: seq<A>, t: seq<A>)
    ensures FilterMap(f, s + t) == FilterMap(f, s) + FilterMap(f, t)
  {
    if t == [] {
      assert s + t == s;
    } else {
      assert (s + t)[..|s + t| - 1] == s + t[..|t| - 1];
      FilterMapAppend(f, s, t[..|t| - 1]);
    }
  }

  /** One more element at the end of the input: the loop step of every
      FilterMap-shaped loop. */
  lemma FilterMapSnoc<A, B>(f: A -> Option<B>, s: seq<A>, i: nat)
    requires i < |s|
    ensures FilterMap(f, s[..i + 1]) ==
            FilterMap(f, s[..i]) + (match f(s[i]) case Some(b) => [b] case None => [])
  {
    assert s[..i + 1][..i] == s[..i];
  }
}
