/** Facts about sequences that the step-by-step proofs of every module rely on. */
module Seqs {
  /** Concatenation regrouped. */
  lemma AppendAssoc<T>(a: seq<T>, b: seq<T>, c: seq<T>)
    ensures a + b + c == a + (b + c)
  {
  }

  lemma WholeSlice<T>(s: seq<T>)
    ensures s[..|s|] == s
  {
  }

  lemma AppendEmpty<T>(s: seq<T>)
    ensures s + [] == s
  {
  }

  /** Lines appended one at a time. */
  lemma AppendTwo<T>(s: seq<T>, a: T, b: T)
    ensures s + [a] + [b] == s + [a, b]
  {
  }

  lemma AppendThree<T>(s: seq<T>, a: T, b: T, c: T)
    ensures s + [a] + [b] + [c] == s + [a, b, c]
  {
  }

  lemma AppendFour<T>(s: seq<T>, a: T, b: T, c: T, d: T)
    ensures s + [a] + [b] + [c] + [d] == s + [a, b, c, d]
  {
  }

  /** `f` applied to every element, in order: one output line per input item. */
  function Map<A, B>(f: A -> B, xs: seq<A>): (r: seq<B>)
    ensures |r| == |xs|
    decreases |xs|
  {
    if xs == [] then [] else Map(f, xs[..|xs| - 1]) + [f(xs[|xs| - 1])]
  }

  /** One more item, one more line at the end. */
  lemma MapSnoc<A, B>(f: A -> B, xs: seq<A>, i: nat)
    requires i < |xs|
    ensures Map(f, xs[..i + 1]) == Map(f, xs[..i]) + [f(xs[i])]
  {
    assert xs[..i + 1][..i] == xs[..i];
  }

  /** Item `i` becomes line `i`. */
  lemma {:induction false} MapAt<A, B>(f: A -> B, xs: seq<A>, i: nat)
    requires i < |xs|
    ensures Map(f, xs)[i] == f(xs[i])
  {
    var n := |xs| - 1;
    if i < n {
      MapAt(f, xs[..n], i);
    }
  }

  /** Item `i` of a mapped block sits `i` lines after whatever precedes the block. */
  lemma MapAtOffset<A, B>(head: seq<B>, f: A -> B, xs: seq<A>, tail: seq<B>, i: nat)
    requires i < |xs|
    ensures (head + Map(f, xs) + tail)[|head| + i] == f(xs[i])
  {
    MapAt(f, xs, i);
  }

  /** What precedes a block in `whole` is itself a prefix of `whole`. */
  lemma PrefixOfAppend<T>(before: seq<T>, block: seq<T>, whole: seq<T>)
    requires before + block <= whole
    ensures before <= whole
  {
    assert (before + block)[..|before|] == before;
  }

  /** A block that follows `before` in `whole` puts its first line right after `before`. */
  lemma FirstOfBlock<T>(before: seq<T>, block: seq<T>, whole: seq<T>)
    requires |block| > 0 && before + block <= whole
    ensures before + [block[0]] <= whole
  {
    assert (before + block)[..|before| + 1] == before + [block[0]];
  }
}
