/** Subsequences: what is left of a sequence after deleting some of its elements,
    with the relative order of the rest kept. */
module Subsequences {

  /** `a` can be obtained from `b` by deleting elements. Defined from the back,
      matching how queues in this project are built up by appending. */
  predicate IsSubseq<T(==)>(a: seq<T>, b: seq<T>)
    decreases |b|
  {
    a == [] ||
    (b != [] &&
     ((a[|a| - 1] == b[|b| - 1] && IsSubseq(a[..|a| - 1], b[..|b| - 1])) ||
      IsSubseq(a, b[..|b| - 1])))
  }

  lemma {:induction false} SubseqRefl<T>(a: seq<T>)
    ensures IsSubseq(a, a)
  {
    if a != [] {
      SubseqRefl(a[..|a| - 1]);
    }
  }

  /** Only the empty sequence is a subsequence of the empty sequence. */
  lemma SubseqOfEmpty<T>(a: seq<T>)
    requires IsSubseq(a, [])
    ensures a == []
  {
  }

  /** Every prefix is a subsequence. */
  lemma {:induction false} PrefixIsSubseq<T>(x: seq<T>, y: seq<T>)
    ensures IsSubseq(x, x + y)
    decreases |y|
  {
    if y == [] {
      assert x + y == x;
      SubseqRefl(x);
    } else {
      var y' := y[..|y| - 1];
      assert (x + y)[..|x + y| - 1] == x + y';
      PrefixIsSubseq(x, y');
    }
  }

  /** Appending the same tail to both sides keeps the relation. */
  lemma {:induction false} AppendBoth<T>(x: seq<T>, y: seq<T>, t: seq<T>)
    requires IsSubseq(x, y)
    ensures IsSubseq(x + t, y + t)
    decreases |t|
  {
    if t == [] {
      assert x + t == x && y + t == y;
    } else {
      var t' := t[..|t| - 1];
      AppendBoth(x, y, t');
      assert (x + t)[..|x + t| - 1] == x + t';
      assert (y + t)[..|y + t| - 1] == y + t';
    }
  }

  lemma {:induction false} SubseqTrans<T>(a: seq<T>, b: seq<T>, c: seq<T>)
    requires IsSubseq(a, b) && IsSubseq(b, c)
    ensures IsSubseq(a, c)
    decreases |c|
  {
    if a == [] {
    } else if b == [] {
      SubseqOfEmpty(a);
    } else {
      assert c != [];
      var c' := c[..|c| - 1];
      if IsSubseq(b, c') {
        SubseqTrans(a, b, c');
      } else {
        assert b[|b| - 1] == c[|c| - 1] && IsSubseq(b[..|b| - 1], c');
        var b' := b[..|b| - 1];
        if a[|a| - 1] == b[|b| - 1] && IsSubseq(a[..|a| - 1], b') {
          SubseqTrans(a[..|a| - 1], b', c');
        } else {
          SubseqTrans(a, b', c');
        }
      }
    }
  }
}
