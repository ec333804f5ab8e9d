/** What a loop builds by appending `f(x)` to an accumulator for each `x`
    of a list, and the facts about it that the tools' loops rely on. */
module Seqs {

  /** `f(xs[0]) + f(xs[1]) + ...`, built from the back as an append loop builds it. */
  function Concat<T, U>(f: T -> seq<U>, xs: seq<T>): seq<U>
  {
    if xs == [] then [] else Concat(f, xs[..|xs| - 1]) + f(xs[|xs| - 1])
  }

  /** Appending to an accumulator: `(a + b) + c` is `a + (b + c)`. */
  lemma AppendAssoc<T>(a: seq<T>, b: seq<T>, c: seq<T>)
    ensures (a + b) + c == a + (b + c)
  {
  }

  /** One more step of the loop: the prefix of length `j + 1`. */
  lemma ConcatStep<T, U>(f: T -> seq<U>, xs: seq<T>, j: nat)
    requires j < |xs|
    ensures Concat(f, xs[..j + 1]) == Concat(f, xs[..j]) + f(xs[j])
  {
    assert xs[..j + 1][..j] == xs[..j];
  }

  /** Concatenation distributes over splitting the list: order is kept. */
  lemma {:induction false} ConcatAppend<T, U>(f: T -> seq<U>, a: seq<T>, b: seq<T>)
    ensures Concat(f, a + b) == Concat(f, a) + Concat(f, b)
    decreases |b|
  {
    if b == [] {
      assert a + b == a;
    } else {
      assert (a + b)[..|a + b| - 1] == a + b[..|b| - 1];
      ConcatAppend(f, a, b[..|b| - 1]);
    }
  }

  /** The concatenation is empty exactly when every piece is. */
  lemma {:induction false} ConcatEmpty<T, U>(f: T -> seq<U>, xs: seq<T>)
    ensures Concat(f, xs) == [] <==> forall i :: 0 <= i < |xs| ==> f(xs[i]) == []
    decreases |xs|
  {
    if xs != [] {
      var front := xs[..|xs| - 1];
      ConcatEmpty(f, front);
      assert forall i :: 0 <= i < |front| ==> front[i] == xs[i];
    }
  }

  /** Every element of the concatenation comes from the piece of some item. */
  lemma {:induction false} ConcatMember<T, U>(f: T -> seq<U>, xs: seq<T>, k: nat)
    requires k < |Concat(f, xs)|
    ensures exists i, j :: 0 <= i < |xs| && 0 <= j < |f(xs[i])| && Concat(f, xs)[k] == f(xs[i])[j]
    decreases |xs|
  {
    var front := xs[..|xs| - 1];
    var last := xs[|xs| - 1];
    assert Concat(f, xs) == Concat(f, front) + f(last);
    if k < |Concat(f, front)| {
      ConcatMember(f, front, k);
      var i, j :| 0 <= i < |front| && 0 <= j < |f(front[i])| && Concat(f, front)[k] == f(front[i])[j];
      assert front[i] == xs[i];
    } else {
      var j := k - |Concat(f, front)|;
      assert Concat(f, xs)[k] == f(xs[|xs| - 1])[j];
    }
  }
}
