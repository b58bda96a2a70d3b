/** Vocabulary shared by the other modules. */
module Common {

  datatype Option<+T> = None | Some(value: T)

  /** Everything but the last element. */
  function Front<T>(s: seq<T>): seq<T>
    requires s != []
  {
    s[..|s| - 1]
  }

  function Last<T>(s: seq<T>): T
    requires s != []
  {
    s[|s| - 1]
  }

  /** `xs` can be obtained from `ys` by deleting elements, keeping the order. */
  predicate Subsequence<T(==)>(xs: seq<T>, ys: seq<T>)
    decreases |ys|
  {
    if xs == [] then true
    else if ys == [] then false
    else (Last(xs) == Last(ys) && Subsequence(Front(xs), Front(ys))) || Subsequence(xs, Front(ys))
  }

  predicate NoConsecutiveRepeat<T(==)>(xs: seq<T>) {
    forall i :: 0 < i < |xs| ==> xs[i - 1] != xs[i]
  }

  lemma FrontAppend<T>(s: seq<T>, x: T)
    ensures Front(s + [x]) == s && Last(s + [x]) == x
  {
  }

  /** Only the end of the longer sequence can be matched by a different last element. */
  lemma SubsequenceExtend<T>(xs: seq<T>, ys: seq<T>, y: T)
    ensures Subsequence(xs, ys) ==> Subsequence(xs, ys + [y]) && Subsequence(xs + [y], ys + [y])
    ensures Subsequence(xs, ys + [y]) && (xs == [] || Last(xs) != y) ==> Subsequence(xs, ys)
  {
    FrontAppend(xs, y);
    FrontAppend(ys, y);
  }

  lemma {:induction false} SubsequenceDropLast<T>(xs: seq<T>, x: T, ys: seq<T>)
    requires Subsequence(xs + [x], ys)
    ensures Subsequence(xs, ys)
    decreases |ys|
  {
    FrontAppend(xs, x);
    if xs != [] {
      if x == Last(ys) && Subsequence(xs, Front(ys)) {
      } else {
        SubsequenceDropLast(xs, x, Front(ys));
      }
    }
  }

  /** Where the elements of a subsequence sit in the longer sequence. */
  lemma {:induction false} Positions<T>(xs: seq<T>, ys: seq<T>) returns (at: seq<nat>)
    requires Subsequence(xs, ys)
    ensures |at| == |xs|
    ensures forall i :: 0 <= i < |xs| ==> at[i] < |ys| && ys[at[i]] == xs[i]
    ensures forall i, j :: 0 <= i < j < |xs| ==> at[i] < at[j]
    decreases |ys|
  {
    if xs == [] {
      at := [];
    } else if Last(xs) == Last(ys) && Subsequence(Front(xs), Front(ys)) {
      at := Positions(Front(xs), Front(ys));
      at := at + [|ys| - 1];
    } else {
      at := Positions(xs, Front(ys));
    }
  }
}
