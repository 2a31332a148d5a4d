/** Small shared vocabulary: an optional value (JavaScript's `null` / `undefined`) and sequence helpers. */
module Common {

  /** A value that may be absent: `None` stands for JavaScript's `null` or `undefined`. */
  datatype Option<+T> = None | Some(value: T)

  /** No element occurs twice: the head does not occur in the tail, and so on down the sequence. */
  ghost predicate NoDup<T>(xs: seq<T>)
    decreases |xs|
  {
    xs == [] || (xs[0] !in xs[1..] && NoDup(xs[1..]))
  }

  /** `NoDup` says that the elements at any two distinct positions differ. */
  lemma {:induction false} NoDupPairwise<T>(xs: seq<T>)
    ensures NoDup(xs) <==> forall i, j :: 0 <= i < j < |xs| ==> xs[i] != xs[j]
    decreases |xs|
  {
    if xs != [] {
      var tail := xs[1..];
      NoDupPairwise(tail);
      if NoDup(xs) {
        forall i, j | 0 <= i < j < |xs| ensures xs[i] != xs[j] {
          if i == 0 { assert xs[j] == tail[j - 1]; } else { assert xs[i] == tail[i - 1] && xs[j] == tail[j - 1]; }
        }
      }
      if forall i, j :: 0 <= i < j < |xs| ==> xs[i] != xs[j] {
        forall i, j | 0 <= i < j < |tail| ensures tail[i] != tail[j] { assert tail[i] == xs[i + 1] && tail[j] == xs[j + 1]; }
        forall i | 0 <= i < |tail| ensures tail[i] != xs[0] { assert tail[i] == xs[i + 1]; }
      }
    }
  }

  /** Every element is a valid index into a collection of size `n`. */
  predicate AllBelow(xs: seq<nat>, n: nat) {
    forall i :: 0 <= i < |xs| ==> xs[i] < n
  }

  /** `0, 1, ..., n-1`. */
  function Range(n: nat): (r: seq<nat>)
    ensures |r| == n
    ensures forall i :: 0 <= i < n ==> r[i] == i
  {
    seq(n, i requires 0 <= i < n => i)
  }

  /** The smaller of two integers (JavaScript's `Math.min` on two integers). */
  function Min(a: int, b: int): (m: int)
    ensures m <= a && m <= b
    ensures m == a || m == b
  {
    if a <= b then a else b
  }
}
