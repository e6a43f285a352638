/** Small facts about sequences, kept apart so that proofs about the model call them instead of
    reasoning about sequence equality among their own definitions. */
module Seqs {
  /** A sequence is its prefix followed by its suffix. */
  lemma TakeDrop<T>(s: seq<T>, k: nat)
    requires k <= |s|
    ensures s[..k] + s[k..] == s
  {
  }

  /** The head and the tail of a concatenation whose first part is not empty. */
  lemma ConsAppend<T>(a: seq<T>, b: seq<T>)
    requires |a| > 0
    ensures (a + b)[0] == a[0] && (a + b)[1..] == a[1..] + b
  {
  }

  /** Concatenation is associative. */
  lemma AppendAssoc<T>(a: seq<T>, b: seq<T>, c: seq<T>)
    ensures a + (b + c) == (a + b) + c
  {
  }

  /** The empty sequence is a left unit of concatenation. */
  lemma AppendEmpty<T>(a: seq<T>, b: seq<T>)
    requires |a| == 0
    ensures a + b == b
  {
  }

  /** The elements of `[x] + t` after the first are those of `t`. */
  lemma ConsIndex<T>(x: T, t: seq<T>, i: nat)
    requires i < |t| + 1
    ensures ([x] + t)[i] == if i == 0 then x else t[i - 1]
  {
  }

  /** Prepending keeps the last element of a non-empty sequence. */
  lemma ConsLast<T>(x: T, t: seq<T>)
    ensures |[x] + t| == |t| + 1
    ensures |t| > 0 ==> ([x] + t)[|t|] == t[|t| - 1]
  {
  }

  /** Appending one element keeps the elements before it. */
  lemma SnocIndex<T>(t: seq<T>, x: T)
    ensures |t + [x]| == |t| + 1 && (t + [x])[|t|] == x
    ensures forall j :: 0 <= j < |t| ==> (t + [x])[j] == t[j]
  {
  }
}
