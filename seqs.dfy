/**
 * Facts about slicing and concatenating sequences that the loops over lists use.
 * All but the last are proved without a body: stating them at a call site only
 * points the solver at the equation that the step needs.
 */
module Seqs {

  /** Taking one more element of a sequence appends that element. */
  lemma TakeOneMore<T>(s: seq<T>, n: nat)
    requires n < |s|
    ensures s[..n + 1] == s[..n] + [s[n]]
  {
  }

  /** Dropping one more element of a sequence removes its head. */
  lemma DropOneMore<T>(s: seq<T>, n: nat)
    requires n < |s|
    ensures s[n..] == [s[n]] + s[n + 1..]
  {
  }

  /** Moving an element from the front of one part to the end of the other keeps the whole. */
  lemma ShiftOne<T>(front: seq<T>, x: T, back: seq<T>)
    ensures front + ([x] + back) == (front + [x]) + back
  {
  }

  /** Concatenation is associative. */
  lemma AppendAssociative<T>(a: seq<T>, b: seq<T>, c: seq<T>)
    ensures (a + b) + c == a + (b + c)
  {
  }

  /** A sequence is its whole prefix. */
  lemma TakeAll<T>(s: seq<T>)
    ensures s[..|s|] == s
  {
  }

  /** Some complete parts of a prefix and the start of the next part form a prefix too. */
  lemma PrefixThenPart<T>(all: seq<T>, done: seq<T>, part: seq<T>, n: nat)
    requires |done| + |part| <= |all| && done + part == all[..|done| + |part|]
    requires n <= |part|
    ensures done + part[..n] == all[..|done| + n]
  {
    assert done + part[..n] == (done + part)[..|done| + n];
  }
}
