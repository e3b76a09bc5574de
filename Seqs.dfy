/** Small facts about sequence concatenation, kept apart so that each is proved on
    its own. */
module Seqs {
  /** Dropping the last element of `a + b`, for a non-empty `b`. */
  lemma {:induction false} DropLastAppend<T>(a: seq<T>, b: seq<T>)
    requires b != []
    ensures (a + b)[..|a + b| - 1] == a + b[..|b| - 1]
    ensures (a + b)[|a + b| - 1] == b[|b| - 1]
  {
    assert (a + b)[..|a + b| - 1] == a + b[..|b| - 1];
  }

  lemma {:induction false} AppendAssoc<T>(x: seq<T>, y: seq<T>, z: seq<T>)
    ensures (x + y) + z == x + (y + z)
  {
  }

  /** The prefix of length `i + 1` is the prefix of length `i` followed by `s[i]`. */
  lemma {:induction false} TakeStep<T>(s: seq<T>, i: nat)
    requires i < |s|
    ensures s[..i + 1] != [] && s[..i + 1][..i] == s[..i] && s[..i + 1][i] == s[i]
  {
    assert s[..i + 1][..i] == s[..i];
  }

  /** Dropping the first element of `a + b`, for a non-empty `a`. */
  lemma {:induction false} DropFirstAppend<T>(a: seq<T>, b: seq<T>)
    requires a != []
    ensures (a + b)[1..] == a[1..] + b
    ensures (a + b)[0] == a[0]
  {
    assert (a + b)[1..] == a[1..] + b;
  }
}
