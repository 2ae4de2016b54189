/** Facts about cutting and joining sequences, stated once so that proofs about
    texts need not find them. */
module Seqs {
  lemma Associate<T>(a: seq<T>, b: seq<T>, c: seq<T>)
    ensures (a + b) + c == a + (b + c)
  {
  }

  lemma Halves<T>(a: seq<T>, b: seq<T>)
    ensures (a + b)[..|a|] == a && (a + b)[|a|..] == b
  {
  }

  lemma Rejoin<T>(t: seq<T>, n: nat)
    requires n <= |t|
    ensures t[..n] + t[n..] == t
  {
  }

  lemma DropDrop<T>(t: seq<T>, m: nat, n: nat)
    requires m + n <= |t|
    ensures t[m..][n..] == t[m + n..]
  {
  }

  lemma DropTo<T>(t: seq<T>, m: nat, n: nat)
    requires m <= n <= |t|
    ensures t[m..][n - m..] == t[n..]
  {
  }

  lemma DropTake<T>(t: seq<T>, m: nat, n: nat)
    requires m <= n <= |t|
    ensures t[m..][..n - m] == t[m..n]
  {
  }

  lemma TakeDrop<T>(t: seq<T>, m: nat, n: nat)
    requires m <= n <= |t|
    ensures t[..n][m..] == t[m..][..n - m]
  {
  }

  lemma TakeCons<T>(t: seq<T>, n: nat)
    requires 0 < n <= |t|
    ensures t[..n] == [t[0]] + t[1..][..n - 1]
  {
  }

  lemma TakeSplit<T>(t: seq<T>, m: nat, n: nat)
    requires m <= n <= |t|
    ensures t[..n] == t[..m] + t[m..][..n - m]
  {
  }

  /** The head and the tail of a joined sequence. */
  lemma Uncons<T>(a: seq<T>, b: seq<T>)
    requires a != []
    ensures (a + b)[0] == a[0] && (a + b)[1..] == a[1..] + b
  {
  }
}
