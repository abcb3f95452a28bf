/** Shared vocabulary: time, optional values and SQL-like tables kept as sequences in key order. */
module Tables {

  /** Epoch or monotonic seconds; the source's floats without rounding. */
  type Time = real

  datatype Option<+T> = None | Some(value: T)

  function Later(a: Time, b: Time): Time {
    if a >= b then a else b
  }

  function Earlier(a: Time, b: Time): Time {
    if a <= b then a else b
  }

  function Pow2(n: nat): (r: nat)
    ensures r >= 1
  {
    if n == 0 then 1 else 2 * Pow2(n - 1)
  }

  predicate HasPrefix(prefix: string, s: string) {
    |prefix| <= |s| && s[..|prefix|] == prefix
  }

  /** SQL UPDATE: every row is rewritten by f and keeps its place. */
  function Update<R>(rows: seq<R>, f: R -> R): (out: seq<R>)
    ensures |out| == |rows|
    ensures forall i :: 0 <= i < |rows| ==> out[i] == f(rows[i])
  {
    seq(|rows|, i requires 0 <= i < |rows| => f(rows[i]))
  }

  lemma SubsetSize<T>(a: set<T>, b: set<T>)
    requires a <= b
    ensures |a| <= |b| && (|a| == |b| ==> a == b)
  {
    assert b == a + (b - a);
  }
}
