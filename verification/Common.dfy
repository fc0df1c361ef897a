/** What several modules share: optional values, QoS levels, and sequences. */
module Common {
  datatype Option<+T> = None | Some(value: T)

  type QoS = q: int | 0 <= q <= 2

  /** The sequence without its `i`-th element. */
  function RemoveAt<T>(s: seq<T>, i: nat): (r: seq<T>)
    requires i < |s|
    ensures |r| == |s| - 1
  {
    s[..i] + s[i + 1..]
  }

  lemma {:induction false} Assoc<T>(a: seq<T>, b: seq<T>, c: seq<T>)
    ensures a + b + c == a + (b + c)
  {
  }
}
