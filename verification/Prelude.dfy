/** Shared vocabulary: bytes, optional values, and how conservation equations are joined. */
module Prelude {

  type byte = b: int | 0 <= b < 256

  datatype Option<+T> = None | Some(value: T)

  function Min(a: nat, b: nat): (m: nat)
    ensures m <= a && m <= b && (m == a || m == b)
  {
    if a < b then a else b
  }

  function Max(a: nat, b: nat): (m: nat)
    ensures a <= m && b <= m && (m == a || m == b)
  {
    if a < b then b else a
  }

  /** Joining two conservation equations: what left plus what is held, against what was held plus
      what came in. */
  lemma ConservedTwice<T>(out1: seq<T>, out2: seq<T>, s: seq<T>, t: seq<T>, u: seq<T>, in1: seq<T>, in2: seq<T>)
    requires out1 + t == s + in1
    requires out2 + u == t + in2
    ensures (out1 + out2) + u == s + (in1 + in2)
  {
    calc {
      (out1 + out2) + u;
      out1 + (out2 + u);
      out1 + (t + in2);
      (out1 + t) + in2;
      (s + in1) + in2;
      s + (in1 + in2);
    }
  }
}
