/** Small shared vocabulary. */
module Basics {

  datatype Option<+T> = None | Some(value: T)

  ghost predicate NoRepeats<T>(s: seq<T>) {
    forall i, j :: 0 <= i < j < |s| ==> s[i] != s[j]
  }

  ghost function Elements<T>(s: seq<T>): set<T> {
    set x | x in s
  }

  function Min(a: nat, b: nat): nat {
    if a <= b then a else b
  }

  const U32: nat := 0x1_0000_0000
  const U64: nat := 0x1_0000_0000_0000_0000

  /** The time from `t` to `now`, which saturates at zero. */
  function Since(now: nat, t: nat): nat {
    if t <= now then now - t else 0
  }

  predicate Digit(c: char) {
    '0' <= c <= '9'
  }

  lemma MulGap(x: nat, y: nat, d: nat)
    requires x < y
    ensures x * d + d <= y * d
  {
    assert (y - x) * d == y * d - x * d;
    assert (y - x - 1) * d >= 0;
    assert (y - x - 1) * d == (y - x) * d - d;
  }

  lemma DivUnique(a: nat, d: nat, q: nat, r: nat)
    requires d > 0 && r < d && a == q * d + r
    ensures a / d == q && a % d == r
  {
    var q2, r2 := a / d, a % d;
    assert a == q2 * d + r2;
    if q2 < q {
      MulGap(q2, q, d);
    } else if q < q2 {
      MulGap(q, q2, d);
    }
  }
}
