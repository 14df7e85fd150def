/** The small pieces of the JavaScript runtime that the pages rely on:
    `null` / `undefined` as an optional value, and the
    `Math.floor(Math.random() * n)` idiom that picks an index. */
module Runtime {

  /** `T | null` (and `T | undefined`, which the pages treat the same way). */
  datatype Option<T> = None | Some(value: T)

  /** `Math.floor(random * n)` where `random` is the value `Math.random()`
      produced, a real in [0, 1). The result is always a valid index of a
      list of length `n`. */
  function RandomIndex(random: real, n: nat): (i: nat)
    requires 0.0 <= random < 1.0
    requires n > 0
    ensures i < n
    ensures i as real <= Scaled(random, n) < i as real + 1.0
  {
    var x := Scaled(random, n);
    var k := x.Floor;
    assert k as real <= x < k as real + 1.0;
    k
  }

  /** `random * n`: a value in [0, 1) scaled to [0, n). */
  function Scaled(random: real, n: nat): (x: real)
    requires 0.0 <= random < 1.0
    requires n > 0
    ensures 0.0 <= x < n as real
  {
    var m := n as real;
    assert (1.0 - random) * m > 0.0;
    random * m
  }
}
