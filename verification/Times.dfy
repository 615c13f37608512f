/** Time stamps: microseconds of the monotonic clock. */
module Times {

  const MICROS_PER_SECOND := 1000000.0

  /** Conversion of seconds to whole microseconds, truncating toward zero. */
  function Micros(seconds: real): int {
    if seconds >= 0.0 then (seconds * MICROS_PER_SECOND).Floor
    else -((-seconds * MICROS_PER_SECOND).Floor)
  }

  function AddSec(stamp: int, seconds: real): int { stamp + Micros(seconds) }

  /** The result is the whole part of a million times the argument, with its sign; in particular
      whole seconds are exact, and adding more seconds never gives an earlier stamp. */
  lemma MicrosTruncate(seconds: real)
    ensures seconds >= 0.0 ==> 0 <= Micros(seconds) && Micros(seconds) as real <= seconds * 1000000.0 < Micros(seconds) as real + 1.0
    ensures Micros(-seconds) == -Micros(seconds)
  {
  }

  lemma WholeSeconds(stamp: int, n: int)
    ensures AddSec(stamp, n as real) == stamp + n * 1000000
  {
    if n >= 0 {
      MicrosTruncate(n as real);
    } else {
      MicrosTruncate((-n) as real);
      assert n as real == -((-n) as real);
    }
  }

  lemma LaterIsNotEarlier(stamp: int, a: real, b: real)
    requires a <= b
    ensures AddSec(stamp, a) <= AddSec(stamp, b)
  {
    if a >= 0.0 {
      FloorGrows(a * MICROS_PER_SECOND, b * MICROS_PER_SECOND);
    } else if b < 0.0 {
      FloorGrows(-b * MICROS_PER_SECOND, -a * MICROS_PER_SECOND);
    } else {
      MicrosTruncate(-a);
      MicrosTruncate(b);
    }
  }

  lemma FloorGrows(x: real, y: real)
    requires x <= y
    ensures x.Floor <= y.Floor
  {
  }
}
