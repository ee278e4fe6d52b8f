/** What several components share: an optional value, the largest traffic counter, and the few facts
    about products that are needed by name. */
module Common {

  datatype Option<T> = None | Some(value: T)

  /** domain.CounterLimit, 1 << 60. */
  const COUNTER_LIMIT: int := 0x1000_0000_0000_0000

  lemma MulLe(a: int, b: int, c: nat)
    requires a <= b
    ensures a * c <= b * c && c * a <= c * b
  {
  }

  lemma MulLess(a: int, b: int, c: nat)
    requires a * c < b * c
    ensures a < b
  {
    if a >= b {
      MulLe(b, a, c);
    }
  }

  lemma MulCancel(a: int, b: int, c: nat)
    requires a * c <= b * c && c > 0
    ensures a <= b
  {
    if a > b {
      MulLe(b + 1, a, c);
    }
  }
}
