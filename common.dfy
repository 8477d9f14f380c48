/** Shared vocabulary of the pricing engine: failure-compatible wrappers for the
    places where the Python code raises, and the integer conversions it applies
    to prices (`int(...)` and the 50,000 floor). */
module Common {

  /** The exceptions the modelled code can raise. */
  datatype Error =
    | EmptyRange(low: int, high: int)   // numpy randint(low, high) with low >= high
    | KeyError(table: string, key: string)  // dict[key] on a missing key

  datatype Option<+T> = None | Some(value: T)

  datatype Result<+T> = Ok(value: T) | Err(error: Error) {
    predicate IsFailure() { Err? }

    function PropagateFailure<U>(): Result<U>
      requires Err?
    {
      Err(error)
    }

    function Extract(): T
      requires Ok?
    {
      value
    }
  }

  /** The absolute price floor every price of the engine respects. */
  const PriceFloor: int := 50000

  function Max(a: int, b: int): int { if a < b then b else a }
  function Min(a: int, b: int): int { if a < b then a else b }
  function MaxR(a: real, b: real): real { if a < b then b else a }
  function MinR(a: real, b: real): real { if a < b then a else b }

  /** Python's `int(x)` on a float: truncation toward zero. */
  function Trunc(x: real): (r: int)
    ensures 0.0 <= x ==> r as real <= x < r as real + 1.0
    ensures x < 0.0 ==> r as real - 1.0 < x <= r as real
  {
    if x >= 0.0 then x.Floor else -((-x).Floor)
  }

  /** `max(50000, n)`, the last step of both price computations. */
  function Floored(n: int): (r: int)
    ensures r >= PriceFloor
    ensures r == n || (r == PriceFloor && n < PriceFloor)
  {
    Max(PriceFloor, n)
  }

  /** Truncation never reverses the order of two prices. */
  lemma TruncMonotone(x: real, y: real)
    requires x <= y
    ensures Trunc(x) <= Trunc(y)
  {
    if x >= 0.0 {
      assert x.Floor <= y.Floor;
    } else if y >= 0.0 {
      assert Trunc(x) <= 0 <= Trunc(y);
    } else {
      assert (-y).Floor <= (-x).Floor;
    }
  }

  /** The floored, truncated price is monotone in the real estimate it comes from. */
  lemma FlooredTruncMonotone(x: real, y: real)
    requires x <= y
    ensures Floored(Trunc(x)) <= Floored(Trunc(y))
  {
    TruncMonotone(x, y);
  }
}
