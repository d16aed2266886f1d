/** Basic types shared by the model: bytes, Go's int64 with its wrap-around,
    and the error values that Go code returns and wraps with `%w`. */
module Common {

  newtype byte = x: int | 0 <= x < 256

  const TWO63: int := 0x8000_0000_0000_0000
  const TWO64: int := 0x1_0000_0000_0000_0000

  /** Go's `int64`. */
  type int64 = x: int | -0x8000_0000_0000_0000 <= x < 0x8000_0000_0000_0000

  /** The int64 that a mathematical integer denotes in two's complement. */
  function Wrap64(x: int): (r: int64)
    ensures -TWO63 <= x < TWO63 ==> r == x
    ensures (x - r) % TWO64 == 0
  {
    var m := (x + TWO63) % TWO64;
    assert x + TWO63 == TWO64 * ((x + TWO63) / TWO64) + m;
    m - TWO63
  }

  /** Go's `a += b` on int64 values: the sum wraps around on overflow. */
  function AddInt64(a: int64, b: int64): (r: int64)
    ensures r == Wrap64(a + b)
  {
    var s := a + b;
    if s >= TWO63 then s - TWO64
    else if s < -TWO63 then s + TWO64
    else s
  }

  /** Wrapping an intermediate sum does not change the final wrapped sum. */
  lemma Wrap64Add(a: int, b: int)
    ensures Wrap64(Wrap64(a) + b) == Wrap64(a + b)
  {
    var q := (a + TWO63) / TWO64;
    assert Wrap64(a) == a - TWO64 * q;
    var y := a + b + TWO63;
    assert (y - TWO64 * q) % TWO64 == y % TWO64 by {
      var d := y / TWO64;
      assert y == TWO64 * d + y % TWO64;
      assert y - TWO64 * q == TWO64 * (d - q) + y % TWO64;
    }
  }

  datatype Option<+T> = None | Some(value: T)

  /** An error value; `Wrapped` is `fmt.Errorf("<context>: %w", cause)`. */
  datatype Error = Failure(message: string) | Wrapped(context: string, cause: Error)

  datatype Result<+T> = Ok(value: T) | Err(error: Error)
}
