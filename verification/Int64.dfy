/** Go's int64: two's complement wrap-around and the overflow-checked operations of the money code. */
module Int64 {
  import opened Wrappers
  import opened Results

  const MAX: int := 0x7fff_ffff_ffff_ffff
  const MIN: int := -0x8000_0000_0000_0000
  const MODULUS: int := 0x1_0000_0000_0000_0000

  predicate InRange(x: int) {
    MIN <= x <= MAX
  }

  type int64 = x: int | MIN <= x <= MAX

  /** What an int64 register holds after one addition or subtraction whose true result is x. */
  function Wrap(x: int): (r: int64)
    requires MIN + MIN <= x <= MAX - MIN
  {
    if x > MAX then x - MODULUS else if x < MIN then x + MODULUS else x
  }

  function AddChecked(a: int64, b: int64): (r: Result<int64>) {
    var sum := Wrap(a + b);
    if (b > 0 && sum < a) || (b < 0 && sum > a) then Err(InvalidInput) else Ok(sum)
  }

  function SubChecked(a: int64, b: int64): (r: Result<int64>) {
    var diff := Wrap(a - b);
    if (b < 0 && diff < a) || (b > 0 && diff > a) then Err(InvalidInput) else Ok(diff)
  }

  /** The comparison after the wrapped addition refuses exactly the sums that leave the int64 range. */
  lemma AddCheckedExact(a: int64, b: int64)
    ensures AddChecked(a, b) == if InRange(a + b) then Ok(a + b) else Err(InvalidInput)
  {
  }

  lemma SubCheckedExact(a: int64, b: int64)
    ensures SubChecked(a, b) == if InRange(a - b) then Ok(a - b) else Err(InvalidInput)
  {
  }

  /** Testing the wrapped sum for a negative value is exact when the counter is not negative. */
  lemma NegativeTestExact(counter: int64, delta: int64)
    requires 0 <= counter
    ensures Wrap(counter + delta) < 0 <==> !(0 <= counter + delta <= MAX)
  {
  }
}
