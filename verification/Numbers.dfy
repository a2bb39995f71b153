/** Machine integers and small arithmetic shared by the modules. */
module Numbers {

  const MAX_INT64 := 0x7fff_ffff_ffff_ffff
  const TWO_64 := 0x1_0000_0000_0000_0000

  type Int64 = x: int | -0x8000_0000_0000_0000 <= x < 0x8000_0000_0000_0000

  /** The machine integer that an exact result wraps around to. */
  function Wrap(x: int): (r: Int64)
    ensures -MAX_INT64 - 1 <= x <= MAX_INT64 ==> r == x
  {
    var m := x % TWO_64;
    if m <= MAX_INT64 then m else m - TWO_64
  }

  lemma ModShift(a: int, k: int)
    ensures (a - TWO_64 * k) % TWO_64 == a % TWO_64
  {
  }

  /** Doubling commutes with wrapping. */
  lemma WrapDouble(x: int)
    ensures Wrap(2 * Wrap(x)) == Wrap(2 * x)
  {
    var k := if x % TWO_64 <= MAX_INT64 then x / TWO_64 else x / TWO_64 + 1;
    assert Wrap(x) == x - TWO_64 * k;
    assert 2 * Wrap(x) == 2 * x - TWO_64 * (2 * k);
    ModShift(2 * x, 2 * k);
  }

  function Max(x: int, y: int): int {
    if x > y then x else y
  }
}
