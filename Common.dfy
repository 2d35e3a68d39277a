/** Small shared vocabulary: an optional value and a raster pixel coordinate. */
module Common {

  /** The source's `T | null` / `undefined` results. */
  datatype Option<+T> = None | Some(value: T)

  /** A raster pixel, as the source's "x,y" string keys name it. */
  type Pixel = (int, int)

  /** Decimal spelling of a single digit 0..9, as `String(n)` gives it. */
  function DigitString(n: nat): (s: string)
    requires n < 10
    ensures |s| == 1 && '0' <= s[0] <= '9' && s[0] as int - '0' as int == n
  {
    [('0' as int + n) as char]
  }

  /** `String(n)` for a natural number: its decimal spelling. */
  function DecimalString(n: nat): (s: string)
    ensures |s| > 0
  {
    if n < 10 then DigitString(n) else DecimalString(n / 10) + DigitString(n % 10)
  }

  /** `String(n)` (or a template literal) for an integer: a minus sign before a negative one. */
  function IntString(n: int): (s: string)
    ensures |s| > 0
    ensures n >= 0 ==> s == DecimalString(n)
    ensures n < 0 ==> s == "-" + DecimalString(-n)
  {
    if n >= 0 then DecimalString(n) else "-" + DecimalString(-n)
  }
}
