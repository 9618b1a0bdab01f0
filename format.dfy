/** The number formatting policy of the page (`fNum`, script.js:129).
    The policy picks between an integer rendering and a two-decimal rendering;
    the renderings themselves (JavaScript's `toString` and `toFixed(2)`) are
    text conversions this model does not interpret, so they are carried as a
    `Formatter` value that every calculator receives. */
module Format {

  /** `intText` renders a whole number, `fixed2` renders a value with exactly two decimals. */
  datatype Formatter = Formatter(intText: int -> string, fixed2: real -> string)

  /** `Number.isInteger` over the reals: the value has no fractional part. */
  predicate IsWhole(x: real) {
    x.Floor as real == x
  }

  /** `fNum`: whole numbers print as integers, everything else with two decimals. */
  function FNum(f: Formatter, x: real): (s: string)
    ensures forall n: int {:trigger f.intText(n)} :: x == n as real ==> s == f.intText(n)
    ensures !IsWhole(x) ==> s == f.fixed2(x)
  {
    if IsWhole(x) then f.intText(x.Floor) else f.fixed2(x)
  }
}
