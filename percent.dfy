/** The five percentage calculators of the page (script.js:148-254).
    Each one turns two parsed fields (and, for two of them, the operator
    selected in a drop-down) into the text shown in its result box, the tone
    class of that text and whether the box is active. A field that did not
    parse is `None`. */
module Percent {
  import opened Wrappers
  import opened Format

  /** The CSS class put on the value: '' (plain), 'positive' or 'negative'. */
  datatype Tone = Plain | Positive | Negative

  /** What `updateResultUI` receives: value text, sub text, tone class and the active flag. */
  datatype CalcResult = CalcResult(valText: string, subText: string, tone: Tone, active: bool)

  /** The initial `'--'`/`'--'` of every calculator, shown while an input is missing. */
  const Placeholder := CalcResult("--", "--", Plain, false)

  /** Shown by "Percent Of" and "Fraction" for a zero base or denominator; not active. */
  const DivByZero := CalcResult("Undefined", "Div by zero", Plain, false)

  /** The sign put in front of a tone: '+' for positive, '-' for negative, nothing otherwise. */
  function SignText(t: Tone): (s: string)
    ensures |s| <= 1
    ensures s == "" <==> t == Plain
  {
    match t
    case Plain => ""
    case Positive => "+"
    case Negative => "-"
  }

  /** `Math.abs` over the reals. */
  function Abs(x: real): (r: real)
    ensures r >= 0.0 && (r == x || r == -x)
  {
    if x < 0.0 then -x else x
  }

  /** Which way a percentage moves a value. The two drop-downs use different
      words for it: "add"/anything else, and "inc"/anything else. */
  datatype Direction = Up | Down

  function AddSubDirection(op: string): Direction {
    if op == "add" then Up else Down
  }

  function RevDirection(op: string): Direction {
    if op == "inc" then Up else Down
  }

  /** `1 + pct/100` or `1 - pct/100`: the factor a percentage step multiplies by. */
  function Factor(pct: real, d: Direction): (k: real)
    ensures (k - 1.0) * 100.0 == (if d == Up then pct else -pct)
  {
    if d == Up then 1.0 + pct / 100.0 else 1.0 - pct / 100.0
  }

  // ---------------------------------------------------------------------------
  // The arithmetic of the calculators

  /** Percent change from `prev` to `next`, relative to the size of `prev` (script.js:161-162). */
  function ChangePercent(prev: real, next: real): (pc: real)
    requires prev != 0.0
    ensures pc * Abs(prev) == (next - prev) * 100.0
    ensures pc > 0.0 <==> next > prev
    ensures pc < 0.0 <==> next < prev
  {
    (next - prev) / Abs(prev) * 100.0
  }

  /** What percentage `part` is of `base` (script.js:183 and script.js:245). */
  function PercentOf(part: real, base: real): (pc: real)
    requires base != 0.0
    ensures pc * base == part * 100.0
  {
    part / base * 100.0
  }

  /** `pct` percent of `base` (script.js:201). */
  function Amount(base: real, pct: real): (amt: real)
    ensures amt * 100.0 == base * pct
  {
    base * (pct / 100.0)
  }

  /** `base` moved up or down by `pct` percent of itself (script.js:202). */
  function AddSubValue(base: real, pct: real, d: Direction): (v: real)
    ensures v == base * Factor(pct, d)
    ensures v - base == (if d == Up then Amount(base, pct) else -Amount(base, pct))
  {
    if d == Up then base + Amount(base, pct) else base - Amount(base, pct)
  }

  /** The value before a `pct` percent step that ended at `final` (script.js:222-224). */
  function Original(final: real, pct: real, d: Direction): (orig: real)
    requires Factor(pct, d) != 0.0
    ensures orig * Factor(pct, d) == final
  {
    final / Factor(pct, d)
  }

  // ---------------------------------------------------------------------------
  // The calculators

  /** Calculator 1, "Change" (script.js:148-168). */
  function CalcChange(f: Formatter, prev: Option<real>, next: Option<real>): (r: CalcResult)
    ensures r.active <==> prev.Some? && next.Some?
    ensures !r.active ==> r == Placeholder
    ensures r.active && prev.value == 0.0 && next.value == 0.0 ==>
      r == CalcResult("0%", "No change", Plain, true)
    ensures r.active && prev.value == 0.0 && next.value != 0.0 ==>
      r == CalcResult("∞%", "Increase from zero", Positive, true)
    ensures r.active && prev.value != 0.0 ==>
      && (r.tone == Positive <==> next.value > prev.value)
      && (r.tone == Negative <==> next.value < prev.value)
      && r.valText == SignText(r.tone) + FNum(f, Abs(ChangePercent(prev.value, next.value))) + "%"
      && r.subText == FNum(f, prev.value) + " to " + FNum(f, next.value)
  {
    match (prev, next)
    case (Some(p), Some(n)) =>
      if p == 0.0 then
        if n == 0.0 then CalcResult("0%", "No change", Plain, true)
        else CalcResult("∞%", "Increase from zero", Positive, true)
      else
        var diff := n - p;
        var pc := diff / Abs(p) * 100.0;
        var sign := if diff > 0.0 then "+" else if diff < 0.0 then "-" else "";
        var tc := if diff > 0.0 then Positive else if diff < 0.0 then Negative else Plain;
        CalcResult(sign + FNum(f, Abs(pc)) + "%", FNum(f, p) + " to " + FNum(f, n), tc, true)
    case _ => Placeholder
  }

  /** Calculator 2, "Percent Of" (script.js:174-188). */
  function CalcOf(f: Formatter, part: Option<real>, base: Option<real>): (r: CalcResult)
    ensures r.active <==> part.Some? && base.Some? && base.value != 0.0
    ensures part.None? || base.None? ==> r == Placeholder
    ensures part.Some? && base.Some? && base.value == 0.0 ==> r == DivByZero
    ensures r.active ==>
      && r.tone == Plain
      && r.valText == FNum(f, PercentOf(part.value, base.value)) + "%"
      && r.subText == FNum(f, part.value) + " is " + r.valText + " of " + FNum(f, base.value)
  {
    match (part, base)
    case (Some(pt), Some(bs)) =>
      if bs == 0.0 then DivByZero
      else
        var valT := FNum(f, pt / bs * 100.0) + "%";
        CalcResult(valT, FNum(f, pt) + " is " + valT + " of " + FNum(f, bs), Plain, true)
    case _ => Placeholder
  }

  /** Calculator 3, "Add/Sub": the tone follows the operator, not the sign of the result (script.js:194-209). */
  function CalcAddSub(f: Formatter, base: Option<real>, pct: Option<real>, op: string): (r: CalcResult)
    ensures r.active <==> base.Some? && pct.Some?
    ensures !r.active ==> r == Placeholder
    ensures r.active ==>
      && (r.tone == Positive <==> op == "add")
      && (r.tone == Negative <==> op != "add")
      && r.valText == FNum(f, AddSubValue(base.value, pct.value, AddSubDirection(op)))
      && r.subText == FNum(f, base.value) + " " + SignText(r.tone) + " " + FNum(f, pct.value)
                      + "% (" + FNum(f, Amount(base.value, pct.value)) + ")"
  {
    match (base, pct)
    case (Some(bs), Some(pt)) =>
      var amt := bs * (pt / 100.0);
      var res := if op == "add" then bs + amt else bs - amt;
      var sign := if op == "add" then "+" else "-";
      var tc := if op == "add" then Positive else Negative;
      assert res == AddSubValue(bs, pt, AddSubDirection(op));
      CalcResult(FNum(f, res), FNum(f, bs) + " " + sign + " " + FNum(f, pt) + "% (" + FNum(f, amt) + ")", tc, true)
    case _ => Placeholder
  }

  /** Calculator 4, "Reverse %": a zero divisor leaves the placeholder in place (script.js:215-230). */
  function CalcRev(f: Formatter, final: Option<real>, pct: Option<real>, op: string): (r: CalcResult)
    ensures r.active <==> final.Some? && pct.Some? && Factor(pct.value, RevDirection(op)) != 0.0
    ensures !r.active ==> r == Placeholder
    ensures r.active ==>
      && r.tone == Plain
      && r.valText == FNum(f, Original(final.value, pct.value, RevDirection(op)))
      && r.subText == "Original value before " + FNum(f, pct.value) + "% "
                      + (if op == "inc" then "increase" else "decrease")
  {
    match (final, pct)
    case (Some(fv), Some(pc)) =>
      var divisor := if op == "inc" then 1.0 + pc / 100.0 else 1.0 - pc / 100.0;
      if divisor != 0.0 then
        var dir := if op == "inc" then "increase" else "decrease";
        CalcResult(FNum(f, fv / divisor), "Original value before " + FNum(f, pc) + "% " + dir, Plain, true)
      else Placeholder
    case _ => Placeholder
  }

  /** Calculator 5, "Fraction" (script.js:236-250). */
  function CalcFrac(f: Formatter, num: Option<real>, den: Option<real>): (r: CalcResult)
    ensures r.active <==> num.Some? && den.Some? && den.value != 0.0
    ensures num.None? || den.None? ==> r == Placeholder
    ensures num.Some? && den.Some? && den.value == 0.0 ==> r == DivByZero
    ensures r.active ==>
      && r.tone == Plain
      && r.valText == FNum(f, PercentOf(num.value, den.value)) + "%"
      && r.subText == FNum(f, num.value) + " / " + FNum(f, den.value)
  {
    match (num, den)
    case (Some(n), Some(d)) =>
      if d == 0.0 then DivByZero
      else CalcResult(FNum(f, n / d * 100.0) + "%", FNum(f, n) + " / " + FNum(f, d), Plain, true)
    case _ => Placeholder
  }

  // ---------------------------------------------------------------------------
  // How the calculators relate to each other

  lemma Cancel(a: real, b: real, k: real)
    requires k != 0.0 && a * k == b * k
    ensures a == b
  {
    assert (a - b) * k == 0.0;
  }

  /** "Percent Of" recovers the percentage that produced the part. */
  lemma OfRecoversPercent(f: Formatter, base: real, x: real)
    requires base != 0.0
    ensures CalcOf(f, Some(base * x / 100.0), Some(base)) ==
      CalcResult(FNum(f, x) + "%",
                 FNum(f, base * x / 100.0) + " is " + FNum(f, x) + "% of " + FNum(f, base),
                 Plain, true)
  {
    var part := base * x / 100.0;
    var pc := PercentOf(part, base);
    assert part * 100.0 == x * base;
    Cancel(pc, x, base);
  }

  /** Moving `prev` by `x` percent of its size reads back as an `x` percent change. */
  lemma ChangeRecoversPercent(prev: real, x: real)
    requires prev != 0.0
    ensures ChangePercent(prev, prev + Abs(prev) * x / 100.0) == x
  {
    var next := prev + Abs(prev) * x / 100.0;
    var pc := ChangePercent(prev, next);
    assert (next - prev) * 100.0 == x * Abs(prev);
    Cancel(pc, x, Abs(prev));
  }

  /** "Reverse %" undoes "Add/Sub" when the two drop-downs point the same way. */
  lemma RevUndoesAddSub(f: Formatter, base: real, pct: real, addOp: string, revOp: string)
    requires AddSubDirection(addOp) == RevDirection(revOp)
    requires Factor(pct, RevDirection(revOp)) != 0.0
    ensures var r := CalcRev(f, Some(AddSubValue(base, pct, AddSubDirection(addOp))), Some(pct), revOp);
      r.active && r.valText == FNum(f, base)
  {
    var d := RevDirection(revOp);
    var k := Factor(pct, d);
    var final := AddSubValue(base, pct, d);
    assert final == base * k;
    var orig := Original(final, pct, d);
    assert orig * k == final;
    Cancel(orig, base, k);
  }

  /** "Add/Sub" undoes "Reverse %": the original value, moved by the same percentage, is the final value. */
  lemma AddSubUndoesRev(final: real, pct: real, d: Direction)
    requires Factor(pct, d) != 0.0
    ensures AddSubValue(Original(final, pct, d), pct, d) == final
  {
  }

  /** A step of -100% up (or 100% down) is the one "Reverse %" cannot undo. */
  lemma RevInactiveOnlyAtFullStep(f: Formatter, final: real, pct: real, op: string)
    ensures !CalcRev(f, Some(final), Some(pct), op).active <==>
      pct == (if op == "inc" then -100.0 else 100.0)
  {
  }

  /** "Fraction" and "Percent Of" compute the same percentage and the same activity. */
  lemma FracAgreesWithOf(f: Formatter, num: Option<real>, den: Option<real>)
    ensures CalcFrac(f, num, den).active == CalcOf(f, num, den).active
    ensures CalcFrac(f, num, den).valText == CalcOf(f, num, den).valText
  {
  }

  /** Swapping the two values of "Change" swaps its tone, away from a zero start. */
  lemma ChangeToneSwaps(f: Formatter, a: real, b: real)
    requires a != 0.0 && b != 0.0
    ensures CalcChange(f, Some(a), Some(b)).tone == Positive <==> CalcChange(f, Some(b), Some(a)).tone == Negative
  {
  }
}
