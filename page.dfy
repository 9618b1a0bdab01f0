/** The input handlers of the page (script.js:170-171, 190-191, 211-212,
    232-233, 252-253): each recomputes its calculator from the parsed fields
    and pushes the result to the history only when the result is active.
    The reference tag is the trimmed text of the reference field at the time
    of the input event. */
module Page {
  import opened Wrappers
  import opened Format
  import opened Percent
  import opened History

  /** The history after a calculator reported `r`: a push for an active result, nothing otherwise. */
  function Journal(s: State, kind: string, r: CalcResult, ref: string): (t: State)
    ensures !r.active ==> t == s
    ensures r.active ==> t == PushStep(s, Request(kind, r.valText, r.subText, ref))
  {
    if r.active then PushStep(s, Request(kind, r.valText, r.subText, ref)) else s
  }

  /** A missing field, a zero base and a zero divisor are shown but never journaled. */
  lemma InactiveNeverJournaled(s: State, f: Formatter, a: Option<real>, b: Option<real>, ref: string)
    requires a.None? || b.None? || b.value == 0.0
    ensures Journal(s, "Percent Of", CalcOf(f, a, b), ref) == s
    ensures Journal(s, "Fraction", CalcFrac(f, a, b), ref) == s
  {
  }

  /** Shared tail of every handler: `if (ok) pushHistory(...)`. */
  method Publish(h: HistoryStore, kind: string, r: CalcResult, ref: string)
    requires h.Valid()
    modifies h
    ensures h.Valid()
    ensures h.Snapshot() == Journal(old(h.Snapshot()), kind, r, ref)
  {
    if r.active {
      h.Push(kind, r.valText, r.subText, ref);
    }
  }

  method OnChangeInput(h: HistoryStore, f: Formatter, prev: Option<real>, next: Option<real>, ref: string)
    returns (r: CalcResult)
    requires h.Valid()
    modifies h
    ensures h.Valid()
    ensures r == CalcChange(f, prev, next)
    ensures h.Snapshot() == Journal(old(h.Snapshot()), "Change", r, ref)
  {
    r := CalcChange(f, prev, next);
    Publish(h, "Change", r, ref);
  }

  method OnOfInput(h: HistoryStore, f: Formatter, part: Option<real>, base: Option<real>, ref: string)
    returns (r: CalcResult)
    requires h.Valid()
    modifies h
    ensures h.Valid()
    ensures r == CalcOf(f, part, base)
    ensures h.Snapshot() == Journal(old(h.Snapshot()), "Percent Of", r, ref)
  {
    r := CalcOf(f, part, base);
    Publish(h, "Percent Of", r, ref);
  }

  method OnAddSubInput(h: HistoryStore, f: Formatter, base: Option<real>, pct: Option<real>, op: string, ref: string)
    returns (r: CalcResult)
    requires h.Valid()
    modifies h
    ensures h.Valid()
    ensures r == CalcAddSub(f, base, pct, op)
    ensures h.Snapshot() == Journal(old(h.Snapshot()), "Add/Sub", r, ref)
  {
    r := CalcAddSub(f, base, pct, op);
    Publish(h, "Add/Sub", r, ref);
  }

  method OnRevInput(h: HistoryStore, f: Formatter, final: Option<real>, pct: Option<real>, op: string, ref: string)
    returns (r: CalcResult)
    requires h.Valid()
    modifies h
    ensures h.Valid()
    ensures r == CalcRev(f, final, pct, op)
    ensures h.Snapshot() == Journal(old(h.Snapshot()), "Reverse %", r, ref)
  {
    r := CalcRev(f, final, pct, op);
    Publish(h, "Reverse %", r, ref);
  }

  method OnFracInput(h: HistoryStore, f: Formatter, num: Option<real>, den: Option<real>, ref: string)
    returns (r: CalcResult)
    requires h.Valid()
    modifies h
    ensures h.Valid()
    ensures r == CalcFrac(f, num, den)
    ensures h.Snapshot() == Journal(old(h.Snapshot()), "Fraction", r, ref)
  {
    r := CalcFrac(f, num, den);
    Publish(h, "Fraction", r, ref);
  }
}
