# Percentage Calculator: calculators and history log

This project models, in Dafny, the logic of a browser page of five
percentage calculators ("Change", "Percent Of", "Add/Sub", "Reverse %",
"Fraction") and of its history log.

- `Format` holds the number formatting policy `fNum`: whole numbers are
  printed as integers, all other values with two decimals. The two text
  renderings are a `Formatter` value that every calculator receives.
- `Percent` holds the five calculators. They are pure functions from parsed
  fields (`Option<real>`, where `None` means the text did not parse) and, for
  "Add/Sub" and "Reverse %", the operator string chosen in the drop-down. Each
  returns the value text, the sub text, the tone class and the active flag.
  The arithmetic is kept in small functions (`ChangePercent`, `PercentOf`,
  `Amount`, `AddSubValue`, `Original`). Each of these states the equation
  that defines its result. Lemmas relate the calculators to each other.
- `History` holds the log. There is a value-level state machine (`State`,
  `PushStep`, `FireStep`, `ClearStep`) and the lemmas proved about it. There
  is also the class `HistoryStore`, whose `log` and `pending` fields the methods
  `Push`, `Fire` and `Clear` update in place. Each method is proved to move the
  store exactly as its step function says. The debounce timer is one pending
  slot. `Fire(now)` stands for that timer going off.
- `Page` holds the five input handlers. Each one runs its calculator and
  pushes to the history only when the result is active.

Behaviours of the code that the model keeps:

- The duplicate check compares a push with the newest *committed* entry, not with the
  pending one. A repeat of the head leaves a different pending push armed.
- Clearing the log does not cancel the pending timer. A push made just
  before a clear is committed into the emptied log (`ClearStep` keeps
  `pending`).
- The log loaded at start-up is taken as it is stored. A commit pops only
  one entry, so the 50-entry bound holds only for a log that started within
  it (`HistoryStore.Fire`, `CommitAllKeepsNewest`). This is why the view takes at most
  50 entries.
- "Change" from a previous value of zero to any non-zero value reads "∞%",
  "Increase from zero", with a positive tone. This holds for a negative new
  value too, and the model keeps it.
- "Reverse %" with a zero divisor keeps the "--"/"--" placeholder. "Percent Of"
  and "Fraction" with a zero base show "Undefined"/"Div by zero". None of these
  results is active, so none of them is journaled.

## Model

| member | source | states |
|---|---|---|
| `Format.FNum` | script.js:129 | a whole value is printed by the integer rendering of that integer; any other value by the two-decimal rendering |
| `Percent.ChangePercent` | script.js:161-162 | the percentage times the size of the previous value is 100 times the difference; it is positive exactly when the value grew and negative exactly when it shrank |
| `Percent.PercentOf` | script.js:183 | the percentage times the base is 100 times the part |
| `Percent.Amount` | script.js:201 | the amount times 100 is base times percentage |
| `Percent.AddSubValue` | script.js:201-202 | the result is the base times the factor 1 ± pct/100; it differs from the base by plus or minus the amount |
| `Percent.Factor` | script.js:222 | the factor exceeds 1 by pct/100 going up and falls short of 1 by pct/100 going down |
| `Percent.Original` | script.js:222-224 | the original value times the divisor is the final value |
| `Percent.CalcChange` | script.js:148-168 | active exactly when both fields parse, otherwise the "--" placeholder; 0 to 0 is "0%"/"No change"; 0 to non-zero is "∞%"/"Increase from zero", positive; otherwise the tone is positive iff the value grew and negative iff it shrank, the sign in front agrees with the tone, the magnitude is the absolute percent change, and the sub text is "prev to new" |
| `Percent.CalcOf` | script.js:174-188 | a missing field gives the placeholder; a zero base gives "Undefined"/"Div by zero", inactive; otherwise active, plain tone, value is the percentage the part is of the base, sub text "part is X% of base" |
| `Percent.CalcAddSub` | script.js:194-209 | active exactly when both fields parse; tone positive iff the operator is "add" and negative otherwise, whatever the sign of the result; value is base moved by pct percent; sub text shows base, the sign matching the tone, pct and the amount |
| `Percent.CalcRev` | script.js:215-230 | active exactly when both fields parse and the divisor 1 ± pct/100 is non-zero, otherwise the placeholder; value is the original value, which times the divisor gives the final value; sub text names "increase" for "inc" and "decrease" otherwise |
| `Percent.CalcFrac` | script.js:236-250 | a missing field gives the placeholder; a zero denominator gives "Undefined"/"Div by zero", inactive; otherwise active, value is the percentage num is of den, sub text "num / den" |
| `Percent.OfRecoversPercent` | script.js:183-185 | for a non-zero base, "Percent Of" applied to x percent of the base shows exactly x% |
| `Percent.ChangeRecoversPercent` | script.js:161-163 | moving a non-zero previous value by x percent of its size reads back as an x percent change |
| `Percent.RevUndoesAddSub` | script.js:222-225 | "Reverse %" applied to the result of "Add/Sub" with the same percentage and direction is active and shows the original base |
| `Percent.AddSubUndoesRev` | script.js:201-202 | moving the original value computed by "Reverse %" by the same percentage gives back the final value |
| `Percent.RevInactiveOnlyAtFullStep` | script.js:222-223 | with both fields parsed, "Reverse %" is inactive exactly for -100% with "inc" and 100% otherwise |
| `Percent.FracAgreesWithOf` | script.js:242-246 | "Fraction" and "Percent Of" agree on activity and on the value text for every input |
| `Percent.ChangeToneSwaps` | script.js:163-165 | for non-zero values, swapping previous and new turns a positive tone into a negative one and back |
| `History.Stamp` | script.js:113 | the committed entry carries the triple and the reference captured at push time, and the commit time |
| `History.Commit` | script.js:113-114 | the new entry is first; the length grows by one below 50 and stays the same at or above; every older entry keeps its order, one place further down, and only the oldest can drop off |
| `History.PushStep` | script.js:103-118 | the log is untouched; a push repeating the head's triple changes nothing, including the armed timer; any other push replaces the pending request; the pending request never repeats the head |
| `History.FireStep` | script.js:112-117 | the slot is emptied; with nothing pending the log is unchanged, otherwise the pending request is committed, stamped with the firing time |
| `History.ClearStep` | script.js:120-126 | the log becomes empty and the pending request survives |
| `History.RowOf` | script.js:95-99 | a row shows category, value and sub text of its entry; the reference tag is shown exactly when the reference is not empty |
| `History.RowsOf` | script.js:94-100 | one row per entry, in order |
| `History.Render` | script.js:88-101 | the "No history yet" placeholder exactly for an empty log; otherwise the first min(length, 50) entries, in log order |
| `History.CommitIsTake` | script.js:113-114 | on a log within the cap, a commit keeps the first 50 of the new entry followed by the old log |
| `History.CommitAllKeepsNewest` | script.js:113-114 | committing any series onto a log within the cap leaves exactly the 50 newest of all entries, newest first, so the bound of 50 is kept |
| `History.FiftyOneKeepsFifty` | script.js:113-114 | 51 commits onto an empty log leave exactly the last 50, newest first |
| `History.PushAllSettles` | script.js:105-112 | after any burst of pushes the log is unchanged and the slot holds the latest push that does not repeat the head, or its old content when every push did |
| `History.BurstCommitsLast` | script.js:111-117 | a burst whose last push does not repeat the head, followed by the timer, adds exactly one entry, built from that last push |
| `History.BurstOfRepeatsIsNoop` | script.js:105-108 | a burst made only of repeats of the head leaves log and slot as they were |
| `History.FireKeepsNoRepeats` | script.js:105-114 | a log without neighbouring repeated triples keeps that property when the timer commits |
| `History.HistoryStore.constructor` | script.js:55-56 | the store starts with the stored log, or an empty one, and nothing pending |
| `History.HistoryStore.Push` | script.js:103-118 | moves the store as `PushStep` does and keeps the pending request distinct from the head |
| `History.HistoryStore.Fire` | script.js:112-117 | moves the store as `FireStep` does; keeps a log within 50 within 50 and keeps a log free of neighbouring repeats free of them |
| `History.HistoryStore.Clear` | script.js:120-126 | moves the store as `ClearStep` does: log emptied, pending request kept |
| `Page.Journal` | script.js:170-171 | an inactive result leaves the history store unchanged; an active one is pushed with its value and sub text |
| `Page.InactiveNeverJournaled` | script.js:180-191 | a missing field or zero base in "Percent Of" and "Fraction" never reaches the history |
| `Page.Publish` | script.js:171 | the store moves as `Journal` says and stays valid |
| `Page.OnChangeInput` | script.js:148-172 | the result is `CalcChange` of the fields and the store moves as `Journal` says under "Change" |
| `Page.OnOfInput` | script.js:174-192 | the result is `CalcOf` of the fields and the store moves as `Journal` says under "Percent Of" |
| `Page.OnAddSubInput` | script.js:194-213 | the result is `CalcAddSub` of the fields and the store moves as `Journal` says under "Add/Sub" |
| `Page.OnRevInput` | script.js:215-234 | the result is `CalcRev` of the fields and the store moves as `Journal` says under "Reverse %" |
| `Page.OnFracInput` | script.js:236-254 | the result is `CalcFrac` of the fields and the store moves as `Journal` says under "Fraction" |

## Left out

- Format.FNum: the integer rendering (`toString`) and the two-decimal rendering (`toFixed(2)`) are not interpreted. They are functions the caller supplies, so no property of the printed digits is stated.
- Number parsing (`parseFloat` and its prefix rules) is not modelled. A field arrives already parsed as `Option<real>`.
- IEEE behaviour is not modelled: NaN, ±Infinity (`parseFloat("Infinity")` is a number there), negative zero and rounding. All arithmetic is exact over `real`.
- Real time is not modelled. `setTimeout`/`clearTimeout` and the 1000 ms delay become the pending slot and an explicit `Fire(now)` step. `Date.now()` becomes the `now` argument.
- The reference field's `trim()` is not modelled. The handlers receive the reference tag already trimmed.
- Persistence in `localStorage` (the `calcHistory` and `theme` keys, JSON encoding) is left out as I/O. The log lives in memory, and the constructor takes the stored log as already decoded. A stored value that fails to parse makes `JSON.parse` throw in the code; the model has no such path.
- The DOM is left out: `updateResultUI` class toggling, the HTML of the history list (modelled as `View` rows), the sidebar, theme icons, toast, copy and share buttons, presets and the clear-inputs button.
- The `confirm` dialog before clearing is left out. `Clear` is the confirmed branch.
- Service-worker registration, the clipboard and `navigator.share` are foreign browser APIs and are left out.
