# Tip calculator — verified model

A Dafny model of the controller of a browser tip calculator (`script.js`).
The page has three inputs: the bill, the number of people and a custom tip
percentage. It also has a row of preset tip buttons and shows two amounts,
the tip per person and the total per person, beside an error line.

The model has two parts:

- **`Calculator`** (`calculator.dfy`) specifies the recompute routine
  `calculate` over exact reals.
  - `EffectiveTip` picks the tip percentage in force. Custom text that
    parses to a non-negative number overrides the selected preset. A missing
    or negative percentage becomes 0.
  - `SplitBill` does the per-person arithmetic.
  - `Quote` validates the bill first and the party size second, each with
    its own message.
  - `Shown` turns the outcome into what the page shows: the zero result
    beside an error, or the two amounts with an empty error.
- **`TipPage`** (`page.dfy`) covers the selection state machine.
  - `Form` is the page's whole state: the parsed inputs, the selected preset
    (`selectedTip`) and the shown result.
  - One function per handler says what the handler does to a `Form`.
  - Class `Controller` holds the same state in mutable fields. Each of its
    methods (`modifies this`) is proved to move the state exactly as the
    handler's function says.
  - `Event`, `Step` and `Run` replay a sequence of user events. Lemmas about
    them prove invariants that hold after any sequence of events:
    - a preset and custom text are never active together;
    - the shown amounts always equal a fresh recompute of the inputs;
    - the error line also equals a fresh recompute, except right after a
      reset, or at start-up before any event (start-up does not recompute,
      so the error line still holds the page's own text).

The inputs are modelled as already parsed. `None` stands for a field that is
empty or whose text does not parse as a number.

Two behaviours of `script.js` shape the model:

- Custom text that parses to a value of 0 or more overrides any selected
  preset on every recompute (script.js:34-36). `RunKeepsExclusive` shows
  that, from start-up on, a selected preset always finds the custom field
  empty, so the override never competes with a preset.
- Start-up sets the party size to 1 and leaves the error line untouched,
  while reset empties the party size and clears the error line
  (script.js:101-118; `ResetVersusInit`).

## Model

| member | source | states |
|---|---|---|
| `Calculator.EffectiveTip` | script.js:34-54 | the percentage is never negative; usable custom text wins even over a selected preset; otherwise the preset applies if non-negative; else 0, which is not an error |
| `Calculator.SplitBill` | script.js:56-62 | on a valid bill and party: 0 ≤ tip per person ≤ total per person; multiplied back by the party size they give the total tip and the bill plus tip; total = bill/party + bill·pct/(100·party); with 0% the total is bill/party |
| `Calculator.Quote` | script.js:28-62 | success iff bill ≥ 0 and party ≥ 1; an invalid bill gives the bill message even when the party size is invalid too; a valid bill with an invalid party gives the party message; success amounts satisfy SplitBill's properties with the effective tip |
| `Calculator.Shown` | script.js:39-50 | a failure shows zero amounts and its message; a success shows its amounts with an empty error |
| `Calculator.ErrorShownIffInvalid` | script.js:38-50 | the error line is empty exactly when both inputs are valid; otherwise it is one of the two messages, beside zero amounts |
| `Calculator.CustomOverridesPreset` | script.js:34-36 | with usable custom text, the selected preset (or none) has no effect on the outcome, for any bill and party size; with valid inputs the split uses the custom percentage |
| `TipPage.Recalculated` | script.js:28-67 | `calculate` changes only the shown result; the inputs and the selection are unchanged; the shown result becomes that of the current inputs |
| `TipPage.TipCleared` | script.js:21-25 | clearing the selection unsets the preset and empties the custom field; nothing else changes |
| `TipPage.Toggled` | script.js:70-87 | clicking the selected preset deselects it and keeps the custom text; clicking another selects it and empties the custom field; the result is recomputed |
| `TipPage.CustomEdited` | script.js:90-95 | any custom edit, valid or not, unsets the preset before the recompute |
| `TipPage.BillEdited` | script.js:98 | a bill edit changes only the bill and the recomputed result |
| `TipPage.PeopleEdited` | script.js:98 | a party-size edit changes only the party size and the recomputed result |
| `TipPage.AfterReset` | script.js:101-109 | reset forgets everything: empty fields, no preset, zero result, empty error; the zero amounts agree with a recompute |
| `TipPage.Initialized` | script.js:112-118 | start-up gives empty fields, party size 1, no preset and the zero result, and keeps the page's error text |
| `TipPage.RecalculateIdempotent` | script.js:28-67 | recomputing twice shows the same as recomputing once |
| `TipPage.ToggleTwice` | script.js:73-84 | two clicks on one preset from no selection leave no selection and an empty custom field, with the inputs unchanged |
| `TipPage.UnusableCustomDropsPreset` | script.js:90-94 | typing custom text that gives no usable percentage drops the preset, so the recompute uses 0% |
| `TipPage.ResetVersusInit` | script.js:101-118 | reset and start-up differ only in the party size (empty vs 1) and the error (cleared vs kept) |
| `TipPage.RunKeepsExclusive` | script.js:21-109 | after any sequence of events, a selected preset always finds the custom field empty |
| `TipPage.RunShows` | script.js:28-109 | after any sequence of events the shown amounts equal a fresh recompute; after at least one event the error does too, unless the last event was a reset, which leaves it empty |
| `TipPage.ReachablePresetIsUsed` | script.js:34-54 | from start-up on, a selected preset is the percentage in force (0 if negative) |
| `TipPage.ReachableAmountsAgree` | script.js:28-118 | from start-up on, the shown amounts always equal a fresh recompute of the inputs |
| `TipPage.PresetScenario` | script.js:28-87 | bill 100, party of 4, the 15% preset: 3.75 tip and 28.75 total per person, no error |
| `TipPage.NegativeBillScenario` | script.js:39-44 | bill −5 with any preset: the bill message and zero amounts |
| `TipPage.EmptyPartyScenario` | script.js:45-50 | bill 50, party of 0: the party-size message and zero amounts |
| `TipPage.NoTipScenario` | script.js:51-66 | bill 80, party of 2, no preset, unusable custom text: 0 tip and 40 per person |
| `TipPage.Controller.constructor` | script.js:112-118 | a page loaded in any state shows the start-up state after init |
| `TipPage.Controller.ClearTipSelection` | script.js:21-25 | the fields move exactly as `TipCleared` says |
| `TipPage.Controller.Calculate` | script.js:28-67 | the fields move exactly as `Recalculated` says: only the outputs are written, and the shown result agrees with the inputs |
| `TipPage.Controller.TogglePreset` | script.js:70-87 | the fields move exactly as `Toggled` says |
| `TipPage.Controller.EditCustom` | script.js:90-95 | the fields move exactly as `CustomEdited` says |
| `TipPage.Controller.EditBill` | script.js:98 | the fields move exactly as `BillEdited` says |
| `TipPage.Controller.EditPeople` | script.js:98 | the fields move exactly as `PeopleEdited` says |
| `TipPage.Controller.Reset` | script.js:101-109 | the fields move exactly as `AfterReset` says |
| `TipPage.Controller.Init` | script.js:112-118 | the fields move exactly as `Initialized` says; the error text is not touched |
| `TipPage.Controller.Handle` | script.js:70-109 | handling an event moves the fields exactly as `Step` says |

## Left out

- Looking up DOM elements and wiring events (script.js:4-11, 98) is not modelled; each handler is a method. When the user types, the browser writes the new field value; the model takes that value as the handler's parameter.
- The "inactive" class toggling on the preset buttons (script.js:23, 77, 80-81, 93) is presentation only and is not modelled.
- Text parsing with `parseFloat`, `parseInt` and `Number` (script.js:30-31, 35, 73) is not modelled: inputs are `Option` values. This also leaves out JavaScript's prefix parsing ("12abc" reads as 12) and `Infinity`.
- A preset whose `data-tip` attribute is not a number (NaN) is not modelled. It can never equal itself on a second click, and `calculate` treats it as 0%.
- `formatCurrency` (script.js:16-19) is not modelled: the rupee prefix and the rounding to two decimals. The amounts are kept as exact reals.
- IEEE-754 double arithmetic in the tip computation (script.js:60-62) is not modelled; it is done over exact reals.
- The text the page's error line holds before start-up comes from the HTML, which is not part of this model. The constructor takes the whole page state before start-up as a parameter.
