/**
 * The recompute routine of the tip calculator, as a specification over
 * exact reals: which validation error wins, which tip percentage applies,
 * and how the bill is split per person.
 *
 * Inputs arrive already parsed: `None` stands for a field that is empty or
 * that does not parse as a number.
 */
module Calculator {
  import opened Wrappers

  const BillError: string := "Enter a valid bill amount."
  const PartyError: string := "Number of people must be at least 1."

  /** What one recompute hands to the page: two amounts and an error text. */
  datatype Display = Display(tipPerPerson: real, totalPerPerson: real, error: string)

  /** Per-person amounts of a successful recompute. */
  datatype Split = Split(tipPerPerson: real, totalPerPerson: real)

  /** The zero result shown next to a validation error (and after reset or start-up). */
  const ZeroDisplay: Display := Display(0.0, 0.0, "")

  predicate ValidBill(bill: Option<real>) {
    bill.Some? && bill.value >= 0.0
  }

  predicate ValidParty(people: Option<int>) {
    people.Some? && people.value > 0
  }

  /** A custom field overrides the selection when it parses to a non-negative number. */
  predicate CustomUsable(custom: Option<real>) {
    custom.Some? && custom.value >= 0.0
  }

  /**
   * The tip percentage a recompute uses. The custom field is consulted first,
   * whatever the selection; what remains is the selection, and a missing or
   * negative percentage becomes 0 (which is not an error).
   */
  function EffectiveTip(selected: Option<real>, custom: Option<real>): (pct: real)
    ensures pct >= 0.0
    ensures CustomUsable(custom) ==> pct == custom.value
    ensures !CustomUsable(custom) && selected.Some? && selected.value >= 0.0 ==> pct == selected.value
    ensures !CustomUsable(custom) && (selected.None? || selected.value < 0.0) ==> pct == 0.0
  {
    var chosen := if CustomUsable(custom) then custom else selected;
    if chosen.None? || chosen.value < 0.0 then 0.0 else chosen.value
  }

  /**
   * Splits a valid bill with a tip of `pct` percent between `party` people:
   * the tip per person is a party-th of the total tip, and the total per
   * person adds it to a party-th of the bill. Multiplied back by the party
   * size, the two amounts give exactly the total tip and the bill plus tip.
   */
  function SplitBill(bill: real, party: int, pct: real): (s: Split)
    requires bill >= 0.0 && party >= 1 && pct >= 0.0
    ensures 0.0 <= s.tipPerPerson <= s.totalPerPerson
    ensures s.tipPerPerson * (party as real) == bill * pct / 100.0
    ensures s.totalPerPerson * (party as real) == bill + bill * pct / 100.0
    ensures s.totalPerPerson == bill / (party as real) + bill * pct / (100.0 * (party as real))
    ensures pct == 0.0 ==> s.tipPerPerson == 0.0 && s.totalPerPerson == bill / (party as real)
  {
    var totalTip := bill * (pct / 100.0);
    var tip := totalTip / (party as real);
    Split(tip, bill / (party as real) + tip)
  }

  /**
   * One recompute as a value: the bill is validated first and the party
   * size second, each failure with its own message; otherwise the bill is
   * split with the effective tip.
   */
  function Quote(bill: Option<real>, people: Option<int>, selected: Option<real>, custom: Option<real>)
    : (r: Result<Split, string>)
    ensures r.Success? <==> ValidBill(bill) && ValidParty(people)
    ensures !ValidBill(bill) ==> r == Failure(BillError)
    ensures ValidBill(bill) && !ValidParty(people) ==> r == Failure(PartyError)
    ensures r.Success? ==> 0.0 <= r.value.tipPerPerson <= r.value.totalPerPerson
    ensures r.Success? ==>
      r.value.totalPerPerson * (people.value as real)
        == bill.value + bill.value * EffectiveTip(selected, custom) / 100.0
    ensures r.Success? ==>
      r.value.tipPerPerson * (people.value as real) == bill.value * EffectiveTip(selected, custom) / 100.0
  {
    if !ValidBill(bill) then Failure(BillError)
    else if !ValidParty(people) then Failure(PartyError)
    else Success(SplitBill(bill.value, people.value, EffectiveTip(selected, custom)))
  }

  /** What the page shows for an outcome: the zero result beside an error, or the amounts with no error. */
  function Shown(r: Result<Split, string>): (d: Display)
    ensures r.Failure? ==> d == ZeroDisplay.(error := r.error)
    ensures r.Success? ==>
      d.error == "" && d.tipPerPerson == r.value.tipPerPerson && d.totalPerPerson == r.value.totalPerPerson
  {
    match r
    case Failure(e) => Display(0.0, 0.0, e)
    case Success(s) => Display(s.tipPerPerson, s.totalPerPerson, "")
  }

  /** The error text is empty exactly when the inputs are valid, and is then one of the two messages. */
  lemma ErrorShownIffInvalid(bill: Option<real>, people: Option<int>, selected: Option<real>, custom: Option<real>)
    ensures var d := Shown(Quote(bill, people, selected, custom));
      (d.error == "" <==> ValidBill(bill) && ValidParty(people))
      && (d.error != "" ==> d.error in {BillError, PartyError} && d.tipPerPerson == 0.0 && d.totalPerPerson == 0.0)
  {
  }

  /**
   * Usable custom text makes the selection irrelevant: whatever preset is
   * selected, or none, and whatever the bill and party size, the outcome is
   * the same; with valid inputs it is the split at the custom percentage.
   */
  lemma CustomOverridesPreset(bill: Option<real>, people: Option<int>, s1: Option<real>, s2: Option<real>, c: Option<real>)
    requires CustomUsable(c)
    ensures Quote(bill, people, s1, c) == Quote(bill, people, s2, c)
    ensures ValidBill(bill) && ValidParty(people) ==>
      Quote(bill, people, s1, c).value == SplitBill(bill.value, people.value, c.value)
  {
  }
}
