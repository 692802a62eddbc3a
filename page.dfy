/**
 * The page controller of the tip calculator: the selected preset, the three
 * input fields (already parsed), the shown result, and the handlers that
 * change them. `Form` is the abstract state; each handler is specified by a
 * function on `Form`, and class `Controller` implements those handlers by
 * updating its fields in place.
 */
module TipPage {
  import opened Wrappers
  import opened Calculator

  /** Everything the handlers read or write. */
  datatype Form = Form(
    bill: Option<real>,
    people: Option<int>,
    custom: Option<real>,
    selectedTip: Option<real>,
    tipPerPerson: real,
    totalPerPerson: real,
    error: string)

  /** The page with every field empty, nothing selected and the zero result with no error. */
  const Blank: Form := Form(None, None, None, None, 0.0, 0.0, "")

  /** What a recompute of the current inputs yields. */
  function Outcome(f: Form): Result<Split, string> {
    Quote(f.bill, f.people, f.selectedTip, f.custom)
  }

  /** The shown amounts are those a recompute of the current inputs would show. */
  predicate AmountsAgree(f: Form) {
    var d := Shown(Outcome(f));
    f.tipPerPerson == d.tipPerPerson && f.totalPerPerson == d.totalPerPerson
  }

  /** The whole shown result, error text included, is that of a recompute. */
  predicate Agrees(f: Form) {
    AmountsAgree(f) && f.error == Shown(Outcome(f)).error
  }

  /** A preset and custom text are never active together. */
  predicate Exclusive(f: Form) {
    f.selectedTip.Some? ==> f.custom.None?
  }

  /** `calculate`: only the shown result changes, and it becomes that of the current inputs. */
  function Recalculated(f: Form): (r: Form)
    ensures r.bill == f.bill && r.people == f.people && r.custom == f.custom
    ensures r.selectedTip == f.selectedTip
    ensures Agrees(r)
  {
    var d := Shown(Outcome(f));
    f.(tipPerPerson := d.tipPerPerson, totalPerPerson := d.totalPerPerson, error := d.error)
  }

  /** `clearTipSelection`: no preset selected and the custom field emptied; nothing else moves. */
  function TipCleared(f: Form): (r: Form)
    ensures r.selectedTip.None? && r.custom.None?
    ensures r.bill == f.bill && r.people == f.people
    ensures r.tipPerPerson == f.tipPerPerson && r.totalPerPerson == f.totalPerPerson && r.error == f.error
  {
    f.(selectedTip := None, custom := None)
  }

  /**
   * A click on the preset button for `p` percent: clicking the selected
   * preset deselects it and leaves the custom text alone; any other click
   * selects `p` and empties the custom field. The result is then recomputed.
   */
  function Toggled(f: Form, p: real): (r: Form)
    ensures r.selectedTip == (if f.selectedTip == Some(p) then None else Some(p))
    ensures r.custom == (if f.selectedTip == Some(p) then f.custom else None)
    ensures r.bill == f.bill && r.people == f.people
    ensures Agrees(r)
  {
    var g := if f.selectedTip == Some(p) then f.(selectedTip := None)
             else f.(selectedTip := Some(p), custom := None);
    Recalculated(g)
  }

  /** An edit of the custom field to `v`: any edit, parseable or not, drops the selected preset. */
  function CustomEdited(f: Form, v: Option<real>): (r: Form)
    ensures r.selectedTip.None? && r.custom == v
    ensures r.bill == f.bill && r.people == f.people
    ensures Agrees(r)
  {
    Recalculated(f.(custom := v, selectedTip := None))
  }

  /** An edit of the bill field: only the bill and the shown result change. */
  function BillEdited(f: Form, v: Option<real>): (r: Form)
    ensures r.bill == v && r.people == f.people && r.custom == f.custom && r.selectedTip == f.selectedTip
    ensures Agrees(r)
  {
    Recalculated(f.(bill := v))
  }

  /** An edit of the party-size field: only the party size and the shown result change. */
  function PeopleEdited(f: Form, v: Option<int>): (r: Form)
    ensures r.people == v && r.bill == f.bill && r.custom == f.custom && r.selectedTip == f.selectedTip
    ensures Agrees(r)
  {
    Recalculated(f.(people := v))
  }

  /** The reset button: every field emptied, nothing selected, zero result and no error, whatever came before. */
  function AfterReset(f: Form): (r: Form)
    ensures r == Blank
    ensures AmountsAgree(r)
  {
    var g := TipCleared(f.(bill := None, people := None, custom := None));
    g.(tipPerPerson := 0.0, totalPerPerson := 0.0, error := "")
  }

  /**
   * Start-up: like reset, except that the party size is set to 1 and the
   * error text is left as the page had it.
   */
  function Initialized(f: Form): (r: Form)
    ensures r == Blank.(people := Some(1), error := f.error)
    ensures AmountsAgree(r)
  {
    var g := TipCleared(f.(bill := None, people := Some(1)));
    g.(tipPerPerson := 0.0, totalPerPerson := 0.0)
  }

  /** The user events the page reacts to, each carrying the field's new parsed value. */
  datatype Event =
    | BillInput(bill: Option<real>)
    | PeopleInput(people: Option<int>)
    | PresetClick(pct: real)
    | CustomInput(custom: Option<real>)
    | ResetClick

  function Step(f: Form, e: Event): Form {
    match e
    case BillInput(v) => BillEdited(f, v)
    case PeopleInput(v) => PeopleEdited(f, v)
    case PresetClick(p) => Toggled(f, p)
    case CustomInput(v) => CustomEdited(f, v)
    case ResetClick => AfterReset(f)
  }

  /** The page after handling `es` in order, one at a time. */
  function Run(f: Form, es: seq<Event>): Form
    decreases |es|
  {
    if es == [] then f else Run(Step(f, es[0]), es[1..])
  }

  /** Recomputing twice shows the same as recomputing once. */
  lemma RecalculateIdempotent(f: Form)
    ensures Recalculated(Recalculated(f)) == Recalculated(f)
  {
  }

  /** Two clicks on the same preset, starting with nothing selected, leave nothing selected. */
  lemma ToggleTwice(f: Form, p: real)
    requires f.selectedTip.None?
    ensures var g := Toggled(Toggled(f, p), p);
      g.selectedTip.None? && g.custom.None? && g.bill == f.bill && g.people == f.people && Agrees(g)
  {
  }

  /** Custom text that does not give a usable percentage drops the preset: the recompute uses 0%. */
  lemma UnusableCustomDropsPreset(f: Form, v: Option<real>)
    requires !CustomUsable(v)
    ensures Outcome(CustomEdited(f, v)) == Quote(f.bill, f.people, None, None)
    ensures ValidBill(f.bill) && ValidParty(f.people) ==>
      Outcome(CustomEdited(f, v)).value == SplitBill(f.bill.value, f.people.value, 0.0)
  {
  }

  /** Reset and start-up differ in exactly two places: the party size and the error text. */
  lemma ResetVersusInit(f: Form)
    ensures AfterReset(f).people.None? && Initialized(f).people == Some(1)
    ensures AfterReset(f).error == "" && Initialized(f).error == f.error
    ensures AfterReset(f) == Initialized(f).(people := None, error := "")
  {
  }

  lemma StepKeepsExclusive(f: Form, e: Event)
    requires Exclusive(f)
    ensures Exclusive(Step(f, e))
  {
  }

  /** Whatever the user does, a preset and custom text are never active together. */
  lemma {:induction false} RunKeepsExclusive(f: Form, es: seq<Event>)
    requires Exclusive(f)
    ensures Exclusive(Run(f, es))
    decreases |es|
  {
    if es != [] {
      StepKeepsExclusive(f, es[0]);
      RunKeepsExclusive(Step(f, es[0]), es[1..]);
    }
  }

  lemma StepShows(f: Form, e: Event)
    ensures AmountsAgree(Step(f, e))
    ensures Step(f, e).error == if e.ResetClick? then "" else Shown(Outcome(Step(f, e))).error
  {
  }

  /**
   * After any sequence of events the shown amounts are those of a recompute
   * of the current inputs, and the error text is too, except right after a
   * reset, which shows no error although the bill is then empty.
   */
  lemma {:induction false} RunShows(f: Form, es: seq<Event>)
    requires AmountsAgree(f)
    ensures AmountsAgree(Run(f, es))
    ensures |es| > 0 ==>
      Run(f, es).error == if es[|es| - 1].ResetClick? then "" else Shown(Outcome(Run(f, es))).error
    decreases |es|
  {
    if es != [] {
      var g := Step(f, es[0]);
      StepShows(f, es[0]);
      RunShows(g, es[1..]);
      if |es| > 1 {
        assert es[1..][|es| - 2] == es[|es| - 1];
      }
    }
  }

  /**
   * From start-up on, the custom override never competes with a preset:
   * a selected preset always finds the custom field empty, so the recompute
   * uses that preset (or 0 if it is negative).
   */
  lemma {:induction false} ReachablePresetIsUsed(page: Form, es: seq<Event>)
    ensures var f := Run(Initialized(page), es);
      f.selectedTip.Some? ==>
        f.custom.None? &&
        EffectiveTip(f.selectedTip, f.custom) == (if f.selectedTip.value >= 0.0 then f.selectedTip.value else 0.0)
  {
    RunKeepsExclusive(Initialized(page), es);
  }

  /** From start-up on, the shown amounts always agree with the current inputs. */
  lemma {:induction false} ReachableAmountsAgree(page: Form, es: seq<Event>)
    ensures AmountsAgree(Run(Initialized(page), es))
  {
    RunShows(Initialized(page), es);
  }

  /** Bill 100, party of 4, 15% preset: 3.75 tip and 28.75 total per person. */
  lemma PresetScenario(page: Form)
    ensures var f := Run(Initialized(page), [BillInput(Some(100.0)), PeopleInput(Some(4)), PresetClick(15.0)]);
      f.tipPerPerson == 3.75 && f.totalPerPerson == 28.75 && f.error == ""
  {
  }

  /** A negative bill shows the bill error and the zero result, whatever the tip. */
  lemma NegativeBillScenario(page: Form, p: real)
    ensures var f := Run(Initialized(page), [BillInput(Some(-5.0)), PeopleInput(Some(2)), PresetClick(p)]);
      f.tipPerPerson == 0.0 && f.totalPerPerson == 0.0 && f.error == BillError
  {
    var es := [BillInput(Some(-5.0)), PeopleInput(Some(2)), PresetClick(p)];
    var f1 := Step(Initialized(page), es[0]);
    var f2 := Step(f1, es[1]);
    assert Run(Initialized(page), es) == Run(f2, [es[2]]);
  }

  /** A party of 0 shows the party-size error. */
  lemma EmptyPartyScenario(page: Form)
    ensures var f := Run(Initialized(page), [BillInput(Some(50.0)), PeopleInput(Some(0))]);
      f.tipPerPerson == 0.0 && f.totalPerPerson == 0.0 && f.error == PartyError
  {
  }

  /** No preset and unusable custom text: no tip, the bill is split evenly. */
  lemma NoTipScenario(page: Form)
    ensures var f := Run(Initialized(page), [BillInput(Some(80.0)), PeopleInput(Some(2)), CustomInput(None)]);
      f.tipPerPerson == 0.0 && f.totalPerPerson == 40.0 && f.error == ""
  {
  }

  /** The page's controller: the inputs, the selected preset and the shown result, updated in place. */
  class Controller {
    var bill: Option<real>
    var people: Option<int>
    var custom: Option<real>
    var selectedTip: Option<real>
    var tipPerPerson: real
    var totalPerPerson: real
    var error: string

    function State(): Form
      reads this
    {
      Form(bill, people, custom, selectedTip, tipPerPerson, totalPerPerson, error)
    }

    /** Loads the page as `page` describes it and runs start-up on it. */
    constructor (page: Form)
      ensures State() == Initialized(page)
    {
      bill, people, custom, selectedTip := page.bill, page.people, page.custom, page.selectedTip;
      tipPerPerson, totalPerPerson, error := page.tipPerPerson, page.totalPerPerson, page.error;
      new;
      Init();
    }

    method ClearTipSelection()
      modifies this
      ensures State() == TipCleared(old(State()))
    {
      selectedTip := None;
      custom := None;
    }

    /** Recomputes the shown result from the inputs and the selected preset. */
    method Calculate()
      modifies this
      ensures State() == Recalculated(old(State()))
      ensures Agrees(State())
    {
      error := "";
      var tipPct := selectedTip;
      if CustomUsable(custom) {
        tipPct := custom;
      }
      if bill.None? || bill.value < 0.0 {
        tipPerPerson, totalPerPerson := 0.0, 0.0;
        error := BillError;
        return;
      }
      if people.None? || people.value <= 0 {
        tipPerPerson, totalPerPerson := 0.0, 0.0;
        error := PartyError;
        return;
      }
      var pct: real := if tipPct.None? || tipPct.value < 0.0 then 0.0 else tipPct.value;
      var totalTip := bill.value * (pct / 100.0);
      var perPerson := totalTip / (people.value as real);
      tipPerPerson := perPerson;
      totalPerPerson := bill.value / (people.value as real) + perPerson;
      error := "";
    }

    method TogglePreset(p: real)
      modifies this
      ensures State() == Toggled(old(State()), p)
    {
      if selectedTip == Some(p) {
        selectedTip := None;
      } else {
        selectedTip := Some(p);
        custom := None;
      }
      Calculate();
    }

    method EditCustom(v: Option<real>)
      modifies this
      ensures State() == CustomEdited(old(State()), v)
    {
      custom := v;
      selectedTip := None;
      Calculate();
    }

    method EditBill(v: Option<real>)
      modifies this
      ensures State() == BillEdited(old(State()), v)
    {
      bill := v;
      Calculate();
    }

    method EditPeople(v: Option<int>)
      modifies this
      ensures State() == PeopleEdited(old(State()), v)
    {
      people := v;
      Calculate();
    }

    method Reset()
      modifies this
      ensures State() == AfterReset(old(State()))
    {
      bill := None;
      people := None;
      custom := None;
      ClearTipSelection();
      tipPerPerson, totalPerPerson := 0.0, 0.0;
      error := "";
    }

    method Init()
      modifies this
      ensures State() == Initialized(old(State()))
    {
      bill := None;
      people := Some(1);
      ClearTipSelection();
      tipPerPerson, totalPerPerson := 0.0, 0.0;
    }

    /** Handles one event with the matching handler. */
    method Handle(e: Event)
      modifies this
      ensures State() == Step(old(State()), e)
    {
      match e
      case BillInput(v) => EditBill(v);
      case PeopleInput(v) => EditPeople(v);
      case PresetClick(p) => TogglePreset(p);
      case CustomInput(v) => EditCustom(v);
      case ResetClick => Reset();
    }
  }
}
