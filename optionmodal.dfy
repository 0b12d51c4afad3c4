/**
 * The customer app's option dialog: the choices picked for an item's options,
 * the quantity stepper, the displayed price, and confirmation.
 */
module OptionModal {
  import opened Wrappers
  import opened Seqs
  import opened ClientTypes

  /** The dialog's state: the selections so far and the quantity. */
  datatype ModalState = ModalState(selected: seq<SelectedOption>, quantity: int)

  /** Freshly opened: nothing selected, quantity 1. */
  const Opened: ModalState := ModalState([], 1)

  function ForOption(optionId: string): SelectedOption -> bool {
    (so: SelectedOption) => so.optionId == optionId
  }

  function Selection(option: MenuOption, choice: OptionChoice): SelectedOption {
    SelectedOption(option.id, choice.id, choice.priceModifier)
  }

  /** handleOptionSelect: replace the option's selection where it stands, or append one. */
  function SelectChoice(prev: seq<SelectedOption>, option: MenuOption, choice: OptionChoice): (r: seq<SelectedOption>)
    ensures Find(prev, ForOption(option.id)).Some? ==> |r| == |prev|
    ensures Find(prev, ForOption(option.id)).None? ==> r == prev + [Selection(option, choice)]
  {
    if Find(prev, ForOption(option.id)).Some? then
      seq(|prev|, i requires 0 <= i < |prev| =>
        if prev[i].optionId == option.id then Selection(option, choice) else prev[i])
    else prev + [Selection(option, choice)]
  }

  /** No option has two selections. */
  predicate OnePerOption(s: seq<SelectedOption>) {
    forall i, j :: 0 <= i < j < |s| ==> s[i].optionId != s[j].optionId
  }

  /** Selecting keeps one selection per option. */
  lemma SelectKeepsOnePerOption(prev: seq<SelectedOption>, option: MenuOption, choice: OptionChoice)
    requires OnePerOption(prev)
    ensures OnePerOption(SelectChoice(prev, option, choice))
  {
    var r := SelectChoice(prev, option, choice);
    FindMeaning(prev, ForOption(option.id));
    if Find(prev, ForOption(option.id)).None? {
      forall i, j | 0 <= i < j < |r|
        ensures r[i].optionId != r[j].optionId
      {
        if j == |prev| {
          assert !ForOption(option.id)(prev[i]);
        }
      }
    } else {
      forall i, j | 0 <= i < j < |r|
        ensures r[i].optionId != r[j].optionId
      {
        assert r[i].optionId == prev[i].optionId && r[j].optionId == prev[j].optionId;
      }
    }
  }

  /**
   * After selecting, the option's selection is the chosen one, in the place
   * it had or at the end, and every other selection is where it was.
   */
  lemma SelectMeaning(prev: seq<SelectedOption>, option: MenuOption, choice: OptionChoice)
    ensures var r := SelectChoice(prev, option, choice);
      (forall i :: 0 <= i < |r| && r[i].optionId == option.id ==> r[i] == Selection(option, choice))
      && (exists i :: 0 <= i < |r| && r[i] == Selection(option, choice))
      && forall i :: 0 <= i < |prev| && prev[i].optionId != option.id ==> r[i] == prev[i]
  {
    var r := SelectChoice(prev, option, choice);
    FindMeaning(prev, ForOption(option.id));
    if Find(prev, ForOption(option.id)).Some? {
      var k := FindIndex(prev, ForOption(option.id));
      assert r[k] == Selection(option, choice);
    } else {
      assert r[|prev|] == Selection(option, choice);
    }
  }

  /** getSelectedChoice: the recorded choice id, or null when there is none or it is empty. */
  function GetSelectedChoice(selected: seq<SelectedOption>, optionId: string): (r: Option<string>)
    ensures r.Some? ==> r.value != "" && exists i :: 0 <= i < |selected| && selected[i].optionId == optionId && selected[i].choiceId == r.value
    ensures r.None? ==> forall i :: 0 <= i < |selected| && selected[i].optionId == optionId ==> selected[i].choiceId == "" || (exists j :: 0 <= j < i && selected[j].optionId == optionId)
  {
    FindMeaning(selected, ForOption(optionId));
    var found := Find(selected, ForOption(optionId));
    if found.Some? && found.value.choiceId != "" then Some(found.value.choiceId) else None
  }

  /** Once chosen, a choice with a non-empty id is the one the dialog reports for its option. */
  lemma ChosenIsReported(prev: seq<SelectedOption>, option: MenuOption, choice: OptionChoice)
    requires choice.id != ""
    ensures GetSelectedChoice(SelectChoice(prev, option, choice), option.id) == Some(choice.id)
  {
    var r := SelectChoice(prev, option, choice);
    SelectMeaning(prev, option, choice);
    FindMeaning(r, ForOption(option.id));
  }

  function Modifier(so: SelectedOption): int {
    so.priceModifier
  }

  /** The sum of the selected modifiers. */
  function OptionPrice(selected: seq<SelectedOption>): int {
    SumOf(selected, Modifier)
  }

  /** calculateTotalPrice: the item's price plus the modifiers, times the quantity. */
  function CalculateTotalPrice(item: MenuItem, state: ModalState): (r: int)
    ensures state.selected == [] ==> r == item.price * state.quantity
  {
    (item.price + OptionPrice(state.selected)) * state.quantity
  }

  /** Each further selection adds its modifier once per unit. */
  lemma TotalGrowsByModifier(item: MenuItem, state: ModalState, option: MenuOption, choice: OptionChoice)
    requires Find(state.selected, ForOption(option.id)).None?
    ensures CalculateTotalPrice(item, state.(selected := SelectChoice(state.selected, option, choice)))
      == CalculateTotalPrice(item, state) + choice.priceModifier * state.quantity
  {
    SumOfAppend(state.selected, [Selection(option, choice)], Modifier);
    assert [Selection(option, choice)][..0] == [];
  }

  function Required(o: MenuOption): bool {
    o.required
  }

  predicate HasSelection(selected: seq<SelectedOption>, optionId: string) {
    exists j :: 0 <= j < |selected| && selected[j].optionId == optionId
  }

  /** isValid: every required option of the item has a selection. */
  predicate IsValid(item: MenuItem, selected: seq<SelectedOption>) {
    var required := Filter(item.options, Required);
    forall i :: 0 <= i < |required| ==> HasSelection(selected, required[i].id)
  }

  lemma ValidFromSelections(item: MenuItem, selected: seq<SelectedOption>)
    requires forall i :: 0 <= i < |item.options| && item.options[i].required ==> HasSelection(selected, item.options[i].id)
    ensures IsValid(item, selected)
  {
  }

  lemma SelectionsFromValid(item: MenuItem, selected: seq<SelectedOption>)
    requires IsValid(item, selected)
    ensures forall i :: 0 <= i < |item.options| && item.options[i].required ==> HasSelection(selected, item.options[i].id)
  {
    var required := Filter(item.options, Required);
    forall i | 0 <= i < |item.options| && item.options[i].required
      ensures HasSelection(selected, item.options[i].id)
    {
      assert item.options[i] in required;
      var k :| 0 <= k < |required| && required[k] == item.options[i];
      assert HasSelection(selected, required[k].id);
    }
  }

  /** The selection is valid exactly when every required option has a selection. */
  lemma ValidMeaning(item: MenuItem, selected: seq<SelectedOption>)
    ensures IsValid(item, selected) <==>
      forall i :: 0 <= i < |item.options| && item.options[i].required ==> HasSelection(selected, item.options[i].id)
  {
    if IsValid(item, selected) {
      SelectionsFromValid(item, selected);
    }
    if forall i :: 0 <= i < |item.options| && item.options[i].required ==> HasSelection(selected, item.options[i].id) {
      ValidFromSelections(item, selected);
    }
  }

  /** The minus button: `Math.max(1, quantity - 1)`. */
  function Decrement(q: int): (r: int)
    ensures r >= 1
    ensures q > 1 ==> r == q - 1
  {
    if q - 1 > 1 then q - 1 else 1
  }

  /** The plus button. */
  function Increment(q: int): (r: int)
    ensures r > q
  {
    q + 1
  }

  /** The minus button undoes the plus button. */
  lemma DecrementUndoesIncrement(q: int)
    requires q >= 1
    ensures Decrement(Increment(q)) == q
  {
  }

  /** What confirming yields: the selection and quantity handed to the page, if valid. */
  datatype Confirmed = Confirmed(selected: seq<SelectedOption>, quantity: int)

  /** handleConfirm: a valid selection is handed on and the dialog is reset; otherwise nothing happens. */
  function HandleConfirm(item: MenuItem, state: ModalState): (r: (ModalState, Option<Confirmed>))
    ensures IsValid(item, state.selected) ==> r.0 == Opened && r.1 == Some(Confirmed(state.selected, state.quantity))
    ensures !IsValid(item, state.selected) ==> r.0 == state && r.1.None?
  {
    if IsValid(item, state.selected) then (Opened, Some(Confirmed(state.selected, state.quantity)))
    else (state, None)
  }

  /** The dialog's user actions. */
  datatype ModalAction = Choose(option: MenuOption, choice: OptionChoice) | Minus | Plus | Confirm

  function Step(item: MenuItem, state: ModalState, action: ModalAction): (ModalState, Option<Confirmed>) {
    match action
    case Choose(o, c) => (state.(selected := SelectChoice(state.selected, o, c)), None)
    case Minus => (state.(quantity := Decrement(state.quantity)), None)
    case Plus => (state.(quantity := Increment(state.quantity)), None)
    case Confirm => HandleConfirm(item, state)
  }

  /** What holds of the dialog at all times: a positive quantity and one selection per option. */
  predicate Inv(state: ModalState) {
    state.quantity >= 1 && OnePerOption(state.selected)
  }

  /**
   * Every action keeps the dialog's invariant, and whatever is handed on is a
   * valid selection, one per option, with a positive quantity.
   */
  lemma StepKeepsInv(item: MenuItem, state: ModalState, action: ModalAction)
    requires Inv(state)
    ensures Inv(Step(item, state, action).0)
    ensures Step(item, state, action).1.Some? ==>
      var c := Step(item, state, action).1.value;
      IsValid(item, c.selected) && OnePerOption(c.selected) && c.quantity >= 1
  {
    match action
    case Choose(o, c) => SelectKeepsOnePerOption(state.selected, o, c);
    case Minus =>
    case Plus =>
    case Confirm =>
  }
}
