/** The digit catalogue page: the search over digit values and descriptions, the form of the
    add dialog with its numeric field, and the load of the catalogue. */
module DigitsPage {
  import opened JsText
  import opened JsArray
  import opened ApiClient
  import opened Analyses

  /** A catalogue entry; the example images are left out. */
  datatype DigitInfo = DigitInfo(value: int, description: string)

  /** The add dialog's form, a partial entry: either field may be missing. */
  datatype DigitForm = DigitForm(value: Option<int>, description: Option<string>)

  /** The two inputs of the add dialog, by their `name` attribute. */
  datatype DigitInput = ValueInput | DescriptionInput

  const EmptyForm := DigitForm(Some(0), Some(""))

  /** An entry matches an empty search; otherwise the decimal text of its value must contain
      the search as typed, or its description must contain it ignoring case. */
  predicate DigitMatches(d: DigitInfo, search: string) {
    search == "" || Contains(IntToString(d.value), search) || ContainsIgnoreCase(d.description, search)
  }

  /** `filteredDigits`: the matching entries, in their order. */
  function FilteredDigits(digits: seq<DigitInfo>, search: string): (r: seq<DigitInfo>)
    ensures IsSubsequence(r, digits)
    ensures forall d :: d in r <==> d in digits && DigitMatches(d, search)
    ensures forall d :: multiset(r)[d] == if DigitMatches(d, search) then multiset(digits)[d] else 0
  {
    FilterSpec(digits, d => DigitMatches(d, search));
    FilterCounts(digits, d => DigitMatches(d, search));
    Filter(digits, d => DigitMatches(d, search))
  }

  /** An empty search keeps the whole catalogue. */
  lemma EmptySearchKeepsAll(digits: seq<DigitInfo>)
    ensures FilteredDigits(digits, "") == digits
  {
    FilterKeepsAll(digits, d => DigitMatches(d, ""));
  }

  /** A digit is found by the search for its own decimal text. */
  lemma SearchFindsValue(d: DigitInfo)
    ensures DigitMatches(d, IntToString(d.value))
  {
    ContainsSelf(IntToString(d.value));
  }

  /** `parseInt(text) || 0`: the number read from the text, with `NaN` (and 0) giving 0. */
  function NumberInput(text: string): (r: int)
    ensures ParseInt(text).None? ==> r == 0
    ensures ParseInt(text).Some? ==> r == ParseInt(text).value
  {
    match ParseInt(text)
    case Some(v) => v
    case None => 0
  }

  /** What a digit typed in decimal is read back as. */
  lemma NumberInputOfDigit(n: nat)
    ensures NumberInput(NatToString(n)) == n
  {
    ParseIntOfNatToString(n);
  }

  /** Text that does not start with a digit, a sign or white space is read as 0. */
  lemma NumberInputOfWord(text: string)
    requires |text| > 0 && !IsSpace(text[0]) && text[0] != '-' && text[0] != '+' && !IsDigitIn(text[0], 10)
    ensures NumberInput(text) == 0
  {
    ParseIntNoDigit(text);
  }

  /** `handleInputChange`: the value input stores the number read from the text, the
      description input stores the text; the other field is kept. */
  function WithInput(form: DigitForm, input: DigitInput, text: string): (r: DigitForm)
    ensures input == ValueInput ==> r.value == Some(NumberInput(text)) && r.description == form.description
    ensures input == DescriptionInput ==> r.description == Some(text) && r.value == form.value
  {
    match input
    case ValueInput => form.(value := Some(NumberInput(text)))
    case DescriptionInput => form.(description := Some(text))
  }

  /** The submit goes ahead when a value is present and the description is non-empty. */
  predicate FormComplete(form: DigitForm) {
    form.value.Some? && Truthy(form.description)
  }

  /** A freshly opened form is not complete; typing a description makes it complete, whatever
      is typed in the value input before or after. */
  lemma DescriptionCompletesForm(text: string, valueText: string)
    requires text != ""
    ensures !FormComplete(EmptyForm)
    ensures FormComplete(WithInput(WithInput(EmptyForm, DescriptionInput, text), ValueInput, valueText))
    ensures FormComplete(WithInput(WithInput(EmptyForm, ValueInput, valueText), DescriptionInput, text))
  {
  }

  /** The digit catalogue page's state. */
  class CataloguePage {
    var digits: seq<DigitInfo>
    var loading: bool
    var openAddDialog: bool
    var newDigit: DigitForm

    constructor ()
      ensures digits == [] && loading && !openAddDialog && newDigit == EmptyForm
    {
      digits := [];
      loading := true;
      openAddDialog := false;
      newDigit := EmptyForm;
    }

    /** `handleOpenAddDialog`: the form is reset to value 0 and an empty description. */
    method OpenAddDialog()
      modifies this
      ensures newDigit == EmptyForm && openAddDialog
      ensures digits == old(digits) && loading == old(loading)
    {
      newDigit := EmptyForm;
      openAddDialog := true;
    }

    /** `handleInputChange` for one of the two inputs. */
    method HandleInputChange(input: DigitInput, text: string)
      modifies this
      ensures newDigit == WithInput(old(newDigit), input, text)
      ensures digits == old(digits) && loading == old(loading) && openAddDialog == old(openAddDialog)
    {
      newDigit := WithInput(newDigit, input, text);
    }

    /** `handleSubmitNewDigit`: an incomplete form does nothing; a complete one closes the
        dialog. No request is sent and the catalogue stays as it is. */
    method SubmitNewDigit() returns (submitted: bool)
      modifies this
      ensures submitted <==> FormComplete(old(newDigit))
      ensures openAddDialog == (if submitted then false else old(openAddDialog))
      ensures digits == old(digits) && newDigit == old(newDigit) && loading == old(loading)
    {
      if !FormComplete(newDigit) {
        return false;
      }
      openAddDialog := false;
      return true;
    }

    /** `fetchDigits`, with the request settling as `outcome`: the response's list, or none
        when the field is missing; a failed request keeps the list. Loading ends either way. */
    method FetchDigits(outcome: Outcome<Option<seq<DigitInfo>>>)
      modifies this
      ensures !loading
      ensures outcome.Ok? ==> digits == OrEmpty(outcome.data)
      ensures outcome.Err? ==> digits == old(digits)
      ensures openAddDialog == old(openAddDialog) && newDigit == old(newDigit)
    {
      loading := true;
      if outcome.Ok? {
        digits := OrEmpty(outcome.data);
      }
      loading := false;
    }
  }
}
