/** The parasite catalogue page: the search over type, name and description, the form of the
    add dialog and the load of the catalogue. */
module ParasitesPage {
  import opened JsText
  import opened JsArray
  import opened ApiClient
  import opened Analyses

  /** A catalogue entry; treatment, prevention measures and images are left out. */
  datatype ParasiteInfo = ParasiteInfo(kind: string, name: string, description: string)

  const TypeField := "type"
  const NameField := "name"
  const DescriptionField := "description"

  /** The form of the add dialog as it is opened: the three fields empty. */
  const EmptyForm: map<string, string> := map[TypeField := "", NameField := "", DescriptionField := ""]

  /** An entry matches an empty search; otherwise its type, name or description must contain
      the search, both sides lowercased. */
  predicate ParasiteMatches(p: ParasiteInfo, search: string) {
    search == ""
    || ContainsIgnoreCase(p.kind, search) || ContainsIgnoreCase(p.name, search)
    || ContainsIgnoreCase(p.description, search)
  }

  /** `filteredParasites`: the matching entries, in their order. */
  function FilteredParasites(parasites: seq<ParasiteInfo>, search: string): (r: seq<ParasiteInfo>)
    ensures IsSubsequence(r, parasites)
    ensures forall p :: p in r <==> p in parasites && ParasiteMatches(p, search)
    ensures forall p :: multiset(r)[p] == if ParasiteMatches(p, search) then multiset(parasites)[p] else 0
  {
    FilterSpec(parasites, p => ParasiteMatches(p, search));
    FilterCounts(parasites, p => ParasiteMatches(p, search));
    Filter(parasites, p => ParasiteMatches(p, search))
  }

  /** An empty search keeps the whole catalogue. */
  lemma EmptySearchKeepsAll(parasites: seq<ParasiteInfo>)
    ensures FilteredParasites(parasites, "") == parasites
  {
    FilterKeepsAll(parasites, p => ParasiteMatches(p, ""));
  }

  /** An entry is found by its own name, in any case. */
  lemma SearchFindsName(p: ParasiteInfo)
    ensures ParasiteMatches(p, p.name)
  {
    ContainsSelf(ToLower(p.name));
  }

  /** A form field as the submit reads it: `undefined` when the field was never set. */
  function Field(form: map<string, string>, name: string): (r: Option<string>)
    ensures r.Some? <==> name in form
    ensures r.Some? ==> r.value == form[name]
  {
    if name in form then Some(form[name]) else None
  }

  /** The submit goes ahead only when type, name and description are all non-empty. */
  predicate FormComplete(form: map<string, string>) {
    Truthy(Field(form, TypeField)) && Truthy(Field(form, NameField)) && Truthy(Field(form, DescriptionField))
  }

  /** `{ ...prev, [name]: value }`: the named field takes the value; every other field keeps
      its value, and no field is added or dropped besides the named one. */
  function WithField(form: map<string, string>, name: string, value: string): (r: map<string, string>)
    ensures Field(r, name) == Some(value)
    ensures forall k :: k != name ==> Field(r, k) == Field(form, k)
    ensures r.Keys == form.Keys + {name}
  {
    form[name := value]
  }

  /** A freshly opened form is not complete, and filling in its three fields with non-empty
      text in any order makes it complete. */
  lemma FillingTheForm(t: string, n: string, d: string)
    requires t != "" && n != "" && d != ""
    ensures !FormComplete(EmptyForm)
    ensures FormComplete(WithField(WithField(WithField(EmptyForm, NameField, n), DescriptionField, d), TypeField, t))
  {
    assert Field(EmptyForm, TypeField) == Some("");
  }

  /** The catalogue page's state. */
  class CataloguePage {
    var parasites: seq<ParasiteInfo>
    var loading: bool
    var openDialog: bool
    var newParasite: map<string, string>

    constructor ()
      ensures parasites == [] && loading && !openDialog && newParasite == EmptyForm
    {
      parasites := [];
      loading := true;
      openDialog := false;
      newParasite := EmptyForm;
    }

    /** `handleOpenNewDialog`: the form is emptied and the dialog opens. */
    method OpenNewDialog()
      modifies this
      ensures newParasite == EmptyForm && openDialog
      ensures parasites == old(parasites) && loading == old(loading)
    {
      newParasite := EmptyForm;
      openDialog := true;
    }

    /** `handleInputChange`: only the named field changes. */
    method HandleInputChange(name: string, value: string)
      modifies this
      ensures newParasite == WithField(old(newParasite), name, value)
      ensures parasites == old(parasites) && loading == old(loading) && openDialog == old(openDialog)
    {
      newParasite := WithField(newParasite, name, value);
    }

    /** `handleSubmitNewParasite`: an incomplete form does nothing; a complete one closes the
        dialog. No request is sent and the catalogue stays as it is. */
    method SubmitNewParasite() returns (submitted: bool)
      modifies this
      ensures submitted <==> FormComplete(old(newParasite))
      ensures openDialog == (if submitted then false else old(openDialog))
      ensures parasites == old(parasites) && newParasite == old(newParasite) && loading == old(loading)
    {
      if !FormComplete(newParasite) {
        return false;
      }
      openDialog := false;
      return true;
    }

    /** `fetchParasites`, with the request settling as `outcome`: the response's list, or none
        when the field is missing; a failed request keeps the list. Loading ends either way. */
    method FetchParasites(outcome: Outcome<Option<seq<ParasiteInfo>>>)
      modifies this
      ensures !loading
      ensures outcome.Ok? ==> parasites == OrEmpty(outcome.data)
      ensures outcome.Err? ==> parasites == old(parasites)
      ensures openDialog == old(openDialog) && newParasite == old(newParasite)
    {
      loading := true;
      if outcome.Ok? {
        parasites := OrEmpty(outcome.data);
      }
      loading := false;
    }
  }
}
