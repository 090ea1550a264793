/**
 * The shared add/edit dialog: a draft of the edited row, seeded from the
 * row being edited (or empty when adding), updated one field at a time and
 * handed unchanged to the save callback.  Draft values are modelled as
 * text, the form inputs' own value type.
 */
module EditModal {
  import opened Wrappers


  /** A draft: field name to entered text. */
  type Draft = map<string, string>

  /** One input of the dialog; an empty text stands for a missing name or placeholder. */
  datatype Field = Field(name: string, placeholder: string)

  /** The draft a dialog starts from: the edited row, or an empty draft when adding. */
  function Seed(item: Option<Draft>): (draft: Draft)
    ensures item.None? ==> draft == map[]
    ensures item.Some? ==> draft == item.value
  {
    if item.Some? then item.value else map[]
  }

  /** The draft after typing `value` into the field `name`. */
  function Changed(form: Draft, name: string, value: string): (r: Draft)
    ensures r.Keys == form.Keys + {name}
    ensures r[name] == value
    ensures forall k :: k in form && k != name ==> r[k] == form[k]
  {
    form[name := value]
  }

  /** The text an input shows: the draft's value, or "" when the field is not in the draft. */
  function FieldValue(form: Draft, name: string): (shown: string)
    ensures name !in form ==> shown == ""
    ensures name in form ==> shown == form[name]
  {
    if name in form then form[name] else ""
  }

  /** After a change the changed input shows the typed text and every other input shows what it showed. */
  lemma ChangeShowsOnlyThatField(form: Draft, name: string, value: string, other: string)
    ensures FieldValue(Changed(form, name, value), name) == value
    ensures other != name ==> FieldValue(Changed(form, name, value), other) == FieldValue(form, other)
  {
  }

  /** The heading: the given title, else "Edit" for an existing row and "Add New" otherwise. */
  function Title(title: string, hasItem: bool): (heading: string)
    ensures title != "" ==> heading == title
    ensures title == "" ==> heading == (if hasItem then "Edit" else "Add New")
  {
    if title != "" then title else if hasItem then "Edit" else "Add New"
  }

  /** The submit caption: "Saving..." while saving, else the given label, else "Save" or "Add". */
  function ButtonLabel(loading: bool, saveLabel: string, hasItem: bool): (caption: string)
    ensures loading ==> caption == "Saving..."
    ensures !loading && saveLabel != "" ==> caption == saveLabel
    ensures !loading && saveLabel == "" ==> caption == (if hasItem then "Save" else "Add")
  {
    if loading then "Saving..." else if saveLabel != "" then saveLabel else if hasItem then "Save" else "Add"
  }

  /** An input's label: its name, or its placeholder when it has no name. */
  function FieldLabel(f: Field): (text: string)
    ensures f.name != "" ==> text == f.name
    ensures f.name == "" ==> text == f.placeholder
  {
    if f.name != "" then f.name else f.placeholder
  }

  /** What an open dialog shows. */
  datatype ModalView = ModalView(heading: string, labels: seq<string>, values: seq<string>, button: string)

  /** The labels of the inputs, in order. */
  function Labels(fields: seq<Field>): (r: seq<string>)
    ensures |r| == |fields| && forall i :: 0 <= i < |fields| ==> r[i] == FieldLabel(fields[i])
  {
    if fields == [] then [] else Labels(fields[..|fields| - 1]) + [FieldLabel(fields[|fields| - 1])]
  }

  /** The values the inputs show, in order. */
  function Values(form: Draft, fields: seq<Field>): (r: seq<string>)
    ensures |r| == |fields| && forall i :: 0 <= i < |fields| ==> r[i] == FieldValue(form, fields[i].name)
  {
    if fields == [] then [] else Values(form, fields[..|fields| - 1]) + [FieldValue(form, fields[|fields| - 1].name)]
  }

  /**
   * The dialog as a component instance: the properties it was last given
   * (open flag, edited row, saving flag) and its own draft state.
   */
  class Dialog {
    var isOpen: bool
    var item: Option<Draft>
    var loading: bool
    var form: Draft

    /** The draft starts from the row given on first render. */
    constructor(isOpen: bool, item: Option<Draft>, loading: bool)
      ensures this.isOpen == isOpen && this.item == item && this.loading == loading
      ensures form == Seed(item)
    {
      this.isOpen := isOpen;
      this.item := item;
      this.loading := loading;
      form := Seed(item);
    }

    /**
     * A re-render with new properties: when the edited row or the open flag
     * changes the draft is reset from the row, otherwise the draft is kept.
     */
    method Receive(isOpen: bool, item: Option<Draft>, loading: bool)
      modifies this
      ensures this.isOpen == isOpen && this.item == item && this.loading == loading
      ensures old(this.isOpen) != isOpen || old(this.item) != item ==> form == Seed(item)
      ensures old(this.isOpen) == isOpen && old(this.item) == item ==> form == old(form)
    {
      var reset := this.isOpen != isOpen || this.item != item;
      this.isOpen := isOpen;
      this.item := item;
      this.loading := loading;
      if reset {
        form := Seed(item);
      }
    }

    /** Typing into an input of the open dialog replaces that one field of the draft. */
    method HandleChange(name: string, value: string)
      requires isOpen
      modifies this
      ensures form == Changed(old(form), name, value)
      ensures isOpen == old(isOpen) && item == old(item) && loading == old(loading)
    {
      form := form[name := value];
    }

    /** Submitting hands the current draft, unchanged, to the save callback. */
    method HandleSubmit() returns (saved: Draft)
      requires isOpen
      ensures saved == form
    {
      saved := form;
    }

    /** A closed dialog renders nothing; an open one shows the heading, the inputs and the button. */
    function Render(title: string, fields: seq<Field>, saveLabel: string): (view: Option<ModalView>)
      reads this
      ensures view.None? <==> !isOpen
      ensures view.Some? ==>
        && view.value.heading == Title(title, item.Some?)
        && view.value.button == ButtonLabel(loading, saveLabel, item.Some?)
        && |view.value.values| == |fields| && |view.value.labels| == |fields|
        && (forall i :: 0 <= i < |fields| ==> view.value.values[i] == FieldValue(form, fields[i].name))
        && (forall i :: 0 <= i < |fields| ==> view.value.labels[i] == FieldLabel(fields[i]))
    {
      if !isOpen then None
      else Some(ModalView(Title(title, item.Some?), Labels(fields), Values(form, fields),
                          ButtonLabel(loading, saveLabel, item.Some?)))
    }
  }
}
