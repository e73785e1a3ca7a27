/** The attribute form: a name, a data type, a filterable flag and, for the
    enum type, an option list built one trimmed value at a time. */
module AttributeModal {
  import opened Common
  import opened Catalog

  const NameRequired := "Le nom est requis."
  const OptionRequired := "Au moins une option est requise pour le type 'Liste'."
  const DuplicateOption := "Cette option existe déjà."
  const SaveFailed := "Une erreur est survenue lors de la sauvegarde."

  /** What `onSave` receives; `dataType` is the menu's string for the
      chosen type. */
  datatype AttributePayload = AttributePayload(
    name: string,
    dataType: string,
    isFilterable: bool,
    options: seq<string>)

  /** An option list the builder can produce: no repeats, and every entry is
      non-empty with no surrounding spaces. */
  predicate CleanOptions(options: seq<string>) {
    Distinct(options)
    && forall i :: 0 <= i < |options| ==> options[i] != "" && Trim(options[i]) == options[i]
  }

  /** Appending a new trimmed, non-blank value keeps a clean list clean. */
  lemma AppendKeepsClean(options: seq<string>, input: string)
    requires CleanOptions(options)
    requires Trim(input) != "" && Trim(input) !in options
    ensures CleanOptions(options + [Trim(input)])
  {
    TrimIdempotent(input);
    var r := options + [Trim(input)];
    forall i, j | 0 <= i < j < |r| ensures r[i] != r[j] {
      if j == |options| {
        assert r[i] == options[i];
      }
    }
  }

  /** The index `splice(start, 1)` works at on a list of length `len`:
      a negative `start` counts from the end, and both ends are clamped. */
  function SpliceStart(len: nat, start: int): (k: nat)
    ensures k <= len
    ensures 0 <= start <= len ==> k == start
    ensures start < 0 && 0 <= len + start ==> k == len + start
    ensures start > len ==> k == len
    ensures len + start < 0 ==> k == 0
  {
    if start < 0 then (if len + start < 0 then 0 else len + start)
    else if start > len then len
    else start
  }

  /** The list after `copy.splice(start, 1)`: the element at the splice
      index is removed, if there is one. */
  function RemoveAt(options: seq<string>, start: int): (r: seq<string>)
    ensures SpliceStart(|options|, start) == |options| ==> r == options
    ensures SpliceStart(|options|, start) < |options| ==>
      |r| == |options| - 1
      && multiset(r) + multiset{options[SpliceStart(|options|, start)]} == multiset(options)
  {
    var k := SpliceStart(|options|, start);
    if k < |options| then
      assert options == options[..k] + [options[k]] + options[k + 1..];
      options[..k] + options[k + 1..]
    else options
  }

  /** Removing at a valid index `i` deletes exactly that element: the ones
      before it stay put and the ones after it move down by one. */
  lemma RemoveAtIndex(options: seq<string>, i: int)
    requires 0 <= i < |options|
    ensures |RemoveAt(options, i)| == |options| - 1
    ensures forall j :: 0 <= j < i ==> RemoveAt(options, i)[j] == options[j]
    ensures forall j :: i <= j < |options| - 1 ==> RemoveAt(options, i)[j] == options[j + 1]
  {
  }

  /** Removing an option does not create repeats. */
  lemma RemoveKeepsDistinct(options: seq<string>, k: nat)
    requires k < |options| && Distinct(options)
    ensures Distinct(RemoveAt(options, k))
  {
    RemoveAtIndex(options, k);
    var r := RemoveAt(options, k);
    forall i, j | 0 <= i < j < |r| ensures r[i] != r[j] {
      if j < k {
        assert r[i] == options[i] && r[j] == options[j];
      } else if i < k {
        assert r[i] == options[i] && r[j] == options[j + 1];
      } else {
        assert r[i] == options[i + 1] && r[j] == options[j + 1];
      }
    }
  }

  /** Removing an option keeps a clean list clean. */
  lemma RemoveKeepsClean(options: seq<string>, start: int)
    requires CleanOptions(options)
    ensures CleanOptions(RemoveAt(options, start))
  {
    var k := SpliceStart(|options|, start);
    if k < |options| {
      RemoveAtIndex(options, k);
      RemoveKeepsDistinct(options, k);
      var r := RemoveAt(options, start);
      assert r == RemoveAt(options, k);
      forall i | 0 <= i < |r| ensures r[i] != "" && Trim(r[i]) == r[i] {
        assert r[i] == options[if i < k then i else i + 1];
      }
    }
  }

  /** The submit check: a blank name is refused first, then an enum without
      options; everything else goes through. */
  function Validate(name: string, dataType: DataType, options: seq<string>): (r: Option<string>)
    ensures r.None? <==> Trim(name) != "" && (dataType == Enum ==> |options| > 0)
    ensures Trim(name) == "" ==> r == Some(NameRequired)
    ensures Trim(name) != "" && dataType == Enum && |options| == 0 ==> r == Some(OptionRequired)
  {
    if Trim(name) == "" then Some(NameRequired)
    else if dataType == Enum && |options| == 0 then Some(OptionRequired)
    else None
  }

  /** The payload: the trimmed name, and the option list only for the enum
      type. */
  function Payload(name: string, dataType: DataType, isFilterable: bool, options: seq<string>)
    : (p: AttributePayload)
    ensures p.name == Trim(name) && p.isFilterable == isFilterable
    ensures ParseDataType(p.dataType) == Some(dataType)
    ensures dataType == Enum ==> p.options == options
    ensures dataType != Enum ==> p.options == []
  {
    ParseCode(dataType);
    AttributePayload(Trim(name), Code(dataType), isFilterable, if dataType == Enum then options else [])
  }

  /** A payload that passed the check has a non-empty trimmed name, carries
      options exactly when it is an enum, and has at least one then. */
  lemma SubmittedPayloadWellFormed(name: string, dataType: DataType, isFilterable: bool, options: seq<string>)
    requires Validate(name, dataType, options).None?
    ensures var p := Payload(name, dataType, isFilterable, options);
      p.name != "" && Trim(p.name) == p.name
      && (p.dataType == Code(Enum) <==> |p.options| > 0)
  {
    TrimIdempotent(name);
  }

  /** The options an edit starts from: the stored `option_value`s when the
      attribute is an enum that carries an option array, else none. */
  function LoadedOptions(a: Attribute): (r: seq<string>)
    ensures a.dataType != Enum || a.options.None? ==> r == []
    ensures a.dataType == Enum && a.options.Some? ==>
      |r| == |a.options.value|
      && forall i :: 0 <= i < |r| ==> r[i] == a.options.value[i].optionValue
  {
    if a.options.Some? && a.dataType == Enum then
      seq(|a.options.value|, i requires 0 <= i < |a.options.value| => a.options.value[i].optionValue)
    else []
  }

  /** The data-type menu is locked only in edit mode, and only while the
      chosen type differs from the stored one. */
  predicate DataTypeSelectable(initial: Option<Attribute>, current: DataType) {
    !(initial.Some? && initial.value.dataType != current)
  }

  /** Once an edit changes the data type, the menu locks and cannot be used
      to go back; a fresh load unlocks it again. */
  lemma ChangedTypeLocks(a: Attribute, chosen: DataType)
    requires chosen != a.dataType
    ensures DataTypeSelectable(Some(a), a.dataType)
    ensures !DataTypeSelectable(Some(a), chosen)
  {
  }

  /** The form's fields; `initial` is the record being edited, `None` when
      creating. */
  class AttributeForm {
    var initial: Option<Attribute>
    var name: string
    var dataType: DataType
    var isFilterable: bool
    var options: seq<string>
    var newOption: string
    var error: Option<string>

    constructor ()
      ensures initial == None && name == "" && dataType == Text && isFilterable
      ensures options == [] && newOption == "" && error == None
    {
      initial, name, dataType, isFilterable := None, "", Text, true;
      options, newOption, error := [], "", None;
    }

    /** The enum option builder is shown only for the enum type. */
    predicate ShowsOptionBuilder()
      reads this
    {
      dataType == Enum
    }

    /** The load effect, run when the modal opens or its record changes. Edit
        mode copies the record; create mode resets to an empty filterable
        text attribute. The error is cleared; the pending option input is
        left as it was. */
    method Load(initialData: Option<Attribute>)
      modifies this
      ensures initial == initialData && error == None && newOption == old(newOption)
      ensures initialData.None? ==>
        name == "" && dataType == Text && isFilterable && options == []
      ensures initialData.Some? ==>
        name == initialData.value.name && dataType == initialData.value.dataType
        && isFilterable == initialData.value.isFilterable
        && options == LoadedOptions(initialData.value)
      ensures DataTypeSelectable(initial, dataType)
    {
      initial := initialData;
      match initialData {
        case None =>
          name, dataType, isFilterable, options := "", Text, true, [];
        case Some(a) =>
          name, dataType, isFilterable := a.name, a.dataType, a.isFilterable;
          options := LoadedOptions(a);
      }
      error := None;
    }

    method SetName(s: string)
      modifies this`name
      ensures name == s
    {
      name := s;
    }

    method SetNewOption(s: string)
      modifies this`newOption
      ensures newOption == s
    {
      newOption := s;
    }

    /** The filterable switch flips the flag. */
    method ToggleFilterable()
      modifies this`isFilterable
      ensures isFilterable == !old(isFilterable)
    {
      isFilterable := !isFilterable;
    }

    /** The data-type menu: a change event carries the `value` of one of the
        menu's options, which becomes the data type; a locked menu takes no
        input. */
    method SelectDataType(value: string)
      requires value in MenuValues
      modifies this`dataType
      ensures DataTypeSelectable(initial, old(dataType)) ==> Code(dataType) == value
      ensures !DataTypeSelectable(initial, old(dataType)) ==> dataType == old(dataType)
    {
      MenuOffersEveryType();
      if DataTypeSelectable(initial, dataType) {
        dataType := ParseDataType(value).value;
      }
    }

    /** `handleAddOption` (the add button and the Enter key). A blank input
        changes nothing; a value already listed sets the duplicate error and
        keeps the list; otherwise the trimmed value is appended and the input
        and error are cleared. A clean list stays clean. */
    method AddOption()
      modifies this`options, this`newOption, this`error
      ensures Trim(old(newOption)) == "" ==>
        options == old(options) && newOption == old(newOption) && error == old(error)
      ensures Trim(old(newOption)) != "" && Trim(old(newOption)) in old(options) ==>
        options == old(options) && newOption == old(newOption) && error == Some(DuplicateOption)
      ensures Trim(old(newOption)) != "" && Trim(old(newOption)) !in old(options) ==>
        options == old(options) + [Trim(old(newOption))] && newOption == "" && error == None
      ensures CleanOptions(old(options)) ==> CleanOptions(options)
    {
      var value := Trim(newOption);
      if value == "" {
        return;
      }
      if value in options {
        error := Some(DuplicateOption);
        return;
      }
      if CleanOptions(options) {
        AppendKeepsClean(options, newOption);
      }
      options := options + [value];
      newOption := "";
      error := None;
    }

    /** `handleRemoveOption`: the copied list spliced at `index`. */
    method RemoveOption(index: int)
      modifies this`options
      ensures options == RemoveAt(old(options), index)
      ensures CleanOptions(old(options)) ==> CleanOptions(options)
    {
      if CleanOptions(options) {
        RemoveKeepsClean(options, index);
      }
      options := RemoveAt(options, index);
    }

    /** Submit. A refused form shows the refusal and sends nothing. Otherwise
        the payload is sent; `outcome` is what the save handler returned. The
        modal closes only on success; a failure shows the server's message
        when there is one, the generic text otherwise. */
    method Submit(outcome: Outcome) returns (request: Option<AttributePayload>, closed: bool)
      modifies this`error
      ensures Validate(old(name), dataType, options).Some? ==>
        request.None? && !closed && error == Validate(name, dataType, options)
      ensures Validate(name, dataType, options).None? ==>
        request == Some(Payload(name, dataType, isFilterable, options))
      ensures closed <==> request.Some? && outcome.Succeeded?
      ensures request.Some? && outcome.Succeeded? ==> error == None
      ensures request.Some? && outcome.Failed? ==> error == Some(ErrorText(outcome.err, SaveFailed))
    {
      var refusal := Validate(name, dataType, options);
      if refusal.Some? {
        error := refusal;
        request, closed := None, false;
        return;
      }
      error := None;
      request := Some(Payload(name, dataType, isFilterable, options));
      match outcome {
        case Succeeded =>
          closed := true;
        case Failed(err) =>
          error := Some(ErrorText(err, SaveFailed));
          closed := false;
      }
    }
  }
}
