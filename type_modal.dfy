/** The property-type form: a name and a description, checked and trimmed
    before they are handed to the view's save handler. */
module TypeModal {
  import opened Common
  import opened Catalog

  const NameRequired := "Le nom est requis."
  const SaveFailed := "Une erreur est survenue lors de la sauvegarde."

  /** What `onSave` receives. */
  datatype TypePayload = TypePayload(name: string, description: string)

  /** The submit check: the only refusal is a name that is blank once
      trimmed. */
  function Validate(name: string): (r: Option<string>)
    ensures r.None? <==> Trim(name) != ""
    ensures r.Some? ==> r.value == NameRequired
  {
    if Trim(name) == "" then Some(NameRequired) else None
  }

  /** The payload: both fields trimmed. */
  function Payload(name: string, description: string): (p: TypePayload)
    ensures p.name == Trim(name) && p.description == Trim(description)
  {
    TypePayload(Trim(name), Trim(description))
  }

  /** A payload that passed the check has a non-empty name, and neither field
      has surrounding spaces left for the backend to store. */
  lemma AcceptedPayloadIsClean(name: string, description: string)
    requires Validate(name).None?
    ensures Payload(name, description).name != ""
    ensures Trim(Payload(name, description).name) == Payload(name, description).name
    ensures Trim(Payload(name, description).description) == Payload(name, description).description
  {
    TrimIdempotent(name);
    TrimIdempotent(description);
  }

  /** The form's fields. */
  class TypeForm {
    var name: string
    var description: string
    var error: Option<string>

    constructor ()
      ensures name == "" && description == "" && error == None
    {
      name, description, error := "", "", None;
    }

    /** The load effect, run when the modal opens or its record changes:
        edit mode copies the name and defaults a missing description to "",
        create mode clears both; the error is cleared either way. */
    method Load(initial: Option<PropertyType>)
      modifies this
      ensures initial.None? ==> name == "" && description == ""
      ensures initial.Some? ==> name == initial.value.name
      ensures initial.Some? && initial.value.description.None? ==> description == ""
      ensures initial.Some? && initial.value.description.Some? ==> description == initial.value.description.value
      ensures error == None
    {
      match initial {
        case None =>
          name, description := "", "";
        case Some(t) =>
          name := t.name;
          description := match t.description case Some(d) => d case None => "";
      }
      error := None;
    }

    method SetName(s: string)
      modifies this
      ensures name == s && description == old(description) && error == old(error)
    {
      name := s;
    }

    method SetDescription(s: string)
      modifies this
      ensures description == s && name == old(name) && error == old(error)
    {
      description := s;
    }

    /** Submit. A blank name sets the error and sends nothing. Otherwise the
        trimmed payload is sent; `outcome` is what the save handler returned.
        The modal closes only on success; a failure shows the server's
        message when there is one, the generic text otherwise. */
    method Submit(outcome: Outcome) returns (request: Option<TypePayload>, closed: bool)
      modifies this
      ensures name == old(name) && description == old(description)
      ensures Validate(old(name)).Some? ==>
        request.None? && !closed && error == Validate(old(name))
      ensures Validate(old(name)).None? ==>
        request == Some(Payload(old(name), old(description)))
      ensures closed <==> request.Some? && outcome.Succeeded?
      ensures request.Some? && outcome.Succeeded? ==> error == None
      ensures request.Some? && outcome.Failed? ==> error == Some(ErrorText(outcome.err, SaveFailed))
    {
      var refusal := Validate(name);
      if refusal.Some? {
        error := refusal;
        request, closed := None, false;
        return;
      }
      error := None;
      request := Some(Payload(name, description));
      match outcome {
        case Succeeded =>
          closed := true;
        case Failed(err) =>
          error := Some(ErrorText(err, SaveFailed));
          closed := false;
      }
    }
  }
}
