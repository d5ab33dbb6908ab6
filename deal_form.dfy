/** The deal form: the text fields it holds, its validation, the deal it
    builds on submit (looking up the chosen contact and stage), and its
    input handler. Number parsing (`parseFloat`, `parseInt`) is passed in
    as partial functions; `None` stands for `NaN`. */
module DealForm {
  import opened Wrappers
  import opened Types
  import opened Text
  import DealsStore

  datatype DealField = Title | Value | ContactId | StageId | Probability | CloseDate | Description

  /** The form's state: every input as the text typed or chosen. */
  datatype DealFormData = DealFormData(
    title: string,
    value: string,
    contactId: string,
    stageId: string,
    probability: string,
    closeDate: string,
    description: string)

  /** The empty form: the first stage chosen, probability 25. */
  function Defaults(stages: seq<PipelineStage>): DealFormData
    requires stages != []
  {
    DealFormData("", "", "", stages[0].id, "25", "", "")
  }

  function Get(data: DealFormData, f: DealField): string {
    match f
    case Title => data.title
    case Value => data.value
    case ContactId => data.contactId
    case StageId => data.stageId
    case Probability => data.probability
    case CloseDate => data.closeDate
    case Description => data.description
  }

  /** `{ ...prev, [field]: value }`. */
  function Set(data: DealFormData, f: DealField, v: string): (r: DealFormData)
    ensures Get(r, f) == v
    ensures forall g :: g != f ==> Get(r, g) == Get(data, g)
  {
    match f
    case Title => data.(title := v)
    case Value => data.(value := v)
    case ContactId => data.(contactId := v)
    case StageId => data.(stageId := v)
    case Probability => data.(probability := v)
    case CloseDate => data.(closeDate := v)
    case Description => data.(description := v)
  }

  /** The message each failed check records. */
  function Message(f: DealField): string {
    match f
    case Title => "Deal title is required"
    case Value => "Deal value must be greater than 0"
    case ContactId => "Please select a contact"
    case CloseDate => "Close date is required"
    case Description => "Description is required"
    case StageId => ""
    case Probability => ""
  }

  /** Whether the check on field `f` fails. Title and description must be
      non-blank after trimming; contact and close date must be non-empty as
      they are; the value must be non-empty and must not parse to a number
      that is at most 0 (so text that does not parse passes, `NaN <= 0`
      being false). Stage and probability are never checked. */
  predicate Fails(data: DealFormData, f: DealField, parseFloat: string -> Option<real>) {
    match f
    case Title => |Trim(data.title)| == 0
    case Value => data.value == "" || (parseFloat(data.value).Some? && parseFloat(data.value).value <= 0.0)
    case ContactId => data.contactId == ""
    case CloseDate => data.closeDate == ""
    case Description => |Trim(data.description)| == 0
    case StageId => false
    case Probability => false
  }

  /** The deal that is submitted, if the chosen contact and stage exist.
      `None` also when a number does not parse, where the application would
      carry `NaN` into the deal. */
  function BuildDeal(data: DealFormData, contacts: seq<Contact>, stages: seq<PipelineStage>,
                     parseFloat: string -> Option<real>, parseInt: string -> Option<int>)
    : Option<DealsStore.NewDeal>
  {
    match (FindContact(contacts, data.contactId), FindStage(stages, data.stageId),
           parseFloat(data.value), parseInt(data.probability))
    case (Some(c), Some(s), Some(v), Some(p)) =>
      Some(DealsStore.NewDeal(Trim(data.title), v, s, data.contactId, c, p, data.closeDate,
                              Trim(data.description)))
    case _ => None
  }

  /** The error object by field: `None` where it has no key. Only the
      checked fields ever get a key. */
  datatype FormErrors = FormErrors(title: Option<string>, value: Option<string>, contactId: Option<string>,
                                   closeDate: Option<string>, description: Option<string>)

  /** `{}`. */
  const NoErrors := FormErrors(None, None, None, None, None)

  /** `errors[field]`. */
  function ErrorAt(e: FormErrors, f: DealField): Option<string> {
    match f
    case Title => e.title
    case Value => e.value
    case ContactId => e.contactId
    case CloseDate => e.closeDate
    case Description => e.description
    case StageId => None
    case Probability => None
  }

  /** `errors[field]` is truthy: a key with a non-empty message. */
  predicate Shows(e: FormErrors, f: DealField) {
    ErrorAt(e, f).Some? && ErrorAt(e, f).value != ""
  }

  /** `{ ...errors, [field]: '' }`, for a field that has a key. */
  function ClearAt(e: FormErrors, f: DealField): (r: FormErrors)
    requires ErrorAt(e, f).Some?
    ensures ErrorAt(r, f) == Some("")
    ensures forall g :: g != f ==> ErrorAt(r, g) == ErrorAt(e, g)
  {
    match f
    case Title => e.(title := Some(""))
    case Value => e.(value := Some(""))
    case ContactId => e.(contactId := Some(""))
    case CloseDate => e.(closeDate := Some(""))
    case Description => e.(description := Some(""))
  }

  /** The entry the check on `f` leaves: its message when it fails. */
  function Check(data: DealFormData, f: DealField, parseFloat: string -> Option<real>): Option<string> {
    if Fails(data, f, parseFloat) then Some(Message(f)) else None
  }

  /** The errors `validateForm` records: each checked field's entry. */
  function DealErrors(data: DealFormData, parseFloat: string -> Option<real>): FormErrors {
    FormErrors(Check(data, Title, parseFloat), Check(data, Value, parseFloat), Check(data, ContactId, parseFloat),
               Check(data, CloseDate, parseFloat), Check(data, Description, parseFloat))
  }

  /** No check fails. */
  predicate Valid(data: DealFormData, parseFloat: string -> Option<real>) {
    forall f :: !Fails(data, f, parseFloat)
  }

  /** The error object has a key for a field exactly when that field's
      check fails, and then holds its message; so it is empty exactly when
      the form is valid. */
  lemma DealErrorsRecord(data: DealFormData, parseFloat: string -> Option<real>)
    ensures forall f :: ErrorAt(DealErrors(data, parseFloat), f).Some? <==> Fails(data, f, parseFloat)
    ensures forall f :: Fails(data, f, parseFloat) ==> ErrorAt(DealErrors(data, parseFloat), f) == Some(Message(f))
    ensures DealErrors(data, parseFloat) == NoErrors <==> Valid(data, parseFloat)
  {
    var e := DealErrors(data, parseFloat);
    forall f ensures ErrorAt(e, f) == Check(data, f, parseFloat) {
      match f
      case Title =>
      case Value =>
      case ContactId =>
      case CloseDate =>
      case Description =>
      case StageId =>
      case Probability =>
    }
  }

  // ---------------------------------------------------------------------
  // the component's state

  class DealFormState {
    var data: DealFormData
    var errors: FormErrors
    const stages: seq<PipelineStage>

    constructor (stages: seq<PipelineStage>)
      requires stages != []
      ensures this.stages == stages
      ensures data == Defaults(stages) && errors == NoErrors
    {
      this.stages := stages;
      data := Defaults(stages);
      errors := NoErrors;
    }

    /** `validateForm`: records the failed checks one by one and reports
        whether there were none. */
    method ValidateForm(parseFloat: string -> Option<real>) returns (ok: bool)
      modifies this
      ensures errors == DealErrors(data, parseFloat)
      ensures ok <==> Valid(data, parseFloat)
      ensures data == old(data)
    {
      var d := data;
      var newErrors := NoErrors;
      if |Trim(d.title)| == 0 {
        newErrors := newErrors.(title := Some(Message(Title)));
      }
      assert newErrors.title == Check(d, Title, parseFloat);
      if d.value == "" || (parseFloat(d.value).Some? && parseFloat(d.value).value <= 0.0) {
        newErrors := newErrors.(value := Some(Message(Value)));
      }
      assert newErrors.value == Check(d, Value, parseFloat);
      if d.contactId == "" {
        newErrors := newErrors.(contactId := Some(Message(ContactId)));
      }
      assert newErrors.contactId == Check(d, ContactId, parseFloat);
      if d.closeDate == "" {
        newErrors := newErrors.(closeDate := Some(Message(CloseDate)));
      }
      assert newErrors.closeDate == Check(d, CloseDate, parseFloat);
      if |Trim(d.description)| == 0 {
        newErrors := newErrors.(description := Some(Message(Description)));
      }
      assert newErrors.description == Check(d, Description, parseFloat);
      errors := newErrors;
      ok := newErrors == NoErrors;
      DealErrorsRecord(d, parseFloat);
    }

    /** `handleSubmit`: nothing is submitted when a check fails or a lookup
        finds nothing; otherwise the built deal is submitted and the form
        returns to its defaults. */
    method HandleSubmit(contacts: seq<Contact>, parseFloat: string -> Option<real>,
                        parseInt: string -> Option<int>)
      returns (submitted: Option<DealsStore.NewDeal>)
      modifies this
      ensures !Valid(old(data), parseFloat) ==>
                submitted.None? && data == old(data) && errors == DealErrors(old(data), parseFloat)
      ensures Valid(old(data), parseFloat) ==>
                submitted == BuildDeal(old(data), contacts, stages, parseFloat, parseInt)
      ensures Valid(old(data), parseFloat) && submitted.None? ==>
                data == old(data) && errors == NoErrors
      ensures submitted.Some? ==> data == Defaults(stages) && errors == NoErrors
    {
      var ok := ValidateForm(parseFloat);
      if !ok {
        return None;
      }
      submitted := BuildDeal(data, contacts, stages, parseFloat, parseInt);
      if submitted.Some? {
        data := Defaults(stages);
        errors := NoErrors;
      }
    }

    /** `handleInputChange`: sets the field and blanks its error, if it had
        one; every other field and error stays. */
    method HandleInputChange(f: DealField, value: string)
      modifies this
      ensures data == Set(old(data), f, value)
      ensures errors == if Shows(old(errors), f) then ClearAt(old(errors), f) else old(errors)
    {
      data := Set(data, f, value);
      if Shows(errors, f) {
        errors := ClearAt(errors, f);
      }
    }
  }

  // ---------------------------------------------------------------------
  // what the form promises

  /** Each check, stated on the input: a title or description that is all
      white space (which is when it trims to nothing), an empty contact or
      close date, and an empty or non-positive value; the probability and
      the stage never fail. */
  lemma DealErrorsSpec(data: DealFormData, parseFloat: string -> Option<real>)
    ensures DealErrors(data, parseFloat).title.Some? <==> IsBlank(data.title)
    ensures DealErrors(data, parseFloat).description.Some? <==> IsBlank(data.description)
    ensures DealErrors(data, parseFloat).contactId.Some? <==> data.contactId == ""
    ensures DealErrors(data, parseFloat).closeDate.Some? <==> data.closeDate == ""
    ensures DealErrors(data, parseFloat).value.Some?
        <==> data.value == "" || (parseFloat(data.value).Some? && parseFloat(data.value).value <= 0.0)
    ensures ErrorAt(DealErrors(data, parseFloat), Probability).None?
    ensures ErrorAt(DealErrors(data, parseFloat), StageId).None?
  {
    TrimEmptyIffBlank(data.title);
    TrimEmptyIffBlank(data.description);
  }

  /** A value that does not parse passes the value check. */
  lemma UnparsableValuePasses(data: DealFormData, parseFloat: string -> Option<real>)
    requires data.value != "" && parseFloat(data.value).None?
    ensures DealErrors(data, parseFloat).value.None?
  {
  }

  /** The submitted deal: the contact and stage found by the chosen ids,
      the title and description trimmed, the close date as typed. */
  lemma BuildDealFields(data: DealFormData, contacts: seq<Contact>, stages: seq<PipelineStage>,
                        parseFloat: string -> Option<real>, parseInt: string -> Option<int>)
    requires BuildDeal(data, contacts, stages, parseFloat, parseInt).Some?
    ensures var d := BuildDeal(data, contacts, stages, parseFloat, parseInt).value;
      d.contact in contacts && d.contact.id == d.contactId == data.contactId
      && d.stage in stages && d.stage.id == data.stageId
      && d.title == Trim(data.title) && TrimmedFrom(d.title, data.title)
      && d.description == Trim(data.description) && TrimmedFrom(d.description, data.description)
      && d.closeDate == data.closeDate
      && Some(d.value) == parseFloat(data.value) && Some(d.probability) == parseInt(data.probability)
  {
    TrimSpec(data.title);
    TrimSpec(data.description);
  }

  /** Nothing is built when the chosen contact or stage is not in its list. */
  lemma BuildDealNeedsLookups(data: DealFormData, contacts: seq<Contact>, stages: seq<PipelineStage>,
                              parseFloat: string -> Option<real>, parseInt: string -> Option<int>)
    requires (forall i :: 0 <= i < |contacts| ==> contacts[i].id != data.contactId)
          || (forall i :: 0 <= i < |stages| ==> stages[i].id != data.stageId)
    ensures BuildDeal(data, contacts, stages, parseFloat, parseInt).None?
  {
  }
}
