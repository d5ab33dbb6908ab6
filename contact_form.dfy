/** The contact form: its fields, its validation (required fields and the
    email pattern), the contact it builds on submit (trimmed fields, tags
    parsed from a comma-separated list), and its input handler. Today's
    date, which becomes `lastContact`, is passed in. */
module ContactForm {
  import opened Wrappers
  import opened Types
  import opened Text
  import Seqs
  import ContactsStore

  /** The text inputs of the form. */
  datatype TextField = Name | Email | Phone | Company | Position | Tags

  /** One change event: a text input, or the status select. */
  datatype ContactInput = TextInput(field: TextField, value: string) | StatusInput(status: ContactStatus)

  datatype ContactFormData = ContactFormData(
    name: string,
    email: string,
    phone: string,
    company: string,
    position: string,
    status: ContactStatus,
    tags: string)

  /** The empty form, status cold. */
  const Defaults := ContactFormData("", "", "", "", "", Cold, "")

  function Get(data: ContactFormData, f: TextField): string {
    match f
    case Name => data.name
    case Email => data.email
    case Phone => data.phone
    case Company => data.company
    case Position => data.position
    case Tags => data.tags
  }

  /** `{ ...prev, [field]: value }`. */
  function Apply(data: ContactFormData, input: ContactInput): (r: ContactFormData)
    ensures input.StatusInput? ==>
              r.status == input.status && forall g :: Get(r, g) == Get(data, g)
    ensures input.TextInput? ==>
              r.status == data.status && Get(r, input.field) == input.value
              && forall g :: g != input.field ==> Get(r, g) == Get(data, g)
  {
    match input
    case StatusInput(s) => data.(status := s)
    case TextInput(f, v) =>
      match f
      case Name => data.(name := v)
      case Email => data.(email := v)
      case Phone => data.(phone := v)
      case Company => data.(company := v)
      case Position => data.(position := v)
      case Tags => data.(tags := v)
  }

  // ---------------------------------------------------------------------
  // the email pattern ^[^\s@]+@[^\s@]+\.[^\s@]+$

  /** No white space and no `@`: the class `[^\s@]`, repeated. */
  predicate Plain(s: string) {
    forall i :: 0 <= i < |s| ==> !IsSpace(s[i]) && s[i] != '@'
  }

  /** `s` matches the pattern with its `@` at `at` and the dot that the
      pattern requires at `dot`: three non-empty plain runs around them. */
  predicate EmailMatchAt(s: string, at: int, dot: int) {
    0 < at && at + 1 < dot && dot + 1 < |s| && s[at] == '@' && s[dot] == '.'
    && Plain(s[..at]) && Plain(s[at + 1..dot]) && Plain(s[dot + 1..])
  }

  /** The pattern, read off the regular expression: some split of `s`
      into the three runs. */
  predicate IsEmail(s: string) {
    exists at, dot | 0 < at < |s| && 0 < dot < |s| :: EmailMatchAt(s, at, dot)
  }

  /** An accepted address holds no white space and exactly one `@`, which
      is not its first character. */
  lemma EmailShape(s: string)
    requires IsEmail(s)
    ensures forall i :: 0 <= i < |s| ==> !IsSpace(s[i])
    ensures exists at :: 0 < at < |s| && s[at] == '@' && forall i :: 0 <= i < |s| && s[i] == '@' ==> i == at
  {
    var at, dot :| 0 < at < |s| && 0 < dot < |s| && EmailMatchAt(s, at, dot);
    forall i | 0 <= i < |s| ensures !IsSpace(s[i]) && (s[i] == '@' ==> i == at) {
      if i < at {
        assert s[..at][i] == s[i];
      } else if at < i < dot {
        assert s[at + 1..dot][i - at - 1] == s[i];
      } else if dot < i {
        assert s[dot + 1..][i - dot - 1] == s[i];
      }
    }
  }

  /** An address is accepted. */
  lemma EmailAccepted()
    ensures IsEmail("ana@crm.io")
  {
    var s := "ana@crm.io";
    assert s[..3] == "ana" && s[4..7] == "crm" && s[8..] == "io";
    assert EmailMatchAt(s, 3, 7);
  }

  /** Text without an `@` is not. */
  lemma EmailWithoutAt()
    ensures !IsEmail("not-an-email")
  {
    var s := "not-an-email";
    assert s == "not-" + "an-" + "email";
    assert '@' !in s;
  }

  /** The pattern is matched against the text as typed: a leading space fails it. */
  lemma EmailLeadingSpace()
    ensures !IsEmail(" ana@crm.io")
  {
    var s := " ana@crm.io";
    assert IsSpace(s[0]);
  }

  // ---------------------------------------------------------------------
  // validation

  /** Whether the check on field `f` fails: name, email, phone, company and
      position must not be blank after trimming, and a non-blank email must
      match the pattern as typed. Tags are not checked. */
  predicate Fails(data: ContactFormData, f: TextField) {
    match f
    case Name => |Trim(data.name)| == 0
    case Email => |Trim(data.email)| == 0 || !IsEmail(data.email)
    case Phone => |Trim(data.phone)| == 0
    case Company => |Trim(data.company)| == 0
    case Position => |Trim(data.position)| == 0
    case Tags => false
  }

  /** The messages a failed check records. */
  const NameRequired: string := "Contact name is required"
  const EmailRequired: string := "Email is required"
  const EmailInvalid: string := "Please enter a valid email address"
  const PhoneRequired: string := "Phone number is required"
  const CompanyRequired: string := "Company is required"
  const PositionRequired: string := "Position is required"

  /** The message of the check on each field. */
  function Message(data: ContactFormData, f: TextField): string {
    match f
    case Name => NameRequired
    case Email => if |Trim(data.email)| == 0 then EmailRequired else EmailInvalid
    case Phone => PhoneRequired
    case Company => CompanyRequired
    case Position => PositionRequired
    case Tags => ""
  }

  /** The error object by field: `None` where it has no key. Only the
      checked fields ever get a key. */
  datatype FormErrors = FormErrors(name: Option<string>, email: Option<string>, phone: Option<string>,
                                   company: Option<string>, position: Option<string>)

  /** `{}`. */
  const NoErrors := FormErrors(None, None, None, None, None)

  /** `errors[field]`. */
  function ErrorAt(e: FormErrors, f: TextField): Option<string> {
    match f
    case Name => e.name
    case Email => e.email
    case Phone => e.phone
    case Company => e.company
    case Position => e.position
    case Tags => None
  }

  /** `{ ...errors, [field]: '' }`, for a field that has a key. */
  function ClearAt(e: FormErrors, f: TextField): (r: FormErrors)
    requires ErrorAt(e, f).Some?
    ensures ErrorAt(r, f) == Some("")
    ensures forall g :: g != f ==> ErrorAt(r, g) == ErrorAt(e, g)
  {
    match f
    case Name => e.(name := Some(""))
    case Email => e.(email := Some(""))
    case Phone => e.(phone := Some(""))
    case Company => e.(company := Some(""))
    case Position => e.(position := Some(""))
  }

  /** `errors[field]` is truthy: a key with a non-empty message. */
  predicate Shows(e: FormErrors, f: TextField) {
    ErrorAt(e, f).Some? && ErrorAt(e, f).value != ""
  }

  /** The entry the check on `f` leaves: its message when it fails. */
  function Check(data: ContactFormData, f: TextField): Option<string> {
    if Fails(data, f) then Some(Message(data, f)) else None
  }

  /** The errors `validateForm` records: each checked field's entry. */
  function ContactErrors(data: ContactFormData): FormErrors {
    FormErrors(Check(data, Name), Check(data, Email), Check(data, Phone), Check(data, Company),
               Check(data, Position))
  }

  /** No check fails. */
  predicate Valid(data: ContactFormData) {
    forall f :: !Fails(data, f)
  }

  /** The error object has a key for a field exactly when that field's
      check fails, and then holds its message; so it is empty exactly when
      the form is valid. */
  lemma ContactErrorsRecord(data: ContactFormData)
    ensures forall f :: ErrorAt(ContactErrors(data), f).Some? <==> Fails(data, f)
    ensures forall f :: Fails(data, f) ==> ErrorAt(ContactErrors(data), f) == Some(Message(data, f))
    ensures ContactErrors(data) == NoErrors <==> Valid(data)
  {
    var e := ContactErrors(data);
    forall f ensures ErrorAt(e, f) == Check(data, f) {
      match f
      case Name =>
      case Email =>
      case Phone =>
      case Company =>
      case Position =>
      case Tags =>
    }
  }

  // ---------------------------------------------------------------------
  // the submitted contact

  /** `tags.split(',').map(tag => tag.trim()).filter(tag => tag.length > 0)`. */
  function ParseTags(s: string): seq<string> {
    var pieces := Split(s, ',');
    Seqs.Filter(TrimAll(pieces), NonEmpty)
  }

  predicate NonEmpty(t: string) {
    |t| > 0
  }

  /** `pieces.map(p => p.trim())`. */
  function TrimAll(pieces: seq<string>): (r: seq<string>)
    ensures |r| == |pieces|
    ensures forall i :: 0 <= i < |r| ==> r[i] == Trim(pieces[i])
  {
    if pieces == [] then [] else [Trim(pieces[0])] + TrimAll(pieces[1..])
  }

  /** A tag as the parser leaves it: non-empty, no comma, no white space at
      either end. */
  predicate CleanTag(t: string) {
    t != [] && ',' !in t && !IsSpace(t[0]) && !IsSpace(t[|t| - 1])
  }

  /** The contact that is submitted. */
  function BuildContact(data: ContactFormData, today: string): ContactsStore.NewContact {
    ContactsStore.NewContact(Trim(data.name), Trim(data.email), Trim(data.phone),
                             Trim(data.company), Trim(data.position), data.status, today,
                             None, ParseTags(data.tags))
  }

  /** A trimmed piece of `s` holds no character that `s` does not. */
  lemma TrimKeepsOut(s: string, c: char)
    requires c !in s
    ensures c !in Trim(s)
  {
    TrimSpec(s);
    var i :| PaddedAt(Trim(s), s, i);
    forall k | 0 <= k < |Trim(s)| ensures Trim(s)[k] != c {
      assert Trim(s)[k] == s[i + k];
    }
  }

  /** Every parsed tag is clean. */
  lemma ParseTagsClean(s: string)
    ensures forall k :: 0 <= k < |ParseTags(s)| ==> CleanTag(ParseTags(s)[k])
  {
    var pieces := Split(s, ',');
    SplitJoin(s, ',');
    var trimmed := TrimAll(pieces);
    forall i | 0 <= i < |trimmed| && |trimmed[i]| > 0 ensures CleanTag(trimmed[i]) {
      TrimSpec(pieces[i]);
      TrimKeepsOut(pieces[i], ',');
    }
    var r := ParseTags(s);
    Seqs.FilterMembers(trimmed, NonEmpty);
    forall k | 0 <= k < |r| ensures CleanTag(r[k]) {
      assert r[k] in trimmed;
    }
  }

  /** A string with no surrounding white space is its own trim. */
  lemma TrimOfClean(t: string)
    requires t == [] || (!IsSpace(t[0]) && !IsSpace(t[|t| - 1]))
    ensures Trim(t) == t
  {
  }

  lemma {:induction false} TrimAllClean(tags: seq<string>)
    requires forall k :: 0 <= k < |tags| ==> CleanTag(tags[k])
    ensures TrimAll(tags) == tags
  {
    if tags != [] {
      TrimAllClean(tags[1..]);
      TrimOfClean(tags[0]);
      assert tags == [tags[0]] + tags[1..];
    }
  }

  /** Tags written out with commas parse back to the same tags. */
  lemma ParseTagsJoin(tags: seq<string>)
    requires tags != []
    requires forall k :: 0 <= k < |tags| ==> CleanTag(tags[k])
    ensures ParseTags(Join(tags, ',')) == tags
  {
    assert forall k :: 0 <= k < |tags| ==> ',' !in tags[k];
    JoinSplit(tags, ',');
    TrimAllClean(tags);
    Seqs.FilterKeepsAll(tags, NonEmpty);
  }

  /** An empty tags field gives no tags. */
  lemma ParseTagsEmpty()
    ensures ParseTags("") == []
  {
  }

  // ---------------------------------------------------------------------
  // the component's state

  class ContactFormState {
    var data: ContactFormData
    var errors: FormErrors

    constructor ()
      ensures data == Defaults && errors == NoErrors
    {
      data := Defaults;
      errors := NoErrors;
    }

    /** `validateForm`. */
    method ValidateForm() returns (ok: bool)
      modifies this
      ensures errors == ContactErrors(data)
      ensures ok <==> Valid(data)
      ensures data == old(data)
    {
      var d := data;
      var newErrors := NoErrors;
      if |Trim(d.name)| == 0 {
        newErrors := newErrors.(name := Some(NameRequired));
      }
      if |Trim(d.email)| == 0 {
        newErrors := newErrors.(email := Some(EmailRequired));
      } else if !IsEmail(d.email) {
        newErrors := newErrors.(email := Some(EmailInvalid));
      }
      if |Trim(d.phone)| == 0 {
        newErrors := newErrors.(phone := Some(PhoneRequired));
      }
      if |Trim(d.company)| == 0 {
        newErrors := newErrors.(company := Some(CompanyRequired));
      }
      if |Trim(d.position)| == 0 {
        newErrors := newErrors.(position := Some(PositionRequired));
      }
      errors := newErrors;
      ok := newErrors == NoErrors;
      ContactErrorsRecord(d);
    }

    /** `handleSubmit`: a contact is submitted exactly when no check fails;
        then the form returns to its defaults with no errors. */
    method HandleSubmit(today: string) returns (submitted: Option<ContactsStore.NewContact>)
      modifies this
      ensures submitted.Some? <==> Valid(old(data))
      ensures submitted.Some? ==> submitted.value == BuildContact(old(data), today)
      ensures submitted.Some? ==> data == Defaults && errors == NoErrors
      ensures submitted.None? ==> data == old(data) && errors == ContactErrors(old(data))
    {
      var ok := ValidateForm();
      if !ok {
        return None;
      }
      submitted := Some(BuildContact(data, today));
      data := Defaults;
      errors := NoErrors;
    }

    /** `handleInputChange`: sets the field and blanks its error, if it had
        one; every other field and error stays. */
    method HandleInputChange(input: ContactInput)
      modifies this
      ensures data == Apply(old(data), input)
      ensures input.TextInput? && Shows(old(errors), input.field) ==>
                errors == ClearAt(old(errors), input.field)
      ensures !(input.TextInput? && Shows(old(errors), input.field)) ==> errors == old(errors)
    {
      data := Apply(data, input);
      if input.TextInput? && Shows(errors, input.field) {
        errors := ClearAt(errors, input.field);
      }
    }
  }

  // ---------------------------------------------------------------------
  // what the form promises

  /** Each check, stated on the input: a field has an error exactly when
      it is all white space (which is when it trims to nothing), except
      that a non-blank email also has one when it does not match the
      pattern; the two email errors have their own messages, and tags never
      have one. */
  lemma ContactErrorsSpec(data: ContactFormData)
    ensures ContactErrors(data).name.Some? <==> IsBlank(data.name)
    ensures ContactErrors(data).phone.Some? <==> IsBlank(data.phone)
    ensures ContactErrors(data).company.Some? <==> IsBlank(data.company)
    ensures ContactErrors(data).position.Some? <==> IsBlank(data.position)
    ensures IsBlank(data.email) ==> ContactErrors(data).email == Some("Email is required")
    ensures !IsBlank(data.email) && !IsEmail(data.email) ==>
              ContactErrors(data).email == Some("Please enter a valid email address")
    ensures !IsBlank(data.email) && IsEmail(data.email) ==> ContactErrors(data).email.None?
    ensures ErrorAt(ContactErrors(data), Tags).None?
  {
    TrimEmptyIffBlank(data.name);
    TrimEmptyIffBlank(data.phone);
    TrimEmptyIffBlank(data.email);
    TrimEmptyIffBlank(data.company);
    TrimEmptyIffBlank(data.position);
  }

  /** The submitted contact: every text field trimmed, the status as
      chosen, no avatar, clean tags. */
  lemma BuildContactFields(data: ContactFormData, today: string)
    ensures var c := BuildContact(data, today);
      c.name == Trim(data.name) && TrimmedFrom(c.name, data.name)
      && c.email == Trim(data.email) && TrimmedFrom(c.email, data.email)
      && c.phone == Trim(data.phone) && TrimmedFrom(c.phone, data.phone)
      && c.company == Trim(data.company) && TrimmedFrom(c.company, data.company)
      && c.position == Trim(data.position) && TrimmedFrom(c.position, data.position)
      && c.status == data.status && c.lastContact == today && c.avatar.None?
      && forall k :: 0 <= k < |c.tags| ==> CleanTag(c.tags[k])
  {
    TrimSpec(data.name);
    TrimSpec(data.email);
    TrimSpec(data.phone);
    TrimSpec(data.company);
    TrimSpec(data.position);
    ParseTagsClean(data.tags);
  }
}
