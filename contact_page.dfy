// The dynamic contact page: its own field checks (`validateForm`), the
// clearing of a field's error when that field is edited, and what a submit
// does to the page's state.
module ContactPage {
  import opened Wrappers
  import opened Strings
  import opened ContactFields
  import Patterns

  /** The messages of `validateForm`. */
  datatype PageError = NameMissing | EmailMissing | EmailMalformed | ReasonMissing | MessageMissing

  function ErrorText(e: PageError): string
  {
    match e
    case NameMissing => "Name is required"
    case EmailMissing => "Email is required"
    case EmailMalformed => "Please enter a valid email"
    case ReasonMissing => "Please select a reason for contact"
    case MessageMissing => "Message is required"
  }

  /** The field a message is about. */
  function FieldOf(e: PageError): FormField
  {
    match e
    case NameMissing => NameField
    case EmailMissing => EmailField
    case EmailMalformed => EmailField
    case ReasonMissing => ReasonField
    case MessageMissing => MessageField
  }

  /** `validateForm()`: the messages, keyed by field. */
  function Validate(f: Form): (r: map<FormField, PageError>)
    ensures NameField in r <==> Trim(f.name) == ""
    ensures EmailField in r <==> Trim(f.email) == "" || !Patterns.LooseEmail(f.email)
    ensures EmailField in r ==> r[EmailField] == (if Trim(f.email) == "" then EmailMissing else EmailMalformed)
    ensures ReasonField in r <==> f.reason == ""
    ensures MessageField in r <==> Trim(f.message) == ""
    ensures forall k :: k in r ==> FieldOf(r[k]) == k
  {
    var name: map<FormField, PageError> := if Trim(f.name) == "" then map[NameField := NameMissing] else map[];
    var email :=
      if Trim(f.email) == "" then name[EmailField := EmailMissing]
      else if !Patterns.LooseEmail(f.email) then name[EmailField := EmailMalformed]
      else name;
    var reason := if f.reason == "" then email[ReasonField := ReasonMissing] else email;
    if Trim(f.message) == "" then reason[MessageField := MessageMissing] else reason
  }

  /** The answer to the request: the response's `ok` and the `success` of
      its body, or `Unanswered` when the request fails or the body is not
      JSON. */
  datatype Reply = Replied(ok: bool, success: bool) | Unanswered

  /** The state of the page. A field's entry in `errors` is `None` once the
      field has been edited after a failed check (the page stores `''`). */
  class ContactPageState {
    var form: Form
    var errors: map<FormField, Option<PageError>>
    var isSubmitting: bool
    var isSubmitted: bool
    var submitError: bool

    constructor ()
      ensures form == EmptyForm && errors == map[] && !isSubmitting && !isSubmitted && !submitError
    {
      form := EmptyForm;
      errors := map[];
      isSubmitting := false;
      isSubmitted := false;
      submitError := false;
    }

    /** `handleInputChange`: the edited field takes the value and loses its
        message; nothing else changes. */
    method InputChange(field: FormField, value: string)
      modifies this
      ensures form == With(old(form), field, value)
      ensures field in old(errors) && old(errors)[field].Some? ==> errors == old(errors)[field := None]
      ensures !(field in old(errors) && old(errors)[field].Some?) ==> errors == old(errors)
      ensures isSubmitting == old(isSubmitting) && isSubmitted == old(isSubmitted) && submitError == old(submitError)
    {
      form := With(form, field, value);
      if field in errors && errors[field].Some? {
        errors := errors[field := None];
      }
    }

    /** `handleSubmit`: with any message nothing is sent and the messages
        are shown; otherwise the form is sent (`request`), and a successful
        reply marks the page submitted and empties the form. */
    method Submit(reply: Reply) returns (request: Option<Form>)
      modifies this
      ensures !isSubmitting
      ensures Validate(old(form)) != map[] ==>
        request.None? && errors == (map k | k in Validate(old(form)) :: Some(Validate(old(form))[k]))
        && submitError && form == old(form) && isSubmitted == old(isSubmitted)
      ensures Validate(old(form)) == map[] ==> request == Some(old(form)) && errors == old(errors)
      ensures Validate(old(form)) == map[] && reply == Replied(true, true) ==>
        isSubmitted && form == EmptyForm && !submitError
      ensures Validate(old(form)) == map[] && reply != Replied(true, true) ==>
        submitError && form == old(form) && isSubmitted == old(isSubmitted)
    {
      isSubmitting := true;
      submitError := false;
      var formErrors := Validate(form);
      if formErrors != map[] {
        errors := map k | k in formErrors :: Some(formErrors[k]);
        submitError := true;
        isSubmitting := false;
        return None;
      }
      request := Some(form);
      if reply.Replied? && reply.ok && reply.success {
        isSubmitting := false;
        isSubmitted := true;
        form := EmptyForm;
      } else {
        submitError := true;
        isSubmitting := false;
      }
    }

    /** The timer 600ms after a failed submit: the error animation ends. */
    method ErrorAnimationEnd()
      modifies this
      ensures !submitError
      ensures form == old(form) && errors == old(errors) && isSubmitting == old(isSubmitting) && isSubmitted == old(isSubmitted)
    {
      submitError := false;
    }
  }

  // ---- What the page promises ----

  /** An emptied form fails every check: a second submit right after a
      successful one sends nothing. */
  lemma EmptyFormFails()
    ensures Validate(EmptyForm).Keys == {NameField, EmailField, ReasonField, MessageField}
    ensures Validate(EmptyForm)[EmailField] == EmailMissing
  {
    assert Trim("") == "" by { TrimEmptyIff(""); }
  }

  /** The page's address test is looser than the contact endpoint's: an
      address the page calls malformed the endpoint rejects too. */
  lemma MalformedRejectedByEndpoint(f: Form)
    requires EmailField in Validate(f) && Validate(f)[EmailField] == EmailMalformed
    ensures !Patterns.SimpleEmail(f.email)
  {
    if Patterns.SimpleEmail(f.email) {
      Patterns.SimpleEmailIsLoose(f.email);
    }
  }

  /** The form passes exactly when name and message have a character that
      is not whitespace, a reason is chosen and the address has the shape
      `x@y.z`. */
  lemma ValidIff(f: Form)
    ensures Validate(f) == map[] <==>
      HasNonSpace(f.name) && HasNonSpace(f.email) && Patterns.LooseEmail(f.email) && f.reason != "" && HasNonSpace(f.message)
  {
    TrimNonEmptyIff(f.name);
    TrimNonEmptyIff(f.email);
    TrimNonEmptyIff(f.message);
    var r := Validate(f);
    if r != map[] {
      var k :| k in r;
      assert k == FieldOf(r[k]);
    }
  }
}
