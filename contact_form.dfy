// The contact form component: it checks its form with the site's contact
// check, spreads the messages over the fields by the words they contain,
// clears a field's message and the submit status when the user edits, and
// records the outcome of the request.
module ContactForm {
  import opened Wrappers
  import opened Strings
  import opened Verdicts
  import opened ContactFields
  import opened ContactValidation
  import opened JsValue

  /** A key of the component's `errors` object. */
  datatype ErrorKey = NameKey | EmailKey | ReasonKey | MessageKey | GeneralKey

  /** The key of an edited input. */
  function KeyOf(field: FormField): (k: ErrorKey)
    ensures k != GeneralKey
  {
    match field
    case NameField => NameKey
    case EmailField => EmailKey
    case ReasonField => ReasonKey
    case MessageField => MessageKey
  }

  /** Where a message goes: to the name if it mentions `Name`, else to the
      e-mail if it mentions `Email`, else to the message if it mentions
      `Message`, else to the general slot. */
  function Route(text: string): (k: ErrorKey)
    ensures k != ReasonKey
    ensures k == NameKey <==> Contains(text, "Name")
    ensures k == GeneralKey <==> !Contains(text, "Name") && !Contains(text, "Email") && !Contains(text, "Message")
  {
    if Contains(text, "Name") then NameKey
    else if Contains(text, "Email") then EmailKey
    else if Contains(text, "Message") then MessageKey
    else GeneralKey
  }

  /** The `fieldErrors` the messages fill in, a later message of a key
      replacing an earlier one. */
  function FieldErrors(texts: seq<string>): (r: map<ErrorKey, string>)
    decreases |texts|
  {
    if texts == [] then map[]
    else FieldErrors(texts[..|texts| - 1])[Route(texts[|texts| - 1]) := texts[|texts| - 1]]
  }

  /** `i` is the last position of a message that goes to `k`. */
  predicate LastFor(texts: seq<string>, k: ErrorKey, i: int)
  {
    0 <= i < |texts| && Route(texts[i]) == k && forall j :: i < j < |texts| ==> Route(texts[j]) != k
  }

  /** A key is filled exactly when some message goes to it, and it holds
      the last such message. */
  lemma {:induction false} FieldErrorsLast(texts: seq<string>, k: ErrorKey)
    ensures k in FieldErrors(texts) <==> exists i :: 0 <= i < |texts| && Route(texts[i]) == k
    ensures k in FieldErrors(texts) ==> exists i :: LastFor(texts, k, i) && FieldErrors(texts)[k] == texts[i]
    decreases |texts|
  {
    if texts != [] {
      var n := |texts| - 1;
      var init := texts[..n];
      FieldErrorsLast(init, k);
      assert forall i :: 0 <= i < n ==> init[i] == texts[i];
      if Route(texts[n]) == k {
        assert LastFor(texts, k, n);
      } else if k in FieldErrors(texts) {
        var i :| LastFor(init, k, i) && FieldErrors(init)[k] == init[i];
        assert LastFor(texts, k, i);
      }
    }
  }

  /** `validation.errors.forEach(...)` */
  method MapErrors(texts: seq<string>) returns (fieldErrors: map<ErrorKey, string>)
    ensures fieldErrors == FieldErrors(texts)
  {
    fieldErrors := map[];
    for i := 0 to |texts|
      invariant fieldErrors == FieldErrors(texts[..i])
    {
      assert texts[..i + 1][..i] == texts[..i];
      var error := texts[i];
      if Contains(error, "Name") {
        fieldErrors := fieldErrors[NameKey := error];
      } else if Contains(error, "Email") {
        fieldErrors := fieldErrors[EmailKey := error];
      } else if Contains(error, "Message") {
        fieldErrors := fieldErrors[MessageKey := error];
      } else {
        fieldErrors := fieldErrors[GeneralKey := error];
      }
    }
    assert texts[..|texts|] == texts;
  }

  // ---- Where each message of the contact check goes ----

  /** The key each message of the contact check is routed to. */
  function Destination(e: ContactError): ErrorKey
  {
    match e
    case NameRequired => NameKey
    case NameTooShort => NameKey
    case NameTooLong => NameKey
    case EmailRequired => EmailKey
    case EmailInvalid => GeneralKey
    case MessageRequired => MessageKey
    case MessageTooShort => MessageKey
    case MessageTooLong => MessageKey
    case CompanyTooLong => GeneralKey
  }

  /** A text that starts with a word mentions it. */
  lemma Starts(s: string, word: string)
    requires |word| <= |s| && forall i :: 0 <= i < |word| ==> s[i] == word[i]
    ensures Contains(s, word)
  {
    assert s[..|word|] == word;
    assert OccursAt(s, word, 0);
  }

  /** `s` has no character `c`. */
  predicate Without(s: string, c: char)
  {
    forall i :: 0 <= i < |s| ==> s[i] != c
  }

  lemma WithoutJoin(a: string, b: string, c: char)
    requires Without(a, c) && Without(b, c)
    ensures Without(a + b, c)
  {
  }

  /** A text without the character `c` mentions no word starting with it. */
  lemma Lacks(s: string, c: char, word: string)
    requires word != [] && word[0] == c && Without(s, c)
    ensures !Contains(s, word)
  {
    forall i | 0 <= i <= |s| - |word| ensures !OccursAt(s, word, i) {
      assert s[i..i + |word|][0] == s[i];
    }
  }

  /** The name messages mention `Name`... */
  lemma NameRequiredRouted()
    ensures Route(Message(NameRequired)) == NameKey
  {
    Starts(Message(NameRequired), "Name");
  }

  lemma NameTooShortRouted()
    ensures Route(Message(NameTooShort)) == NameKey
  {
    Starts(Message(NameTooShort), "Name");
  }

  lemma NameTooLongRouted()
    ensures Route(Message(NameTooLong)) == NameKey
  {
    Starts(Message(NameTooLong), "Name");
  }

  /** ...`Email is required` mentions `Email` and not `Name`... */
  lemma EmailRequiredLetters()
    ensures Without(Message(EmailRequired), 'N')
  {
  }

  lemma EmailRequiredRouted()
    ensures Route(Message(EmailRequired)) == EmailKey
  {
    var s := Message(EmailRequired);
    EmailRequiredLetters();
    Lacks(s, 'N', "Name");
    Starts(s, "Email");
  }

  /** ...the message messages mention `Message` and neither `Name` nor
      `Email`... */
  lemma MessageRequiredLetters()
    ensures Without(Message(MessageRequired), 'N')
    ensures Without(Message(MessageRequired), 'E')
  {
  }

  lemma MessageRequiredRouted()
    ensures Route(Message(MessageRequired)) == MessageKey
  {
    var s := Message(MessageRequired);
    MessageRequiredLetters();
    Lacks(s, 'N', "Name");
    Lacks(s, 'E', "Email");
    Starts(s, "Message");
  }

  lemma MessagePieces()
    ensures Without("Message must be ", 'N') && Without("Message must be ", 'E')
    ensures Without("at least 10 characters long", 'N') && Without("at least 10 characters long", 'E')
    ensures Without("less than 2000 characters", 'N') && Without("less than 2000 characters", 'E')
  {
  }

  lemma MessageTooShortRouted()
    ensures Route(Message(MessageTooShort)) == MessageKey
  {
    var a, b := "Message must be ", "at least 10 characters long";
    MessagePieces();
    WithoutJoin(a, b, 'N');
    WithoutJoin(a, b, 'E');
    Lacks(a + b, 'N', "Name");
    Lacks(a + b, 'E', "Email");
    Starts(a + b, "Message");
  }

  lemma MessageTooLongRouted()
    ensures Route(Message(MessageTooLong)) == MessageKey
  {
    var a, b := "Message must be ", "less than 2000 characters";
    MessagePieces();
    WithoutJoin(a, b, 'N');
    WithoutJoin(a, b, 'E');
    Lacks(a + b, 'N', "Name");
    Lacks(a + b, 'E', "Email");
    Starts(a + b, "Message");
  }

  /** ..."Please enter a valid email address" has no capital `Email`, so it
      goes to the general slot... */
  lemma EmailInvalidLetters()
    ensures Without(Message(EmailInvalid), 'N')
    ensures Without(Message(EmailInvalid), 'E')
    ensures Without(Message(EmailInvalid), 'M')
  {
  }

  lemma EmailInvalidRouted()
    ensures Route(Message(EmailInvalid)) == GeneralKey
  {
    var s := Message(EmailInvalid);
    EmailInvalidLetters();
    Lacks(s, 'N', "Name");
    Lacks(s, 'E', "Email");
    Lacks(s, 'M', "Message");
  }

  /** ...and so does the company message, which has `name` only in lower
      case. */
  lemma CompanyTooLongPieces()
    ensures Without("Company name must be ", 'N') && Without("Company name must be ", 'E') && Without("Company name must be ", 'M')
    ensures Without("less than 200 characters", 'N') && Without("less than 200 characters", 'E') && Without("less than 200 characters", 'M')
  {
  }

  lemma CompanyTooLongRouted()
    ensures Route(Message(CompanyTooLong)) == GeneralKey
  {
    var a, b := "Company name must be ", "less than 200 characters";
    CompanyTooLongPieces();
    WithoutJoin(a, b, 'N');
    WithoutJoin(a, b, 'E');
    WithoutJoin(a, b, 'M');
    Lacks(a + b, 'N', "Name");
    Lacks(a + b, 'E', "Email");
    Lacks(a + b, 'M', "Message");
  }

  /** Every message of the contact check goes to its destination. */
  lemma RouteOfMessage(e: ContactError)
    ensures Route(Message(e)) == Destination(e)
  {
    match e
    case NameRequired => NameRequiredRouted();
    case NameTooShort => NameTooShortRouted();
    case NameTooLong => NameTooLongRouted();
    case EmailRequired => EmailRequiredRouted();
    case EmailInvalid => EmailInvalidRouted();
    case MessageRequired => MessageRequiredRouted();
    case MessageTooShort => MessageTooShortRouted();
    case MessageTooLong => MessageTooLongRouted();
    case CompanyTooLong => CompanyTooLongRouted();
  }

  /** A key is filled for a list of messages of the contact check exactly
      when one of them is destined for it. */
  lemma RoutedIff(errors: seq<ContactError>, k: ErrorKey)
    ensures k in FieldErrors(Texts(errors, Message)) <==> exists e :: e in errors && Destination(e) == k
  {
    var texts := Texts(errors, Message);
    FieldErrorsLast(texts, k);
    forall i | 0 <= i < |errors| ensures Route(texts[i]) == Destination(errors[i]) {
      RouteOfMessage(errors[i]);
    }
    if e :| e in errors && Destination(e) == k {
      var i :| 0 <= i < |errors| && errors[i] == e;
      assert Route(texts[i]) == k;
    }
  }

  /** Whether key `k` is filled for a name message `n`, an e-mail message
      `o` and a message message `b`. */
  predicate Filled(n: Option<ContactError>, o: Option<ContactError>, b: Option<ContactError>, k: ErrorKey)
  {
    match k
    case NameKey => n.Some?
    case EmailKey => o == Some(EmailRequired)
    case ReasonKey => false
    case MessageKey => b.Some?
    case GeneralKey => o == Some(EmailInvalid)
  }

  /** A name message, an e-mail message and a message message, each one
      possibly absent: the name and message keys are filled exactly when
      their message is there, the e-mail key exactly when the e-mail message
      is "Email is required", the general slot exactly when it is the
      invalid-address one, and the reason key never. */
  lemma Slots(n: Option<ContactError>, o: Option<ContactError>, b: Option<ContactError>, k: ErrorKey)
    requires n.Some? ==> Destination(n.value) == NameKey
    requires b.Some? ==> Destination(b.value) == MessageKey
    requires o.Some? ==> o.value == EmailRequired || o.value == EmailInvalid
    ensures (exists e :: e in Listed(n) + Listed(o) + Listed(b) && Destination(e) == k) <==> Filled(n, o, b, k)
  {
    var errors := Listed(n) + Listed(o) + Listed(b);
    assert forall e :: e in errors ==> e in Listed(n) || e in Listed(o) || e in Listed(b);
    match k
    case NameKey =>
      if n.Some? {
        assert n.value in errors;
      }
    case MessageKey =>
      if b.Some? {
        assert b.value in errors;
      }
    case ReasonKey =>
    case _ =>
      if o.Some? {
        assert o.value in errors;
      }
  }

  /** The name and message checks give messages about their fields, the
      e-mail check one of its two. */
  lemma CheckDestinations(v: Value)
    ensures NameCheck(v).Some? ==> Destination(NameCheck(v).value) == NameKey
    ensures BodyCheck(v).Some? ==> Destination(BodyCheck(v).value) == MessageKey
    ensures MailCheck(v).Some? ==> MailCheck(v).value == EmailRequired || MailCheck(v).value == EmailInvalid
  {
  }

  /** For a form without a company message, each key of the routed
      messages is filled exactly when its check failed as `Filled` says. */
  lemma MessagesPlaced(v: Value, k: ErrorKey)
    requires FirmCheck(v).None?
    ensures k in FieldErrors(Texts(ContactErrors(v), Message)) <==> Filled(NameCheck(v), MailCheck(v), BodyCheck(v), k)
  {
    var n, o, b := NameCheck(v), MailCheck(v), BodyCheck(v);
    assert ContactErrors(v) == Listed(n) + Listed(o) + Listed(b);
    CheckDestinations(v);
    RoutedIff(ContactErrors(v), k);
    Slots(n, o, b, k);
  }

  /** The component's form has no company field: a failing form's messages
      fill the name and message keys for a failed name or message check,
      the e-mail key only with "Email is required", the general slot with
      the invalid-address message, and never the reason key. */
  lemma FormMessagesPlaced(f: Form, k: ErrorKey)
    requires Routed(f).Some?
    ensures k in Routed(f).value <==> Filled(NameCheck(AsValue(f)), MailCheck(AsValue(f)), BodyCheck(AsValue(f)), k)
  {
    var v := AsValue(f);
    FormChecked(f);
    MessagesPlaced(v, k);
  }

  /** The component's form is an object without a company field. */
  lemma FormChecked(f: Form)
    ensures FirmCheck(AsValue(f)).None?
    ensures Routed(f) == if ContactErrors(AsValue(f)) == [] then None else Some(FieldErrors(Texts(ContactErrors(AsValue(f)), Message)))
  {
    assert Prop(AsValue(f), "company").None?;
  }

  /** A form fails the component's check exactly when the name, e-mail or
      message check fails. */
  lemma FormFailsIff(f: Form)
    ensures Routed(f).None? <==> NameCheck(AsValue(f)).None? && MailCheck(AsValue(f)).None? && BodyCheck(AsValue(f)).None?
  {
    var v := AsValue(f);
    FormChecked(f);
    assert ContactErrors(v) == Listed(NameCheck(v)) + Listed(MailCheck(v)) + Listed(BodyCheck(v));
  }

  /** The submit status. */
  datatype Status = NoStatus | Succeeded | Failed

  /** The answer to the request: whether the response was `ok`, or
      `Unanswered` when the request fails or the body is not JSON. */
  datatype Reply = Replied(ok: bool) | Unanswered

  const SendFailure := "An error occurred while sending your message. Please try again."

  /** A message slot of `errors`: `None` is the `null` an edit leaves. */
  function Shown(fieldErrors: map<ErrorKey, string>): (r: map<ErrorKey, Option<string>>)
    ensures r.Keys == fieldErrors.Keys && forall k :: k in r ==> r[k] == Some(fieldErrors[k])
  {
    map k | k in fieldErrors :: Some(fieldErrors[k])
  }

  /** The messages of a form that fails the contact check, routed to
      their keys; `None` for a form that passes. */
  function Routed(f: Form): Option<map<ErrorKey, string>>
  {
    var c := ContactCheck(AsValue(f));
    if c.verdict.isValid then None else Some(FieldErrors(Texts(c.verdict.errors, Message)))
  }

  /** The check and the routing of `handleSubmit`. */
  method Check(f: Form) returns (r: Option<map<ErrorKey, string>>)
    ensures r == Routed(f)
  {
    var validation := ValidateContactData(AsValue(f));
    match validation
    case Returns(verdict) =>
      if verdict.isValid {
        r := None;
      } else {
        var fieldErrors := MapErrors(Texts(verdict.errors, Message));
        r := Some(fieldErrors);
      }
  }

  /** The state of the component. */
  class ContactFormState {
    var form: Form
    var errors: map<ErrorKey, Option<string>>
    var isSubmitting: bool
    var status: Status

    constructor ()
      ensures form == EmptyForm && errors == map[] && !isSubmitting && status == NoStatus
    {
      form := EmptyForm;
      errors := map[];
      isSubmitting := false;
      status := NoStatus;
    }

    /** `handleChange`: the field takes the value, its message (if it has
        a non-empty one) becomes `null`, and any submit status is dropped. */
    method Change(field: FormField, value: string)
      modifies this
      ensures form == With(old(form), field, value) && status == NoStatus && isSubmitting == old(isSubmitting)
      ensures var k := KeyOf(field);
        errors == if k in old(errors) && old(errors)[k].Some? && old(errors)[k].value != "" then old(errors)[k := None] else old(errors)
    {
      var k := KeyOf(field);
      if k in errors && errors[k].Some? && errors[k].value != "" {
        errors := errors[k := None];
      }
      if status != NoStatus {
        status := NoStatus;
      }
      form := With(form, field, value);
    }

    /** The rest of `handleSubmit`, given the routed messages of the form:
        messages are shown and nothing is sent; otherwise the form is sent
        (`request`) and the reply decides between success (the form is
        emptied) and the general failure message. */
    method Conclude(routed: Option<map<ErrorKey, string>>, reply: Reply) returns (request: Option<Form>)
      modifies this
      ensures !isSubmitting
      ensures routed.Some? ==> request.None? && errors == Shown(routed.value) && status == NoStatus && form == old(form)
      ensures routed.None? ==> request == Some(old(form))
      ensures routed.None? && reply == Replied(true) ==> status == Succeeded && form == EmptyForm && errors == map[]
      ensures routed.None? && reply != Replied(true) ==>
        status == Failed && form == old(form) && errors == map[GeneralKey := Some(SendFailure)]
    {
      if routed.Some? {
        errors := Shown(routed.value);
        status := NoStatus;
        request := None;
      } else {
        request := Some(form);
        if reply.Replied? && reply.ok {
          errors := map[];
          status := Succeeded;
          form := EmptyForm;
        } else {
          errors := map[GeneralKey := Some(SendFailure)];
          status := Failed;
        }
      }
      isSubmitting := false;
    }

    /** `handleSubmit`: an invalid form sends nothing and shows the routed
        messages; a valid one is sent, and the reply decides the rest. */
    method Submit(reply: Reply) returns (request: Option<Form>)
      modifies this
      ensures !isSubmitting
      ensures Routed(old(form)).Some? ==>
        request.None? && errors == Shown(Routed(old(form)).value) && status == NoStatus && form == old(form)
      ensures Routed(old(form)).None? ==> request == Some(old(form))
      ensures Routed(old(form)).None? && reply == Replied(true) ==>
        status == Succeeded && form == EmptyForm && errors == map[]
      ensures Routed(old(form)).None? && reply != Replied(true) ==>
        status == Failed && form == old(form) && errors == map[GeneralKey := Some(SendFailure)]
    {
      var routed := Check(form);
      request := Conclude(routed, reply);
    }
  }
}
