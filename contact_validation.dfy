// The check of a contact form (`validateContactData`) and the e-mail test
// (`isValidEmail`). The name, e-mail, message and company fields are
// checked in turn; each check is an if-else chain that pushes at most one
// message. A `null` form makes the check throw a TypeError.
module ContactValidation {
  import opened Wrappers
  import opened Strings
  import opened JsValue
  import opened Unicode
  import opened Verdicts
  import Patterns

  /** The messages of the form check. */
  datatype ContactError =
    | NameRequired
    | NameTooShort
    | NameTooLong
    | EmailRequired
    | EmailInvalid
    | MessageRequired
    | MessageTooShort
    | MessageTooLong
    | CompanyTooLong

  /** The text pushed for each message (the longer ones written in two
      pieces, which join to the text the check pushes). */
  function Message(e: ContactError): string
  {
    match e
    case NameRequired => "Name is required"
    case NameTooShort => "Name must be at least 2 characters long"
    case NameTooLong => "Name must be less than 100 characters"
    case EmailRequired => "Email is required"
    case EmailInvalid => "Please enter a valid email address"
    case MessageRequired => "Message is required"
    case MessageTooShort => "Message must be " + "at least 10 characters long"
    case MessageTooLong => "Message must be " + "less than 2000 characters"
    case CompanyTooLong => "Company name must be " + "less than 200 characters"
  }


  /** `isValidEmail(email)`: the trimmed, lower-cased text matches the
      anchored pattern `^[^\s@]+@[^\s@]+\.[^\s@]+$`. */
  predicate IsValidEmail(email: string)
  {
    Patterns.SimpleEmail(Lower(Trim(email)))
  }

  /** A valid address has exactly one `@`, with text on both sides, and a
      dot after it that neither follows the `@` nor ends the address. */
  lemma ValidEmailShape(email: string)
    requires IsValidEmail(email)
    ensures Patterns.LooseEmail(Lower(Trim(email)))
    ensures forall i, j :: 0 <= i < j < |Lower(Trim(email))| ==>
              !(Lower(Trim(email))[i] == '@' && Lower(Trim(email))[j] == '@')
  {
    var s := Lower(Trim(email));
    Patterns.SimpleEmailIsLoose(s);
    forall i, j | 0 <= i < j < |s| ensures !(s[i] == '@' && s[j] == '@') {
      Patterns.SimpleEmailOneAt(s, i, j);
    }
  }

  // ---- The four checks, each as the message it pushes, if any ----

  /** The trimmed length of a string property, in UTF-16 code units. */
  function TrimmedLength(v: Option<Value>): nat
    requires v.Some? && v.value.Str?
  {
    Utf16Length(Trim(v.value.s))
  }

  /** The if-else chain of a text field whose trimmed length must lie in
      `[lo, hi]`: missing, too short or too long. */
  function LengthCheck(v: Option<Value>, lo: nat, hi: nat, required: ContactError, short: ContactError, long: ContactError)
    : (r: Option<ContactError>)
    requires 0 < lo && required != short && required != long
    ensures r.None? <==> v.Some? && v.value.Str? && lo <= Utf16Length(Trim(v.value.s)) <= hi
    ensures r == Some(required) <==> !FilledText(v)
    ensures r.Some? ==> r.value in {required, short, long}
  {
    FilledTextTrim(v);
    if !FilledText(v) then Some(required)
    else if TrimmedLength(v) < lo then Some(short)
    else if TrimmedLength(v) > hi then Some(long)
    else None
  }

  /** The e-mail chain: missing, or not a valid address. */
  function EmailCheck(v: Option<Value>): (r: Option<ContactError>)
    ensures r.None? <==> v.Some? && v.value.Str? && Trim(v.value.s) != "" && IsValidEmail(v.value.s)
    ensures r == Some(EmailRequired) <==> !FilledText(v)
    ensures r.Some? ==> r.value in {EmailRequired, EmailInvalid}
  {
    FilledTextTrim(v);
    if !FilledText(v) then Some(EmailRequired)
    else if !IsValidEmail(v.value.s) then Some(EmailInvalid)
    else None
  }

  /** The company is optional: only a string longer than 200 characters
      once trimmed is an error. */
  function CompanyCheck(v: Option<Value>): (r: Option<ContactError>)
    ensures r.Some? <==> v.Some? && v.value.Str? && Utf16Length(Trim(v.value.s)) > 200
    ensures r.Some? ==> r.value == CompanyTooLong
  {
    if Present(v) && v.value.Str? && TrimmedLength(v) > 200 then Some(CompanyTooLong) else None
  }

  function NameCheck(data: Value): Option<ContactError>
  {
    LengthCheck(Prop(data, "name"), 2, 100, NameRequired, NameTooShort, NameTooLong)
  }

  function MailCheck(data: Value): Option<ContactError>
  {
    EmailCheck(Prop(data, "email"))
  }

  function BodyCheck(data: Value): Option<ContactError>
  {
    LengthCheck(Prop(data, "message"), 10, 2000, MessageRequired, MessageTooShort, MessageTooLong)
  }

  function FirmCheck(data: Value): Option<ContactError>
  {
    CompanyCheck(Prop(data, "company"))
  }

  /** The message of one check as the list it pushes. */
  function Listed(o: Option<ContactError>): seq<ContactError>
  {
    if o.Some? then [o.value] else []
  }

  /** The messages of a contact form, field by field. */
  function ContactErrors(data: Value): seq<ContactError>
  {
    Listed(NameCheck(data)) + Listed(MailCheck(data)) + Listed(BodyCheck(data)) + Listed(FirmCheck(data))
  }

  /** `validateContactData(data)`, as a value. */
  function ContactCheck(data: Value): (c: Checked<ContactError>)
    ensures c.Throws? <==> data.Null?
    ensures c.Returns? ==> (c.verdict.isValid <==> c.verdict.errors == [])
  {
    if data.Null? then Throws
    else
      var errors := ContactErrors(data);
      Returns(Verdict(errors == [], errors))
  }

  /** `validateContactData(data)`: the name, e-mail, message and company
      checks in turn. */
  method ValidateContactData(data: Value) returns (c: Checked<ContactError>)
    ensures c == ContactCheck(data)
  {
    if data.Null? {
      return Throws;
    }
    var errors: seq<ContactError> := [];
    errors := PushLengthError(errors, Prop(data, "name"), 2, 100, NameRequired, NameTooShort, NameTooLong);
    assert errors == Listed(NameCheck(data));
    errors := PushEmailError(errors, Prop(data, "email"));
    errors := PushLengthError(errors, Prop(data, "message"), 10, 2000, MessageRequired, MessageTooShort, MessageTooLong);
    errors := PushCompanyError(errors, Prop(data, "company"));
    c := Returns(Verdict(|errors| == 0, errors));
  }

  /** The if-else chain of a text field with a length range: at most one push. */
  method PushLengthError(errors: seq<ContactError>, v: Option<Value>, lo: nat, hi: nat,
                         required: ContactError, short: ContactError, long: ContactError)
    returns (r: seq<ContactError>)
    requires 0 < lo && required != short && required != long
    ensures r == errors + Listed(LengthCheck(v, lo, hi, required, short, long))
  {
    r := errors;
    if !FilledText(v) {
      r := r + [required];
    } else if Utf16Length(Trim(v.value.s)) < lo {
      r := r + [short];
    } else if Utf16Length(Trim(v.value.s)) > hi {
      r := r + [long];
    }
  }

  method PushEmailError(errors: seq<ContactError>, v: Option<Value>) returns (r: seq<ContactError>)
    ensures r == errors + Listed(EmailCheck(v))
  {
    r := errors;
    if !FilledText(v) {
      r := r + [EmailRequired];
    } else if !IsValidEmail(v.value.s) {
      r := r + [EmailInvalid];
    }
  }

  method PushCompanyError(errors: seq<ContactError>, v: Option<Value>) returns (r: seq<ContactError>)
    ensures r == errors + Listed(CompanyCheck(v))
  {
    r := errors;
    if Present(v) && v.value.Str? && Utf16Length(Trim(v.value.s)) > 200 {
      r := r + [CompanyTooLong];
    }
  }

  // ---- What the form check promises ----

  /** A contact form passes exactly when the trimmed name has 2 to 100
      characters, the e-mail is a valid address, the trimmed message has 10
      to 2000 characters and the company, if it is a string, at most 200. */
  lemma ContactValidIff(data: Value)
    requires !data.Null?
    ensures ContactCheck(data).verdict.isValid <==>
              && Prop(data, "name").Some? && Prop(data, "name").value.Str?
              && 2 <= Utf16Length(Trim(Prop(data, "name").value.s)) <= 100
              && Prop(data, "email").Some? && Prop(data, "email").value.Str?
              && Trim(Prop(data, "email").value.s) != "" && IsValidEmail(Prop(data, "email").value.s)
              && Prop(data, "message").Some? && Prop(data, "message").value.Str?
              && 10 <= Utf16Length(Trim(Prop(data, "message").value.s)) <= 2000
              && !(Prop(data, "company").Some? && Prop(data, "company").value.Str?
                   && Utf16Length(Trim(Prop(data, "company").value.s)) > 200)
  {
  }

  /** The field each message is about, in the order the fields are checked. */
  function Field(e: ContactError): nat
  {
    match e
    case NameRequired => 0
    case NameTooShort => 0
    case NameTooLong => 0
    case EmailRequired => 1
    case EmailInvalid => 1
    case MessageRequired => 2
    case MessageTooShort => 2
    case MessageTooLong => 2
    case CompanyTooLong => 3
  }

  /** The check of field `k` of a form. */
  function CheckOf(data: Value, k: nat): Option<ContactError>
  {
    if k == 0 then NameCheck(data)
    else if k == 1 then MailCheck(data)
    else if k == 2 then BodyCheck(data)
    else FirmCheck(data)
  }

  /** A message is reported exactly when the check of its field yields it. */
  lemma ContactMessage(data: Value, m: ContactError)
    requires !data.Null?
    ensures m in ContactCheck(data).verdict.errors <==> CheckOf(data, Field(m)) == Some(m)
  {
    var p1 := Listed(NameCheck(data));
    var p2 := p1 + Listed(MailCheck(data));
    var p3 := p2 + Listed(BodyCheck(data));
    ListedIn(p3, FirmCheck(data), m);
    ListedIn(p2, BodyCheck(data), m);
    ListedIn(p1, MailCheck(data), m);
    ListedIn([], NameCheck(data), m);
    assert [] + p1 == p1;
    CheckField(data, 0);
    CheckField(data, 1);
    CheckField(data, 2);
    CheckField(data, 3);
  }

  /** Each check only yields messages of its own field. */
  lemma CheckField(data: Value, k: nat)
    ensures CheckOf(data, k).Some? ==> Field(CheckOf(data, k).value) == if k < 3 then k else 3
  {
  }

  lemma ListedIn(errors: seq<ContactError>, o: Option<ContactError>, m: ContactError)
    ensures m in errors + Listed(o) <==> m in errors || o == Some(m)
  {
  }

  /** The messages come in field order, at most one per field. */
  predicate InFieldOrder(errors: seq<ContactError>)
  {
    forall i, j :: 0 <= i < j < |errors| ==> Field(errors[i]) < Field(errors[j])
  }

  /** Every message is about a field before `k`. */
  predicate FieldsBelow(errors: seq<ContactError>, k: nat)
  {
    forall i :: 0 <= i < |errors| ==> Field(errors[i]) < k
  }

  lemma ListedInOrder(errors: seq<ContactError>, o: Option<ContactError>, k: nat)
    requires InFieldOrder(errors) && FieldsBelow(errors, k)
    requires o.Some? ==> Field(o.value) == k
    ensures InFieldOrder(errors + Listed(o)) && FieldsBelow(errors + Listed(o), k + 1)
  {
  }

  /** At most one message per field, in the order the fields are checked,
      so never more than four. */
  lemma ContactInOrder(data: Value)
    requires !data.Null?
    ensures InFieldOrder(ContactCheck(data).verdict.errors)
    ensures |ContactCheck(data).verdict.errors| <= 4
  {
    var p1 := Listed(NameCheck(data));
    var p2 := p1 + Listed(MailCheck(data));
    var p3 := p2 + Listed(BodyCheck(data));
    CheckField(data, 0);
    CheckField(data, 1);
    CheckField(data, 2);
    CheckField(data, 3);
    ListedInOrder([], NameCheck(data), 0);
    assert [] + p1 == p1;
    ListedInOrder(p1, MailCheck(data), 1);
    ListedInOrder(p2, BodyCheck(data), 2);
    ListedInOrder(p3, FirmCheck(data), 3);
  }
}
