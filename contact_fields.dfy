// The four fields of the contact forms of the site, and the form data the
// two contact components keep and send.
module ContactFields {
  import opened Wrappers
  import opened JsValue

  /** An input of a contact form, by its `name` attribute. */
  datatype FormField = NameField | EmailField | ReasonField | MessageField

  /** `formData` */
  datatype Form = Form(name: string, email: string, reason: string, message: string)

  const EmptyForm := Form("", "", "", "")

  function Get(f: Form, field: FormField): string
  {
    match field
    case NameField => f.name
    case EmailField => f.email
    case ReasonField => f.reason
    case MessageField => f.message
  }

  /** `{ ...formData, [name]: value }`: only the named field changes. */
  function With(f: Form, field: FormField, value: string): (r: Form)
    ensures Get(r, field) == value
    ensures forall g :: g != field ==> Get(r, g) == Get(f, g)
  {
    match field
    case NameField => f.(name := value)
    case EmailField => f.(email := value)
    case ReasonField => f.(reason := value)
    case MessageField => f.(message := value)
  }

  /** The form as the object the validators read and the request sends. */
  function AsValue(f: Form): (r: Value)
    ensures r.Obj? && r.fields.Keys == {"name", "email", "reason", "message"}
    ensures Prop(r, "name") == Some(Str(f.name)) && Prop(r, "email") == Some(Str(f.email))
    ensures Prop(r, "reason") == Some(Str(f.reason)) && Prop(r, "message") == Some(Str(f.message))
  {
    Obj(map["name" := Str(f.name), "email" := Str(f.email), "reason" := Str(f.reason), "message" := Str(f.message)])
  }
}
