// The error objects of the content API and the ones it receives from the
// libraries beneath it, reduced to the properties the error handler reads.
module AppErrors {
  import opened Wrappers
  import opened JsValue

  /** The constructor that made an error, as `instanceof` sees it. */
  datatype ErrorClass =
    | ValidationClass
    | NotFoundClass
    | DatabaseClass
    | FileOperationClass
    | TypeErrorClass
    | SyntaxErrorClass
    | PlainErrorClass

  /** An error object. `code` is `""` where the object has none (every
      reader of it tests truthiness or compares it with a non-empty
      literal); `status` and `hasBody` are what the JSON body parser puts
      on the SyntaxErrors it raises. */
  datatype Error = Error(
    cls: ErrorClass,
    name: string,
    message: string,
    code: string,
    details: Option<Value>,
    status: Option<int>,
    hasBody: bool)

  /** `new ValidationError(message, details)`: details default to `[]`. */
  function ValidationError(message: string, details: seq<Value>): Error
  {
    Error(ValidationClass, "ValidationError", message, "VALIDATION_ERROR", Some(Arr(details)), None, false)
  }

  function NotFoundError(message: string): Error
  {
    Error(NotFoundClass, "NotFoundError", message, "NOT_FOUND", None, None, false)
  }

  function DatabaseError(message: string): Error
  {
    Error(DatabaseClass, "DatabaseError", message, "DATABASE_ERROR", None, None, false)
  }

  function FileOperationError(message: string): Error
  {
    Error(FileOperationClass, "FileOperationError", message, "FILE_ERROR", None, None, false)
  }

  /** A plain `Error` raised by other code, such as the CORS layer or the
      upload layer (which adds a code). */
  function PlainError(name: string, message: string, code: string): Error
  {
    Error(PlainErrorClass, name, message, code, None, None, false)
  }

  /** The `statusCode` the four classes of the API carry. */
  function StatusCode(e: Error): (r: Option<nat>)
    ensures r.Some? <==> e.cls in {ValidationClass, NotFoundClass, DatabaseClass, FileOperationClass}
    ensures r == Some(400) <==> e.cls == ValidationClass
    ensures r == Some(404) <==> e.cls == NotFoundClass
  {
    match e.cls
    case ValidationClass => Some(400)
    case NotFoundClass => Some(404)
    case DatabaseClass => Some(500)
    case FileOperationClass => Some(500)
    case _ => None
  }
}
