/** The exceptions that can leave the request pipeline. */
module Errors {
  import opened Http

  /** One element of an error location such as `('body', 12)`. */
  datatype LocPart = LocName(name: string) | LocIndex(index: int)

  /** One entry of a validation error's error list. */
  datatype ErrorItem = ErrorItem(kind: string, loc: seq<LocPart>, msg: string, ctxError: string)

  /** What a validation error reports as the offending body. */
  datatype ErrorBody = BodyValue(body: Body) | Document(doc: string)

  datatype Exc =
    | JsonDecodeError(msg: string, doc: string, pos: int)          // json.JSONDecodeError
    | HttpError(status: int, detail: string)                       // HTTPException
    | RequestValidationError(errors: seq<ErrorItem>, body: ErrorBody)
    | StorageError(key: string)                                    // raised by a storage backend
    | InvalidEntry                                                 // stored bytes that do not parse
    | OtherError(name: string)                                     // any other Exception subclass
    | BaseError(name: string)                                      // BaseException outside Exception
  {
    /** Whether `except Exception` catches it. */
    predicate IsException() { !BaseError? }
  }
}
