/** The errors the hotel service raises, and the name-tagged objects they
    travel as. The service's two failures are a closed datatype; what is
    thrown is an object with a `name` and a `message`, which the controller
    tells apart by comparing `name` with fixed strings. */
module Errors {
  import opened Records

  /** The failures of the hotel service. */
  datatype ServiceError = NotFound | PaymentRequired(message: string)

  /** A thrown error object: anything with a name and a message. */
  datatype ApplicationError = ApplicationError(name: string, message: string)

  const NotFoundErrorName := "NotFoundError"
  const PaymentRequiredErrorName := "PaymentRequiredError"

  /** The message of the shared not-found error. Its constructor is defined
      outside the files modelled here, so the text is left unspecified. */
  const NotFoundMessage: string

  /** What a rejected ticket query is rethrown as: `new Error(...)`, whose
      name is `Error`. */
  const InternalServerError := ApplicationError("Error", "Internal Server Error")

  /** The object a service error is thrown as. */
  function Raise(e: ServiceError): (a: ApplicationError)
    ensures a.name == PaymentRequiredErrorName <==> e.PaymentRequired?
    ensures a.name == NotFoundErrorName <==> e.NotFound?
    ensures Classify(a) == Some(e)
  {
    match e
    case NotFound => ApplicationError(NotFoundErrorName, NotFoundMessage)
    case PaymentRequired(message) => ApplicationError(PaymentRequiredErrorName, message)
  }

  /** Recognises a thrown object by its name, as a catch block does; None
      for an object of any other name. */
  function Classify(a: ApplicationError): (e: Option<ServiceError>)
    ensures e.Some? <==> a.name in {NotFoundErrorName, PaymentRequiredErrorName}
    ensures e == Some(NotFound) <==> a.name == NotFoundErrorName
    ensures e == Some(PaymentRequired(a.message)) <==> a.name == PaymentRequiredErrorName
  {
    if a.name == PaymentRequiredErrorName then Some(PaymentRequired(a.message))
    else if a.name == NotFoundErrorName then Some(NotFound)
    else None
  }
}
