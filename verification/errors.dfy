/** The tagged error classes of lib/errors.ts, as one closed sum type. */
module Errors {

  const TransactionFailedMessage := "Transaction was not successful"

  datatype ApiError =
    | BadRequestError(text: string)
    | TransactionFailedError(status: string, gatewayResponse: string)
    | UnknownError(text: string)
  {
    /** The `_tag` discriminant each class carries. */
    function Tag(): string
    {
      match this
      case BadRequestError(_) => "BadRequestError"
      case TransactionFailedError(_, _) => "TransactionFailedError"
      case UnknownError(_) => "UnknownError"
    }

    /** The `message` field: the constructor argument, except for a failed
        transaction, whose message is fixed. */
    function Message(): (m: string)
      ensures TransactionFailedError? ==> m == TransactionFailedMessage
      ensures !TransactionFailedError? ==> m == text
    {
      match this
      case BadRequestError(t) => t
      case TransactionFailedError(_, _) => TransactionFailedMessage
      case UnknownError(t) => t
    }
  }

  /** `new TransactionFailedError(status, gateway_response)`. */
  function NewTransactionFailed(status: string, gatewayResponse: string): (e: ApiError)
    ensures e.Tag() == "TransactionFailedError"
    ensures e.Message() == "Transaction was not successful"
    ensures e.status == status && e.gatewayResponse == gatewayResponse
  {
    TransactionFailedError(status, gatewayResponse)
  }

  /** `new BadRequestError(message)`. */
  function NewBadRequest(message: string): (e: ApiError)
    ensures e.Tag() == "BadRequestError"
    ensures e.Message() == message
  {
    BadRequestError(message)
  }

  /** The tag alone decides the kind of error: dispatching on `_tag` is
      unambiguous. */
  lemma TagDeterminesKind(e1: ApiError, e2: ApiError)
    ensures e1.Tag() == e2.Tag() <==>
      (e1.BadRequestError? && e2.BadRequestError?)
      || (e1.TransactionFailedError? && e2.TransactionFailedError?)
      || (e1.UnknownError? && e2.UnknownError?)
  {
  }

  /** Two failed-transaction errors built from different arguments share their
      message: the message never depends on the constructor arguments. */
  lemma TransactionFailedMessageConstant(s1: string, g1: string, s2: string, g2: string)
    ensures NewTransactionFailed(s1, g1).Message() == NewTransactionFailed(s2, g2).Message()
  {
  }
}
