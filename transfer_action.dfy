/**
 * The transfer HTTP handlers (api/action/transfer.go) as decisions: from the
 * decoded body, the field validation and the use case's answer to the
 * status code and body of the response, and whether the use case was run.
 */
module TransferAction {
  import opened Wrappers
  import opened Domain

  /** The decoded request body (`TransferInput`). */
  datatype TransferInput = TransferInput(originId: AccountId, destinationId: AccountId, amount: Money)

  /** What the use case answers: `ErrInsufficientBalance`, or any other error. */
  datatype UseCaseError = InsufficientBalance | OtherError(message: string)

  datatype ValidationError = ErrAccountsEqual | ErrFields

  /** Why a request was refused before the use case ran, or how the use case failed. */
  datatype Reason = DecodeFailed | Invalid(validation: ValidationError) | UseCaseFailed(error: UseCaseError)

  datatype Response<T> = Ok(status: int, body: T) | Error(status: int, reason: Reason)

  const StatusOK := 200
  const StatusCreated := 201
  const StatusBadRequest := 400
  const StatusUnprocessableEntity := 422
  const StatusInternalServerError := 500

  /**
   * `validate`: equal account ids are refused before the field rules are
   * consulted; `fieldsValid` stands for the struct-tag validator.
   */
  function Validate(input: TransferInput, fieldsValid: TransferInput -> bool): (e: Option<ValidationError>)
    ensures input.originId == input.destinationId ==> e == Some(ErrAccountsEqual)
    ensures e.None? <==> input.originId != input.destinationId && fieldsValid(input)
  {
    if input.originId == input.destinationId then Some(ErrAccountsEqual)
    else if !fieldsValid(input) then Some(ErrFields)
    else None
  }

  /** A handled request: the response, and the input the use case was run with, if it was run. */
  datatype Handled<T> = Handled(response: Response<T>, ranWith: Option<TransferInput>)

  /** `Transfer.Store`: decode, validate, run the use case, and classify its answer. */
  function Store<T>(decoded: Option<TransferInput>, fieldsValid: TransferInput -> bool,
                    useCase: TransferInput -> Result<T, UseCaseError>): (h: Handled<T>)
    ensures decoded.None? ==> h == Handled(Error(StatusBadRequest, DecodeFailed), None)
    ensures h.ranWith.Some? <==> decoded.Some? && Validate(decoded.value, fieldsValid).None?
    ensures h.ranWith.Some? ==> h.ranWith == decoded && decoded.value.originId != decoded.value.destinationId
    ensures h.ranWith.None? <==> h.response.status == StatusBadRequest
    ensures h.response.status == StatusUnprocessableEntity <==>
      h.ranWith.Some? && useCase(decoded.value) == Failure(InsufficientBalance)
    ensures h.response.status == StatusInternalServerError <==>
      h.ranWith.Some? && useCase(decoded.value).Failure? && useCase(decoded.value).error.OtherError?
    ensures h.response.Ok? <==> h.ranWith.Some? && useCase(decoded.value).Success?
    ensures h.response.Ok? ==> h.response == Ok(StatusCreated, useCase(decoded.value).value)
  {
    match decoded
    case None => Handled(Error(StatusBadRequest, DecodeFailed), None)
    case Some(input) =>
      match Validate(input, fieldsValid)
      case Some(v) => Handled(Error(StatusBadRequest, Invalid(v)), None)
      case None =>
        var result := useCase(input);
        match result
        case Success(output) => Handled(Ok(StatusCreated, output), Some(input))
        case Failure(InsufficientBalance) =>
          Handled(Error(StatusUnprocessableEntity, UseCaseFailed(InsufficientBalance)), Some(input))
        case Failure(e) => Handled(Error(StatusInternalServerError, UseCaseFailed(e)), Some(input))
  }

  /** A request naming the same account twice is refused with 400 and never reaches the use case. */
  lemma SameAccountRefused<T>(input: TransferInput, fieldsValid: TransferInput -> bool,
                              useCase: TransferInput -> Result<T, UseCaseError>)
    requires input.originId == input.destinationId
    ensures Store(Some(input), fieldsValid, useCase) == Handled(Error(StatusBadRequest, Invalid(ErrAccountsEqual)), None)
  {
  }

  /** `Transfer.Index`: 500 on a use-case error, otherwise 200 with the list. */
  function Index<T>(result: Result<seq<T>, UseCaseError>): (r: Response<seq<T>>)
    ensures r.Ok? <==> result.Success?
    ensures r.Ok? ==> r == Ok(StatusOK, result.value)
    ensures r.Error? ==> r.status == StatusInternalServerError
  {
    match result
    case Success(list) => Ok(StatusOK, list)
    case Failure(e) => Error(StatusInternalServerError, UseCaseFailed(e))
  }
}
