/**
 * The transfer handler (api/action/transfer.go) composed with the transfer
 * engine (usecase/transfer.go): which requests would end in 201, 422 or 500.
 * The handler calls a `TransferUseCase.Store` of a later version of the code,
 * not this engine, and compares the use case's error with the sentinel
 * `ErrInsufficientBalance` by plain equality; the engine's debit returns a
 * fresh error value, not that sentinel.  The composition therefore assumes
 * the debit error is the sentinel: under that assumption only the unwrapped
 * debit error is classified 422, and every wrapped repository error is a 500.
 */
module TransferFlow {
  import opened Wrappers
  import opened Domain
  import opened TransferUseCase
  import opened TransferAction

  /** An engine error as the handler classifies it, the debit error taken to be the sentinel. */
  function Classify(e: TransferError): (u: UseCaseError)
    ensures u == TransferAction.InsufficientBalance <==> e == TransferUseCase.InsufficientBalance
  {
    match e
    case FetchAccount(_) => OtherError("error fetching account")
    case InsufficientBalance => TransferAction.InsufficientBalance
    case UpdateAccount(_) => OtherError("error updating account")
    case SaveTransfer => OtherError("error creating transfer")
  }

  /** The use case as the handler calls it: the engine over ledger `l`, with a new id and the current time as inputs. */
  function Engine(l: Ledger, f: Faults, newId: TransferId, now: Time): TransferInput -> Result<Transfer, UseCaseError>
  {
    (input: TransferInput) =>
      var t := Transfer(newId, input.originId, input.destinationId, input.amount, now);
      var r := StoreTransferSpec(l, t, f).result;
      if r.None? then Success(t) else Failure(Classify(r.value))
  }

  /**
   * For a request that passes validation: 422 exactly when the origin is
   * found and holds less than the amount; 201 exactly when the engine
   * completes; every other outcome is 500.
   */
  lemma HandlerOverEngine(l: Ledger, f: Faults, newId: TransferId, now: Time,
                          input: TransferInput, fieldsValid: TransferInput -> bool)
    requires input.originId != input.destinationId && fieldsValid(input)
    ensures var status := Store(Some(input), fieldsValid, Engine(l, f, newId, now)).response.status;
      && (status == StatusUnprocessableEntity <==>
            !f.findOrigin && input.originId in l.accounts && l.accounts[input.originId].balance < input.amount)
      && (status == StatusCreated <==>
            f == NoFaults && input.originId in l.accounts && input.destinationId in l.accounts
            && l.accounts[input.originId].balance >= input.amount)
      && (status in {StatusUnprocessableEntity, StatusCreated, StatusInternalServerError})
  {
    var t := Transfer(newId, input.originId, input.destinationId, input.amount, now);
    TransferSucceedsExactlyWhen(l, t, f);
    if !f.findOrigin && input.originId in l.accounts && l.accounts[input.originId].balance < input.amount {
      InsufficientBalanceWritesNothing(l, t, f);
    }
  }
}
