/**
 * The MongoDB transfer repository (interface/repository/mongodb/transfer.go):
 * transfers are appended to the `transfers` collection as documents whose
 * amount is a 64-bit integer, and listed back in stored order.
 */
module TransferRepositoryMongo {
  import opened Wrappers
  import opened Domain
  import opened NoSql

  /** The stored shape of a transfer (`transferBSON`). */
  datatype TransferBson = TransferBson(id: string, originId: string, destinationId: string, amount: Int64, createdAt: Time)

  function ToBson(t: Transfer): TransferBson
  {
    TransferBson(t.id, t.originId, t.destinationId, ToInt64(t.amount), t.createdAt)
  }

  function FromBson(d: TransferBson): Transfer
  {
    Transfer(d.id, d.originId, d.destinationId, d.amount as int, d.createdAt)
  }

  /** Storing a transfer and reading it back gives the same transfer exactly when its amount fits in 64 bits. */
  lemma TransferBsonRoundTrip(t: Transfer)
    ensures FromBson(ToBson(t)) == t <==> InInt64Range(t.amount)
  {
    ToInt64RoundTrip(t.amount);
  }

  class TransferRepository {
    const handler: Handler<TransferBson>
    const collectionName: string := "transfers"

    constructor (h: Handler<TransferBson>)
      ensures handler == h
    {
      handler := h;
    }

    /**
     * Appends the transfer's document and nothing else: the collection only
     * grows.  Returns the transfer itself, or the empty transfer and a wrapped error.
     */
    method Create(transfer: Transfer, fault: Option<DbError>) returns (created: Transfer, err: Option<RepoError>)
      modifies handler
      ensures fault.None? ==> err.None? && created == transfer
      ensures fault.None? ==>
        handler.collections == old(handler.collections)[collectionName := old(handler.Docs(collectionName)) + [ToBson(transfer)]]
      ensures fault.Some? ==> err == Some(RepoError("error creating transfer", Driver(fault.value)))
      ensures fault.Some? ==> created == EmptyTransfer && handler.collections == old(handler.collections)
    {
      var e := handler.Store(collectionName, ToBson(transfer), fault);
      if e.Some? {
        return EmptyTransfer, Some(RepoError("error creating transfer", Driver(e.value)));
      }
      created, err := transfer, None;
    }

    /** Every stored transfer, in stored order; on a failure, none and a wrapped error. */
    method FindAll(fault: Option<DbError>) returns (transfers: seq<Transfer>, err: Option<RepoError>)
      ensures err.None? <==> fault.None?
      ensures fault.Some? ==> transfers == [] && err == Some(RepoError("error listing transfers", Driver(fault.value)))
      ensures fault.None? ==> |transfers| == |handler.Docs(collectionName)|
      ensures fault.None? ==> forall k :: 0 <= k < |transfers| ==> transfers[k] == FromBson(handler.Docs(collectionName)[k])
    {
      var docs, e := handler.FindAll(collectionName, fault);
      if e.Some? {
        return [], Some(RepoError("error listing transfers", Driver(e.value)));
      }
      transfers := [];
      for i := 0 to |docs|
        invariant |transfers| == i
        invariant forall k :: 0 <= k < i ==> transfers[k] == FromBson(docs[k])
      {
        transfers := transfers + [FromBson(docs[i])];
      }
      err := None;
    }
  }

  /**
   * With a backend that does not fail, a created transfer whose amount fits in
   * 64 bits is listed last, unchanged, after everything listed before.
   */
  method CreateThenFindAll(repo: TransferRepository, transfer: Transfer) returns (before: seq<Transfer>, after: seq<Transfer>)
    requires InInt64Range(transfer.amount)
    modifies repo.handler
    ensures after == before + [transfer]
  {
    var e;
    before, e := repo.FindAll(None);
    var created, e' := repo.Create(transfer, None);
    after, e := repo.FindAll(None);
    TransferBsonRoundTrip(transfer);
    assert after[|before|] == transfer;
  }
}
