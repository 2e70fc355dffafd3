/**
 * The MongoDB account repository (interface/repository/mongodb/account.go and
 * its verbatim copy interface/repository/account/mongodb/account.go): accounts
 * are stored as documents whose balance is a 64-bit integer, looked up by the
 * `id` field, and updated one field at a time.
 */
module AccountRepositoryMongo {
  import opened Wrappers
  import opened Domain
  import opened NoSql

  /** The stored shape of an account (`accountBSON`). */
  datatype AccountBson = AccountBson(id: string, name: string, cpf: string, balance: Int64, createdAt: Time)

  function ToBson(a: AccountData): AccountBson
  {
    AccountBson(a.id, a.name, a.cpf, ToInt64(a.balance), a.createdAt)
  }

  function FromBson(d: AccountBson): AccountData
  {
    AccountData(d.id, d.name, d.cpf, d.balance as int, d.createdAt)
  }

  /** Storing an account and reading it back gives the same account exactly when its balance fits in 64 bits. */
  lemma AccountBsonRoundTrip(a: AccountData)
    ensures FromBson(ToBson(a)) == a <==> InInt64Range(a.balance)
  {
    ToInt64RoundTrip(a.balance);
  }

  /** Every stored document decodes to an account that encodes back to that document. */
  lemma AccountBsonRoundTripFromDocument(d: AccountBson)
    ensures ToBson(FromBson(d)) == d
  {
    ToInt64RoundTrip(d.balance as int);
  }

  /** The query `bson.M{"id": ID}`. */
  function IdIs(id: AccountId): AccountBson -> bool
  {
    (d: AccountBson) => d.id == id
  }

  /** The update `$set: {balance: balance}`. */
  function SetBalance(balance: Money): AccountBson -> AccountBson
  {
    (d: AccountBson) => d.(balance := ToInt64(balance))
  }

  /** The projection `{balance: 1, _id: 0}`: only the balance comes back. */
  function BalanceOnly(d: AccountBson): AccountBson
  {
    AccountBson("", "", "", d.balance, 0)
  }

  /** `domain.NewAccountBalance`: an account that carries a balance and nothing else. */
  function AccountBalance(balance: Money): AccountData
  {
    EmptyAccount.(balance := balance)
  }

  /** The cause a lookup reports: `ErrNoDocuments`, and only it, becomes the domain's not-found; any other error is kept. */
  function LookupCause(e: DbError): (c: Cause)
    ensures c == NotFound <==> e == ErrNoDocuments
    ensures c != NotFound ==> c == Driver(e)
  {
    if e == ErrNoDocuments then NotFound else Driver(e)
  }

  /** The cause an update or a listing reports: `ErrNilDocument`, and only it, becomes the domain's not-found. */
  function NilDocumentCause(e: DbError): (c: Cause)
    ensures c == NotFound <==> e == ErrNilDocument
    ensures c != NotFound ==> c == Driver(e)
  {
    if e == ErrNilDocument then NotFound else Driver(e)
  }

  /**
   * Over the program's mgo handler a missing id is never the domain's
   * not-found: mgo's no-match error falls to the default branch of both switches.
   */
  lemma MgoMissIsDriverError()
    ensures LookupCause(MgoNotFound) == Driver(MgoNotFound)
    ensures NilDocumentCause(MgoNotFound) == Driver(MgoNotFound)
  {
  }

  /** After storing an account whose id no stored document has, looking that id up finds the account as stored. */
  lemma StoredAccountIsFound(docs: seq<AccountBson>, a: AccountData)
    requires FirstMatch(docs, IdIs(a.id)).None? && InInt64Range(a.balance)
    ensures FirstMatch(docs + [ToBson(a)], IdIs(a.id)) == Some(|docs|)
    ensures FromBson((docs + [ToBson(a)])[|docs|]) == a
  {
    FirstMatchOfAppended(docs, ToBson(a), IdIs(a.id));
    AccountBsonRoundTrip(a);
  }

  /** After a balance update, the same lookup finds the same document, with the new balance and nothing else changed. */
  lemma UpdatedBalanceIsFound(docs: seq<AccountBson>, id: AccountId, balance: Money)
    requires FirstMatch(docs, IdIs(id)).Some? && InInt64Range(balance)
    ensures var i := FirstMatch(docs, IdIs(id)).value;
      var docs' := docs[i := SetBalance(balance)(docs[i])];
      FirstMatch(docs', IdIs(id)) == Some(i) && FromBson(docs'[i]) == FromBson(docs[i]).(balance := balance)
  {
    var i := FirstMatch(docs, IdIs(id)).value;
    FirstMatchAfterReplace(docs, i, SetBalance(balance)(docs[i]), IdIs(id));
    ToInt64RoundTrip(balance);
  }

  class AccountRepository {
    const handler: Handler<AccountBson>
    const collectionName: string := "accounts"

    constructor (h: Handler<AccountBson>)
      ensures handler == h
    {
      handler := h;
    }

    /** Inserts the account's document; returns the account itself, or the empty account and a wrapped error. */
    method Store(account: AccountData, fault: Option<DbError>) returns (stored: AccountData, err: Option<RepoError>)
      modifies handler
      ensures fault.None? ==> err.None? && stored == account
      ensures fault.None? ==>
        handler.collections == old(handler.collections)[collectionName := old(handler.Docs(collectionName)) + [ToBson(account)]]
      ensures fault.Some? ==> err == Some(RepoError("error creating account", Driver(fault.value)))
      ensures fault.Some? ==> stored == EmptyAccount && handler.collections == old(handler.collections)
    {
      var e := handler.Store(collectionName, ToBson(account), fault);
      if e.Some? {
        return EmptyAccount, Some(RepoError("error creating account", Driver(e.value)));
      }
      stored, err := account, None;
    }

    /** Sets the balance of the first document with this id, and nothing else. */
    method UpdateBalance(id: AccountId, balance: Money, fault: Option<DbError>) returns (err: Option<RepoError>)
      modifies handler
      ensures err.None? <==> fault.None? && FirstMatch(old(handler.Docs(collectionName)), IdIs(id)).Some?
      ensures fault.Some? ==> err == Some(RepoError("error updating account balance", NilDocumentCause(fault.value)))
      ensures fault.None? && FirstMatch(old(handler.Docs(collectionName)), IdIs(id)).None? ==>
        err == Some(RepoError("error updating account balance", NilDocumentCause(handler.missing)))
      ensures err.Some? ==> handler.collections == old(handler.collections)
      ensures err.None? ==>
        var docs := old(handler.Docs(collectionName));
        var i := FirstMatch(docs, IdIs(id)).value;
        handler.collections == old(handler.collections)[collectionName := docs[i := docs[i].(balance := ToInt64(balance))]]
    {
      var e := handler.Update(collectionName, IdIs(id), SetBalance(balance), fault);
      if e.Some? {
        return Some(RepoError("error updating account balance", NilDocumentCause(e.value)));
      }
      err := None;
    }

    /** Every stored account, in stored order; on a failure, none and a wrapped error. */
    method FindAll(fault: Option<DbError>) returns (accounts: seq<AccountData>, err: Option<RepoError>)
      ensures err.None? <==> fault.None?
      ensures fault.Some? ==> accounts == [] && err == Some(RepoError("error listing accounts", NilDocumentCause(fault.value)))
      ensures fault.None? ==> |accounts| == |handler.Docs(collectionName)|
      ensures fault.None? ==> forall k :: 0 <= k < |accounts| ==> accounts[k] == FromBson(handler.Docs(collectionName)[k])
    {
      var docs, e := handler.FindAll(collectionName, fault);
      if e.Some? {
        return [], Some(RepoError("error listing accounts", NilDocumentCause(e.value)));
      }
      accounts := [];
      for i := 0 to |docs|
        invariant |accounts| == i
        invariant forall k :: 0 <= k < i ==> accounts[k] == FromBson(docs[k])
      {
        accounts := accounts + [FromBson(docs[i])];
      }
      err := None;
    }

    /** The account stored under this id; otherwise the empty account and a wrapped (not-found) error. */
    method FindByID(id: AccountId, fault: Option<DbError>) returns (account: AccountData, err: Option<RepoError>)
      ensures err.None? <==> fault.None? && FirstMatch(handler.Docs(collectionName), IdIs(id)).Some?
      ensures err.None? ==>
        account == FromBson(handler.Docs(collectionName)[FirstMatch(handler.Docs(collectionName), IdIs(id)).value])
      ensures err.Some? ==> account == EmptyAccount
      ensures fault.Some? ==> err == Some(RepoError("error fetching account", LookupCause(fault.value)))
      ensures fault.None? && FirstMatch(handler.Docs(collectionName), IdIs(id)).None? ==>
        err == Some(RepoError("error fetching account", LookupCause(handler.missing)))
    {
      var doc, e := handler.FindOne(collectionName, IdIs(id), d => d, fault);
      if e.Some? {
        return EmptyAccount, Some(RepoError("error fetching account", LookupCause(e.value)));
      }
      account, err := FromBson(doc.value), None;
    }

    /** An account carrying only the stored balance of this id; otherwise the empty account and a wrapped error. */
    method FindBalance(id: AccountId, fault: Option<DbError>) returns (account: AccountData, err: Option<RepoError>)
      ensures err.None? <==> fault.None? && FirstMatch(handler.Docs(collectionName), IdIs(id)).Some?
      ensures err.None? ==>
        account == AccountBalance(handler.Docs(collectionName)[FirstMatch(handler.Docs(collectionName), IdIs(id)).value].balance as int)
      ensures err.Some? ==> account == EmptyAccount
      ensures fault.Some? ==> err == Some(RepoError("error fetching account balance", LookupCause(fault.value)))
      ensures fault.None? && FirstMatch(handler.Docs(collectionName), IdIs(id)).None? ==>
        err == Some(RepoError("error fetching account balance", LookupCause(handler.missing)))
    {
      var doc, e := handler.FindOne(collectionName, IdIs(id), BalanceOnly, fault);
      if e.Some? {
        return EmptyAccount, Some(RepoError("error fetching account balance", LookupCause(e.value)));
      }
      account, err := AccountBalance(doc.value.balance as int), None;
    }
  }

  /**
   * With a backend that does not fail, storing an account under an id not yet
   * in use and then looking that id up returns the account unchanged.
   */
  method StoreThenFindByID(repo: AccountRepository, account: AccountData) returns (found: AccountData, err: Option<RepoError>)
    requires FirstMatch(repo.handler.Docs(repo.collectionName), IdIs(account.id)).None?
    requires InInt64Range(account.balance)
    modifies repo.handler
    ensures err.None? && found == account
  {
    ghost var docs := repo.handler.Docs(repo.collectionName);
    var stored, e := repo.Store(account, None);
    StoredAccountIsFound(docs, account);
    found, err := repo.FindByID(account.id, None);
  }
}
