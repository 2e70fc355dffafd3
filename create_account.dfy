/**
 * Account creation (usecase/create_account.go): build an account from the
 * request's name, CPF and balance plus a new id and the current time, store it,
 * and echo the stored account back.  The id generator and the clock are inputs.
 */
module CreateAccount {
  import opened Wrappers
  import opened Domain
  import opened NoSql
  import opened AccountRepositoryMongo

  /** What the use case answers (`AccountOutput`). */
  datatype AccountOutput = AccountOutput(id: string, name: string, cpf: string, balance: Money, createdAt: Time)

  const EmptyOutput := AccountOutput("", "", "", 0, 0)

  /** `domain.NewAccount`: the fields as given, with no validation. */
  function NewAccount(id: AccountId, name: string, cpf: string, balance: Money, createdAt: Time): AccountData
  {
    AccountData(id, name, cpf, balance, createdAt)
  }

  /** The output copied field by field from an account. */
  function Output(a: AccountData): AccountOutput
  {
    AccountOutput(a.id, a.name, a.cpf, a.balance, a.createdAt)
  }

  /** The output carries the whole account: two accounts have the same output exactly when they are equal. */
  lemma OutputDeterminesAccount(a: AccountData, b: AccountData)
    ensures Output(a) == Output(b) <==> a == b
  {
  }

  class CreateAccountInteractor {
    const repo: AccountRepository

    constructor (repo: AccountRepository)
      ensures this.repo == repo
    {
      this.repo := repo;
    }

    /**
     * Stores the new account through the repository once, with no check of
     * its own (a negative balance is stored as given).  On success the output
     * is the stored account; on failure it is the zero output and the
     * repository's error, unchanged.
     */
    method Store(name: string, cpf: string, balance: Money, newId: AccountId, now: Time, fault: Option<DbError>)
      returns (output: AccountOutput, err: Option<RepoError>)
      modifies repo.handler
      ensures var account := NewAccount(newId, name, cpf, balance, now);
        fault.None? ==>
          && err.None?
          && output == Output(account)
          && repo.handler.collections ==
             old(repo.handler.collections)[repo.collectionName := old(repo.handler.Docs(repo.collectionName)) + [ToBson(account)]]
      ensures fault.Some? ==>
        && output == EmptyOutput
        && err == Some(RepoError("error creating account", Driver(fault.value)))
        && repo.handler.collections == old(repo.handler.collections)
    {
      var account := NewAccount(newId, name, cpf, balance, now);
      var stored, e := repo.Store(account, fault);
      if e.Some? {
        return EmptyOutput, e;
      }
      output, err := Output(stored), None;
    }
  }

  /**
   * With a backend that does not fail, a created account under a new id is
   * found by that id, and its output is the one the creation returned.
   */
  method CreateThenFind(interactor: CreateAccountInteractor, name: string, cpf: string, balance: Money, newId: AccountId, now: Time)
    returns (created: AccountOutput, found: AccountData)
    requires FirstMatch(interactor.repo.handler.Docs(interactor.repo.collectionName), IdIs(newId)).None?
    requires InInt64Range(balance)
    modifies interactor.repo.handler
    ensures Output(found) == created
    ensures found == NewAccount(newId, name, cpf, balance, now)
  {
    ghost var docs := interactor.repo.handler.Docs(interactor.repo.collectionName);
    var e;
    created, e := interactor.Store(name, cpf, balance, newId, now, None);
    StoredAccountIsFound(docs, NewAccount(newId, name, cpf, balance, now));
    found, e := interactor.repo.FindByID(newId, None);
  }
}
