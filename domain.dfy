/**
 * The ledger entities: an account whose balance is debited and credited in
 * place (domain/account.go), and the transfer record that moves value between
 * two accounts.  Balances and amounts are integers in minor units.
 */
module Domain {
  import opened Wrappers

  /** An amount of money in minor units (cents). */
  type Money = int
  /** A creation instant, as milliseconds since the epoch. */
  type Time = int
  type AccountId = string
  type TransferId = string

  datatype DomainError = ErrInsufficientBalance | ErrNotFound

  /** The value of an account as it is passed around by value and stored. */
  datatype AccountData = AccountData(id: AccountId, name: string, cpf: string, balance: Money, createdAt: Time)

  /** The zero value `domain.Account{}` returned beside an error. */
  const EmptyAccount := AccountData("", "", "", 0, 0)

  /** A completed movement of `amount` from one account to another. */
  datatype Transfer = Transfer(id: TransferId, originId: AccountId, destinationId: AccountId, amount: Money, createdAt: Time)

  /** The zero value `domain.Transfer{}`. */
  const EmptyTransfer := Transfer("", "", "", 0, 0)

  /** The balance after a deposit: deposits always succeed. */
  function Credit(balance: Money, amount: Money): Money
  {
    balance + amount
  }

  /** The balance after a withdrawal, or the insufficient-balance error. */
  function Debit(balance: Money, amount: Money): (r: Result<Money, DomainError>)
    ensures r.Failure? <==> balance < amount
    ensures r.Failure? ==> r.error == ErrInsufficientBalance
  {
    if balance < amount then Failure(ErrInsufficientBalance) else Success(balance - amount)
  }

  /** A withdrawal of the whole balance or less succeeds and leaves the difference. */
  lemma DebitWithinBalance(balance: Money, amount: Money)
    requires amount <= balance
    ensures Debit(balance, amount) == Success(balance - amount)
  {
  }

  /** From a non-negative balance, a successful withdrawal never goes negative, whatever the amount. */
  lemma DebitKeepsNonNegative(balance: Money, amount: Money)
    requires balance >= 0 && Debit(balance, amount).Success?
    ensures Debit(balance, amount).value >= 0
  {
  }

  /** Depositing what was just withdrawn restores the balance. */
  lemma DebitThenCreditRestores(balance: Money, amount: Money)
    requires Debit(balance, amount).Success?
    ensures Credit(Debit(balance, amount).value, amount) == balance
  {
  }

  /** An account object whose balance `Deposit` and `Withdraw` update in place. */
  class Account {
    var id: AccountId
    var name: string
    var cpf: string
    var balance: Money
    var createdAt: Time

    function Data(): AccountData
      reads this
    {
      AccountData(id, name, cpf, balance, createdAt)
    }

    constructor (data: AccountData)
      ensures Data() == data
    {
      id, name, cpf, balance, createdAt := data.id, data.name, data.cpf, data.balance, data.createdAt;
    }

    /** The current balance; nothing changes. */
    method GetBalance() returns (b: Money)
      ensures b == balance
    {
      b := balance;
    }

    /** Adds `amount` to the balance, with no precondition and no failure. */
    method Deposit(amount: Money)
      modifies this
      ensures balance == Credit(old(balance), amount)
      ensures id == old(id) && name == old(name) && cpf == old(cpf) && createdAt == old(createdAt)
    {
      balance := balance + amount;
    }

    /**
     * Subtracts `amount` unless the balance is smaller, in which case it
     * reports the insufficient-balance error and leaves the balance alone.
     */
    method Withdraw(amount: Money) returns (err: Option<DomainError>)
      modifies this
      ensures err.Some? <==> old(balance) < amount
      ensures err.Some? ==> err.value == ErrInsufficientBalance && balance == old(balance)
      ensures err.None? ==> Debit(old(balance), amount) == Success(balance)
      ensures id == old(id) && name == old(name) && cpf == old(cpf) && createdAt == old(createdAt)
    {
      if balance < amount {
        return Some(ErrInsufficientBalance);
      }
      balance := balance - amount;
      err := None;
    }
  }

  /** A successful withdrawal followed by a deposit of the same amount leaves the account as it was. */
  method WithdrawThenDeposit(account: Account, amount: Money) returns (err: Option<DomainError>)
    modifies account
    ensures err.Some? <==> old(account.balance) < amount
    ensures account.Data() == old(account.Data())
  {
    err := account.Withdraw(amount);
    if err.None? {
      account.Deposit(amount);
    }
  }
}
