/**
 * The transfer engine (usecase/transfer.go): load the origin account, debit
 * it in memory, load the destination, credit it in memory, write the origin's
 * balance, write the destination's balance, then store the transfer record.
 * The steps are not atomic, and the engine itself never compares the two ids.
 *
 * The repositories the engine is given are modelled as one in-memory backend
 * holding the accounts, the stored transfers, and the list of requests it has
 * received; whether the backend fails each request is an input (`Faults`).
 */
module TransferUseCase {
  import opened Wrappers
  import opened Domain

  /** A request the repositories received. */
  datatype Call = Lookup(id: AccountId) | Write(id: AccountId, balance: Money) | Record(transfer: Transfer)

  /** Which of the engine's five requests the backend fails. */
  datatype Faults = Faults(findOrigin: bool, findDestination: bool, updateOrigin: bool, updateDestination: bool, storeTransfer: bool)

  const NoFaults := Faults(false, false, false, false, false)

  /** Why a repository request failed: no such account, or the backend failed. */
  datatype StoreFailure = NotFound | Backend

  /** What the engine reports. */
  datatype TransferError =
    | FetchAccount(cause: StoreFailure)    // "error fetching account"
    | InsufficientBalance                  // the debit's own error, unwrapped
    | UpdateAccount(cause: StoreFailure)   // "error updating account"
    | SaveTransfer                         // "error creating transfer"

  /** What the repositories hold. */
  datatype Ledger = Ledger(accounts: map<AccountId, AccountData>, transfers: seq<Transfer>, calls: seq<Call>)

  /** The ledger after a request, and what the request answered. */
  datatype Step<T> = Step(ledger: Ledger, result: T)

  /** `FindOne({_id: id})`. */
  function FindSpec(l: Ledger, id: AccountId, fail: bool): Step<Result<AccountData, StoreFailure>>
  {
    var l' := l.(calls := l.calls + [Lookup(id)]);
    if fail then Step(l', Failure(Backend))
    else if id !in l.accounts then Step(l', Failure(NotFound))
    else Step(l', Success(l.accounts[id]))
  }

  /** `Update({_id: id}, {$set: {balance: balance}})`: a point update that never creates an account. */
  function UpdateSpec(l: Ledger, id: AccountId, balance: Money, fail: bool): Step<Option<StoreFailure>>
  {
    var l' := l.(calls := l.calls + [Write(id, balance)]);
    if fail then Step(l', Some(Backend))
    else if id !in l.accounts then Step(l', Some(NotFound))
    else Step(l'.(accounts := l.accounts[id := l.accounts[id].(balance := balance)]), None)
  }

  /** `transferRepository.Store(transfer)`: appends the record. */
  function SaveSpec(l: Ledger, t: Transfer, fail: bool): Step<Option<StoreFailure>>
  {
    var l' := l.(calls := l.calls + [Record(t)]);
    if fail then Step(l', Some(Backend)) else Step(l'.(transfers := l.transfers + [t]), None)
  }

  /** `transferAccountBalance`. */
  function TransferBalanceSpec(l: Ledger, t: Transfer, f: Faults): Step<Option<TransferError>>
  {
    var o := FindSpec(l, t.originId, f.findOrigin);
    if o.result.Failure? then Step(o.ledger, Some(FetchAccount(o.result.error)))
    else match Debit(o.result.value.balance, t.amount)
      case Failure(_) => Step(o.ledger, Some(InsufficientBalance))
      case Success(originBalance) =>
        var d := FindSpec(o.ledger, t.destinationId, f.findDestination);
        if d.result.Failure? then Step(d.ledger, Some(FetchAccount(d.result.error)))
        else
          var destinationBalance := Credit(d.result.value.balance, t.amount);
          var u1 := UpdateSpec(d.ledger, t.originId, originBalance, f.updateOrigin);
          if u1.result.Some? then Step(u1.ledger, Some(UpdateAccount(u1.result.value)))
          else
            var u2 := UpdateSpec(u1.ledger, t.destinationId, destinationBalance, f.updateDestination);
            if u2.result.Some? then Step(u2.ledger, Some(UpdateAccount(u2.result.value)))
            else Step(u2.ledger, None)
  }

  /** `StoreTransfer`: move the balances, then store the record. */
  function StoreTransferSpec(l: Ledger, t: Transfer, f: Faults): Step<Option<TransferError>>
  {
    var b := TransferBalanceSpec(l, t, f);
    if b.result.Some? then b
    else
      var s := SaveSpec(b.ledger, t, f.storeTransfer);
      if s.result.Some? then Step(s.ledger, Some(SaveTransfer)) else Step(s.ledger, None)
  }

  predicate NonNegative(accounts: map<AccountId, AccountData>)
  {
    forall id :: id in accounts ==> accounts[id].balance >= 0
  }

  /** The account map after the debit and the credit of a transfer between two distinct accounts. */
  function Moved(accounts: map<AccountId, AccountData>, t: Transfer): map<AccountId, AccountData>
    requires t.originId in accounts && t.destinationId in accounts
  {
    var o := accounts[t.originId];
    var d := accounts[t.destinationId];
    accounts[t.originId := o.(balance := o.balance - t.amount)][t.destinationId := d.(balance := d.balance + t.amount)]
  }

  /**
   * A transfer succeeds exactly when both accounts exist, the origin holds at
   * least the amount, and the backend fails none of the five requests; the
   * record is stored exactly then.
   */
  lemma TransferSucceedsExactlyWhen(l: Ledger, t: Transfer, f: Faults)
    ensures var r := StoreTransferSpec(l, t, f);
      r.result.None? <==>
        && f == NoFaults
        && t.originId in l.accounts && t.destinationId in l.accounts
        && l.accounts[t.originId].balance >= t.amount
    ensures var r := StoreTransferSpec(l, t, f);
      r.ledger.transfers == if r.result.None? then l.transfers + [t] else l.transfers
  {
  }

  /**
   * A successful transfer between two distinct accounts debits the origin and
   * credits the destination by the amount, conserving their sum, leaves every
   * other account alone, and issues its five requests in order.
   */
  lemma SuccessfulTransfer(l: Ledger, t: Transfer, f: Faults)
    requires StoreTransferSpec(l, t, f).result.None? && t.originId != t.destinationId
    ensures t.originId in l.accounts && t.destinationId in l.accounts
    ensures var l' := StoreTransferSpec(l, t, f).ledger;
      && l'.accounts == Moved(l.accounts, t)
      && l'.accounts[t.originId].balance == l.accounts[t.originId].balance - t.amount
      && l'.accounts[t.destinationId].balance == l.accounts[t.destinationId].balance + t.amount
      && l'.accounts[t.originId].balance + l'.accounts[t.destinationId].balance
         == l.accounts[t.originId].balance + l.accounts[t.destinationId].balance
      && l'.transfers == l.transfers + [t]
      && l'.calls == l.calls + [
           Lookup(t.originId), Lookup(t.destinationId),
           Write(t.originId, l.accounts[t.originId].balance - t.amount),
           Write(t.destinationId, l.accounts[t.destinationId].balance + t.amount),
           Record(t)]
  {
    TransferSucceedsExactlyWhen(l, t, f);
  }

  /** If the origin cannot be loaded, nothing is written and nothing else is asked. */
  lemma OriginLookupFailure(l: Ledger, t: Transfer, f: Faults)
    requires f.findOrigin || t.originId !in l.accounts
    ensures var r := StoreTransferSpec(l, t, f);
      && r.result == Some(FetchAccount(if f.findOrigin then Backend else NotFound))
      && r.ledger == l.(calls := l.calls + [Lookup(t.originId)])
  {
  }

  /** An insufficient balance is reported before the destination is even looked up, and nothing is written. */
  lemma InsufficientBalanceWritesNothing(l: Ledger, t: Transfer, f: Faults)
    requires !f.findOrigin && t.originId in l.accounts && l.accounts[t.originId].balance < t.amount
    ensures var r := StoreTransferSpec(l, t, f);
      && r.result == Some(InsufficientBalance)
      && r.ledger == l.(calls := l.calls + [Lookup(t.originId)])
  {
  }

  /** If the destination cannot be loaded, the origin's debit is dropped and nothing is written. */
  lemma DestinationLookupFailure(l: Ledger, t: Transfer, f: Faults)
    requires !f.findOrigin && t.originId in l.accounts && l.accounts[t.originId].balance >= t.amount
    requires f.findDestination || t.destinationId !in l.accounts
    ensures var r := StoreTransferSpec(l, t, f);
      && r.result == Some(FetchAccount(if f.findDestination then Backend else NotFound))
      && r.ledger == l.(calls := l.calls + [Lookup(t.originId), Lookup(t.destinationId)])
  {
  }

  /**
   * The steps are not atomic: when the destination's write fails after the
   * origin's succeeded, the origin stays debited, the destination keeps its
   * balance, and no transfer is recorded.
   */
  lemma DestinationUpdateFailureLeavesOriginDebited(l: Ledger, t: Transfer, f: Faults)
    requires t.originId != t.destinationId
    requires !f.findOrigin && !f.findDestination && !f.updateOrigin && f.updateDestination
    requires t.originId in l.accounts && t.destinationId in l.accounts
    requires l.accounts[t.originId].balance >= t.amount
    ensures var r := StoreTransferSpec(l, t, f);
      var o := l.accounts[t.originId];
      && r.result == Some(UpdateAccount(Backend))
      && r.ledger.accounts == l.accounts[t.originId := o.(balance := o.balance - t.amount)]
      && r.ledger.accounts[t.destinationId] == l.accounts[t.destinationId]
      && r.ledger.transfers == l.transfers
  {
  }

  /** When storing the record fails after both writes, the error is reported but both new balances stay written. */
  lemma RecordFailureKeepsBothBalances(l: Ledger, t: Transfer, f: Faults)
    requires t.originId != t.destinationId
    requires f == NoFaults.(storeTransfer := true)
    requires t.originId in l.accounts && t.destinationId in l.accounts
    requires l.accounts[t.originId].balance >= t.amount
    ensures var r := StoreTransferSpec(l, t, f);
      && r.result == Some(SaveTransfer)
      && r.ledger.accounts == Moved(l.accounts, t)
      && r.ledger.transfers == l.transfers
  {
  }

  /**
   * The engine does not compare the ids: with origin equal to destination the
   * destination's write overwrites the origin's, and the account gains the amount.
   */
  lemma SameAccountGainsAmount(l: Ledger, t: Transfer, f: Faults)
    requires t.originId == t.destinationId
    requires StoreTransferSpec(l, t, f).result.None?
    ensures t.originId in l.accounts
    ensures StoreTransferSpec(l, t, f).ledger.accounts[t.originId].balance == l.accounts[t.originId].balance + t.amount
  {
    TransferSucceedsExactlyWhen(l, t, f);
  }

  /** Whatever the backend fails, a transfer of a non-negative amount never leaves a negative balance. */
  lemma TransferKeepsBalancesNonNegative(l: Ledger, t: Transfer, f: Faults)
    requires NonNegative(l.accounts) && t.amount >= 0
    ensures NonNegative(StoreTransferSpec(l, t, f).ledger.accounts)
  {
  }

  /** The engine does not check the sign of the amount: a negative amount overdraws the destination. */
  lemma NegativeAmountOverdraws()
    ensures var l := Ledger(map["a" := AccountData("a", "A", "", 0, 0), "b" := AccountData("b", "B", "", 0, 0)], [], []);
      var t := Transfer("t", "a", "b", -5, 0);
      && NonNegative(l.accounts)
      && StoreTransferSpec(l, t, NoFaults).result.None?
      && StoreTransferSpec(l, t, NoFaults).ledger.accounts["b"].balance == -5
  {
  }

  /** A request to the engine: the transfer and what the backend fails while handling it. */
  datatype Request = Request(transfer: Transfer, faults: Faults)

  /** The ledger after the engine handles the requests one after another. */
  function RunAll(l: Ledger, requests: seq<Request>): Ledger
    decreases |requests|
  {
    if requests == [] then l
    else RunAll(StoreTransferSpec(l, requests[0].transfer, requests[0].faults).ledger, requests[1..])
  }

  /**
   * Over any sequence of transfers of non-negative amounts, completed or not,
   * no balance becomes negative, and the stored records only grow.
   */
  lemma {:induction false} RunAllKeepsBalancesNonNegative(l: Ledger, requests: seq<Request>)
    requires NonNegative(l.accounts)
    requires forall k :: 0 <= k < |requests| ==> requests[k].transfer.amount >= 0
    ensures NonNegative(RunAll(l, requests).accounts)
    ensures l.transfers <= RunAll(l, requests).transfers
    decreases |requests|
  {
    if requests != [] {
      var r := requests[0];
      TransferKeepsBalancesNonNegative(l, r.transfer, r.faults);
      TransferSucceedsExactlyWhen(l, r.transfer, r.faults);
      var l' := StoreTransferSpec(l, r.transfer, r.faults).ledger;
      assert forall k :: 0 <= k < |requests[1..]| ==> requests[1..][k] == requests[k + 1];
      RunAllKeepsBalancesNonNegative(l', requests[1..]);
    }
  }

  /** The account and transfer repositories the engine is given, over one in-memory backend. */
  class Repositories {
    var accounts: map<AccountId, AccountData>
    var transfers: seq<Transfer>
    var calls: seq<Call>

    function State(): Ledger
      reads this
    {
      Ledger(accounts, transfers, calls)
    }

    constructor (accounts: map<AccountId, AccountData>, transfers: seq<Transfer>)
      ensures State() == Ledger(accounts, transfers, [])
    {
      this.accounts, this.transfers, this.calls := accounts, transfers, [];
    }

    /** Loads a fresh account object for the id. */
    method FindOne(id: AccountId, fail: bool) returns (account: Account?, err: Option<StoreFailure>)
      modifies this
      ensures State() == FindSpec(old(State()), id, fail).ledger
      ensures account != null <==> FindSpec(old(State()), id, fail).result.Success?
      ensures account != null ==> fresh(account) && account.Data() == FindSpec(old(State()), id, fail).result.value
      ensures err.Some? <==> account == null
      ensures err.Some? ==> err.value == FindSpec(old(State()), id, fail).result.error
    {
      calls := calls + [Lookup(id)];
      if fail {
        return null, Some(Backend);
      }
      if id !in accounts {
        return null, Some(NotFound);
      }
      account := new Account(accounts[id]);
      err := None;
    }

    /** Writes the balance of an existing account. */
    method Update(id: AccountId, balance: Money, fail: bool) returns (err: Option<StoreFailure>)
      modifies this
      ensures State() == UpdateSpec(old(State()), id, balance, fail).ledger
      ensures err == UpdateSpec(old(State()), id, balance, fail).result
    {
      calls := calls + [Write(id, balance)];
      if fail {
        return Some(Backend);
      }
      if id !in accounts {
        return Some(NotFound);
      }
      accounts := accounts[id := accounts[id].(balance := balance)];
      err := None;
    }

    /** Appends a transfer record. */
    method Store(t: Transfer, fail: bool) returns (err: Option<StoreFailure>)
      modifies this
      ensures State() == SaveSpec(old(State()), t, fail).ledger
      ensures err == SaveSpec(old(State()), t, fail).result
    {
      calls := calls + [Record(t)];
      if fail {
        return Some(Backend);
      }
      transfers := transfers + [t];
      err := None;
    }
  }

  /** `findAccount`: the repository's lookup, its error wrapped. */
  method FindAccount(repos: Repositories, id: AccountId, fail: bool) returns (account: Account?, err: Option<TransferError>)
    modifies repos
    ensures repos.State() == FindSpec(old(repos.State()), id, fail).ledger
    ensures account != null <==> FindSpec(old(repos.State()), id, fail).result.Success?
    ensures account != null ==> fresh(account) && account.Data() == FindSpec(old(repos.State()), id, fail).result.value
    ensures err.Some? <==> account == null
    ensures err.Some? ==> err.value == FetchAccount(FindSpec(old(repos.State()), id, fail).result.error)
  {
    var e;
    account, e := repos.FindOne(id, fail);
    if e.Some? {
      return null, Some(FetchAccount(e.value));
    }
    err := None;
  }

  /** `updateAccountBalance`: the repository's write, its error wrapped. */
  method UpdateAccountBalance(repos: Repositories, id: AccountId, balance: Money, fail: bool) returns (err: Option<TransferError>)
    modifies repos
    ensures repos.State() == UpdateSpec(old(repos.State()), id, balance, fail).ledger
    ensures err.None? <==> UpdateSpec(old(repos.State()), id, balance, fail).result.None?
    ensures err.Some? ==> err.value == UpdateAccount(UpdateSpec(old(repos.State()), id, balance, fail).result.value)
  {
    var e := repos.Update(id, balance, fail);
    if e.Some? {
      return Some(UpdateAccount(e.value));
    }
    err := None;
  }

  /** `transferAccountBalance`: debit and credit in memory, then write both balances. */
  method TransferAccountBalance(repos: Repositories, t: Transfer, f: Faults) returns (err: Option<TransferError>)
    modifies repos
    ensures repos.State() == TransferBalanceSpec(old(repos.State()), t, f).ledger
    ensures err == TransferBalanceSpec(old(repos.State()), t, f).result
  {
    var origin, destination;
    origin, err := FindAccount(repos, t.originId, f.findOrigin);
    if err.Some? {
      return;
    }
    var debit := origin.Withdraw(t.amount);
    if debit.Some? {
      return Some(InsufficientBalance);
    }
    destination, err := FindAccount(repos, t.destinationId, f.findDestination);
    if err.Some? {
      return;
    }
    destination.Deposit(t.amount);
    var originBalance := origin.GetBalance();
    err := UpdateAccountBalance(repos, t.originId, originBalance, f.updateOrigin);
    if err.Some? {
      return;
    }
    var destinationBalance := destination.GetBalance();
    err := UpdateAccountBalance(repos, t.destinationId, destinationBalance, f.updateDestination);
  }

  /** `StoreTransfer`: move the balances, then store the record. */
  method StoreTransfer(repos: Repositories, t: Transfer, f: Faults) returns (err: Option<TransferError>)
    modifies repos
    ensures repos.State() == StoreTransferSpec(old(repos.State()), t, f).ledger
    ensures err == StoreTransferSpec(old(repos.State()), t, f).result
  {
    err := TransferAccountBalance(repos, t, f);
    if err.Some? {
      return;
    }
    var e := repos.Store(t, f.storeTransfer);
    if e.Some? {
      return Some(SaveTransfer);
    }
  }

  /** Origin 1000 and destination 200, a transfer of 300: origin 700, destination 500, one record. */
  method ExampleTransfer() returns (repos: Repositories, err: Option<TransferError>)
    ensures err.None?
    ensures "origin" in repos.accounts && "destination" in repos.accounts
    ensures repos.accounts["origin"].balance == 700 && repos.accounts["destination"].balance == 500
    ensures repos.transfers == [Transfer("t1", "origin", "destination", 300, 0)]
  {
    var accounts := map["origin" := AccountData("origin", "O", "", 1000, 0),
                        "destination" := AccountData("destination", "D", "", 200, 0)];
    repos := new Repositories(accounts, []);
    var t := Transfer("t1", "origin", "destination", 300, 0);
    err := StoreTransfer(repos, t, NoFaults);
    SuccessfulTransfer(Ledger(accounts, [], []), t, NoFaults);
  }

  /** Origin 100, a transfer of 150: insufficient balance, both balances and the records unchanged. */
  method ExampleInsufficient() returns (repos: Repositories, err: Option<TransferError>)
    ensures err == Some(InsufficientBalance)
    ensures "origin" in repos.accounts && "destination" in repos.accounts
    ensures repos.accounts["origin"].balance == 100 && repos.accounts["destination"].balance == 200
    ensures repos.transfers == []
  {
    var accounts := map["origin" := AccountData("origin", "O", "", 100, 0),
                        "destination" := AccountData("destination", "D", "", 200, 0)];
    repos := new Repositories(accounts, []);
    err := StoreTransfer(repos, Transfer("t1", "origin", "destination", 150, 0), NoFaults);
  }
}
