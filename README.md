# go-bank-transfer in Dafny

A model of the core of go-bank-transfer, a service that moves money between ledger accounts. The model covers five parts:

- **The account entity.** Its balance is debited and credited in place (`domain/account.go`).
- **The transfer engine.** It loads the origin account and debits it in memory. It loads the destination account and credits it in memory. It writes the origin's balance, then the destination's balance, then stores a transfer record (`usecase/transfer.go`).
- **Account creation.** It builds an account from its inputs, stores it and echoes it back (`usecase/create_account.go`).
- **The HTTP-facing decisions.**
  - The account middleware checks the request in order: body, balance, CPF, name. The CPF check uses the regular expression `^\d{3}\.?\d{3}\.?\d{3}-?\d{2}$` (`api/middleware/validate_account.go`).
  - The transfer handler refuses requests whose two account ids are equal. It maps the use case's answer to 201, 400, 422 or 500 (`api/action/transfer.go`).
- **The MongoDB repositories.** The account and transfer repositories are written over an abstract document handler (`repository/database.go`). They convert to and from documents that hold 64-bit integers. `interface/repository/account/mongodb/account.go` is a verbatim copy of `interface/repository/mongodb/account.go`, and one model covers both. In the copy the methods sit at lines 36-50 (`Store`), 53-69 (`UpdateBalance`), 72-99 (`FindAll`), 102-124 (`FindByID`) and 127-144 (`FindBalance`). Lookups and updates are keyed by id. The driver's "no document" errors are translated into the domain's not-found error.

Files and modules:

| file | module | what it holds |
|---|---|---|
| `wrappers.dfy` | `Wrappers` | `Option` and `Result` |
| `domain.dfy` | `Domain` | Money, accounts, transfers, `Debit`/`Credit`, the `Account` class |
| `nosql_handler.dfy` | `NoSql` | the `Int64` conversion, driver errors, the first-match query, the in-memory `Handler` class |
| `account_repository.dfy` | `AccountRepositoryMongo` | the account document and the `AccountRepository` class |
| `transfer_repository.dfy` | `TransferRepositoryMongo` | the transfer document and the `TransferRepository` class |
| `validate_account.dfy` | `ValidateAccount` | the CPF pattern recogniser and the middleware's checks |
| `transfer_action.dfy` | `TransferAction` | the transfer handler's validation and status decisions |
| `transfer_usecase.dfy` | `TransferUseCase` | the engine: a pure step-by-step specification, the imperative engine proved equal to it, and lemmas about it |
| `create_account.dfy` | `CreateAccount` | the account-creation interactor |
| `transfer_flow.dfy` | `TransferFlow` | the transfer handler run over the engine |

Modelling choices:

- **Money.** Money and every balance are unbounded integers in minor units, and timestamps are integers. Documents hold money as a 64-bit two's-complement integer (`NoSql.Int64`), and encoding wraps the way Go's `int64` conversion does. The round-trip lemmas therefore hold exactly for values in the 64-bit range.
- **The document handler.** It is a class holding named collections as sequences. Queries, updates and projections are functions on documents, and an update or lookup acts on the first matching document. Whether the backend fails a call is a parameter of that call (`fault`).
  - What an update or a lookup reports when it matches nothing is a parameter of the handler (`missing`).
  - The repositories translate `ErrNilDocument` (update, listing) and `ErrNoDocuments` (lookup) into not-found; a handler whose `missing` is one of those reaches the not-found branches.
  - The program's only handler is built on mgo, which reports its own `ErrNotFound` (`MgoNotFound`). That error falls to the default branch of every switch, so over it a missing id is a wrapped driver error (`AccountRepositoryMongo.MgoMissIsDriverError`).
- **The engine's backend.** The engine runs over its own in-memory backend (`TransferUseCase.Repositories`). The backend holds the account map, the stored transfer records, and the list of requests it has received. That list lets the contracts state which requests were issued and in what order. Which of the engine's five requests fail is an input (`Faults`).
- **Pure specification first.** Each engine method is proved equal to a pure specification function (`StoreTransferSpec` and its parts). The properties of the engine are lemmas about that function.

Where the design description and the code disagree, the model follows the code:

- **No atomicity.** The engine is not atomic and has no compensation. A failed destination write leaves the origin debited, and a failed record store leaves both balances written. The lemmas `DestinationUpdateFailureLeavesOriginDebited` and `RecordFailureKeepsBothBalances` state this.
- **No id or amount checks in the engine.**
  - The engine does not compare the two ids. With equal ids, the account gains the amount (`SameAccountGainsAmount`).
  - The engine does not check the sign of the amount. A negative amount can overdraw the destination (`NegativeAmountOverdraws`).
  - The only same-account check is in the transfer handler.
- **Check order.** An insufficient balance is detected after the origin is loaded and before the destination is looked up.
- **No not-found status in the handler.** The handler returns 422 only for an error equal to the sentinel `domain.ErrInsufficientBalance`, and every other error is 500, including "account not found". `TransferFlow` composes the handler with the engine under an assumption (see `TransferFlow.HandlerOverEngine` under "## Left out").
- **No validation on creation.** Account creation accepts a negative balance; only the middleware in front of it refuses one.
- **Listing order.** Both listings return documents in stored order, with no sorting.

## Model

| member | source | states |
|---|---|---|
| Domain.Debit | domain/account.go:30-38 | a withdrawal fails exactly when the balance is smaller than the amount, and then with the insufficient-balance error |
| Domain.DebitWithinBalance | domain/account.go:31-37 | a withdrawal of at most the balance, the whole balance included, succeeds and leaves balance − amount |
| Domain.DebitKeepsNonNegative | domain/account.go:31-35 | from a non-negative balance, a successful withdrawal never leaves a negative balance, whatever the amount |
| Domain.DebitThenCreditRestores | domain/account.go:25-37 | depositing what was just withdrawn restores the balance |
| Domain.Account.constructor | domain/account.go:11-17 | the account object holds exactly the five given fields |
| Domain.Account.GetBalance | domain/account.go:20-22 | returns the current balance and changes nothing |
| Domain.Account.Deposit | domain/account.go:25-27 | the balance becomes old + amount, with no precondition; id, name, CPF and creation time are untouched |
| Domain.Account.Withdraw | domain/account.go:30-38 | errors exactly when old balance < amount, leaving the balance unchanged; otherwise the balance is old − amount; the other fields are untouched |
| Domain.WithdrawThenDeposit | domain/account.go:25-38 | a withdrawal followed, when it succeeds, by a deposit of the same amount leaves the whole account as it was |
| NoSql.ToInt64 | interface/repository/mongodb/account.go:37 | the 64-bit value is congruent to the integer modulo 2^64 |
| NoSql.ToInt64RoundTrip | interface/repository/mongodb/account.go:37 | converting to 64 bits and back is lossless exactly when the value is in the int64 range |
| NoSql.FirstMatch | repository/database.go:8-10 | the document a query selects is the first one it matches; none exactly when no document matches |
| NoSql.FirstMatchOfAppended | repository/database.go:7-10 | a document appended to a collection with no match becomes the first match |
| NoSql.FirstMatchAfterReplace | repository/database.go:8 | replacing a document by one the query treats the same leaves the first match where it was |
| NoSql.Handler.constructor | repository/database.go:6-11 | a new handler holds no collections and reports the given error on a query that selects nothing |
| NoSql.Handler.Store | repository/database.go:7 | appends the document to the named collection and changes nothing else; on a fault changes nothing |
| NoSql.Handler.Update | repository/database.go:8 | replaces the first matching document by its update; with no match reports the handler's no-match error and changes nothing |
| NoSql.Handler.FindAll | repository/database.go:9 | returns the whole collection in stored order, or the fault |
| NoSql.Handler.FindOne | repository/database.go:10 | returns the projection of the first matching document; with no match reports the handler's no-match error |
| AccountRepositoryMongo.AccountBsonRoundTrip | interface/repository/mongodb/account.go:33-39 | encoding an account and decoding it gives the same account exactly when its balance fits in 64 bits |
| AccountRepositoryMongo.AccountBsonRoundTripFromDocument | interface/repository/mongodb/account.go:110-116 | decoding a stored document and encoding it again gives back the document |
| AccountRepositoryMongo.StoredAccountIsFound | interface/repository/mongodb/account.go:95-117 | after storing an account under an unused id, looking that id up finds the stored document and decodes to the account |
| AccountRepositoryMongo.UpdatedBalanceIsFound | interface/repository/mongodb/account.go:48-64 | after a balance update, the same id finds the same document, changed in its balance only |
| AccountRepositoryMongo.LookupCause | interface/repository/mongodb/account.go:102-107 | a lookup's error becomes not-found exactly when it is ErrNoDocuments; any other error is kept as the driver's |
| AccountRepositoryMongo.NilDocumentCause | interface/repository/mongodb/account.go:55-60 | an update's or listing's error becomes not-found exactly when it is ErrNilDocument; any other error is kept as the driver's |
| AccountRepositoryMongo.MgoMissIsDriverError | interface/repository/mongodb/account.go:55-60 | mgo's no-match error is not translated: a missing id is reported as a wrapped driver error, not as not-found |
| AccountRepositoryMongo.AccountRepository.constructor | interface/repository/mongodb/account.go:28-30 | the repository uses the given handler, on the `accounts` collection |
| AccountRepositoryMongo.AccountRepository.Store | interface/repository/mongodb/account.go:32-46 | on success returns the account unchanged and appends its document; on failure returns the empty account and the error wrapped as "error creating account", changing nothing |
| AccountRepositoryMongo.AccountRepository.UpdateBalance | interface/repository/mongodb/account.go:48-64 | sets only the balance of the first document with the id; ErrNilDocument becomes not-found and other errors are wrapped, a missing id being reported through the handler's no-match error; on error nothing changes |
| AccountRepositoryMongo.AccountRepository.FindAll | interface/repository/mongodb/account.go:66-93 | one account per stored document, same length and order; on error an empty list, with ErrNilDocument mapped to not-found |
| AccountRepositoryMongo.AccountRepository.FindByID | interface/repository/mongodb/account.go:95-117 | the decoded first document with the id; on error the empty account, with ErrNoDocuments mapped to not-found and a missing id reported through the handler's no-match error |
| AccountRepositoryMongo.AccountRepository.FindBalance | interface/repository/mongodb/account.go:119-136 | an account carrying only the stored balance of the id; on error the empty account, with ErrNoDocuments mapped to not-found and a missing id reported through the handler's no-match error |
| AccountRepositoryMongo.StoreThenFindByID | interface/repository/mongodb/account.go:32-117 | with a backend that does not fail, storing an account under a new id and looking it up returns the account with all five fields equal |
| TransferRepositoryMongo.TransferBsonRoundTrip | interface/repository/mongodb/transfer.go:32-38 | encoding a transfer and decoding it gives the same transfer exactly when its amount fits in 64 bits |
| TransferRepositoryMongo.TransferRepository.constructor | interface/repository/mongodb/transfer.go:27-29 | the repository uses the given handler, on the `transfers` collection |
| TransferRepositoryMongo.TransferRepository.Create | interface/repository/mongodb/transfer.go:31-45 | on success returns the transfer and only appends its document; on failure the empty transfer and the error wrapped as "error creating transfer", changing nothing |
| TransferRepositoryMongo.TransferRepository.FindAll | interface/repository/mongodb/transfer.go:47-69 | one transfer per stored document, same length and order; on error an empty list and "error listing transfers" |
| TransferRepositoryMongo.CreateThenFindAll | interface/repository/mongodb/transfer.go:31-69 | the listing after a create is the listing before plus the created transfer, unchanged |
| ValidateAccount.RenderMatches | api/middleware/validate_account.go:119 | every string built from a pattern, digits and a choice of optional separators is matched by it |
| ValidateAccount.MatchesIsRendered | api/middleware/validate_account.go:119 | every string a pattern matches is built from that pattern by some digits and separator choice |
| ValidateAccount.MatchesShape | api/middleware/validate_account.go:119 | a matched string has as many digits as the pattern has digit places, and its length is between that and that plus the optional places |
| ValidateAccount.CpfAcceptsExactlyPunctuated | api/middleware/validate_account.go:118-126 | a CPF is accepted exactly when it is 11 digits with an optional `.` after the 3rd and 6th and an optional `-` after the 9th |
| ValidateAccount.CpfShape | api/middleware/validate_account.go:119 | an accepted CPF holds exactly 11 digits and is 11 to 14 characters long |
| ValidateAccount.PunctuatedIsCpf | api/middleware/validate_account.go:119 | every punctuation choice over 11 digits is accepted |
| ValidateAccount.PlainCpfAccepted | api/middleware/validate_account.go:119-125 | `44451598087` is accepted; only the format is checked |
| ValidateAccount.PunctuatedCpfAccepted | api/middleware/validate_account.go:119-125 | `028.155.170-78` is accepted |
| ValidateAccount.CpfRejections | api/middleware/validate_account.go:119-125 | ten digits, and separators in the wrong places, are refused |
| ValidateAccount.ValidateBalance | api/middleware/validate_account.go:110-116 | errors exactly when the balance is negative; zero is accepted |
| ValidateAccount.ValidateCpf | api/middleware/validate_account.go:118-126 | errors exactly when the CPF does not match the pattern; an accepted CPF has 11 digits |
| ValidateAccount.ValidateName | api/middleware/validate_account.go:128-134 | errors exactly when the name is empty |
| ValidateAccount.Execute | api/middleware/validate_account.go:27-96 | an unreadable body gets no error response and `next` is not invoked; otherwise decode, balance, CPF and name are checked in that order, the first failure alone is answered with 400, and `next` runs exactly when all pass |
| TransferAction.Validate | api/action/transfer.go:109-125 | equal account ids are refused before the field rules; valid exactly when the ids differ and the fields pass |
| TransferAction.Store | api/action/transfer.go:29-86 | decode or validation failure is 400 and the use case is not run; insufficient balance is 422; any other error is 500; success is 201 with the use case's result |
| TransferAction.SameAccountRefused | api/action/transfer.go:46-56 | a request naming one account twice gets 400 and never reaches the use case |
| TransferAction.Index | api/action/transfer.go:89-107 | 500 on a use-case error, otherwise 200 with the list |
| TransferUseCase.TransferSucceedsExactlyWhen | usecase/transfer.go:13-63 | a transfer succeeds exactly when both accounts exist, the origin holds at least the amount and no request fails; the record is stored exactly then |
| TransferUseCase.SuccessfulTransfer | usecase/transfer.go:29-63 | a successful transfer between distinct accounts debits the origin and credits the destination by the amount, conserves their sum, touches no other account, and issues find, find, update origin, update destination, store in that order |
| TransferUseCase.OriginLookupFailure | usecase/transfer.go:30-33 | if the origin cannot be loaded, the lookup error is returned, no update is issued and no transfer stored |
| TransferUseCase.InsufficientBalanceWritesNothing | usecase/transfer.go:35-37 | an insufficient balance is returned before the destination is looked up; nothing is written |
| TransferUseCase.DestinationLookupFailure | usecase/transfer.go:39-42 | if the destination cannot be loaded, the origin's debit is dropped: no update, no record |
| TransferUseCase.DestinationUpdateFailureLeavesOriginDebited | usecase/transfer.go:46-60 | when the destination write fails after the origin write, the origin stays debited, the destination is unchanged, and no record is stored |
| TransferUseCase.RecordFailureKeepsBothBalances | usecase/transfer.go:18-24 | when storing the record fails after both writes, the error is returned and both new balances stay written |
| TransferUseCase.SameAccountGainsAmount | usecase/transfer.go:30-60 | with origin equal to destination the second write overwrites the first, and the account ends at old + amount |
| TransferUseCase.TransferKeepsBalancesNonNegative | usecase/transfer.go:29-63 | whatever fails, a transfer of a non-negative amount never leaves a negative balance |
| TransferUseCase.NegativeAmountOverdraws | usecase/transfer.go:35-44 | the engine does not check the amount's sign: a negative amount drives a destination below zero |
| TransferUseCase.RunAllKeepsBalancesNonNegative | usecase/transfer.go:13-27 | over any sequence of transfers of non-negative amounts, completed or failed, no balance becomes negative and stored records only grow |
| TransferUseCase.Repositories.FindOne | usecase/transfer.go:66 | the lookup records its request and returns a fresh account object holding the stored account, or not-found or the backend's failure |
| TransferUseCase.Repositories.Update | usecase/transfer.go:75 | the write records its request and sets the balance of an existing account only |
| TransferUseCase.Repositories.Store | usecase/transfer.go:22 | the record store records its request and appends the transfer |
| TransferUseCase.FindAccount | usecase/transfer.go:65-72 | the repository's lookup with its error wrapped as a fetch error |
| TransferUseCase.UpdateAccountBalance | usecase/transfer.go:74-80 | the repository's write with its error wrapped as an update error |
| TransferUseCase.TransferAccountBalance | usecase/transfer.go:29-63 | the imperative engine (two account objects debited and credited in place, two writes) ends in the state and answer of the balance-moving specification |
| TransferUseCase.StoreTransfer | usecase/transfer.go:13-27 | the imperative engine followed by the record store ends in the state and answer of `StoreTransferSpec` |
| TransferUseCase.ExampleTransfer | usecase/transfer.go:13-63 | origin 1000, destination 200, amount 300: success, 700 and 500, one record |
| TransferUseCase.ExampleInsufficient | usecase/transfer.go:29-37 | origin 100, amount 150: insufficient balance, both balances unchanged, no record |
| CreateAccount.OutputDeterminesAccount | usecase/create_account.go:32-38 | the output copies all five fields: two accounts have the same output exactly when they are equal |
| CreateAccount.CreateAccountInteractor.constructor | usecase/create_account.go:13-15 | the interactor uses the given repository |
| CreateAccount.CreateAccountInteractor.Store | usecase/create_account.go:18-39 | the account built from the given name, CPF, balance, new id and time is stored once, unvalidated; success echoes it, failure returns the zero output and the repository's error unchanged |
| CreateAccount.CreateThenFind | usecase/create_account.go:18-39 | with a backend that does not fail, the created account is found under its new id and its output is the one returned |
| TransferFlow.Classify | api/action/transfer.go:60-80 | only the engine's unwrapped insufficient-balance error is the handler's insufficient balance |
| TransferFlow.HandlerOverEngine | api/action/transfer.go:58-85 | for a valid request over the engine: 422 exactly when the origin is found and holds less than the amount, 201 exactly when the transfer completes, otherwise 500 |

## Left out

- HTTP servers, routing, response writing and logging. The middleware's re-buffering of the request body is left out too.
- Database drivers, sessions and the SQL handler. The document handler is an in-memory model of the `NoSQLHandler` interface, not the driver.
- The older repository variants (`repository/`), the fixtures, and the pass-through use cases (listing accounts, a balance lookup). Those use cases only delegate to the repositories modelled here.
- Floating-point balances (`domain/account.go:15`). Every amount is an integer and no rounding is modelled.
- Concurrency. Two transfers that interleave on one account can both pass the balance check; a sequential model cannot express that.
- Timestamps are integers. The store's millisecond truncation of `time.Time` is not modelled.
- The struct-tag validator used by the transfer handler is a parameter (`fieldsValid`). Its rules and messages are not modelled.
- Identifier generation and the clock are inputs (`newId`, `now`).
- Domain.Account.Deposit: adds exactly, without the rounding of the `float64` addition at `domain/account.go:26`, because balances are integers here (see the floating-point line above). The 64-bit integer `Money` of the repositories is modelled only where it is stored (`NoSql.ToInt64`).
- TransferUseCase.Repositories: is a stand-in for the account and transfer repositories as the engine calls them. Its lookup and update are keyed by the map's id and fail by flag, not through the document handler.
- TransferAction.Store: the use case's error is reduced to "insufficient balance" or "another error", since only that distinction decides the status.
- ValidateAccount.Execute: when the body cannot be read, no error response is written and `next` is not invoked, as the code does (it only logs); the empty 200 the HTTP server then sends is not modelled. Error messages are not modelled.
- Domain.Debit: its error is modelled as the sentinel `ErrInsufficientBalance`. `domain/account.go:32` returns a fresh `errors.New` value, and that file declares no sentinel.
- TransferFlow.HandlerOverEngine: is a composition under two assumptions, not the program as written. (1) The handler at `api/action/transfer.go:58` calls `usecase.TransferUseCase.Store`, from a later version of the code, not `StoreTransfer`. (2) The debit error is taken to be the sentinel `domain.ErrInsufficientBalance`. As written, the `errors.New` value at `domain/account.go:32` never equals that sentinel in the `switch` at `api/action/transfer.go:60-61`, so it would be a 500. `TransferFlow.Classify` makes the same assumption.
