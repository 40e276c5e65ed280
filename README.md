# Console bank ledger, modelled in Dafny

This project models the ledger engine of a small console bank written in JavaScript.

- **Transaction records.** A record is an immutable log entry holding a kind (`deposit`, `withdraw`, `transfer`), an amount, a status and a details text.
- **Accounts.** An account has a number, a type, a PIN, a balance, an append-only list of records, and two independent flags, `active` and `frozen`.
- **Customers.** A customer has credentials and profile fields, plus an ordered list of accounts held by reference.
- **The `Bank` directory.** It registers customers under unique usernames, looks them up and checks customer and staff credentials. The teller operations of `main.js` (`depositMoney`, `withdrawMoney`, `transferMoney`) run a chain of guards before they touch an account.

The files are listed leaves first:

- `results.dfy` holds the error kinds and the `Option`/`Result` wrappers. Every `throw` of the source becomes an `Err`. It also holds `FindFirst`, the model of `Array.prototype.find`/`some`, and `Value`, the dynamically typed argument of the static validators.
- `transactions.dfy` holds the record, as a datatype. The constructor of `js/Models/Transaction.js` only stores its four arguments, and nothing changes them afterwards, so the datatype's fields are exactly the stored arguments. The clock-based `date` is dropped.
- `accounts.dfy` gives the mutable state of an account twice:
  - as a value, `AccountState`, with one function per operation (`ApplyDeposit`, `ApplyWithdraw`, `ApplyTransfer`, `ApplySelfTransfer`);
  - as the class `Account`, whose fields change in place. Each method is proved to change those fields exactly as the matching function says.

  The ledger invariant `Consistent` says three things:
  - the balance is never negative;
  - the balance equals the net effect of the history (a transfer record moves nothing by itself);
  - every record is a successful entry for a positive amount.

  Every guarded operation keeps this invariant (deposit, withdraw, both kinds of transfer, the PIN change and the flag flips), and so does every sequence of them (`RunKeepsConsistent`). The public `addTransaction` is the exception: it appends whatever record it is given, so `Account.AddTransaction` leaves the invariant to its caller.
- `customers.dfy` holds the class `Customer`. Its flag operations change one flag on one account object reached by reference.
- `directory.dfy` holds the class `Bank` and the teller operations.

Amounts are exact `real`s. JavaScript's floating point is not modelled. A transfer whose target is the source itself is handled explicitly: the account is debited, credited back, and logs three records.

Where the design description and the code differ, the model follows the code:
- `deposit` checks closed, then frozen, then the amount, in that order.
- `transfer` is not atomic (see Findings).
- `validateAmount` does not reject infinite numbers.
- Only the errors the code raises are modelled. A wrong PIN in the teller chains is reported as `AuthFailed`.

## Model

| member | source | states |
|---|---|---|
| Search.FindFirst | js/Models/Customer.js:28 | the index found is the first element satisfying the predicate; nothing is found iff no element satisfies it |
| Accounts.Opening | js/Models/Account.js:4-12 | a new account has balance 0, no records, is active and not frozen, stores the PIN, and is consistent |
| Accounts.ApplyDeposit | js/Models/Account.js:14-21 | deposit succeeds iff the account is active, not frozen and the amount is positive. Refusals come in the order closed, frozen, invalid amount. Success adds the amount and appends exactly one `(deposit, amount, success, "Deposit")` record |
| Accounts.ApplyWithdraw | js/Models/Account.js:23-31 | withdraw succeeds iff active, not frozen and 0 < amount ≤ balance. Refusals come in the order closed, frozen, invalid amount, insufficient funds. Success subtracts the amount and appends exactly one withdraw record |
| Accounts.DepositKeepsConsistent | js/Models/Account.js:14-21 | a successful deposit keeps the ledger invariant |
| Accounts.WithdrawKeepsConsistent | js/Models/Account.js:23-31 | a successful withdraw keeps the ledger invariant, so the balance never goes negative |
| Accounts.DepositThenWithdraw | js/Models/Account.js:14-31 | on an open, unfrozen account, deposit then withdraw of the same amount restores the balance and appends exactly two records |
| Accounts.ValidAmountIsDepositable | js/Models/Account.js:66-68 | `validateAmount` accepts exactly the amounts that an open, unfrozen account accepts as a deposit |
| Accounts.ApplyTransfer | js/Models/Account.js:33-39 | a transfer between distinct accounts succeeds iff the source's withdraw and the target's deposit would both succeed. A refused withdraw changes neither account |
| Accounts.TransferConserves | js/Models/Account.js:33-39 | a completed transfer conserves the sum of the two balances. The source logs a withdraw record then `"To: " + number`; the target logs one deposit record |
| Accounts.TransferIsNotAtomic | js/Models/Account.js:36-38 | when the target is closed or frozen, the source is already debited and keeps its withdraw record. No transfer record is logged and the target is unchanged |
| Accounts.TransferKeepsConsistent | js/Models/Account.js:33-39 | whatever the outcome, both accounts of a transfer stay consistent |
| Accounts.ApplySelfTransfer | js/Models/Account.js:33-39 | a transfer to the same account yields one state for source and target |
| Accounts.SelfTransferKeepsBalance | js/Models/Account.js:33-39 | a self-transfer fails exactly when the withdraw would, and then changes nothing. On success the balance is unchanged and withdraw, deposit and transfer records are appended |
| Accounts.SelfTransferKeepsConsistent | js/Models/Account.js:33-39 | a self-transfer keeps the ledger invariant |
| Accounts.ApplyAtomicTransfer | js/Models/Account.js:33-39 | the corrected transfer always conserves the sum of balances. When it fails, neither account changes. It succeeds exactly when the as-written transfer does, with the same result |
| Accounts.PartialTransferLosesFunds | js/Models/Account.js:36-38 | concrete case: two consistent accounts hold 10 together; a transfer of 5 to a closed target fails and leaves them holding 5 |
| Accounts.StepKeepsConsistent | js/Models/Account.js:14-39 | every single operation on an account keeps the ledger invariant: deposits, withdrawals, transfers to another account or to itself, refused ones, flag flips and PIN changes |
| Accounts.RunKeepsConsistent | js/Models/Account.js:14-39 | after any sequence of operations the account is consistent, so its balance is ≥ 0 |
| Accounts.RunOnlyAppends | js/Models/Account.js:57-59 | the history is append-only: after any sequence of operations the earlier records are a prefix of the new history |
| Accounts.FlagsAreIndependent | js/Models/Customer.js:90-113 | close then reactivate only sets `active`, and freeze then unfreeze only clears `frozen`. Close leaves `frozen` alone and freeze leaves `active` alone |
| Accounts.BlockedAccountRefuses | js/Models/Account.js:14-39 | a closed or frozen account refuses deposit, withdraw and transfer (to another account or to itself) and logs nothing |
| Accounts.AllDigits | js/Models/Account.js:63 | true iff every character is a decimal digit |
| Accounts.ValidatePin | js/Models/Account.js:62-64 | true iff the argument is a string of exactly four characters `0`-`9` |
| Accounts.ValidPinsAreFourDigitNumbers | js/Models/Account.js:62-64 | the valid PINs are exactly the zero-padded spellings of 0 to 9999 |
| Accounts.PinExamples | js/Models/Account.js:62-64 | "1234" and "0000" are valid; "12a4", "123", "12345", the number 1234 and non-strings are not |
| Accounts.ValidateAmount | js/Models/Account.js:66-68 | true iff the argument is a number greater than zero |
| Accounts.Account.constructor | js/Models/Account.js:4-12 | stores number, type and PIN as given; balance 0, no records, active, not frozen |
| Accounts.Account.Deposit | js/Models/Account.js:14-21 | changes the account exactly as `ApplyDeposit` says and returns the new balance. On refusal nothing changes. The invariant is kept |
| Accounts.Account.Withdraw | js/Models/Account.js:23-31 | changes the account exactly as `ApplyWithdraw` says and returns the new balance. On refusal nothing changes. The invariant is kept |
| Accounts.Account.Transfer | js/Models/Account.js:33-39 | changes both objects exactly as `ApplyTransfer` says, or as `ApplySelfTransfer` says when the target is the source, including the partial debit. Both stay consistent |
| Accounts.Account.AtomicTransfer | js/Models/Account.js:33-39 | the corrected transfer: changes both objects as `ApplyAtomicTransfer` says, so a refused transfer changes nothing |
| Accounts.Account.CheckPin | js/Models/Account.js:41-43 | true iff the argument equals the stored PIN |
| Accounts.Account.SetPin | js/Models/Account.js:45-47 | replaces the PIN and changes nothing else; afterwards `checkPin` accepts exactly the new PIN |
| Accounts.Account.GetBalance | js/Models/Account.js:49-51 | the balance, which is ≥ 0 and equal to the net effect of the history |
| Accounts.Account.GetTransactions | js/Models/Account.js:53-55 | the history, whose net effect is the balance and whose records are all successful and positive |
| Accounts.Account.AddTransaction | js/Models/Account.js:57-59 | appends exactly one record with the given fields and changes nothing else |
| Customers.Customer.constructor | js/Models/Customer.js:3-19 | stores the seven profile and credential fields as given; the account list is empty |
| Customers.Customer.VerifyPassword | js/Models/Customer.js:21-23 | true iff the argument equals the stored password |
| Customers.Customer.AddAccount | js/Models/Customer.js:24-26 | appends the account at the end; earlier accounts and their order are unchanged |
| Customers.Customer.GetAccount | js/Models/Customer.js:27-29 | returns the first account with that number; null iff no account has it |
| Customers.Customer.CloseAccount | js/Models/Customer.js:90-95 | an unknown number gives NotFound and changes nothing. Otherwise only `active := false` on the found account; balance, history, `frozen` and the other accounts are unchanged |
| Customers.Customer.ReactivateAccount | js/Models/Customer.js:96-101 | NotFound and no change, or only `active := true` on the found account |
| Customers.Customer.FreezeAccount | js/Models/Customer.js:102-107 | NotFound and no change, or only `frozen := true` on the found account |
| Customers.Customer.UnfreezeAccount | js/Models/Customer.js:108-113 | NotFound and no change, or only `frozen := false` on the found account |
| Customers.Customer.ChangePassword | js/Models/Customer.js:114-123 | a wrong old password throws AuthFailed and keeps the password. Every other path returns Ok: a cancelled prompt keeps the password, otherwise the new password is set |
| Customers.Customer.UpdateProfile | js/Models/Customer.js:69-89 | the prompts are answered in order name, address, dob, phone, email. Each field up to the first cancelled prompt takes its non-empty answer or keeps its value. Every field after a cancelled prompt is unchanged |
| Customers.Revise | js/Models/Customer.js:70-72 | a field takes a non-empty answer, otherwise keeps its value, so a filled field is never blanked |
| Customers.ValidateUsername | js/Models/Customer.js:127-129 | true iff the argument is a string of length ≥ 3 |
| Customers.ValidatePassword | js/Models/Customer.js:130-132 | true iff the argument is a string of length ≥ 4 |
| Directory.Usernames | js/main.js:310 | the mapped list has the same length and order, and its i-th element is the i-th customer's username |
| Directory.Bank.constructor | js/main.js:261-263 | the directory starts empty, with distinct usernames and consistent accounts |
| Directory.Bank.FindCustomer | js/main.js:290-292 | returns the first customer with that username; nothing iff none has it |
| Directory.Bank.CreateCustomer | js/main.js:265-288 | a taken username throws UsernameExists and leaves the list unchanged. Otherwise exactly one fresh customer with the given fields and no accounts is appended and returned. Distinct usernames are preserved |
| Directory.Bank.AuthenticateCustomer | js/main.js:294-301 | returns a customer only when both username and password match. Given distinct usernames, it returns one iff some customer has both |
| Directory.Bank.AuthenticateStaff | js/main.js:303-307 | true iff some staff entry matches both the username and the password |
| Directory.Bank.StaffIsAdminOnly | js/main.js:263 | staff authentication succeeds iff the credentials are `admin`/`admin123` |
| Directory.Bank.ListAllCustomers | js/main.js:309-311 | the usernames in directory order; given the invariant, they are pairwise distinct |
| Directory.TellerGuard | js/main.js:188-205 | passes iff the account is found, the amount is positive and the PIN matches. Failures come in the order NotFound, InvalidAmount, AuthFailed |
| Directory.DepositMoney | js/main.js:162-185 | a failed guard changes no account. Otherwise the found account changes as `ApplyDeposit` says and no other account changes |
| Directory.WithdrawMoney | js/main.js:188-216 | a failed guard changes no account. Otherwise the found account changes as `ApplyWithdraw` says, its error is reported, and no other account changes |
| Directory.TransferGuard | js/main.js:219-248 | passes iff the source account, target customer and target account are all found, the amount is positive and the PIN matches. Failures come in the order NotFound, InvalidAmount, AuthFailed |
| Directory.TransferMoney | js/main.js:219-257 | the transfer is called only after every guard passes; a failed guard changes no account. Otherwise both accounts change as the as-written transfer says, no other account changes, and every account stays consistent |

## Findings

| source | as written | input that shows it | evidently intended | confidence | as-written member | corrected member |
|---|---|---|---|---|---|---|
| js/Models/Account.js:36-38 | `transfer` withdraws from the source, then deposits into the target, with no rollback when the deposit throws | source active with balance 10, target closed, transfer of 5: source keeps 5, target stays 0, so 5 disappears | all-or-nothing: a refused deposit leaves both accounts as they were | medium, not executed | Accounts.PartialTransferLosesFunds | Accounts.ApplyAtomicTransfer |

The teller operation `transferMoney` calls the as-written `transfer`, so `Directory.TransferMoney` keeps that behaviour. `Accounts.Account.AtomicTransfer` is the corrected method, offered alongside it.

## Left out

- Interactive input and output (`prompt`, `alert`, `console.log`), `app.start` and `app.createCustomer` are UI glue. Prompted values are parameters:
  - the amount and PIN of the teller operations;
  - the username and password of `authenticateCustomer` (js/main.js:295-296);
  - the two passwords of `changePassword` and the five answers of `updateProfile`, where `None` is a cancelled prompt.
- `listAccounts` and `viewProfile` only display.
- Accounts.Account.GetTransactions: returns the history as a value. The source hands out its live array, and a caller could push records into it past every guard. That aliasing is not modelled.
- Accounts.Account.AddTransaction: neither requires nor ensures `Valid()`. The source method is public and appends any record, so a caller can break the ledger invariant through it. Only the guarded operations are proved to keep it.
- Persistence (`saveCustomers`, `loadCustomers`) goes through `localStorage` and `JSON`, which are foreign calls. No serialisation round trip is modelled. As written, `loadCustomers` calls a two-argument constructor with three arguments and never restores `active` or `frozen`.
- The record's `date` and the account's `dateCreated` come from the clock.
- JavaScript number semantics are not modelled: floating-point rounding, `NaN` from `parseFloat`, `isNaN`, and infinities. `Value.Num` holds an exact real.
- String `length` counts UTF-16 code units. The model counts Dafny characters.
- The older inline `app.Account` and `app.Customer` revision in `main.js` is superseded by the model files, and its `updatePassword` and `getAccounts` are not modelled. That revision's `Account` has no `active`/`frozen` guards and uses different details texts. The teller operations are modelled on top of the newer `Account`.
- Undefined names in `main.js` throw ReferenceErrors. The model follows the evident logic and does not model the crashes:
  - undefined `number` at line 62;
  - bare `verifyPassword` at line 141;
  - `Bank.saveCustomers` at line 182, which fires after a successful deposit;
  - `new Customer` at line 276.
- Account-number generation is not part of the code this model covers.
- Directory.DepositMoney: the ReferenceError thrown after a successful deposit (line 182) is not reported. The model returns success.
- Directory.WithdrawMoney and Directory.TransferMoney: the source catches the error and logs it, and the model returns it as `Err`. The state effects are the same.
