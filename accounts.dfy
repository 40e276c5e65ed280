/** The account of js/Models/Account.js.

    The mutable part of an account is also given as a value, `AccountState`, and each
    operation as a function on it (`ApplyDeposit`, `ApplyWithdraw`, `ApplyTransfer`).
    The class `Account` at the end keeps those fields in place, and its methods are
    proved to change them exactly as the functions say. The lemmas in between state
    what the operations promise: the ledger invariant `Consistent`, which they all keep,
    conservation of money by a completed transfer, and the non-atomic partial transfer. */
module Accounts {
  import opened Results
  import opened Values
  import opened Transactions

  /** pin, balance, history and the two lifecycle flags; number and type never change. */
  datatype AccountState = AccountState(
    pin: string,
    balance: real,
    transactions: seq<Transaction>,
    active: bool,
    frozen: bool)

  // ---------------------------------------------------------------------------
  // The ledger invariant

  /** What a record does to the balance of the account that holds it. A transfer
      record annotates the withdraw record just before it and moves nothing itself. */
  function Effect(t: Transaction): real {
    match t.kind
    case Deposit => t.amount
    case Withdraw => -t.amount
    case Transfer => 0.0
  }

  /** The balance a history accounts for, oldest record first. */
  function Net(ts: seq<Transaction>): real {
    if ts == [] then 0.0 else Net(ts[..|ts| - 1]) + Effect(ts[|ts| - 1])
  }

  lemma {:induction false} NetAppend(ts: seq<Transaction>, t: Transaction)
    ensures Net(ts + [t]) == Net(ts) + Effect(t)
  {
    assert (ts + [t])[..|ts|] == ts;
  }

  /** The balance is never negative, it is exactly what the history accounts for, and
      every record is a successful entry for a positive amount. */
  ghost predicate Consistent(s: AccountState) {
    && s.balance >= 0.0
    && s.balance == Net(s.transactions)
    && forall i :: 0 <= i < |s.transactions| ==>
         s.transactions[i].amount > 0.0 && s.transactions[i].status == Success
  }

  /** A new account: balance 0, no history, open and not frozen. */
  function Opening(pin: string): (s: AccountState)
    ensures Consistent(s)
    ensures s.pin == pin && s.balance == 0.0 && s.transactions == []
    ensures s.active && !s.frozen
  {
    AccountState(pin, 0.0, [], true, false)
  }

  // ---------------------------------------------------------------------------
  // The records the operations append

  function DepositRecord(amount: real): Transaction {
    Transaction(Deposit, amount, Success, "Deposit")
  }

  function WithdrawRecord(amount: real): Transaction {
    Transaction(Withdraw, amount, Success, "Withdraw")
  }

  function TransferRecord(amount: real, targetNumber: string): Transaction {
    Transaction(Transfer, amount, Success, "To: " + targetNumber)
  }

  function Logged(s: AccountState, t: Transaction): AccountState {
    s.(transactions := s.transactions + [t])
  }

  // ---------------------------------------------------------------------------
  // deposit and withdraw

  /** deposit: refused when closed, then when frozen, then when the amount is not
      positive; otherwise credits the amount and logs one deposit record. */
  function ApplyDeposit(s: AccountState, amount: real): (r: Result<AccountState>)
    ensures r.Ok? <==> s.active && !s.frozen && amount > 0.0
    ensures !s.active ==> r == Err(Closed)
    ensures s.active && s.frozen ==> r == Err(Frozen)
    ensures s.active && !s.frozen && amount <= 0.0 ==> r == Err(InvalidAmount)
    ensures r.Ok? ==>
              && r.value.balance == s.balance + amount
              && r.value.transactions == s.transactions + [DepositRecord(amount)]
              && r.value.pin == s.pin && r.value.active == s.active && r.value.frozen == s.frozen
  {
    if !s.active then Err(Closed)
    else if s.frozen then Err(Frozen)
    else if amount <= 0.0 then Err(InvalidAmount)
    else Ok(Logged(s.(balance := s.balance + amount), DepositRecord(amount)))
  }

  /** withdraw: the same three refusals, then "Insufficient funds" when the amount
      exceeds the balance; otherwise debits the amount and logs one withdraw record. */
  function ApplyWithdraw(s: AccountState, amount: real): (r: Result<AccountState>)
    ensures r.Ok? <==> s.active && !s.frozen && 0.0 < amount <= s.balance
    ensures !s.active ==> r == Err(Closed)
    ensures s.active && s.frozen ==> r == Err(Frozen)
    ensures s.active && !s.frozen && amount <= 0.0 ==> r == Err(InvalidAmount)
    ensures s.active && !s.frozen && 0.0 < amount && s.balance < amount ==> r == Err(InsufficientFunds)
    ensures r.Ok? ==>
              && r.value.balance == s.balance - amount
              && r.value.transactions == s.transactions + [WithdrawRecord(amount)]
              && r.value.pin == s.pin && r.value.active == s.active && r.value.frozen == s.frozen
  {
    if !s.active then Err(Closed)
    else if s.frozen then Err(Frozen)
    else if amount <= 0.0 then Err(InvalidAmount)
    else if amount > s.balance then Err(InsufficientFunds)
    else Ok(Logged(s.(balance := s.balance - amount), WithdrawRecord(amount)))
  }

  lemma DepositKeepsConsistent(s: AccountState, amount: real)
    requires Consistent(s)
    ensures ApplyDeposit(s, amount).Ok? ==> Consistent(ApplyDeposit(s, amount).value)
  {
    NetAppend(s.transactions, DepositRecord(amount));
  }

  /** In particular the balance stays non-negative: withdraw never overdraws. */
  lemma WithdrawKeepsConsistent(s: AccountState, amount: real)
    requires Consistent(s)
    ensures ApplyWithdraw(s, amount).Ok? ==> Consistent(ApplyWithdraw(s, amount).value)
  {
    NetAppend(s.transactions, WithdrawRecord(amount));
  }

  /** A deposit followed by a withdrawal of the same amount restores the balance and
      logs exactly two records. */
  lemma DepositThenWithdraw(s: AccountState, amount: real)
    requires s.active && !s.frozen && amount > 0.0 && s.balance >= 0.0
    ensures ApplyDeposit(s, amount).Ok?
    ensures var w := ApplyWithdraw(ApplyDeposit(s, amount).value, amount);
            && w.Ok?
            && w.value.balance == s.balance
            && w.value.transactions == s.transactions + [DepositRecord(amount), WithdrawRecord(amount)]
  {
  }

  /** What the static `validateAmount` accepts is exactly what an open, unfrozen
      account accepts as a deposit. */
  lemma ValidAmountIsDepositable(s: AccountState, amount: real)
    requires s.active && !s.frozen
    ensures ApplyDeposit(s, amount).Ok? <==> ValidateAmount(Num(amount))
  {
  }

  // ---------------------------------------------------------------------------
  // transfer

  /** The new state of both accounts of a transfer, and whether it threw. */
  datatype TransferOutcome = TransferOutcome(result: Result<()>, source: AccountState, target: AccountState)

  /** transfer between two distinct accounts, as written: the source's closed and frozen
      checks, then withdraw on the source, then deposit on the target, then the transfer
      record on the source. A refused deposit leaves the withdrawal in place. */
  function ApplyTransfer(s: AccountState, t: AccountState, targetNumber: string, amount: real): (o: TransferOutcome)
    ensures o.result.Ok? <==> ApplyWithdraw(s, amount).Ok? && ApplyDeposit(t, amount).Ok?
    ensures ApplyWithdraw(s, amount).Err? ==>
              o == TransferOutcome(Err(ApplyWithdraw(s, amount).error), s, t)
  {
    if !s.active then TransferOutcome(Err(Closed), s, t)
    else if s.frozen then TransferOutcome(Err(Frozen), s, t)
    else
      match ApplyWithdraw(s, amount)
      case Err(e) => TransferOutcome(Err(e), s, t)
      case Ok(debited) =>
        match ApplyDeposit(t, amount)
        case Err(e) => TransferOutcome(Err(e), debited, t)
        case Ok(credited) =>
          TransferOutcome(Ok(()), Logged(debited, TransferRecord(amount, targetNumber)), credited)
  }

  /** A completed transfer conserves the sum of the two balances; the source logs a
      withdraw record and then the transfer record naming the target, the target one
      deposit record. */
  lemma TransferConserves(s: AccountState, t: AccountState, targetNumber: string, amount: real)
    requires ApplyTransfer(s, t, targetNumber, amount).result.Ok?
    ensures var o := ApplyTransfer(s, t, targetNumber, amount);
            && o.source.balance + o.target.balance == s.balance + t.balance
            && o.source.transactions == s.transactions + [WithdrawRecord(amount), TransferRecord(amount, targetNumber)]
            && o.target.transactions == t.transactions + [DepositRecord(amount)]
  {
  }

  /** The transfer is not atomic: when the target refuses the deposit, the source has
      already been debited and keeps its withdraw record, no transfer record is logged
      and the target is untouched. */
  lemma TransferIsNotAtomic(s: AccountState, t: AccountState, targetNumber: string, amount: real)
    requires ApplyWithdraw(s, amount).Ok?
    requires !t.active || t.frozen
    ensures var o := ApplyTransfer(s, t, targetNumber, amount);
            && o.result == Err(if !t.active then Closed else Frozen)
            && o.source.balance == s.balance - amount
            && o.source.transactions == s.transactions + [WithdrawRecord(amount)]
            && o.target == t
  {
  }

  /** Whatever the outcome, both accounts stay consistent. */
  lemma TransferKeepsConsistent(s: AccountState, t: AccountState, targetNumber: string, amount: real)
    requires Consistent(s)
    ensures Consistent(ApplyTransfer(s, t, targetNumber, amount).source)
    ensures Consistent(t) ==> Consistent(ApplyTransfer(s, t, targetNumber, amount).target)
  {
    WithdrawKeepsConsistent(s, amount);
    var w := ApplyWithdraw(s, amount);
    if w.Ok? {
      NetAppend(w.value.transactions, TransferRecord(amount, targetNumber));
      if Consistent(t) {
        DepositKeepsConsistent(t, amount);
      }
    }
  }

  /** transfer when the target is the source itself: withdraw, deposit back, and the
      transfer record, all on the one account. */
  function ApplySelfTransfer(s: AccountState, number: string, amount: real): (o: TransferOutcome)
    ensures o.source == o.target
  {
    if !s.active then TransferOutcome(Err(Closed), s, s)
    else if s.frozen then TransferOutcome(Err(Frozen), s, s)
    else
      match ApplyWithdraw(s, amount)
      case Err(e) => TransferOutcome(Err(e), s, s)
      case Ok(debited) =>
        match ApplyDeposit(debited, amount)
        case Err(e) => TransferOutcome(Err(e), debited, debited)
        case Ok(credited) =>
          var logged := Logged(credited, TransferRecord(amount, number));
          TransferOutcome(Ok(()), logged, logged)
  }

  /** A transfer to oneself fails exactly when the withdrawal would, changing nothing;
      otherwise it keeps the balance and logs withdraw, deposit and transfer records. */
  lemma SelfTransferKeepsBalance(s: AccountState, number: string, amount: real)
    ensures var o := ApplySelfTransfer(s, number, amount);
            && (o.result.Ok? <==> ApplyWithdraw(s, amount).Ok?)
            && (o.result.Err? ==> o.source == s)
            && (o.result.Ok? ==>
                  && o.source.balance == s.balance
                  && o.source.transactions
                     == s.transactions + [WithdrawRecord(amount), DepositRecord(amount), TransferRecord(amount, number)])
  {
  }

  lemma SelfTransferKeepsConsistent(s: AccountState, number: string, amount: real)
    requires Consistent(s)
    ensures Consistent(ApplySelfTransfer(s, number, amount).source)
  {
    var w := ApplyWithdraw(s, amount);
    if w.Ok? {
      WithdrawKeepsConsistent(s, amount);
      DepositKeepsConsistent(w.value, amount);
      var d := ApplyDeposit(w.value, amount).value;
      NetAppend(d.transactions, TransferRecord(amount, number));
    }
  }

  // ---------------------------------------------------------------------------
  // The corrected, all-or-nothing transfer

  /** transfer with rollback: when any step is refused, neither account changes. */
  function ApplyAtomicTransfer(s: AccountState, t: AccountState, targetNumber: string, amount: real): (o: TransferOutcome)
    ensures o.source.balance + o.target.balance == s.balance + t.balance
    ensures o.result.Err? ==> o.source == s && o.target == t
    ensures o.result.Ok? <==> ApplyTransfer(s, t, targetNumber, amount).result.Ok?
    ensures o.result.Ok? ==> o == ApplyTransfer(s, t, targetNumber, amount)
  {
    var o := ApplyTransfer(s, t, targetNumber, amount);
    if o.result.Ok? then o else TransferOutcome(o.result, s, t)
  }

  /** A concrete case of the non-atomic transfer: 5 of the 10 in the source vanish when
      the target account is closed. */
  lemma PartialTransferLosesFunds()
    ensures var s := AccountState("1234", 10.0, [DepositRecord(10.0)], true, false);
            var t := AccountState("4321", 0.0, [], false, false);
            var o := ApplyTransfer(s, t, "2002", 5.0);
            && Consistent(s) && Consistent(t)
            && o.result == Err(Closed)
            && o.source.balance + o.target.balance == 5.0
            && s.balance + t.balance == 10.0
  {
    assert Net([DepositRecord(10.0)]) == 10.0 by {
      NetAppend([], DepositRecord(10.0));
    }
  }

  // ---------------------------------------------------------------------------
  // Histories of operations

  /** One operation on a single account, as the rest of the system can perform it.
      `TransferOut` is this account's side of a transfer to a distinct account whose
      state is `target`, `SelfTransfer` a transfer to the account itself; the flag operations are the customer's close, reactivate,
      freeze and unfreeze. */
  datatype Op =
    | DepositOp(amount: real)
    | WithdrawOp(amount: real)
    | TransferOut(amount: real, target: AccountState, targetNumber: string)
    | SelfTransfer(amount: real, number: string)
    | SetPinOp(pin: string)
    | CloseOp
    | ReactivateOp
    | FreezeOp
    | UnfreezeOp

  /** The account after one operation; a refused operation leaves it unchanged. */
  function Step(s: AccountState, op: Op): AccountState {
    match op
    case DepositOp(x) => (match ApplyDeposit(s, x) case Ok(s') => s' case Err(_) => s)
    case WithdrawOp(x) => (match ApplyWithdraw(s, x) case Ok(s') => s' case Err(_) => s)
    case TransferOut(x, t, n) => ApplyTransfer(s, t, n, x).source
    case SelfTransfer(x, n) => ApplySelfTransfer(s, n, x).source
    case SetPinOp(p) => s.(pin := p)
    case CloseOp => s.(active := false)
    case ReactivateOp => s.(active := true)
    case FreezeOp => s.(frozen := true)
    case UnfreezeOp => s.(frozen := false)
  }

  function Run(s: AccountState, ops: seq<Op>): AccountState
    decreases |ops|
  {
    if ops == [] then s else Run(Step(s, ops[0]), ops[1..])
  }

  lemma StepKeepsConsistent(s: AccountState, op: Op)
    requires Consistent(s)
    ensures Consistent(Step(s, op))
  {
    match op
    case DepositOp(x) => DepositKeepsConsistent(s, x);
    case WithdrawOp(x) => WithdrawKeepsConsistent(s, x);
    case TransferOut(x, t, n) => TransferKeepsConsistent(s, t, n, x);
    case SelfTransfer(x, n) => SelfTransferKeepsConsistent(s, n, x);
    case _ =>
  }

  /** After any sequence of operations the account is still consistent; in particular
      its balance is never negative. */
  lemma {:induction false} RunKeepsConsistent(s: AccountState, ops: seq<Op>)
    requires Consistent(s)
    ensures Consistent(Run(s, ops))
    decreases |ops|
  {
    if ops != [] {
      StepKeepsConsistent(s, ops[0]);
      RunKeepsConsistent(Step(s, ops[0]), ops[1..]);
    }
  }

  /** The history is append-only: every operation keeps the earlier records as they were. */
  lemma {:induction false} RunOnlyAppends(s: AccountState, ops: seq<Op>)
    ensures |s.transactions| <= |Run(s, ops).transactions|
    ensures Run(s, ops).transactions[..|s.transactions|] == s.transactions
    decreases |ops|
  {
    if ops != [] {
      var s' := Step(s, ops[0]);
      assert |s.transactions| <= |s'.transactions| && s'.transactions[..|s.transactions|] == s.transactions;
      RunOnlyAppends(s', ops[1..]);
    }
  }

  /** Close and reactivate touch only `active`, so they cancel out on an open account;
      freeze and unfreeze likewise on `frozen`. */
  lemma FlagsAreIndependent(s: AccountState)
    ensures Step(Step(s, CloseOp), ReactivateOp) == s.(active := true)
    ensures Step(Step(s, FreezeOp), UnfreezeOp) == s.(frozen := false)
    ensures Step(s, CloseOp).frozen == s.frozen && Step(s, FreezeOp).active == s.active
  {
  }

  /** A closed or frozen account refuses every money operation, and so logs nothing. */
  lemma BlockedAccountRefuses(s: AccountState, t: AccountState, n: string, amount: real)
    requires !s.active || s.frozen
    ensures Step(s, DepositOp(amount)) == s
    ensures Step(s, WithdrawOp(amount)) == s
    ensures Step(s, TransferOut(amount, t, n)) == s
    ensures Step(s, SelfTransfer(amount, n)) == s
  {
  }

  // ---------------------------------------------------------------------------
  // Static validators

  predicate IsDigit(c: char) {
    '0' <= c <= '9'
  }

  /** The test /^\d*$/, one character at a time. */
  function AllDigits(s: string): (b: bool)
    ensures b <==> forall i :: 0 <= i < |s| ==> IsDigit(s[i])
  {
    s == [] || (IsDigit(s[0]) && AllDigits(s[1..]))
  }

  /** Account.validatePin: a string of exactly four decimal digits. */
  function ValidatePin(v: Value): (b: bool)
    ensures b <==> v.Str? && |v.s| == 4 && forall i :: 0 <= i < 4 ==> IsDigit(v.s[i])
  {
    v.Str? && |v.s| == 4 && AllDigits(v.s)
  }

  /** Account.validateAmount: a number greater than zero. */
  function ValidateAmount(v: Value): (b: bool)
    ensures b <==> v.Num? && v.n > 0.0
  {
    v.Num? && v.n > 0.0
  }

  function DigitChar(d: nat): char
    requires d < 10
  {
    ('0' as int + d) as char
  }

  function DigitValue(c: char): nat
    requires IsDigit(c)
  {
    c as int - '0' as int
  }

  /** The PIN that spells `n` with leading zeros. */
  function FourDigits(n: nat): string
    requires n < 10000
  {
    [DigitChar(n / 1000), DigitChar(n / 100 % 10), DigitChar(n / 10 % 10), DigitChar(n % 10)]
  }

  /** The valid PINs are exactly the spellings of 0 to 9999. */
  lemma ValidPinsAreFourDigitNumbers(s: string)
    ensures ValidatePin(Str(s)) <==> exists n :: 0 <= n < 10000 && s == FourDigits(n)
  {
    if ValidatePin(Str(s)) {
      var a, b, c, d := DigitValue(s[0]), DigitValue(s[1]), DigitValue(s[2]), DigitValue(s[3]);
      var n := 1000 * a + 100 * b + 10 * c + d;
      DigitsOf(a, b, c, d);
      assert s == FourDigits(n);
    }
  }

  lemma DigitsOf(a: nat, b: nat, c: nat, d: nat)
    requires a < 10 && b < 10 && c < 10 && d < 10
    ensures var n := 1000 * a + 100 * b + 10 * c + d;
            n / 1000 == a && n / 100 % 10 == b && n / 10 % 10 == c && n % 10 == d
  {
    var n := 1000 * a + 100 * b + 10 * c + d;
    assert n / 100 == 10 * a + b;
    assert n / 10 == 100 * a + 10 * b + c;
  }

  lemma PinExamples()
    ensures ValidatePin(Str("1234")) && ValidatePin(Str("0000"))
    ensures !ValidatePin(Str("12a4")) && !ValidatePin(Str("123")) && !ValidatePin(Str("12345"))
    ensures !ValidatePin(Num(1234.0)) && !ValidatePin(Other)
  {
  }

  // ---------------------------------------------------------------------------
  // The account object

  class Account {
    const number: string
    const accountType: string
    var pin: string
    var balance: real
    var transactions: seq<Transaction>
    var active: bool
    var frozen: bool

    function View(): AccountState
      reads this
    {
      AccountState(pin, balance, transactions, active, frozen)
    }

    ghost predicate Valid()
      reads this
    {
      Consistent(View())
    }

    constructor (number: string, accountType: string, pin: string)
      ensures this.number == number && this.accountType == accountType
      ensures View() == Opening(pin)
      ensures Valid()
    {
      this.number := number;
      this.accountType := accountType;
      this.pin := pin;
      balance := 0.0;
      transactions := [];
      active := true;
      frozen := false;
    }

    /** Returns the new balance. */
    method Deposit(amount: real) returns (r: Result<real>)
      requires Valid()
      modifies this
      ensures Valid()
      ensures var o := ApplyDeposit(old(View()), amount);
              if o.Ok? then r == Ok(balance) && View() == o.value
              else r == Err(o.error) && View() == old(View())
    {
      if !active { return Err(Closed); }
      if frozen { return Err(Frozen); }
      if amount <= 0.0 { return Err(InvalidAmount); }
      balance := balance + amount;
      AddTransaction(Kind.Deposit, amount, Success, "Deposit");
      DepositKeepsConsistent(old(View()), amount);
      r := Ok(balance);
    }

    /** Returns the new balance. */
    method Withdraw(amount: real) returns (r: Result<real>)
      requires Valid()
      modifies this
      ensures Valid()
      ensures var o := ApplyWithdraw(old(View()), amount);
              if o.Ok? then r == Ok(balance) && View() == o.value
              else r == Err(o.error) && View() == old(View())
    {
      if !active { return Err(Closed); }
      if frozen { return Err(Frozen); }
      if amount <= 0.0 { return Err(InvalidAmount); }
      if amount > balance { return Err(InsufficientFunds); }
      balance := balance - amount;
      AddTransaction(Kind.Withdraw, amount, Success, "Withdraw");
      WithdrawKeepsConsistent(old(View()), amount);
      r := Ok(balance);
    }

    /** Moves `amount` to `target`, which may be this very account. Not atomic: see
        ApplyTransfer. */
    method Transfer(amount: real, target: Account) returns (r: Result<()>)
      requires Valid() && target.Valid()
      modifies this, target
      ensures Valid() && target.Valid()
      ensures var o := if target == this then ApplySelfTransfer(old(View()), number, amount)
                       else ApplyTransfer(old(View()), old(target.View()), target.number, amount);
              r == o.result && View() == o.source && target.View() == o.target
    {
      ghost var s, t := View(), target.View();
      if !active { return Err(Closed); }
      if frozen { return Err(Frozen); }
      var w := Withdraw(amount);
      if w.Err? { return Err(w.error); }
      var d := target.Deposit(amount);
      if d.Err? { return Err(d.error); }
      AddTransaction(Kind.Transfer, amount, Success, "To: " + target.number);
      if target == this {
        SelfTransferKeepsConsistent(s, number, amount);
      } else {
        TransferKeepsConsistent(s, t, target.number, amount);
      }
      r := Ok(());
    }

    /** The corrected transfer: every refusal is found before anything changes. */
    method AtomicTransfer(amount: real, target: Account) returns (r: Result<()>)
      requires Valid() && target.Valid()
      modifies this, target
      ensures Valid() && target.Valid()
      ensures var o := if target == this then ApplySelfTransfer(old(View()), number, amount)
                       else ApplyAtomicTransfer(old(View()), old(target.View()), target.number, amount);
              r == o.result && View() == o.source && target.View() == o.target
    {
      var plan := if target == this then ApplySelfTransfer(View(), number, amount)
                  else ApplyTransfer(View(), target.View(), target.number, amount);
      if plan.result.Err? {
        SelfTransferKeepsBalance(View(), number, amount);
        return plan.result;
      }
      r := Transfer(amount, target);
    }

    function CheckPin(p: string): (b: bool)
      reads this
      ensures b <==> p == pin
    {
      pin == p
    }

    /** Replaces the PIN and nothing else; checking the old PIN is the caller's job. */
    method SetPin(newPin: string)
      requires Valid()
      modifies this`pin
      ensures Valid()
      ensures View() == old(View()).(pin := newPin)
      ensures forall p :: CheckPin(p) <==> p == newPin
    {
      pin := newPin;
    }

    function GetBalance(): (b: real)
      reads this
      ensures Valid() ==> b >= 0.0 && b == Net(transactions)
    {
      balance
    }

    function GetTransactions(): (ts: seq<Transaction>)
      reads this
      ensures Valid() ==> Net(ts) == balance
      ensures Valid() ==> forall i :: 0 <= i < |ts| ==> ts[i].amount > 0.0 && ts[i].status == Success
    {
      transactions
    }

    /** Appends one record; the caller restores `Valid()`. */
    method AddTransaction(kind: Kind, amount: real, status: Status, details: string)
      modifies this`transactions
      ensures View() == Logged(old(View()), Transaction(kind, amount, status, details))
    {
      transactions := transactions + [Transaction(kind, amount, status, details)];
    }
  }
}
