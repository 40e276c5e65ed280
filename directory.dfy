/** The `Bank` object of js/main.js: the customer directory with its registration,
    lookups and credential checks, and the teller operations of main.js that validate a
    request before they touch an account (depositMoney, withdrawMoney, transferMoney,
    with their prompted amount and PIN as parameters). */
module Directory {
  import opened Results
  import opened Search
  import opened Accounts
  import opened Customers

  datatype Credential = Credential(username: string, password: string)

  /** No two customers share a username. */
  ghost predicate DistinctUsernames(cs: seq<Customer>) {
    forall i, j :: 0 <= i < j < |cs| ==> cs[i].username != cs[j].username
  }

  /** The usernames of `cs`, in order (`customers.map(c => c.username)`). */
  function Usernames(cs: seq<Customer>): (names: seq<string>)
    ensures |names| == |cs|
    ensures forall i :: 0 <= i < |cs| ==> names[i] == cs[i].username
  {
    if cs == [] then [] else [cs[0].username] + Usernames(cs[1..])
  }

  class Bank {
    var customers: seq<Customer>
    /** The fixed staff list. */
    const staff: seq<Credential> := [Credential("admin", "admin123")]

    ghost predicate Valid()
      reads this
    {
      DistinctUsernames(customers)
    }

    /** Every account held by a registered customer. */
    ghost function Ledger(): (accounts: set<Account>)
      reads this, customers
      ensures forall c, a :: c in customers && a in c.accounts ==> a in accounts
    {
      set c, a | c in customers && a in c.accounts :: a
    }

    /** Every registered customer's accounts keep the ledger invariant. */
    ghost predicate AccountsValid()
      reads this, customers, Ledger()
    {
      forall c :: c in customers ==> c.Valid()
    }

    constructor ()
      ensures customers == [] && Valid() && AccountsValid()
    {
      customers := [];
    }

    /** The first customer with that username, or nothing. */
    function FindCustomer(username: string): (r: Option<Customer>)
      reads this
      ensures r.Some? ==> r.value.username == username
      ensures r.Some? ==> exists i :: 0 <= i < |customers| && customers[i] == r.value
                                      && forall j :: 0 <= j < i ==> customers[j].username != username
      ensures r.None? <==> forall c :: c in customers ==> c.username != username
    {
      match FindFirst(customers, (c: Customer) => c.username == username)
      case None => None
      case Some(i) => Some(customers[i])
    }

    /** Registers a customer under a fresh username; a taken username throws and the
        directory stays as it was. */
    method CreateCustomer(username: string, password: string, name: string, address: string,
                          dob: string, phone: string, email: string) returns (r: Result<Customer>)
      requires Valid()
      modifies this
      ensures Valid()
      ensures (exists c :: c in old(customers) && c.username == username) ==>
                r == Err(UsernameExists) && customers == old(customers)
      ensures (forall c :: c in old(customers) ==> c.username != username) ==>
                && r.Ok? && fresh(r.value)
                && customers == old(customers) + [r.value]
                && r.value.username == username && r.value.password == password
                && r.value.name == name && r.value.address == address && r.value.dob == dob
                && r.value.phone == phone && r.value.email == email
                && r.value.accounts == [] && r.value.Valid()
    {
      if FindCustomer(username).Some? { return Err(UsernameExists); }
      var customer := new Customer(username, password, name, address, dob, phone, email);
      customers := customers + [customer];
      r := Ok(customer);
    }

    /** The customer whose username and password both match, or null. */
    function AuthenticateCustomer(username: string, password: string): (r: Option<Customer>)
      reads this, customers
      ensures r.Some? ==> r.value in customers && r.value.username == username && r.value.password == password
      ensures Valid() ==>
                (r.Some? <==> exists c :: c in customers && c.username == username && c.password == password)
    {
      match FindCustomer(username)
      case Some(c) => if c.VerifyPassword(password) then Some(c) else None
      case None => None
    }

    /** True iff some staff entry matches both username and password. */
    function AuthenticateStaff(username: string, password: string): (b: bool)
      ensures b <==> exists i :: 0 <= i < |staff| && staff[i] == Credential(username, password)
    {
      FindFirst(staff, (s: Credential) => s.username == username && s.password == password).Some?
    }

    /** Only admin/admin123 gets in. */
    lemma StaffIsAdminOnly(username: string, password: string)
      ensures AuthenticateStaff(username, password) <==> username == "admin" && password == "admin123"
    {
    }

    /** The ledger invariant holds as soon as every account in the ledger and every account
        of `c` keeps it. */
    lemma ValidFromLedger(c: Customer)
      requires forall a :: a in Ledger() || a in c.accounts ==> a.Valid()
      ensures c.Valid() && AccountsValid()
    {
    }

    function ListAllCustomers(): (names: seq<string>)
      reads this
      ensures |names| == |customers|
      ensures forall i :: 0 <= i < |customers| ==> names[i] == customers[i].username
      ensures Valid() ==> forall i, j :: 0 <= i < j < |names| ==> names[i] != names[j]
    {
      Usernames(customers)
    }
  }

  // ---------------------------------------------------------------------------
  // Teller operations

  /** The guard chain of depositMoney and withdrawMoney: the account must be found, the
      amount be positive and the PIN match, in that order. */
  function TellerGuard(c: Customer, accountNumber: string, amount: real, pin: string): (g: Result<Account>)
    reads c, c.accounts
    ensures g.Ok? <==> && c.GetAccount(accountNumber).Some? && amount > 0.0
                       && c.GetAccount(accountNumber).value.pin == pin
    ensures g.Ok? ==> g.value in c.accounts && g.value.number == accountNumber
    ensures c.GetAccount(accountNumber).None? ==> g == Err(NotFound)
    ensures c.GetAccount(accountNumber).Some? && amount <= 0.0 ==> g == Err(InvalidAmount)
    ensures c.GetAccount(accountNumber).Some? && amount > 0.0 && c.GetAccount(accountNumber).value.pin != pin ==>
              g == Err(AuthFailed)
  {
    match c.GetAccount(accountNumber)
    case None => Err(NotFound)
    case Some(account) =>
      if amount <= 0.0 then Err(InvalidAmount)
      else if !account.CheckPin(pin) then Err(AuthFailed)
      else Ok(account)
  }

  /** depositMoney: after the guards, the account's own deposit. */
  method DepositMoney(c: Customer, accountNumber: string, amount: real, pin: string) returns (r: Result<()>)
    requires c.Valid()
    modifies c.accounts
    ensures c.Valid()
    ensures var g := old(TellerGuard(c, accountNumber, amount, pin));
            && (g.Err? ==> r == Err(g.error) && unchanged(c.accounts))
            && (g.Ok? ==>
                  var o := ApplyDeposit(old(g.value.View()), amount);
                  && (r.Ok? <==> o.Ok?)
                  && (o.Ok? ==> g.value.View() == o.value)
                  && (o.Err? ==> r == Err(o.error) && g.value.View() == old(g.value.View()))
                  && forall a :: a in c.accounts && a != g.value ==> unchanged(a))
  {
    var g := TellerGuard(c, accountNumber, amount, pin);
    if g.Err? { return Err(g.error); }
    var d := g.value.Deposit(amount);
    if d.Err? { return Err(d.error); }
    r := Ok(());
  }

  /** withdrawMoney: after the guards, the account's own withdraw. */
  method WithdrawMoney(c: Customer, accountNumber: string, amount: real, pin: string) returns (r: Result<()>)
    requires c.Valid()
    modifies c.accounts
    ensures c.Valid()
    ensures var g := old(TellerGuard(c, accountNumber, amount, pin));
            && (g.Err? ==> r == Err(g.error) && unchanged(c.accounts))
            && (g.Ok? ==>
                  var o := ApplyWithdraw(old(g.value.View()), amount);
                  && (r.Ok? <==> o.Ok?)
                  && (o.Ok? ==> g.value.View() == o.value)
                  && (o.Err? ==> r == Err(o.error) && g.value.View() == old(g.value.View()))
                  && forall a :: a in c.accounts && a != g.value ==> unchanged(a))
  {
    var g := TellerGuard(c, accountNumber, amount, pin);
    if g.Err? { return Err(g.error); }
    var w := g.value.Withdraw(amount);
    if w.Err? { return Err(w.error); }
    r := Ok(());
  }

  /** The guard chain of transferMoney: source account, target customer, target account,
      positive amount, matching PIN, in that order. */
  function TransferGuard(bank: Bank, c: Customer, fromNumber: string, toNumber: string,
                         targetUsername: string, amount: real, pin: string): (g: Result<(Account, Account)>)
    reads bank, bank.customers, c, c.accounts
    ensures g.Ok? <==> && c.GetAccount(fromNumber).Some?
                       && bank.FindCustomer(targetUsername).Some?
                       && bank.FindCustomer(targetUsername).value.GetAccount(toNumber).Some?
                       && amount > 0.0
                       && c.GetAccount(fromNumber).value.pin == pin
    ensures g.Ok? ==> && g.value.0 in c.accounts && g.value.0.number == fromNumber
                      && g.value.1 in bank.Ledger() && g.value.1.number == toNumber
    ensures g.Err? ==>
              g.error == (if || c.GetAccount(fromNumber).None?
                             || bank.FindCustomer(targetUsername).None?
                             || bank.FindCustomer(targetUsername).value.GetAccount(toNumber).None?
                          then NotFound
                          else if amount <= 0.0 then InvalidAmount
                          else AuthFailed)
  {
    match c.GetAccount(fromNumber)
    case None => Err(NotFound)
    case Some(from) =>
      match bank.FindCustomer(targetUsername)
      case None => Err(NotFound)
      case Some(targetCustomer) =>
        match targetCustomer.GetAccount(toNumber)
        case None => Err(NotFound)
        case Some(to) =>
          if amount <= 0.0 then Err(InvalidAmount)
          else if !from.CheckPin(pin) then Err(AuthFailed)
          else Ok((from, to))
  }

  /** transferMoney: only when every guard holds does it call the account's transfer,
      whose error (if any) it reports; a failed guard changes no account. */
  method TransferMoney(bank: Bank, c: Customer, fromNumber: string, toNumber: string,
                       targetUsername: string, amount: real, pin: string) returns (r: Result<()>)
    requires c.Valid() && bank.AccountsValid()
    modifies c.accounts, bank.Ledger()
    ensures c.Valid() && bank.AccountsValid()
    ensures var g := old(TransferGuard(bank, c, fromNumber, toNumber, targetUsername, amount, pin));
            && (g.Err? ==> r == Err(g.error) && unchanged(c.accounts) && unchanged(old(bank.Ledger())))
            && (g.Ok? ==>
                  var (from, to) := g.value;
                  var o := if from == to then ApplySelfTransfer(old(from.View()), from.number, amount)
                           else ApplyTransfer(old(from.View()), old(to.View()), to.number, amount);
                  && r == o.result && from.View() == o.source && to.View() == o.target
                  && forall a :: (a in c.accounts || a in old(bank.Ledger())) && a != from && a != to ==> unchanged(a))
  {
    var g := TransferGuard(bank, c, fromNumber, toNumber, targetUsername, amount, pin);
    if g.Err? { return Err(g.error); }
    var (from, to) := g.value;
    ghost var ledger, held := bank.Ledger(), c.accounts;
    r := from.Transfer(amount, to);
    forall a | a in ledger || a in held
      ensures a.Valid()
    {
      if a != from && a != to {
        assert old(a.Valid());
      }
    }
    bank.ValidFromLedger(c);
  }
}
