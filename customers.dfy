/** The customer of js/Models/Customer.js: credentials, profile and an ordered list of
    accounts reached by reference. The flag operations change the account objects in
    place, one flag on one account. */
module Customers {
  import opened Results
  import opened Values
  import opened Search
  import opened Accounts

  class Customer {
    const username: string
    var password: string
    var name: string
    var address: string
    var dob: string
    var phone: string
    var email: string
    var accounts: seq<Account>

    /** Every account the customer holds keeps the ledger invariant. */
    ghost predicate Valid()
      reads this, accounts
    {
      forall a :: a in accounts ==> a.Valid()
    }

    constructor (username: string, password: string, name: string, address: string,
                 dob: string, phone: string, email: string)
      ensures this.username == username && this.password == password
      ensures this.name == name && this.address == address && this.dob == dob
      ensures this.phone == phone && this.email == email
      ensures accounts == []
      ensures Valid()
    {
      this.username := username;
      this.password := password;
      this.name := name;
      this.address := address;
      this.dob := dob;
      this.phone := phone;
      this.email := email;
      accounts := [];
    }

    function VerifyPassword(candidate: string): (b: bool)
      reads this
      ensures b <==> candidate == password
    {
      password == candidate
    }

    /** Appends at the end; the caller keeps account numbers unique. */
    method AddAccount(account: Account)
      requires Valid() && account.Valid()
      modifies this`accounts
      ensures Valid()
      ensures accounts == old(accounts) + [account]
    {
      accounts := accounts + [account];
    }

    /** The first account with that number, or null. */
    function GetAccount(accountNumber: string): (r: Option<Account>)
      reads this
      ensures r.Some? ==> r.value.number == accountNumber
      ensures r.Some? ==> exists i :: 0 <= i < |accounts| && accounts[i] == r.value
                                      && forall j :: 0 <= j < i ==> accounts[j].number != accountNumber
      ensures r.None? <==> forall a :: a in accounts ==> a.number != accountNumber
    {
      match FindFirst(accounts, (a: Account) => a.number == accountNumber)
      case None => None
      case Some(i) => Some(accounts[i])
    }

    /** Deactivates the account: only its `active` flag changes; balance and history stay. */
    method CloseAccount(accountNumber: string) returns (r: Result<()>)
      requires Valid()
      modifies accounts
      ensures Valid()
      ensures GetAccount(accountNumber).None? ==> r == Err(NotFound) && unchanged(accounts)
      ensures GetAccount(accountNumber).Some? ==>
                var acc := GetAccount(accountNumber).value;
                && r == Ok(())
                && acc.View() == old(acc.View()).(active := false)
                && forall a :: a in accounts && a != acc ==> unchanged(a)
    {
      var found := GetAccount(accountNumber);
      if found.None? { return Err(NotFound); }
      found.value.active := false;
      r := Ok(());
    }

    method ReactivateAccount(accountNumber: string) returns (r: Result<()>)
      requires Valid()
      modifies accounts
      ensures Valid()
      ensures GetAccount(accountNumber).None? ==> r == Err(NotFound) && unchanged(accounts)
      ensures GetAccount(accountNumber).Some? ==>
                var acc := GetAccount(accountNumber).value;
                && r == Ok(())
                && acc.View() == old(acc.View()).(active := true)
                && forall a :: a in accounts && a != acc ==> unchanged(a)
    {
      var found := GetAccount(accountNumber);
      if found.None? { return Err(NotFound); }
      found.value.active := true;
      r := Ok(());
    }

    method FreezeAccount(accountNumber: string) returns (r: Result<()>)
      requires Valid()
      modifies accounts
      ensures Valid()
      ensures GetAccount(accountNumber).None? ==> r == Err(NotFound) && unchanged(accounts)
      ensures GetAccount(accountNumber).Some? ==>
                var acc := GetAccount(accountNumber).value;
                && r == Ok(())
                && acc.View() == old(acc.View()).(frozen := true)
                && forall a :: a in accounts && a != acc ==> unchanged(a)
    {
      var found := GetAccount(accountNumber);
      if found.None? { return Err(NotFound); }
      found.value.frozen := true;
      r := Ok(());
    }

    method UnfreezeAccount(accountNumber: string) returns (r: Result<()>)
      requires Valid()
      modifies accounts
      ensures Valid()
      ensures GetAccount(accountNumber).None? ==> r == Err(NotFound) && unchanged(accounts)
      ensures GetAccount(accountNumber).Some? ==>
                var acc := GetAccount(accountNumber).value;
                && r == Ok(())
                && acc.View() == old(acc.View()).(frozen := false)
                && forall a :: a in accounts && a != acc ==> unchanged(a)
    {
      var found := GetAccount(accountNumber);
      if found.None? { return Err(NotFound); }
      found.value.frozen := false;
      r := Ok(());
    }

    /** updateProfile with its five prompts as parameters, asked in the order name,
        address, dob, phone, email. A cancelled prompt (`None`) returns at once, keeping
        the answers already given; an empty answer keeps that field. */
    method UpdateProfile(newName: Option<string>, newAddress: Option<string>, newDob: Option<string>,
                         newPhone: Option<string>, newEmail: Option<string>)
      modifies this`name, this`address, this`dob, this`phone, this`email
      ensures name == Revise(old(name), newName)
      ensures address == if newName.None? then old(address) else Revise(old(address), newAddress)
      ensures dob == if newName.None? || newAddress.None? then old(dob) else Revise(old(dob), newDob)
      ensures phone == if newName.None? || newAddress.None? || newDob.None? then old(phone)
                       else Revise(old(phone), newPhone)
      ensures email == if newName.None? || newAddress.None? || newDob.None? || newPhone.None? then old(email)
                       else Revise(old(email), newEmail)
    {
      if newName.None? { return; }
      if newName.value != "" { name := newName.value; }
      if newAddress.None? { return; }
      if newAddress.value != "" { address := newAddress.value; }
      if newDob.None? { return; }
      if newDob.value != "" { dob := newDob.value; }
      if newPhone.None? { return; }
      if newPhone.value != "" { phone := newPhone.value; }
      if newEmail.None? { return; }
      if newEmail.value != "" { email := newEmail.value; }
    }

    /** changePassword with its two prompts as parameters; `None` is a cancelled prompt,
        which returns without a change. A wrong old password throws. */
    method ChangePassword(oldPassword: Option<string>, newPassword: Option<string>) returns (r: Result<()>)
      modifies this`password
      ensures oldPassword.Some? && oldPassword.value != old(password) ==>
                r == Err(AuthFailed) && password == old(password)
      ensures oldPassword.Some? && oldPassword.value == old(password) && newPassword.Some? ==>
                r == Ok(()) && password == newPassword.value
      ensures (oldPassword.None? || newPassword.None?) ==> password == old(password)
      ensures r == (if oldPassword.Some? && oldPassword.value != old(password) then Err(AuthFailed) else Ok(()))
    {
      if oldPassword.None? { return Ok(()); }
      if !VerifyPassword(oldPassword.value) { return Err(AuthFailed); }
      if newPassword.None? { return Ok(()); }
      password := newPassword.value;
      r := Ok(());
    }
  }

  /** One profile field after its prompt: a non-empty answer replaces it, a cancelled or
      empty one keeps it, so a field that was filled in is never blanked. */
  function Revise(current: string, answer: Option<string>): (r: string)
    ensures r == current || (answer.Some? && r == answer.value)
    ensures answer.Some? && answer.value != "" ==> r == answer.value
    ensures r == "" ==> current == ""
  {
    if answer.Some? && answer.value != "" then answer.value else current
  }

  /** Customer.validateUsername: a string of at least three characters. */
  function ValidateUsername(v: Value): (b: bool)
    ensures b <==> v.Str? && |v.s| >= 3
  {
    v.Str? && |v.s| >= 3
  }

  /** Customer.validatePassword: a string of at least four characters. */
  function ValidatePassword(v: Value): (b: bool)
    ensures b <==> v.Str? && |v.s| >= 4
  {
    v.Str? && |v.s| >= 4
  }
}
