/** The second, smaller user of the repository's top level: a name and a
    balance, with an account-opening operation that resets the balance. It is
    independent of the user in module Ledger. */
module Accounts {

  /** The value of such a user at one moment. */
  datatype Profile = Profile(name: string, balance: real)

  /** `createAccount`: takes the new name and forgets the old balance. */
  function Open(p: Profile, userName: string): (r: Profile)
    ensures r.name == userName && r.balance == 0.0
  {
    Profile(userName, 0.0)
  }

  /** `addBalance`: any amount, with no sign check. */
  function Deposit(p: Profile, amount: real): (r: Profile)
    ensures r.balance - p.balance == amount
    ensures r.name == p.name
  {
    p.(balance := p.balance + amount)
  }

  class User {
    var name: string
    var balance: real

    function Snapshot(): Profile
      reads this
    {
      Profile(name, balance)
    }

    /** The default user has an empty name and no money. */
    constructor ()
      ensures Snapshot() == Profile("", 0.0)
    {
      name, balance := "", 0.0;
    }

    method CreateAccount(userName: string)
      modifies this
      ensures Snapshot() == Open(old(Snapshot()), userName)
    {
      name := userName;
      balance := 0.0;
    }

    method AddBalance(amount: real)
      modifies this
      ensures Snapshot() == Deposit(old(Snapshot()), amount)
    {
      balance := balance + amount;
    }
  }

  /** Opening the same account twice is the same as opening it once. */
  lemma OpenIdempotent(p: Profile, userName: string)
    ensures Open(Open(p, userName), userName) == Open(p, userName)
  {
  }

  /** Opening an account discards whatever was there before, deposits included. */
  lemma OpenForgetsHistory(p: Profile, q: Profile, userName: string, amount: real)
    ensures Open(Deposit(p, amount), userName) == Open(q, userName)
  {
  }

  /** Two deposits amount to one deposit of their sum. */
  lemma DepositsAdd(p: Profile, x: real, y: real)
    ensures Deposit(Deposit(p, x), y) == Deposit(p, x + y)
  {
  }
}
