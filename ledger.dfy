/** The trading user: a name, a cash balance and the list of symbols bought,
    with a process-wide count of live users. */
module Ledger {

  /** The value of a user at one moment. `stocks` holds one entry per
      successful purchase, however many shares it was for. */
  datatype Account = Account(name: string, balance: real, stocks: seq<string>)

  /** The cash that `quantity` shares at `price` each are worth. */
  function Cost(quantity: int, price: real): real
  {
    quantity as real * price
  }

  /** The account after `buyStock`, and whether the purchase went through. */
  datatype Purchase = Purchase(account: Account, ok: bool)

  /** Adding to the balance: any amount, negative ones included. */
  function Deposit(a: Account, amount: real): (r: Account)
    ensures r.balance - a.balance == amount
    ensures r.name == a.name && r.stocks == a.stocks
  {
    a.(balance := a.balance + amount)
  }

  /** Buying is gated on funds only: it goes through exactly when the balance
      covers the cost, then pays the cost and records the symbol once. */
  function Buy(a: Account, symbol: string, quantity: int, price: real): (r: Purchase)
    ensures r.ok <==> Cost(quantity, price) <= a.balance
    ensures r.ok ==> r.account.balance == a.balance - Cost(quantity, price)
    ensures r.ok ==> r.account.stocks == a.stocks + [symbol]
    ensures !r.ok ==> r.account == a
    ensures r.account.name == a.name
  {
    var cost := Cost(quantity, price);
    if a.balance >= cost then
      Purchase(a.(balance := a.balance - cost, stocks := a.stocks + [symbol]), true)
    else
      Purchase(a, false)
  }

  /** Selling is unconditional: the proceeds are credited and the list of
      symbols is left alone, whether or not the symbol was ever bought. */
  function Sell(a: Account, symbol: string, quantity: int, price: real): (r: Account)
    ensures r.balance == a.balance + Cost(quantity, price)
    ensures r.name == a.name && r.stocks == a.stocks
  {
    a.(balance := a.balance + Cost(quantity, price))
  }

  /** The shared counter behind `User::totalUsers`. */
  class UserRegistry {
    var totalUsers: int

    constructor ()
      ensures totalUsers == 0
    {
      totalUsers := 0;
    }

    function GetTotalUsers(): (n: int)
      reads this
      ensures n == totalUsers
    {
      totalUsers
    }
  }

  class User {
    var name: string
    var balance: real
    var stocks: seq<string>
    const registry: UserRegistry

    /** The current value of this user. */
    function State(): Account
      reads this
    {
      Account(name, balance, stocks)
    }

    /** The default user is "Unknown" with nothing, and is counted. */
    constructor Default(registry: UserRegistry)
      modifies registry
      ensures State() == Account("Unknown", 0.0, [])
      ensures this.registry == registry
      ensures registry.totalUsers == old(registry.totalUsers) + 1
    {
      name, balance, stocks := "Unknown", 0.0, [];
      this.registry := registry;
      new;
      registry.totalUsers := registry.totalUsers + 1;
    }

    /** Stores the name and opening balance as given, and is counted. */
    constructor (userName: string, initialBalance: real, registry: UserRegistry)
      modifies registry
      ensures State() == Account(userName, initialBalance, [])
      ensures this.registry == registry
      ensures registry.totalUsers == old(registry.totalUsers) + 1
    {
      name, balance, stocks := userName, initialBalance, [];
      this.registry := registry;
      new;
      registry.totalUsers := registry.totalUsers + 1;
    }

    /** The destructor: the user is no longer counted. */
    method Destroy()
      modifies registry
      ensures registry.totalUsers == old(registry.totalUsers) - 1
    {
      registry.totalUsers := registry.totalUsers - 1;
    }

    method AddBalance(amount: real)
      modifies this
      ensures State() == Deposit(old(State()), amount)
    {
      balance := balance + amount;
    }

    method BuyStock(symbol: string, quantity: int, price: real) returns (ok: bool)
      modifies this
      ensures Purchase(State(), ok) == Buy(old(State()), symbol, quantity, price)
    {
      var totalCost := Cost(quantity, price);
      if balance >= totalCost {
        balance := balance - totalCost;
        stocks := stocks + [symbol];
        return true;
      }
      return false;
    }

    method SellStock(symbol: string, quantity: int, price: real) returns (ok: bool)
      modifies this
      ensures ok
      ensures State() == Sell(old(State()), symbol, quantity, price)
    {
      var totalAmount := Cost(quantity, price);
      balance := balance + totalAmount;
      return true;
    }

    function GetName(): (n: string)
      reads this
      ensures n == State().name
    {
      name
    }

    function GetBalance(): (b: real)
      reads this
      ensures b == State().balance
    {
      balance
    }
  }

  /** Creating a user and destroying it leaves the count of users as it was. */
  method CreateThenDestroy(registry: UserRegistry, userName: string, initialBalance: real)
    modifies registry
    ensures registry.totalUsers == old(registry.totalUsers)
  {
    var u := new User(userName, initialBalance, registry);
    u.Destroy();
  }

  /** A purchase never takes a solvent user below zero, even for a negative
      cost (which the funds check always lets through). */
  lemma BuyKeepsSolvency(a: Account, symbol: string, quantity: int, price: real)
    requires a.balance >= 0.0
    ensures Buy(a, symbol, quantity, price).account.balance >= 0.0
  {
  }

  /** For a solvent user, a purchase with a negative quantity and a positive
      price always goes through and credits the user. */
  lemma NegativeBuyCredits(a: Account, symbol: string, quantity: int, price: real)
    requires a.balance >= 0.0
    requires quantity < 0 && price > 0.0
    ensures Buy(a, symbol, quantity, price).ok
    ensures Buy(a, symbol, quantity, price).account.balance > a.balance
  {
    assert Cost(quantity, price) < 0.0;
  }

  /** Buying and then selling the same shares at the same price restores the
      balance; the symbol stays on the list, since selling never removes it. */
  lemma BuyThenSellRestoresBalance(a: Account, symbol: string, quantity: int, price: real)
    requires Buy(a, symbol, quantity, price).ok
    ensures Sell(Buy(a, symbol, quantity, price).account, symbol, quantity, price).balance == a.balance
    ensures Sell(Buy(a, symbol, quantity, price).account, symbol, quantity, price).stocks == a.stocks + [symbol]
  {
  }

  /** A failed purchase changes nothing, so repeating it changes nothing either. */
  lemma FailedBuyIsStable(a: Account, symbol: string, quantity: int, price: real)
    requires !Buy(a, symbol, quantity, price).ok
    ensures Buy(Buy(a, symbol, quantity, price).account, symbol, quantity, price) == Buy(a, symbol, quantity, price)
  {
  }
}
