/** Executing orders of either direction, one at a time or in a sequence
    against the same user and the same stock. */
module Trading {
  import opened Ledger
  import opened Stocks
  import opened Orders
  import BuyOrders
  import SellOrders

  datatype Side = Buying | Selling

  /** An order together with the subclass that executes it. */
  datatype Ticket = Ticket(side: Side, order: Order)

  /** `Order::execute`, dispatched on the direction. What both directions have
      in common: nothing happens unless the symbols match, a failed execution
      changes nothing, and the stock keeps its symbol and its price. */
  function Execute(t: Ticket, a: Account, s: Listing): (r: Outcome)
    ensures r.ok ==> t.order.symbol == s.symbol
    ensures !r.ok ==> r.account == a && r.listing == s
    ensures r.listing.symbol == s.symbol && r.listing.price == s.price
    ensures r.account.name == a.name
    ensures a.stocks <= r.account.stocks
    ensures forall i | |a.stocks| <= i < |r.account.stocks| :: r.account.stocks[i] == s.symbol
  {
    match t.side
    case Buying => BuyOrders.Apply(t.order, a, s)
    case Selling => SellOrders.Apply(t.order, a, s)
  }

  /** The user and the stock after a sequence of executions, and how many of
      them returned true. */
  datatype Session = Session(account: Account, listing: Listing, executed: nat)

  /** Executes the tickets in order against the same user and stock. Whatever
      the tickets, the user keeps its name, the list of symbols only grows,
      and only by the stock's symbol, and the stock keeps its symbol and price. */
  function Run(tickets: seq<Ticket>, a: Account, s: Listing): (r: Session)
    ensures r.executed <= |tickets|
    ensures r.account.name == a.name
    ensures r.listing.symbol == s.symbol && r.listing.price == s.price
    ensures a.stocks <= r.account.stocks
    ensures |r.account.stocks| - |a.stocks| <= r.executed
    ensures forall i | |a.stocks| <= i < |r.account.stocks| :: r.account.stocks[i] == s.symbol
    decreases |tickets|
  {
    if tickets == [] then Session(a, s, 0)
    else
      var step := Execute(tickets[0], a, s);
      var rest := Run(tickets[1..], step.account, step.listing);
      rest.(executed := rest.executed + if step.ok then 1 else 0)
  }

  /** No sell ticket has a negative quantity. */
  ghost predicate SellsNonNegative(tickets: seq<Ticket>)
  {
    forall i | 0 <= i < |tickets| :: tickets[i].side == Selling ==> tickets[i].order.quantity >= 0
  }

  /** No sell ticket has negative proceeds. */
  ghost predicate SellsPayNonNegative(tickets: seq<Ticket>)
  {
    forall i | 0 <= i < |tickets| :: tickets[i].side == Selling ==> tickets[i].order.Value() >= 0.0
  }

  /** No ticket names the given symbol. */
  ghost predicate NoneFor(tickets: seq<Ticket>, symbol: string)
  {
    forall i | 0 <= i < |tickets| :: tickets[i].order.symbol != symbol
  }

  /** The supply of a stock never falls below zero, as long as no sell order
      has a negative quantity: the buy gate protects it, the sell side does not. */
  lemma {:induction false} SupplyStaysNonNegative(tickets: seq<Ticket>, a: Account, s: Listing)
    requires s.available >= 0
    requires SellsNonNegative(tickets)
    ensures Run(tickets, a, s).listing.available >= 0
    decreases |tickets|
  {
    if tickets != [] {
      var step := Execute(tickets[0], a, s);
      assert SellsNonNegative(tickets[1..]) by {
        forall i | 0 <= i < |tickets[1..]| ensures tickets[1..][i] == tickets[i + 1] { }
      }
      assert step.listing.available >= 0 by {
        if tickets[0].side == Buying {
          BuyOrders.SupplyStaysNonNegative(tickets[0].order, a, s);
        }
      }
      SupplyStaysNonNegative(tickets[1..], step.account, step.listing);
    }
  }

  /** A user who starts solvent stays solvent, as long as no sell order has
      negative proceeds: purchases are gated on funds. */
  lemma {:induction false} BalanceStaysNonNegative(tickets: seq<Ticket>, a: Account, s: Listing)
    requires a.balance >= 0.0
    requires SellsPayNonNegative(tickets)
    ensures Run(tickets, a, s).account.balance >= 0.0
    decreases |tickets|
  {
    if tickets != [] {
      var step := Execute(tickets[0], a, s);
      assert SellsPayNonNegative(tickets[1..]) by {
        forall i | 0 <= i < |tickets[1..]| ensures tickets[1..][i] == tickets[i + 1] { }
      }
      assert step.account.balance >= 0.0 by {
        if tickets[0].side == Buying {
          var o := tickets[0].order;
          BuyKeepsSolvency(a, o.symbol, o.quantity, o.price);
        }
      }
      BalanceStaysNonNegative(tickets[1..], step.account, step.listing);
    }
  }

  /** Orders for another symbol are all refused and change nothing, however
      many there are and whatever their direction. */
  lemma {:induction false} ForeignOrdersChangeNothing(tickets: seq<Ticket>, a: Account, s: Listing)
    requires NoneFor(tickets, s.symbol)
    ensures Run(tickets, a, s) == Session(a, s, 0)
    decreases |tickets|
  {
    if tickets != [] {
      assert NoneFor(tickets[1..], s.symbol) by {
        forall i | 0 <= i < |tickets[1..]| ensures tickets[1..][i] == tickets[i + 1] { }
      }
      ForeignOrdersChangeNothing(tickets[1..], a, s);
    }
  }

  /** Repeating one refused order any number of times changes nothing. */
  lemma {:induction false} RepeatedRefusalChangesNothing(t: Ticket, n: nat, a: Account, s: Listing)
    requires !Execute(t, a, s).ok
    ensures Run(seq(n, _ => t), a, s) == Session(a, s, 0)
    decreases n
  {
    if n > 0 {
      var ts := seq(n, _ => t);
      assert ts[0] == t;
      assert ts[1..] == seq(n - 1, _ => t);
      RepeatedRefusalChangesNothing(t, n - 1, a, s);
    }
  }
}
