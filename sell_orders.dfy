/** A sell order. Executing it is gated only on the symbol: no holdings check
    on the user and no bound on the quantity. */
module SellOrders {
  import opened Ledger
  import opened Stocks
  import opened Orders

  /** `SellOrder::execute` on values. */
  function Apply(o: Order, a: Account, s: Listing): (r: Outcome)
    ensures r.ok <==> s.symbol == o.symbol
    ensures !r.ok ==> r.account == a && r.listing == s
    ensures r.ok ==> r.listing == s.(available := s.available + o.quantity)
    ensures r.ok ==> r.account == Sell(a, o.symbol, o.quantity, o.price)
  {
    if s.symbol == o.symbol then
      Outcome(Sell(a, o.symbol, o.quantity, o.price),
              s.(available := s.available + o.quantity), true)
    else
      Outcome(a, s, false)
  }

  class SellOrder {
    const order: Order
    var sellOrderCount: int

    constructor (sym: string, q: int, p: real)
      ensures order == Order(sym, q, p)
      ensures sellOrderCount == 0
    {
      order := Order(sym, q, p);
      sellOrderCount := 0;
    }

    /** Runs the order against `user` and `stock`; counts it when it went through. */
    method Execute(user: User, stock: Stock) returns (ok: bool)
      modifies this, user, stock
      ensures Outcome(user.State(), stock.Snapshot(), ok) == Apply(order, old(user.State()), old(stock.Snapshot()))
      ensures sellOrderCount == old(sellOrderCount) + (if ok then 1 else 0)
    {
      if stock.symbol == order.symbol {
        var _ := user.SellStock(order.symbol, order.quantity, order.price);
        stock.available := stock.available + order.quantity;
        sellOrderCount := sellOrderCount + 1;
        return true;
      }
      return false;
    }
  }

  /** A matching sell order goes through for a user who never bought the
      symbol, and credits the proceeds all the same. */
  lemma SellWithoutHoldings(o: Order, a: Account, s: Listing)
    requires s.symbol == o.symbol && o.symbol !in a.stocks
    ensures Apply(o, a, s).ok
    ensures Apply(o, a, s).account.balance == a.balance + o.Value()
  {
  }

  /** A sell order with a negative quantity can drive the supply below zero. */
  lemma NegativeSellDrainsSupply()
    ensures Apply(Order("AAPL", -3, 10.0), Account("Ann", 0.0, []), Listing("AAPL", 10.0, 2)).listing.available == -1
  {
  }

  /** When the order executes, the market capitalisation rises by the order's
      quantity valued at the stock's own price. */
  lemma SellRaisesMarketCap(o: Order, a: Account, s: Listing)
    requires Apply(o, a, s).ok
    ensures Apply(o, a, s).listing.MarketCap() == s.MarketCap() + s.price * o.quantity as real
  {
    MarketCapShift(s, o.quantity);
  }
}
